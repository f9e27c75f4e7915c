/** RequestQueue, CacheDispatcher, NetworkDispatcher and ExecutorDelivery as steps of
    interleaved threads, one shared-state action of the code at a time. */
module Volley {
  type Id = nat
  type Key = string

  // ----- the state -----

  datatype Request = Request(key: Key, shouldCache: bool, canceled: bool, delivered: bool)

  datatype Origin = CacheHit | SoftHit | Network(notModified: bool) | Failure
  datatype Response = Response(origin: Origin, success: bool, intermediate: bool)

  /** A ResponseDeliveryRunnable; forwards when it was given the runnable that queues for the network. */
  datatype Delivery = Delivery(request: Id, response: Response, forwards: bool)

  datatype Thread = Cache | Net(n: nat) | Poster(m: nat)

  /** Where in its loop a thread is that holds a request. */
  datatype Stage =
    | CacheTaken | CacheLooking | CacheParsing(soft: bool) | CachePosting(response: Response)
    | NetTaken | NetPerforming | NetAnswered(notModified: bool) | NetParsing(notModified: bool)
    | NetWriting(response: Response) | NetPosting(response: Response) | NetRejected | NetFailing
    | Running(response: Response, forwards: bool) | Calling(response: Response, forwards: bool)
    | Returned(response: Response, forwards: bool) | Forwarding

  datatype Pc = Idle | Stopped | Busy(request: Id, stage: Stage)

  datatype Why = CacheDiscard | NetDiscard | NotModified | AtDelivery | Done
  /** Called is deliverResponse for a response with success, else deliverError. */
  datatype Event = Called(response: Response) | Finished(why: Why) | Dropped

  datatype Place = Staged | InCache | InNet | Posted(response: Response, forwards: bool) | Held(t: Thread, stage: Stage) | Ended | Gone

  /** What has happened to a request; no step reads it. */
  datatype History = History(place: Place, log: seq<Event>)

  datatype State = State(
    requests: map<Id, Request>,
    current: set<Id>,
    waiting: map<Key, multiset<Id>>,
    cacheQueue: multiset<Id>,
    netQueue: multiset<Id>,
    deliveries: multiset<Delivery>,
    threads: map<Thread, Pc>,
    past: map<Id, History>)

  /** What the outside decides: the cache's entry, the server's answer, the parser's result, a fault. */
  datatype Entry = Missing | Expired | SoftExpired | Fresh

  /** Refused stands for the fault with its own handling at a stage: a VolleyError from the network,
      a null response at the delivery, an interrupted put. Thrown is any other exception, Died an
      error that no handler for exceptions catches. */
  datatype Fault = Fine | Refused | Thrown | Died
  datatype Choice = Choice(entry: Entry, notModified: bool, success: bool, fault: Fault)

  datatype Step =
    | Add(request: Id, key: Key, shouldCache: bool, canceled: bool)
    | Cancel(request: Id)
    | TakeCached(request: Id)
    | TakeNet(n: nat, request: Id)
    | TakePosted(m: nat, delivery: Delivery)
    | Go(t: Thread, choice: Choice)
    | Interrupt(t: Thread, quit: bool)

  function PlaceOf(s: State, r: Id): Place
  {
    if r in s.past then s.past[r].place else Gone
  }

  predicate StagedUnder(s: State, r: Id, k: Key)
  {
    PlaceOf(s, r) == Staged && r in s.requests && s.requests[r].key == k
  }

  // ----- what the steps are made of -----

  function Seen(s: State, r: Id, p: Place): State
  {
    if r in s.past then s.(past := s.past[r := s.past[r].(place := p)]) else s
  }

  function Noted(s: State, r: Id, e: Event): State
  {
    if r in s.past then s.(past := s.past[r := s.past[r].(log := s.past[r].log + [e])]) else s
  }

  function Marked(s: State, r: Id): State
  {
    if r in s.requests then s.(requests := s.requests[r := s.requests[r].(delivered := true)]) else s
  }

  function Goto(s: State, t: Thread, r: Id, stage: Stage): State
  {
    Seen(s.(threads := s.threads[t := Busy(r, stage)]), r, Held(t, stage))
  }

  function PutNet(s: State, t: Thread, r: Id): State
  {
    Seen(s.(threads := s.threads[t := Idle], netQueue := s.netQueue + multiset{r}), r, InNet)
  }

  function Post(s: State, t: Thread, r: Id, response: Response, forwards: bool): State
  {
    Seen(s.(threads := s.threads[t := Idle], deliveries := s.deliveries + multiset{Delivery(r, response, forwards)}),
         r, Posted(response, forwards))
  }

  /** The request falls out of the pipeline. */
  function Drop(s: State, t: Thread, r: Id, pc: Pc): State
  {
    Noted(Seen(s.(threads := s.threads[t := pc]), r, Gone), r, Dropped)
  }

  /** Request.finish through RequestQueue.finish: the requests staged under its key are released. */
  function Finish(s: State, t: Thread, r: Id, why: Why): State
    requires r in s.requests
  {
    var ended := Ending(s, t, r, why);
    if s.requests[r].shouldCache then Release(ended, s.requests[r].key) else ended
  }

  function Ending(s: State, t: Thread, r: Id, why: Why): State
  {
    Noted(Seen(s.(threads := s.threads[t := Idle], current := s.current - {r}), r, Ended), r, Finished(why))
  }

  function Release(s: State, k: Key): State
  {
    if k in s.waiting then s.(
        waiting := s.waiting - {k},
        cacheQueue := s.cacheQueue + s.waiting[k],
        past := map x | x in s.past :: if StagedUnder(s, x, k) then s.past[x].(place := InCache) else s.past[x])
    else s
  }

  // ----- the steps -----

  /** Where a loop goes on that catches exceptions: an error ends its thread. */
  function Caught(fault: Fault): Pc
  {
    if fault == Died then Stopped else Idle
  }

  /** The next action of a thread that holds r. */
  function Act(s: State, t: Thread, r: Id, stage: Stage, c: Choice): State
    requires r in s.requests
  {
    var fails := c.fault != Fine;
    match stage
    case CacheTaken => if s.requests[r].canceled then Finish(s, t, r, CacheDiscard) else Goto(s, t, r, CacheLooking)
    case CacheLooking =>
      if fails then Drop(s, t, r, Caught(c.fault))
      else if c.entry == Missing || c.entry == Expired then PutNet(s, t, r)
      else Goto(s, t, r, CacheParsing(c.entry == SoftExpired))
    case CacheParsing(soft) =>
      if fails then Drop(s, t, r, Caught(c.fault))
      else Goto(s, t, r, CachePosting(Response(if soft then SoftHit else CacheHit, c.success, soft)))
    case CachePosting(response) =>
      if fails then Drop(Marked(s, r), t, r, Caught(c.fault)) else Post(Marked(s, r), t, r, response, response.intermediate)
    case NetTaken => if s.requests[r].canceled then Finish(s, t, r, NetDiscard) else Goto(s, t, r, NetPerforming)
    case NetPerforming =>
      (match c.fault
       case Refused => Goto(s, t, r, NetRejected)
       case Thrown => Goto(s, t, r, NetFailing)
       case Died => Drop(s, t, r, Stopped)
       case Fine => Goto(s, t, r, NetAnswered(c.notModified)))
    case NetAnswered(notModified) =>
      if notModified && s.requests[r].delivered then Finish(s, t, r, NotModified) else Goto(s, t, r, NetParsing(notModified))
    case NetParsing(notModified) =>
      if c.fault == Died then Drop(s, t, r, Stopped)
      else if fails then Goto(s, t, r, NetFailing)
      else Goto(s, t, r, NetWriting(Response(Network(notModified), c.success, false)))
    case NetWriting(response) =>
      if c.fault == Died then Drop(s, t, r, Stopped)
      else if fails then Goto(s, t, r, NetFailing) else Goto(s, t, r, NetPosting(response))
    case NetPosting(response) =>
      if c.fault == Died then Drop(Marked(s, r), t, r, Stopped)
      else if fails then Goto(Marked(s, r), t, r, NetFailing) else Post(Marked(s, r), t, r, response, false)
    case NetRejected => if fails then Drop(s, t, r, Stopped) else Goto(s, t, r, NetFailing)
    case NetFailing => if fails then Drop(s, t, r, Stopped) else Post(s, t, r, Response(Failure, false, false), false)
    case Running(response, forwards) =>
      if s.requests[r].canceled then Finish(s, t, r, AtDelivery) else Goto(s, t, r, Calling(response, forwards))
    case Calling(response, forwards) =>
      var called := Noted(s, r, Called(response));
      if c.fault == Refused then Drop(s, t, r, Stopped)
      else if fails then Drop(called, t, r, Stopped) else Goto(called, t, r, Returned(response, forwards))
    case Returned(response, forwards) =>
      var done := if response.intermediate then s else Finish(s, t, r, Done);
      if forwards then Goto(done, t, r, Forwarding) else done.(threads := done.threads[t := Idle])
    case Forwarding => if fails then Drop(s, t, r, if c.fault == Refused then Idle else Stopped) else PutNet(s, t, r)
  }

  function Added(s: State, r: Id, q: Request): State
  {
    var in_ := s.(requests := s.requests[r := q], current := s.current + {r});
    if !q.shouldCache then
      in_.(netQueue := s.netQueue + multiset{r}, past := s.past[r := History(InNet, [])])
    else if q.key in s.waiting then
      in_.(waiting := s.waiting[q.key := s.waiting[q.key] + multiset{r}], past := s.past[r := History(Staged, [])])
    else
      in_.(waiting := s.waiting[q.key := multiset{}], cacheQueue := s.cacheQueue + multiset{r},
           past := s.past[r := History(InCache, [])])
  }

  /** One step; a step that cannot be taken changes nothing. A request is added once. */
  function Next(s: State, step: Step): State
  {
    match step
    case Add(r, key, shouldCache, canceled) =>
      if r in s.requests then s else Added(s, r, Request(key, shouldCache, canceled, false))
    case Cancel(r) =>
      if r in s.requests then s.(requests := s.requests[r := s.requests[r].(canceled := true)]) else s
    case TakeCached(r) =>
      if Free(s, Cache) && r in s.cacheQueue
      then Goto(s.(cacheQueue := s.cacheQueue - multiset{r}), Cache, r, CacheTaken) else s
    case TakeNet(n, r) =>
      if Free(s, Net(n)) && r in s.netQueue
      then Goto(s.(netQueue := s.netQueue - multiset{r}), Net(n), r, NetTaken) else s
    case TakePosted(m, d) =>
      if Free(s, Poster(m)) && d in s.deliveries
      then Goto(s.(deliveries := s.deliveries - multiset{d}), Poster(m), d.request, Running(d.response, d.forwards)) else s
    case Go(t, c) =>
      if t in s.threads && s.threads[t].Busy? && s.threads[t].request in s.requests
      then Act(s, t, s.threads[t].request, s.threads[t].stage, c) else s
    case Interrupt(t, quit) =>
      // the cache dispatcher's handler dereferences a null request, so its thread ends either way
      if Free(s, t) && !t.Poster? && (quit || t == Cache) then s.(threads := s.threads[t := Stopped]) else s
  }

  predicate Free(s: State, t: Thread)
  {
    t in s.threads && s.threads[t] == Idle
  }

  function Start(nets: nat, posters: nat): State
  {
    var all := {Cache} + (set n | 0 <= n < nets :: Net(n)) + (set m | 0 <= m < posters :: Poster(m));
    State(map[], {}, map[], multiset{}, multiset{}, multiset{}, map t | t in all :: Idle, map[])
  }

  function Run(s: State, steps: seq<Step>): State
    decreases |steps|
  {
    if steps == [] then s else Run(Next(s, steps[0]), steps[1..])
  }
}
