/** What every step of the request pipeline keeps. */
module VolleyInvariant {
  import opened Volley

  // ----- the invariant -----

  predicate Opening(log: seq<Event>, q: Request)
  {
    log == [] || (|log| == 1 && log[0].Called? && log[0].response.intermediate && q.delivered)
  }

  /** Before the network's answer is known, a request counts as delivered exactly when it had its callback. */
  predicate Honest(log: seq<Event>, q: Request)
  {
    Opening(log, q) && (q.delivered <==> log != [])
  }

  /** response may be the next callback after log. */
  predicate May(log: seq<Event>, q: Request, response: Response, forwards: bool)
  {
    && forwards == response.intermediate == (response.origin == SoftHit)
    && (response.intermediate ==> q.delivered)
    && Opening(log, q)
    && (response.origin in {SoftHit, CacheHit, Network(true)} ==> log == [])
  }

  function Body(log: seq<Event>): seq<Event>
  {
    if log == [] then [] else log[..|log| - 1]
  }

  predicate LastCalled(log: seq<Event>, q: Request)
  {
    log != [] && log[|log| - 1].Called? && var last := log[|log| - 1].response; May(Body(log), q, last, last.intermediate)
  }

  /** Why a request may finish with the given events before. */
  predicate Explains(why: Why, body: seq<Event>, q: Request)
  {
    match why
    case CacheDiscard => q.canceled && body == []
    case NetDiscard => q.canceled && Opening(body, q)
    case AtDelivery => q.canceled && Opening(body, q)
    case NotModified => Opening(body, q) && body != []
    case Done => LastCalled(body, q) && !body[|body| - 1].response.intermediate
  }

  predicate FitsHeld(stage: Stage, log: seq<Event>, q: Request)
  {
    match stage
    case CacheTaken => log == [] && !q.delivered
    case CacheLooking => log == [] && !q.delivered
    case CacheParsing(_) => log == [] && !q.delivered
    case CachePosting(response) =>
      log == [] && !q.delivered && response.origin in {CacheHit, SoftHit} && response.intermediate == (response.origin == SoftHit)
    case NetTaken => Honest(log, q)
    case NetPerforming => Honest(log, q)
    case NetAnswered(_) => Honest(log, q)
    case NetParsing(notModified) => Honest(log, q) && (notModified ==> log == [])
    case NetWriting(response) =>
      Honest(log, q) && response.origin.Network? && !response.intermediate && (response.origin.notModified ==> log == [])
    case NetPosting(response) =>
      Honest(log, q) && response.origin.Network? && !response.intermediate && (response.origin.notModified ==> log == [])
    case NetRejected => Honest(log, q)
    case NetFailing => Opening(log, q)
    case Running(response, forwards) => May(log, q, response, forwards)
    case Calling(response, forwards) => May(log, q, response, forwards)
    case Returned(response, forwards) =>
      LastCalled(log, q) && log[|log| - 1].response == response && forwards == response.intermediate
    case Forwarding => Honest(log, q) && log != []
  }

  /** What a request's place says about its past. */
  predicate Fits(h: History, q: Request)
  {
    match h.place
    case Staged => h.log == [] && !q.delivered
    case InCache => h.log == [] && !q.delivered
    case InNet => Honest(h.log, q)
    case Posted(response, forwards) => May(h.log, q, response, forwards)
    case Held(_, stage) => FitsHeld(stage, h.log, q)
    case Ended =>
      h.log != [] && h.log[|h.log| - 1].Finished? && Explains(h.log[|h.log| - 1].why, Body(h.log), q)
    case Gone =>
      h.log != [] && h.log[|h.log| - 1] == Dropped && (Opening(Body(h.log), q) || LastCalled(Body(h.log), q))
  }

  predicate Fitting(s: State)
  {
    forall r | r in s.past && r in s.requests :: Fits(s.past[r], s.requests[r])
  }

  function One(b: bool): nat
  {
    if b then 1 else 0
  }

  ghost predicate Queues(s: State)
  {
    && (forall r :: s.cacheQueue[r] == One(PlaceOf(s, r) == InCache))
    && (forall r :: s.netQueue[r] == One(PlaceOf(s, r) == InNet))
    && (forall d :: s.deliveries[d] == One(PlaceOf(s, d.request) == Posted(d.response, d.forwards)))
  }

  ghost predicate Holders(s: State)
  {
    && (forall t | t in s.threads && s.threads[t].Busy? :: PlaceOf(s, s.threads[t].request) == Held(t, s.threads[t].stage))
    && (forall r | PlaceOf(s, r).Held? ::
          var p := PlaceOf(s, r); p.t in s.threads && s.threads[p.t] == Busy(r, p.stage))
  }

  ghost predicate Waiters(s: State)
  {
    && (forall k, r | k in s.waiting :: s.waiting[k][r] == One(StagedUnder(s, r, k)))
    && (forall r | r in s.requests && PlaceOf(s, r) == Staged :: s.requests[r].key in s.waiting && s.requests[r].shouldCache)
  }

  /** r holds the requests under key k back: cacheable, not finished and not itself staged. */
  predicate Leads(s: State, r: Id, k: Key)
  {
    r in s.requests && s.requests[r].key == k && s.requests[r].shouldCache && PlaceOf(s, r) != Staged && PlaceOf(s, r) != Ended
  }

  ghost predicate Leaders(s: State)
  {
    forall k | k in s.waiting :: exists r :: Leads(s, r, k)
  }

  predicate Members(s: State)
  {
    && s.past.Keys == s.requests.Keys
    && s.current == set r | r in s.past && s.past[r].place != Ended
  }

  ghost predicate Shape(s: State)
  {
    Queues(s) && Holders(s) && Waiters(s) && Leaders(s) && Members(s)
  }

  predicate Has(s: State, t: Thread, r: Id)
  {
    t in s.threads && s.threads[t].Busy? && s.threads[t].request == r && r in s.requests
  }

  // ----- moving one request keeps the shape -----

  ghost predicate Placed(s: State, s': State, r: Id, p: Place)
  {
    forall x :: PlaceOf(s', x) == if x == r then p else PlaceOf(s, x)
  }

  /** r leaves the queue it is in and enters the one that p names. */
  ghost predicate Queued(s: State, s': State, r: Id, p: Place)
  {
    var was := PlaceOf(s, r);
    && (forall x :: s'.cacheQueue[x] == s.cacheQueue[x] - One(x == r && was == InCache) + One(x == r && p == InCache))
    && (forall x :: s'.netQueue[x] == s.netQueue[x] - One(x == r && was == InNet) + One(x == r && p == InNet))
    && (forall d :: s'.deliveries[d] == s.deliveries[d]
          - One(d.request == r && was == Posted(d.response, d.forwards)) + One(d.request == r && p == Posted(d.response, d.forwards)))
  }

  predicate SameKinds(s: State, s': State)
  {
    && s'.requests.Keys == s.requests.Keys
    && forall x | x in s.requests :: s'.requests[x].key == s.requests[x].key && s'.requests[x].shouldCache == s.requests[x].shouldCache
  }

  lemma QueuesMove(s: State, s': State, r: Id, p: Place)
    requires Queues(s) && Placed(s, s', r, p) && Queued(s, s', r, p)
    ensures Queues(s')
  {
    hide PlaceOf;
  }

  lemma HoldersMove(s: State, s': State, t: Thread, pc: Pc, r: Id, p: Place)
    requires Holders(s) && Placed(s, s', r, p) && t in s.threads && s'.threads == s.threads[t := pc]
    requires s.threads[t].Busy? ==> s.threads[t].request == r
    requires PlaceOf(s, r).Held? ==> PlaceOf(s, r).t == t
    requires if p.Held? then p.t == t && pc == Busy(r, p.stage) else !pc.Busy?
    ensures Holders(s')
  {
    hide PlaceOf;
  }

  lemma WaitersMove(s: State, s': State, r: Id, p: Place)
    requires Waiters(s) && Placed(s, s', r, p) && SameKinds(s, s') && s'.waiting == s.waiting
    requires p != Staged && PlaceOf(s, r) != Staged
    ensures Waiters(s')
  {
    hide PlaceOf;
    assert forall x, k :: StagedUnder(s', x, k) == StagedUnder(s, x, k);
  }

  lemma LeadersStay(s: State, s': State)
    requires Leaders(s) && s'.waiting.Keys <= s.waiting.Keys
    requires forall r, k | k in s'.waiting && Leads(s, r, k) :: Leads(s', r, k)
    ensures Leaders(s')
  {
    hide Leads;
    forall k | k in s'.waiting
      ensures exists r :: Leads(s', r, k)
    {
      assert k in s.waiting;
      var r :| Leads(s, r, k);
      assert Leads(s', r, k);
    }
  }

  lemma LeadersMove(s: State, s': State, r: Id, p: Place)
    requires Leaders(s) && Placed(s, s', r, p) && SameKinds(s, s') && s'.waiting == s.waiting
    requires p != Staged && p != Ended
    ensures Leaders(s')
  {
    hide PlaceOf;
    assert forall x, k | Leads(s, x, k) :: Leads(s', x, k);
    LeadersStay(s, s');
  }

  lemma MembersMove(s: State, s': State, r: Id, p: Place)
    requires Members(s) && Placed(s, s', r, p) && SameKinds(s, s') && s'.past.Keys == s.past.Keys
    requires r in s.past && PlaceOf(s, r) != Ended && s'.current == if p == Ended then s.current - {r} else s.current
    ensures Members(s')
  {
    forall x | x in s.past
      ensures x in s'.current <==> s'.past[x].place != Ended
    {
      assert PlaceOf(s', x) == s'.past[x].place;
    }
  }

  /** s' is s with r moved to p, other than Staged, by a thread t that goes on at pc. */
  ghost predicate Moves(s: State, s': State, t: Thread, pc: Pc, r: Id, p: Place)
  {
    && Placed(s, s', r, p) && Queued(s, s', r, p) && SameKinds(s, s')
    && s'.waiting == s.waiting && s'.past.Keys == s.past.Keys && r in s.past
    && s'.current == (if p == Ended then s.current - {r} else s.current)
    && t in s.threads && s'.threads == s.threads[t := pc]
    && (if p.Held? then p.t == t && pc == Busy(r, p.stage) else !pc.Busy?)
    && p != Staged && PlaceOf(s, r) != Staged && PlaceOf(s, r) != Ended
    && (s.threads[t].Busy? ==> s.threads[t].request == r)
    && (PlaceOf(s, r).Held? ==> PlaceOf(s, r).t == t)
  }

  lemma MovesKeeps(s: State, s': State, t: Thread, pc: Pc, r: Id, p: Place)
    requires Shape(s) && Moves(s, s', t, pc, r, p) && p != Ended
    ensures Shape(s')
  {
    hide Queues, Holders, Waiters, Leaders, Members, Placed, Queued, SameKinds, PlaceOf;
    QueuesMove(s, s', r, p);
    HoldersMove(s, s', t, pc, r, p);
    WaitersMove(s, s', r, p);
    LeadersMove(s, s', r, p);
    MembersMove(s, s', r, p);
  }

  predicate HeldBy(s: State, t: Thread, r: Id)
  {
    r in s.past && PlaceOf(s, r).Held? && PlaceOf(s, r).t == t && Has(s, t, r)
  }

  lemma PutMoves(s: State, t: Thread, r: Id)
    requires HeldBy(s, t, r)
    ensures Moves(s, PutNet(s, t, r), t, Idle, r, InNet)
  {
  }

  lemma GotoMoves(s: State, t: Thread, r: Id, stage: Stage)
    requires HeldBy(s, t, r)
    ensures Moves(s, Goto(s, t, r, stage), t, Busy(r, stage), r, Held(t, stage))
  {
  }

  lemma PostMoves(s: State, t: Thread, r: Id, response: Response, forwards: bool)
    requires HeldBy(s, t, r)
    ensures Moves(s, Post(s, t, r, response, forwards), t, Idle, r, Posted(response, forwards))
  {
    var d0 := Delivery(r, response, forwards);
    assert forall d :: multiset{d0}[d] == One(d == d0);
  }

  lemma DropMoves(s: State, t: Thread, r: Id, pc: Pc)
    requires HeldBy(s, t, r) && !pc.Busy?
    ensures Moves(s, Drop(s, t, r, pc), t, pc, r, Gone)
  {
  }

  // ----- what marks and notes leave alone -----

  predicate Alike(s: State, s': State)
  {
    && s'.cacheQueue == s.cacheQueue && s'.netQueue == s.netQueue && s'.deliveries == s.deliveries
    && s'.threads == s.threads && s'.waiting == s.waiting && s'.current == s.current
    && SameKinds(s, s') && s'.past.Keys == s.past.Keys
    && forall x | x in s.past :: s'.past[x].place == s.past[x].place
  }

  lemma AlikeKeeps(s: State, s': State)
    requires Shape(s) && Alike(s, s')
    ensures Shape(s')
  {
    SamePlaces(s, s');
    LeadsAlike(s, s');
    hide PlaceOf, Leaders, Queues, Holders, Waiters;
    QueuesAlike(s, s');
    HoldersAlike(s, s');
    WaitersAlike(s, s');
    LeadersStay(s, s');
  }

  lemma LeadsAlike(s: State, s': State)
    requires Alike(s, s')
    ensures forall x, k | Leads(s, x, k) :: Leads(s', x, k)
  {
  }

  lemma SamePlaces(s: State, s': State)
    requires Alike(s, s')
    ensures forall x :: PlaceOf(s', x) == PlaceOf(s, x)
  {
  }

  lemma QueuesAlike(s: State, s': State)
    requires Queues(s) && s'.cacheQueue == s.cacheQueue && s'.netQueue == s.netQueue && s'.deliveries == s.deliveries
    requires forall x :: PlaceOf(s', x) == PlaceOf(s, x)
    ensures Queues(s')
  {
    hide PlaceOf;
  }

  lemma HoldersAlike(s: State, s': State)
    requires Holders(s) && s'.threads == s.threads
    requires forall x :: PlaceOf(s', x) == PlaceOf(s, x)
    ensures Holders(s')
  {
    hide PlaceOf;
  }

  lemma WaitersAlike(s: State, s': State)
    requires Waiters(s) && s'.waiting == s.waiting && SameKinds(s, s')
    requires forall x :: PlaceOf(s', x) == PlaceOf(s, x)
    ensures Waiters(s')
  {
    hide PlaceOf;
    assert forall x, k :: StagedUnder(s', x, k) == StagedUnder(s, x, k);
  }

  /** Everything is in order, but r, which t holds, may be between two places' promises. */
  ghost predicate Open(s: State, t: Thread, r: Id)
  {
    Shape(s) && HeldBy(s, t, r) && FittingBut(s, r)
  }

  predicate FittingBut(s: State, r: Id)
  {
    forall x | x in s.past && x in s.requests && x != r :: Fits(s.past[x], s.requests[x])
  }

  ghost predicate Inv(s: State)
  {
    Shape(s) && Fitting(s)
  }

  lemma InvOpens(s: State, t: Thread, r: Id)
    requires Inv(s) && Has(s, t, r)
    ensures Open(s, t, r) && r in s.past && s.past[r].place == Held(t, s.threads[t].stage)
    ensures FitsHeld(s.threads[t].stage, s.past[r].log, s.requests[r])
  {
    hide Queues, Waiters, Leaders, FitsHeld;
  }

  predicate OthersSame(s: State, s': State, r: Id)
  {
    && s'.past.Keys == s.past.Keys
    && forall x | x in s.past && x in s'.requests && x != r :: x in s.requests && s'.past[x] == s.past[x] && s'.requests[x] == s.requests[x]
  }

  lemma FittingStays(s: State, s': State, r: Id)
    requires FittingBut(s, r) && OthersSame(s, s', r)
    requires r in s'.past && r in s'.requests ==> Fits(s'.past[r], s'.requests[r])
    ensures Fitting(s')
  {
    hide Fits;
  }

  lemma MarkedOpen(s: State, t: Thread, r: Id)
    requires Open(s, t, r)
    ensures Open(Marked(s, r), t, r)
  {
    hide Shape, Fits;
    AlikeKeeps(s, Marked(s, r));
  }

  lemma NotedOpen(s: State, t: Thread, r: Id, e: Event)
    requires Open(s, t, r)
    ensures Open(Noted(s, r, e), t, r)
  {
    hide Shape, Fits;
    AlikeKeeps(s, Noted(s, r, e));
  }

  // ----- the primitives keep the invariant -----

  lemma GotoKeeps(s: State, t: Thread, r: Id, stage: Stage)
    requires Open(s, t, r) && FitsHeld(stage, s.past[r].log, s.requests[r])
    ensures Inv(Goto(s, t, r, stage))
  {
    hide Shape, FitsHeld, Moves, FittingBut;
    GotoMoves(s, t, r, stage);
    MovesKeeps(s, Goto(s, t, r, stage), t, Busy(r, stage), r, Held(t, stage));
    FittingStays(s, Goto(s, t, r, stage), r);
  }

  lemma PutKeeps(s: State, t: Thread, r: Id)
    requires Open(s, t, r) && Honest(s.past[r].log, s.requests[r])
    ensures Inv(PutNet(s, t, r))
  {
    hide Shape, Honest, Moves, FittingBut;
    PutMoves(s, t, r);
    MovesKeeps(s, PutNet(s, t, r), t, Idle, r, InNet);
    FittingStays(s, PutNet(s, t, r), r);
  }

  lemma PostKeeps(s: State, t: Thread, r: Id, response: Response, forwards: bool)
    requires Open(s, t, r) && May(s.past[r].log, s.requests[r], response, forwards)
    ensures Inv(Post(s, t, r, response, forwards))
  {
    hide Shape, May, Moves, FittingBut;
    PostMoves(s, t, r, response, forwards);
    MovesKeeps(s, Post(s, t, r, response, forwards), t, Idle, r, Posted(response, forwards));
    FittingStays(s, Post(s, t, r, response, forwards), r);
  }

  lemma DropKeeps(s: State, t: Thread, r: Id, pc: Pc)
    requires Open(s, t, r) && !pc.Busy? && (Opening(s.past[r].log, s.requests[r]) || LastCalled(s.past[r].log, s.requests[r]))
    ensures Inv(Drop(s, t, r, pc))
  {
    hide Shape, Opening, LastCalled, Moves, FittingBut;
    DropMoves(s, t, r, pc);
    MovesKeeps(s, Drop(s, t, r, pc), t, pc, r, Gone);
    assert Body(s.past[r].log + [Dropped]) == s.past[r].log;
    FittingStays(s, Drop(s, t, r, pc), r);
  }

  // ----- finishing -----

  ghost predicate LeadersBut(s: State, k: Key)
  {
    forall k' | k' in s.waiting && k' != k :: exists r :: Leads(s, r, k')
  }

  ghost predicate Released(s: State, s': State, k: Key)
  {
    && k in s.waiting && s'.waiting == s.waiting - {k}
    && s'.cacheQueue == s.cacheQueue + s.waiting[k]
    && s'.netQueue == s.netQueue && s'.deliveries == s.deliveries && s'.threads == s.threads && s'.current == s.current
    && s'.requests == s.requests && s'.past.Keys == s.past.Keys
    && forall x :: PlaceOf(s', x) == if StagedUnder(s, x, k) then InCache else PlaceOf(s, x)
  }

  lemma ReleaseIs(s: State, k: Key)
    requires k in s.waiting
    ensures Released(s, Release(s, k), k)
  {
  }

  lemma QueuesReleased(s: State, s': State, k: Key)
    requires Queues(s) && Waiters(s) && Released(s, s', k)
    ensures Queues(s')
  {
    hide PlaceOf;
  }

  lemma HoldersReleased(s: State, s': State, k: Key)
    requires Holders(s) && Released(s, s', k)
    ensures Holders(s')
  {
    hide PlaceOf;
  }

  lemma WaitersReleased(s: State, s': State, k: Key)
    requires Waiters(s) && Released(s, s', k)
    ensures Waiters(s')
  {
    hide PlaceOf;
    assert forall x, k' | k' != k :: StagedUnder(s', x, k') == StagedUnder(s, x, k');
  }

  lemma LeadersReleased(s: State, s': State, k: Key)
    requires LeadersBut(s, k) && Released(s, s', k)
    ensures Leaders(s')
  {
    hide PlaceOf;
    forall k' | k' in s'.waiting
      ensures exists r :: Leads(s', r, k')
    {
      var r :| Leads(s, r, k');
      assert Leads(s', r, k');
    }
  }

  lemma MembersReleased(s: State, s': State, k: Key)
    requires Members(s) && Released(s, s', k)
    ensures Members(s')
  {
    forall x | x in s.past
      ensures x in s'.current <==> s'.past[x].place != Ended
    {
      assert PlaceOf(s', x) == s'.past[x].place;
    }
  }

  lemma ReleaseKeeps(s: State, k: Key)
    requires Queues(s) && Holders(s) && Waiters(s) && LeadersBut(s, k) && Members(s)
    ensures Shape(Release(s, k))
  {
    hide Queues, Holders, Waiters, Members, Released, Release;
    if k in s.waiting {
      ReleaseIs(s, k);
      QueuesReleased(s, Release(s, k), k);
      HoldersReleased(s, Release(s, k), k);
      WaitersReleased(s, Release(s, k), k);
      LeadersReleased(s, Release(s, k), k);
      MembersReleased(s, Release(s, k), k);
    } else {
      NothingToRelease(s, k);
    }
  }

  lemma NothingToRelease(s: State, k: Key)
    requires k !in s.waiting && LeadersBut(s, k)
    ensures Release(s, k) == s && Leaders(s)
  {
  }

  lemma EndingMoves(s: State, t: Thread, r: Id, why: Why)
    requires HeldBy(s, t, r)
    ensures Moves(s, Ending(s, t, r, why), t, Idle, r, Ended)
  {
  }

  lemma LeadersEnding(s: State, s': State, r: Id)
    requires Leaders(s) && Placed(s, s', r, Ended) && SameKinds(s, s') && s'.waiting == s.waiting && r in s.requests
    ensures if s.requests[r].shouldCache then LeadersBut(s', s.requests[r].key) else Leaders(s')
  {
    hide PlaceOf;
    forall k | k in s'.waiting && !(s.requests[r].shouldCache && k == s.requests[r].key)
      ensures exists x :: Leads(s', x, k)
    {
      var x :| Leads(s, x, k);
      assert Leads(s', x, k);
    }
  }

  lemma FinishShape(s: State, t: Thread, r: Id, why: Why)
    requires Shape(s) && HeldBy(s, t, r)
    ensures Shape(Finish(s, t, r, why))
  {
    hide Queues, Holders, Waiters, Leaders, LeadersBut, Members, Placed, Queued, SameKinds, PlaceOf, Release, Ending;
    var e := Ending(s, t, r, why);
    EndingMoves(s, t, r, why);
    QueuesMove(s, e, r, Ended);
    HoldersMove(s, e, t, Idle, r, Ended);
    WaitersMove(s, e, r, Ended);
    LeadersEnding(s, e, r);
    MembersMove(s, e, r, Ended);
    if s.requests[r].shouldCache {
      ReleaseKeeps(e, s.requests[r].key);
    }
  }

  lemma ReleaseFits(s: State, k: Key)
    requires Fitting(s)
    ensures Fitting(Release(s, k))
  {
  }

  lemma FinishKeeps(s: State, t: Thread, r: Id, why: Why)
    requires Open(s, t, r) && Explains(why, s.past[r].log, s.requests[r])
    ensures Inv(Finish(s, t, r, why))
  {
    hide Shape, Explains, FittingBut, Release;
    FinishShape(s, t, r, why);
    var e := Ending(s, t, r, why);
    assert Body(s.past[r].log + [Finished(why)]) == s.past[r].log;
    FittingStays(s, e, r);
    ReleaseFits(e, s.requests[r].key);
  }

  // ----- every step keeps the invariant -----

  ghost predicate At(s: State, t: Thread, r: Id, stage: Stage)
  {
    Open(s, t, r) && r in s.past && r in s.requests && FitsHeld(stage, s.past[r].log, s.requests[r])
  }

  lemma CacheKeeps(s: State, t: Thread, r: Id, stage: Stage, c: Choice)
    requires At(s, t, r, stage)
    requires stage.CacheTaken? || stage.CacheLooking? || stage.CacheParsing? || stage.CachePosting?
    ensures Inv(Act(s, t, r, stage, c))
  {
    hide Inv, Shape, HeldBy, FittingBut, Goto, PutNet, Post, Drop, Finish;
    var fails := c.fault != Fine;
    match stage
    case CacheTaken =>
      if s.requests[r].canceled {
        FinishKeeps(s, t, r, CacheDiscard);
      } else {
        GotoKeeps(s, t, r, CacheLooking);
      }
    case CacheLooking =>
      if fails {
        DropKeeps(s, t, r, Caught(c.fault));
      } else if c.entry == Missing || c.entry == Expired {
        PutKeeps(s, t, r);
      } else {
        GotoKeeps(s, t, r, CacheParsing(c.entry == SoftExpired));
      }
    case CacheParsing(soft) =>
      if fails {
        DropKeeps(s, t, r, Caught(c.fault));
      } else {
        GotoKeeps(s, t, r, CachePosting(Response(if soft then SoftHit else CacheHit, c.success, soft)));
      }
    case CachePosting(response) =>
      MarkedOpen(s, t, r);
      if fails {
        DropKeeps(Marked(s, r), t, r, Caught(c.fault));
      } else {
        PostKeeps(Marked(s, r), t, r, response, response.intermediate);
      }
  }

  lemma NetKeeps(s: State, t: Thread, r: Id, stage: Stage, c: Choice)
    requires At(s, t, r, stage)
    requires stage.NetTaken? || stage.NetPerforming? || stage.NetAnswered? || stage.NetParsing?
    ensures Inv(Act(s, t, r, stage, c))
  {
    hide Inv, Shape, HeldBy, FittingBut, Goto, PutNet, Post, Drop, Finish;
    match stage
    case NetTaken =>
      if s.requests[r].canceled {
        FinishKeeps(s, t, r, NetDiscard);
      } else {
        GotoKeeps(s, t, r, NetPerforming);
      }
    case NetPerforming =>
      if c.fault == Died {
        DropKeeps(s, t, r, Stopped);
      } else {
        GotoKeeps(s, t, r, if c.fault == Refused then NetRejected else if c.fault == Thrown then NetFailing else NetAnswered(c.notModified));
      }
    case NetAnswered(notModified) =>
      if notModified && s.requests[r].delivered {
        FinishKeeps(s, t, r, NotModified);
      } else {
        GotoKeeps(s, t, r, NetParsing(notModified));
      }
    case NetParsing(notModified) =>
      if c.fault == Died {
        DropKeeps(s, t, r, Stopped);
      } else {
        GotoKeeps(s, t, r, if c.fault != Fine then NetFailing else NetWriting(Response(Network(notModified), c.success, false)));
      }
  }

  lemma NetPostKeeps(s: State, t: Thread, r: Id, stage: Stage, c: Choice)
    requires At(s, t, r, stage)
    requires stage.NetWriting? || stage.NetPosting? || stage.NetRejected? || stage.NetFailing?
    ensures Inv(Act(s, t, r, stage, c))
  {
    hide Inv, Shape, HeldBy, FittingBut, Goto, PutNet, Post, Drop, Finish;
    var fails := c.fault != Fine;
    match stage
    case NetWriting(response) =>
      if c.fault == Died {
        DropKeeps(s, t, r, Stopped);
      } else {
        GotoKeeps(s, t, r, if fails then NetFailing else NetPosting(response));
      }
    case NetPosting(response) =>
      MarkedOpen(s, t, r);
      if c.fault == Died {
        DropKeeps(Marked(s, r), t, r, Stopped);
      } else if fails {
        GotoKeeps(Marked(s, r), t, r, NetFailing);
      } else {
        PostKeeps(Marked(s, r), t, r, response, false);
      }
    case NetRejected =>
      if fails {
        DropKeeps(s, t, r, Stopped);
      } else {
        GotoKeeps(s, t, r, NetFailing);
      }
    case NetFailing =>
      if fails {
        DropKeeps(s, t, r, Stopped);
      } else {
        PostKeeps(s, t, r, Response(Failure, false, false), false);
      }
  }

  lemma CalledLast(log: seq<Event>, q: Request, response: Response, forwards: bool)
    requires May(log, q, response, forwards)
    ensures LastCalled(log + [Called(response)], q)
  {
    hide May;
    assert Body(log + [Called(response)]) == log;
    MayForwards(log, q, response, forwards);
  }

  lemma MayOpening(log: seq<Event>, q: Request, response: Response, forwards: bool)
    requires May(log, q, response, forwards)
    ensures Opening(log, q)
  {
  }

  lemma MayForwards(log: seq<Event>, q: Request, response: Response, forwards: bool)
    requires May(log, q, response, forwards)
    ensures May(log, q, response, response.intermediate) && forwards == response.intermediate
  {
  }

  lemma CallingKeeps(s: State, t: Thread, r: Id, response: Response, forwards: bool, c: Choice)
    requires At(s, t, r, Calling(response, forwards))
    ensures Inv(Act(s, t, r, Calling(response, forwards), c))
  {
    hide Inv, Shape, HeldBy, FittingBut, Goto, Drop, May, LastCalled, Opening, Finish, Post, PutNet;
    var log := s.past[r].log;
    var called := Noted(s, r, Called(response));
    NotedOpen(s, t, r, Called(response));
    CalledLast(log, s.requests[r], response, forwards);
    MayForwards(log, s.requests[r], response, forwards);
    assert called.past[r].log == log + [Called(response)];
    if c.fault == Refused {
      MayOpening(log, s.requests[r], response, forwards);
      DropKeeps(s, t, r, Stopped);
    } else if c.fault != Fine {
      DropKeeps(called, t, r, Stopped);
    } else {
      GotoKeeps(called, t, r, Returned(response, forwards));
    }
  }

  lemma ReturnedHonest(log: seq<Event>, q: Request)
    requires LastCalled(log, q) && log[|log| - 1].response.intermediate
    ensures Honest(log, q) && log != []
  {
  }

  lemma ReturnedKeeps(s: State, t: Thread, r: Id, response: Response, forwards: bool, c: Choice)
    requires At(s, t, r, Returned(response, forwards))
    ensures Inv(Act(s, t, r, Returned(response, forwards), c))
  {
    hide Inv, Shape, HeldBy, FittingBut, Goto, Drop, LastCalled, Honest, Finish, Post, PutNet;
    if response.intermediate {
      ReturnedHonest(s.past[r].log, s.requests[r]);
      GotoKeeps(s, t, r, Forwarding);
    } else {
      FinishKeeps(s, t, r, Done);
      FinishStops(s, t, r, Done);
    }
  }

  lemma DeliveryKeeps(s: State, t: Thread, r: Id, stage: Stage, c: Choice)
    requires At(s, t, r, stage)
    requires stage.Running? || stage.Calling? || stage.Returned? || stage.Forwarding?
    ensures Inv(Act(s, t, r, stage, c))
  {
    hide Inv, Shape, HeldBy, FittingBut, Goto, PutNet, Post, Drop, Finish;
    var fails := c.fault != Fine;
    match stage
    case Running(response, forwards) =>
      if s.requests[r].canceled {
        FinishKeeps(s, t, r, AtDelivery);
      } else {
        GotoKeeps(s, t, r, Calling(response, forwards));
      }
    case Calling(response, forwards) => CallingKeeps(s, t, r, response, forwards, c);
    case Returned(response, forwards) => ReturnedKeeps(s, t, r, response, forwards, c);
    case Forwarding =>
      if fails {
        DropKeeps(s, t, r, if c.fault == Refused then Idle else Stopped);
      } else {
        PutKeeps(s, t, r);
      }
  }

  lemma FinishStops(s: State, t: Thread, r: Id, why: Why)
    requires HeldBy(s, t, r)
    ensures Finish(s, t, r, why).(threads := Finish(s, t, r, why).threads[t := Idle]) == Finish(s, t, r, why)
  {
    var f := Finish(s, t, r, why);
    assert f.threads[t] == Idle;
    assert f.threads[t := Idle] == f.threads;
  }

  lemma ActKeeps(s: State, t: Thread, r: Id, stage: Stage, c: Choice)
    requires At(s, t, r, stage)
    ensures Inv(Act(s, t, r, stage, c))
  {
    hide Inv, At, Act;
    if stage.CacheTaken? || stage.CacheLooking? || stage.CacheParsing? || stage.CachePosting? {
      CacheKeeps(s, t, r, stage, c);
    } else if stage.NetTaken? || stage.NetPerforming? || stage.NetAnswered? || stage.NetParsing? {
      NetKeeps(s, t, r, stage, c);
    } else if stage.NetWriting? || stage.NetPosting? || stage.NetRejected? || stage.NetFailing? {
      NetPostKeeps(s, t, r, stage, c);
    } else {
      DeliveryKeeps(s, t, r, stage, c);
    }
  }

  // taking from a queue

  lemma TakenOne<T>(q: multiset<T>, x: T)
    requires x in q
    ensures forall y :: (q - multiset{x})[y] == q[y] - One(y == x)
  {
  }

  lemma TakeMoves(s: State, u: State, t: Thread, r: Id, stage: Stage)
    requires r in s.past && r in s.requests && Free(s, t)
    requires u.requests == s.requests && u.past == s.past && u.waiting == s.waiting && u.threads == s.threads && u.current == s.current
    requires PlaceOf(s, r) == InCache || PlaceOf(s, r) == InNet || PlaceOf(s, r).Posted?
    requires Queued(s, u, r, Held(t, stage))
    ensures Moves(s, Goto(u, t, r, stage), t, Busy(r, stage), r, Held(t, stage))
  {
    GotoQueues(u, t, r, stage);
    GotoPlaces(u, t, r, stage);
    SamePast(s, u);
    hide PlaceOf;
  }

  lemma SamePast(s: State, u: State)
    requires u.past == s.past
    ensures forall x :: PlaceOf(u, x) == PlaceOf(s, x)
  {
  }

  lemma GotoQueues(u: State, t: Thread, r: Id, stage: Stage)
    requires r in u.past
    ensures var v := Goto(u, t, r, stage);
      && v.cacheQueue == u.cacheQueue && v.netQueue == u.netQueue && v.deliveries == u.deliveries
      && v.requests == u.requests && v.waiting == u.waiting && v.current == u.current && v.past.Keys == u.past.Keys
      && v.threads == u.threads[t := Busy(r, stage)]
  {
  }

  lemma GotoPlaces(u: State, t: Thread, r: Id, stage: Stage)
    requires r in u.past
    ensures Placed(u, Goto(u, t, r, stage), r, Held(t, stage))
  {
  }

  lemma CacheTake(s: State, r: Id, p: Place)
    requires PlaceOf(s, r) == InCache && r in s.cacheQueue && p.Held?
    ensures Queued(s, s.(cacheQueue := s.cacheQueue - multiset{r}), r, p)
  {
    TakenOne(s.cacheQueue, r);
  }

  lemma NetTake(s: State, r: Id, p: Place)
    requires PlaceOf(s, r) == InNet && r in s.netQueue && p.Held?
    ensures Queued(s, s.(netQueue := s.netQueue - multiset{r}), r, p)
  {
    TakenOne(s.netQueue, r);
  }

  lemma PostedTake(s: State, d: Delivery, p: Place)
    requires PlaceOf(s, d.request) == Posted(d.response, d.forwards) && d in s.deliveries && p.Held?
    ensures Queued(s, s.(deliveries := s.deliveries - multiset{d}), d.request, p)
  {
    TakenOne(s.deliveries, d);
    var u := s.(deliveries := s.deliveries - multiset{d});
    forall e
      ensures One(e == d) == One(e.request == d.request && PlaceOf(s, d.request) == Posted(e.response, e.forwards))
      ensures u.deliveries[e] == s.deliveries[e] - One(e == d)
    {
    }
  }

  lemma TakeKeeps(s: State, u: State, t: Thread, r: Id, stage: Stage)
    requires Inv(s) && r in s.past && r in s.requests && FitsHeld(stage, s.past[r].log, s.requests[r])
    requires Moves(s, Goto(u, t, r, stage), t, Busy(r, stage), r, Held(t, stage))
    requires u.requests == s.requests && u.past == s.past
    ensures Inv(Goto(u, t, r, stage))
  {
    hide Shape, Moves, FitsHeld;
    MovesKeeps(s, Goto(u, t, r, stage), t, Busy(r, stage), r, Held(t, stage));
    FittingStays(s, Goto(u, t, r, stage), r);
  }

  lemma CountPlace(s: State, r: Id)
    requires Queues(s) && Members(s)
    ensures r in s.cacheQueue ==> r in s.requests && r in s.past && s.past[r].place == InCache
    ensures r in s.netQueue ==> r in s.requests && r in s.past && s.past[r].place == InNet
  {
    assert s.cacheQueue[r] == One(PlaceOf(s, r) == InCache);
    assert s.netQueue[r] == One(PlaceOf(s, r) == InNet);
  }

  lemma CountPosted(s: State, d: Delivery)
    requires Queues(s) && Members(s) && d in s.deliveries
    ensures d.request in s.requests && d.request in s.past && s.past[d.request].place == Posted(d.response, d.forwards)
  {
    assert s.deliveries[d] == One(PlaceOf(s, d.request) == Posted(d.response, d.forwards));
  }

  lemma TakesKeep(s: State, step: Step)
    requires Inv(s) && (step.TakeCached? || step.TakeNet? || step.TakePosted?)
    ensures Inv(Next(s, step))
  {
    hide Queues, Holders, Waiters, Leaders, Members, Goto, Moves, Queued, FitsHeld, PlaceOf;
    match step
    case TakeCached(r) =>
      if Free(s, Cache) && r in s.cacheQueue {
        CountPlace(s, r);
        var u := s.(cacheQueue := s.cacheQueue - multiset{r});
        TakeFits(s.past[r], s.requests[r], CacheTaken);
        PlaceIs(s, r);
        CacheTake(s, r, Held(Cache, CacheTaken));
        TakeMoves(s, u, Cache, r, CacheTaken);
        TakeKeeps(s, u, Cache, r, CacheTaken);
      }
    case TakeNet(n, r) =>
      if Free(s, Net(n)) && r in s.netQueue {
        CountPlace(s, r);
        var u := s.(netQueue := s.netQueue - multiset{r});
        TakeFits(s.past[r], s.requests[r], NetTaken);
        PlaceIs(s, r);
        NetTake(s, r, Held(Net(n), NetTaken));
        TakeMoves(s, u, Net(n), r, NetTaken);
        TakeKeeps(s, u, Net(n), r, NetTaken);
      }
    case TakePosted(m, d) =>
      if Free(s, Poster(m)) && d in s.deliveries {
        CountPosted(s, d);
        var r := d.request;
        var u := s.(deliveries := s.deliveries - multiset{d});
        TakeFits(s.past[r], s.requests[r], Running(d.response, d.forwards));
        PlaceIs(s, r);
        PostedTake(s, d, Held(Poster(m), Running(d.response, d.forwards)));
        TakeMoves(s, u, Poster(m), r, Running(d.response, d.forwards));
        TakeKeeps(s, u, Poster(m), r, Running(d.response, d.forwards));
      }
  }

  lemma PlaceIs(s: State, r: Id)
    requires r in s.past
    ensures PlaceOf(s, r) == s.past[r].place
  {
  }

  lemma TakeFits(h: History, q: Request, stage: Stage)
    requires Fits(h, q)
    requires match stage
      case CacheTaken => h.place == InCache
      case NetTaken => h.place == InNet
      case Running(response, forwards) => h.place == Posted(response, forwards)
      case _ => false
    ensures FitsHeld(stage, h.log, q)
  {
  }

  // adding, canceling, interrupting

  lemma FreshPlace(s: State, r: Id)
    requires Members(s) && r !in s.requests
    ensures PlaceOf(s, r) == Gone && r !in s.past
  {
  }

  ghost predicate Joined(s: State, s': State, r: Id, q: Request, p: Place)
  {
    && r !in s.past && r !in s.requests && s'.requests == s.requests[r := q] && s'.current == s.current + {r}
    && s'.past == s.past[r := History(p, [])] && s'.threads == s.threads
    && Placed(s, s', r, p) && Queued(s, s', r, p)
    && match p
       case Staged => q.shouldCache && q.key in s.waiting && s'.waiting == s.waiting[q.key := s.waiting[q.key] + multiset{r}]
       case InCache => q.shouldCache && q.key !in s.waiting && s'.waiting == s.waiting[q.key := multiset{}]
       case InNet => s'.waiting == s.waiting
       case _ => false
  }

  lemma AddedJoins(s: State, r: Id, q: Request)
    requires Members(s) && r !in s.requests
    ensures Joined(s, Added(s, r, q), r, q, if !q.shouldCache then InNet else if q.key in s.waiting then Staged else InCache)
  {
  }

  lemma HoldersJoin(s: State, s': State, r: Id, q: Request, p: Place)
    requires Holders(s) && Joined(s, s', r, q, p) && PlaceOf(s, r) == Gone
    ensures Holders(s')
  {
    hide PlaceOf;
  }

  lemma WaitersJoin(s: State, s': State, r: Id, q: Request, p: Place)
    requires Waiters(s) && Joined(s, s', r, q, p) && PlaceOf(s, r) == Gone
    ensures Waiters(s')
  {
    hide StagedUnder;
    StagedJoin(s, s', r, q, p);
    forall x | x in s'.requests && PlaceOf(s', x) == Staged
      ensures s'.requests[x].key in s'.waiting && s'.requests[x].shouldCache
    {
      assert x != r ==> PlaceOf(s, x) == Staged;
    }
    if p == InCache {
      forall x
        ensures !StagedUnder(s', x, q.key)
      {
        NotWaitedFor(s, x, q.key);
      }
    }
  }

  lemma NotWaitedFor(s: State, x: Id, k: Key)
    requires Waiters(s) && k !in s.waiting
    ensures !StagedUnder(s, x, k)
  {
  }

  lemma StagedJoin(s: State, s': State, r: Id, q: Request, p: Place)
    requires Joined(s, s', r, q, p) && PlaceOf(s, r) == Gone
    ensures forall x, k :: StagedUnder(s', x, k) == if x == r then p == Staged && k == q.key else StagedUnder(s, x, k)
    ensures forall k :: !StagedUnder(s, r, k)
  {
    hide PlaceOf;
  }

  lemma LeadersJoin(s: State, s': State, r: Id, q: Request, p: Place)
    requires Leaders(s) && Joined(s, s', r, q, p)
    ensures Leaders(s')
  {
    hide PlaceOf;
    forall k | k in s'.waiting
      ensures exists x :: Leads(s', x, k)
    {
      if k in s.waiting {
        var x :| Leads(s, x, k);
        assert Leads(s', x, k);
      } else {
        assert Leads(s', r, k);
      }
    }
  }

  lemma MembersJoin(s: State, s': State, r: Id, q: Request, p: Place)
    requires Members(s) && Joined(s, s', r, q, p)
    ensures Members(s')
  {
  }

  lemma AddKeeps(s: State, r: Id, q: Request)
    requires Inv(s) && r !in s.requests && !q.delivered
    ensures Inv(Added(s, r, q))
  {
    hide Queues, Holders, Waiters, Leaders, Members, Added, PlaceOf, Placed, Queued;
    var s' := Added(s, r, q);
    var p := if !q.shouldCache then InNet else if q.key in s.waiting then Staged else InCache;
    AddedJoins(s, r, q);
    FreshPlace(s, r);
    QueuesMove(s, s', r, p);
    HoldersJoin(s, s', r, q, p);
    WaitersJoin(s, s', r, q, p);
    LeadersJoin(s, s', r, q, p);
    MembersJoin(s, s', r, q, p);
    FittingJoin(s, s', r, q, p);
  }

  lemma FittingJoin(s: State, s': State, r: Id, q: Request, p: Place)
    requires Fitting(s) && Joined(s, s', r, q, p) && !q.delivered
    ensures Fitting(s')
  {
    hide Queued, Placed;
    assert Fits(History(p, []), q);
    hide Fits;
  }

  lemma CancelFits(h: History, q: Request)
    requires Fits(h, q)
    ensures Fits(h, q.(canceled := true))
  {
  }

  lemma CancelKeeps(s: State, r: Id)
    requires Inv(s)
    ensures Inv(Next(s, Cancel(r)))
  {
    hide Shape, Fits;
    if r in s.requests {
      var s' := Next(s, Cancel(r));
      AlikeKeeps(s, s');
      if r in s.past {
        CancelFits(s.past[r], s.requests[r]);
      }
      FittingStays(s, s', r);
    }
  }

  lemma InterruptKeeps(s: State, t: Thread, quit: bool)
    requires Inv(s)
    ensures Inv(Next(s, Interrupt(t, quit)))
  {
    hide Queues, Waiters, Members, Fits;
    var s' := Next(s, Interrupt(t, quit));
    SamePast(s, s');
    hide PlaceOf;
    QueuesAlike(s, s');
    WaitersAlike(s, s');
    assert forall x, k | Leads(s, x, k) :: Leads(s', x, k);
    LeadersStay(s, s');
    MembersAlike(s, s');
  }

  lemma MembersAlike(s: State, s': State)
    requires Members(s) && s'.past == s.past && s'.requests == s.requests && s'.current == s.current
    ensures Members(s')
  {
  }

  lemma NextKeeps(s: State, step: Step)
    requires Inv(s)
    ensures Inv(Next(s, step))
  {
    hide Inv, Added, Act;
    match step
    case Add(r, key, shouldCache, canceled) =>
      if r !in s.requests {
        AddKeeps(s, r, Request(key, shouldCache, canceled, false));
      }
    case Cancel(r) => CancelKeeps(s, r);
    case TakeCached(_) => TakesKeep(s, step);
    case TakeNet(_, _) => TakesKeep(s, step);
    case TakePosted(_, _) => TakesKeep(s, step);
    case Go(t, c) =>
      if t in s.threads && s.threads[t].Busy? && s.threads[t].request in s.requests {
        var r := s.threads[t].request;
        InvOpens(s, t, r);
        ActKeeps(s, t, r, s.threads[t].stage, c);
      }
    case Interrupt(t, quit) => InterruptKeeps(s, t, quit);
  }

  lemma StartKeeps(nets: nat, posters: nat)
    ensures Inv(Start(nets, posters))
  {
  }

  lemma {:induction false} RunKeeps(s: State, steps: seq<Step>)
    requires Inv(s)
    ensures Inv(Run(s, steps))
    decreases |steps|
  {
    hide Inv, Next;
    if steps != [] {
      NextKeeps(s, steps[0]);
      RunKeeps(Next(s, steps[0]), steps[1..]);
    }
  }
}
