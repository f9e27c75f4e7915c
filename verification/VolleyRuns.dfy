/** What holds of a request at every point of every run. */
module VolleyRuns {
  import opened Volley
  import opened VolleyInvariant

  // ----- where a request is -----

  datatype Spot = CacheQueue | NetQueue | Deliveries(d: Delivery) | Hands(t: Thread) | Stage(k: Key)

  /** How often r stands at a spot, counted in the queues, lists and threads themselves. */
  function Times(s: State, r: Id, spot: Spot): nat
  {
    match spot
    case CacheQueue => s.cacheQueue[r]
    case NetQueue => s.netQueue[r]
    case Deliveries(d) => if d.request == r then s.deliveries[d] else 0
    case Hands(t) => One(t in s.threads && s.threads[t].Busy? && s.threads[t].request == r)
    case Stage(k) => if k in s.waiting then s.waiting[k][r] else 0
  }

  function SpotOf(p: Place, r: Id, k: Key): Spot
  {
    match p
    case Staged => Stage(k)
    case InCache => CacheQueue
    case InNet => NetQueue
    case Posted(response, forwards) => Deliveries(Delivery(r, response, forwards))
    case Held(t, _) => Hands(t)
    case _ => CacheQueue
  }

  predicate Alive(p: Place)
  {
    p != Ended && p != Gone
  }

  lemma TimesIs(s: State, r: Id, spot: Spot)
    requires Shape(s)
    ensures Times(s, r, spot) ==
      One(r in s.requests && Alive(PlaceOf(s, r)) && spot == SpotOf(PlaceOf(s, r), r, s.requests[r].key))
  {
    hide Leaders;
    match spot
    case CacheQueue => CountPlace(s, r);
    case NetQueue => CountPlace(s, r);
    case Deliveries(d) =>
      if d.request == r {
        assert s.deliveries[d] == One(PlaceOf(s, r) == Posted(d.response, d.forwards));
      }
    case Hands(t) =>
    case Stage(k) =>
      if k in s.waiting {
        assert s.waiting[k][r] == One(StagedUnder(s, r, k));
      }
  }

  predicate Ends(e: Event)
  {
    e.Finished? || e == Dropped
  }

  predicate IsOver(log: seq<Event>)
  {
    exists i :: 0 <= i < |log| && Ends(log[i])
  }

  /** What the events of one request may be, in order: nothing after the end, and a second
      callback only after an intermediate one, never from a 304. */
  predicate Legal(log: seq<Event>)
  {
    && (forall i | 0 <= i < |log| && Ends(log[i]) :: i == |log| - 1)
    && (forall i, j | 0 <= i < j < |log| && log[i].Called? && log[j].Called? ::
          i == 0 && j == 1 && log[i].response.intermediate
          && !log[j].response.intermediate && log[j].response.origin != Network(true))
  }

  /** At most two callbacks, the second a final one that is not a 304. */
  predicate CallsOnly(log: seq<Event>)
  {
    && |log| <= 2 && (forall i | 0 <= i < |log| :: log[i].Called?)
    && (|log| == 2 ==> log[0].response.intermediate && !log[1].response.intermediate && log[1].response.origin != Network(true))
  }

  lemma BodiesCall(log: seq<Event>, q: Request)
    requires Opening(log, q) || LastCalled(log, q)
    ensures CallsOnly(log)
  {
    if LastCalled(log, q) {
      assert log == Body(log) + [log[|log| - 1]];
    }
  }

  lemma CallsLegal(log: seq<Event>)
    requires CallsOnly(log)
    ensures Legal(log) && !IsOver(log)
  {
  }

  lemma EndedLegal(log: seq<Event>)
    requires log != [] && Ends(log[|log| - 1]) && CallsOnly(Body(log))
    ensures Legal(log) && IsOver(log)
  {
    forall i | 0 <= i < |log| - 1
      ensures log[i].Called?
    {
      assert log[i] == Body(log)[i];
    }
    assert |log| == 3 ==> log[0] == Body(log)[0] && log[1] == Body(log)[1];
  }

  lemma FitsLegal(h: History, q: Request)
    requires Fits(h, q)
    ensures Legal(h.log) && (IsOver(h.log) <==> !Alive(h.place))
  {
    hide Legal, IsOver, CallsOnly;
    if Alive(h.place) {
      BodiesCall(h.log, q);
      CallsLegal(h.log);
    } else {
      BodiesCall(Body(h.log), q);
      EndedLegal(h.log);
    }
  }

  // ----- main results over all runs -----

  /** In every run a request stands at no more than one spot, once, and stands somewhere
      exactly while it is neither finished nor dropped. */
  lemma InOnePlace(nets: nat, posters: nat, steps: seq<Step>, r: Id)
    ensures var s := Run(Start(nets, posters), steps);
      && (forall p, q | Times(s, r, p) > 0 && Times(s, r, q) > 0 :: p == q)
      && (forall p :: Times(s, r, p) <= 1)
      && ((exists p :: Times(s, r, p) == 1) <==> r in s.past && !IsOver(s.past[r].log))
  {
    hide Start, Run, Times, Fits, IsOver, Legal, SpotOf;
    var s := Run(Start(nets, posters), steps);
    Reached(nets, posters, steps);
    InvPlaces(s, r);
  }

  lemma Reached(nets: nat, posters: nat, steps: seq<Step>)
    ensures Inv(Run(Start(nets, posters), steps))
  {
    StartKeeps(nets, posters);
    RunKeeps(Start(nets, posters), steps);
  }

  lemma InvPlaces(s: State, r: Id)
    requires Inv(s)
    ensures forall p, q | Times(s, r, p) > 0 && Times(s, r, q) > 0 :: p == q
    ensures forall p :: Times(s, r, p) <= 1
    ensures (exists p :: Times(s, r, p) == 1) <==> r in s.past && !IsOver(s.past[r].log)
  {
    hide Times, Fits, IsOver, Legal, SpotOf, Queues, Holders, Waiters, Leaders;
    forall p
      ensures Times(s, r, p) ==
        One(r in s.requests && Alive(PlaceOf(s, r)) && p == SpotOf(PlaceOf(s, r), r, s.requests[r].key))
    {
      TimesIs(s, r, p);
    }
    if r in s.requests {
      FitsLegal(s.past[r], s.requests[r]);
      TimesIs(s, r, SpotOf(PlaceOf(s, r), r, s.requests[r].key));
    }
  }

  /** In every run the callbacks and the end of a request come in a legal order. */
  lemma EventsLegal(nets: nat, posters: nat, steps: seq<Step>, r: Id)
    ensures var s := Run(Start(nets, posters), steps); r in s.past ==> Legal(s.past[r].log)
  {
    hide Start, Run, Shape, Fits, IsOver, Legal;
    var s := Run(Start(nets, posters), steps);
    Reached(nets, posters, steps);
    if r in s.past {
      InvLegal(s, r);
    }
  }

  lemma InvLegal(s: State, r: Id)
    requires Inv(s) && r in s.past
    ensures r in s.requests && Legal(s.past[r].log)
  {
    hide Queues, Holders, Waiters, Leaders, Fits, Legal, IsOver;
    FitsLegal(s.past[r], s.requests[r]);
  }

  /** Every finish has its reason: a final callback just before, a 304 after an intermediate
      callback, or a cancel. */
  lemma FinishExplained(nets: nat, posters: nat, steps: seq<Step>, r: Id, i: nat)
    ensures var s := Run(Start(nets, posters), steps);
      r in s.past && i < |s.past[r].log| && s.past[r].log[i].Finished? ==>
      var log := s.past[r].log;
      match log[i].why
      case Done => i > 0 && log[i - 1].Called? && !log[i - 1].response.intermediate
      case NotModified => i == 1 && log[0].Called? && log[0].response.intermediate
      case _ => r in s.requests && s.requests[r].canceled && (forall j | 0 <= j < i :: log[j].Called? && log[j].response.intermediate)
  {
    hide Start, Run, Shape, Fits, Legal, IsOver;
    var s := Run(Start(nets, posters), steps);
    Reached(nets, posters, steps);
    if r in s.past && i < |s.past[r].log| && s.past[r].log[i].Finished? {
      InvFinish(s, r, i);
    }
  }

  lemma InvFinish(s: State, r: Id, i: nat)
    requires Inv(s) && r in s.past && i < |s.past[r].log| && s.past[r].log[i].Finished?
    ensures r in s.requests
    ensures var log := s.past[r].log;
      match log[i].why
      case Done => i > 0 && log[i - 1].Called? && !log[i - 1].response.intermediate
      case NotModified => i == 1 && log[0].Called? && log[0].response.intermediate
      case _ => s.requests[r].canceled && (forall j | 0 <= j < i :: log[j].Called? && log[j].response.intermediate)
  {
    hide Queues, Holders, Waiters, Leaders, Legal, IsOver, CallsOnly, Fits, Explains;
    var h, q := s.past[r], s.requests[r];
    FitsLegal(h, q);
    LegalLast(h.log, i);
    FitsFinish(h, q);
    Explained(h.log[i].why, Body(h.log), q);
  }

  lemma LegalLast(log: seq<Event>, i: nat)
    requires Legal(log) && i < |log| && Ends(log[i])
    ensures i == |log| - 1 && IsOver(log)
  {
  }

  lemma FitsFinish(h: History, q: Request)
    requires Fits(h, q) && !Alive(h.place) && h.log != [] && h.log[|h.log| - 1].Finished?
    ensures Explains(h.log[|h.log| - 1].why, Body(h.log), q)
  {
  }

  lemma Explained(why: Why, body: seq<Event>, q: Request)
    requires Explains(why, body, q)
    ensures match why
      case Done => body != [] && body[|body| - 1].Called? && !body[|body| - 1].response.intermediate
      case NotModified => |body| == 1 && body[0].Called? && body[0].response.intermediate
      case _ => q.canceled && forall j | 0 <= j < |body| :: body[j].Called? && body[j].response.intermediate
  {
  }

  /** mCurrentRequests holds exactly the requests added and not finished. */
  lemma CurrentIsUnfinished(nets: nat, posters: nat, steps: seq<Step>, r: Id)
    ensures var s := Run(Start(nets, posters), steps);
      r in s.current <==> r in s.past && !(s.past[r].log != [] && s.past[r].log[|s.past[r].log| - 1].Finished?)
  {
    hide Start, Run, Queues, Holders, Waiters, Leaders, Fits;
    var s := Run(Start(nets, posters), steps);
    Reached(nets, posters, steps);
    if r in s.past {
      EndedFinished(s.past[r], s.requests[r]);
    }
  }

  lemma EndedFinished(h: History, q: Request)
    requires Fits(h, q)
    ensures h.place == Ended <==> h.log != [] && h.log[|h.log| - 1].Finished?
  {
    if Alive(h.place) {
      hide Fits;
      FitsLegal(h, q);
    }
  }
}
