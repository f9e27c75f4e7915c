/** What can and cannot happen to a request later on. */
module VolleyFuture {
  import opened Volley
  import opened VolleyInvariant
  import opened VolleyRuns

  // ----- what one step does to one request's events -----

  function Calls(log: seq<Event>): (n: nat)
  {
    if log == [] then 0 else Calls(log[..|log| - 1]) + One(log[|log| - 1].Called?)
  }

  lemma CallsSnoc(log: seq<Event>, e: Event)
    ensures Calls(log + [e]) == Calls(log) + One(e.Called?)
  {
    assert (log + [e])[..|log|] == log;
  }

  predicate AboutToCall(h: History)
  {
    h.place.Held? && h.place.stage.Calling?
  }

  /** Events are only added; and a callback only where one was about to be made, which a cancel prevents. */
  predicate Goes(h: History, h': History, canceled: bool)
  {
    && h.log <= h'.log
    && (!AboutToCall(h) ==> Calls(h'.log) == Calls(h.log))
    && (canceled && !AboutToCall(h) ==> !AboutToCall(h'))
  }

  ghost predicate Onward(s: State, s': State, x: Id)
  {
    x in s.past && x in s.requests ==>
      x in s'.past && x in s'.requests && (s.requests[x].canceled ==> s'.requests[x].canceled)
      && Goes(s.past[x], s'.past[x], s.requests[x].canceled)
  }

  lemma EndingOnward(s: State, t: Thread, r: Id, why: Why, x: Id)
    ensures Onward(s, Ending(s, t, r, why), x)
  {
    if x in s.past && x == r {
      CallsSnoc(s.past[x].log, Finished(why));
    }
  }

  lemma ReleaseOnward(s: State, e: State, k: Key, x: Id)
    requires Onward(s, e, x)
    ensures Onward(s, Release(e, k), x)
  {
  }

  lemma FinishOnward(s: State, t: Thread, r: Id, why: Why, x: Id)
    requires r in s.requests
    ensures Onward(s, Finish(s, t, r, why), x)
  {
    hide Onward, Ending, Release;
    EndingOnward(s, t, r, why, x);
    ReleaseOnward(s, Ending(s, t, r, why), s.requests[r].key, x);
  }

  lemma DropOnward(s: State, t: Thread, r: Id, pc: Pc, x: Id)
    ensures Onward(s, Drop(s, t, r, pc), x)
  {
    if x in s.past && x == r {
      CallsSnoc(s.past[x].log, Dropped);
    }
  }

  lemma GotoOnward(s: State, t: Thread, r: Id, stage: Stage, x: Id)
    requires r in s.requests && s.requests[r].canceled ==> !stage.Calling?
    ensures Onward(s, Goto(s, t, r, stage), x)
  {
  }

  lemma PutOnward(s: State, t: Thread, r: Id, x: Id)
    ensures Onward(s, PutNet(s, t, r), x)
  {
  }

  lemma PostOnward(s: State, t: Thread, r: Id, response: Response, forwards: bool, x: Id)
    ensures Onward(s, Post(s, t, r, response, forwards), x)
  {
  }

  lemma MarkedOnward(s: State, r: Id, v: State, x: Id)
    requires Onward(Marked(s, r), v, x)
    ensures Onward(s, v, x)
  {
  }


  lemma CacheOnward(s: State, t: Thread, r: Id, stage: Stage, c: Choice, x: Id)
    requires r in s.requests && (stage.CacheTaken? || stage.CacheLooking? || stage.CacheParsing? || stage.CachePosting?)
    ensures Onward(s, Act(s, t, r, stage, c), x)
  {
    hide Onward, Goto, PutNet, Post, Drop, Finish, Marked;
    DropOnward(s, t, r, Caught(c.fault), x);
    match stage
    case CacheTaken =>
      FinishOnward(s, t, r, CacheDiscard, x);
      GotoOnward(s, t, r, CacheLooking, x);
    case CacheLooking =>
      PutOnward(s, t, r, x);
      GotoOnward(s, t, r, CacheParsing(c.entry == SoftExpired), x);
    case CacheParsing(soft) =>
      GotoOnward(s, t, r, CachePosting(Response(if soft then SoftHit else CacheHit, c.success, soft)), x);
    case CachePosting(response) =>
      DropOnward(Marked(s, r), t, r, Caught(c.fault), x);
      PostOnward(Marked(s, r), t, r, response, response.intermediate, x);
      MarkedOnward(s, r, Act(s, t, r, stage, c), x);
  }

  lemma NetOnward(s: State, t: Thread, r: Id, stage: Stage, c: Choice, x: Id)
    requires r in s.requests && (stage.NetTaken? || stage.NetPerforming? || stage.NetAnswered? || stage.NetParsing? || stage.NetWriting?)
    ensures Onward(s, Act(s, t, r, stage, c), x)
  {
    hide Onward, Goto, PutNet, Post, Drop, Finish, Marked;
    GotoOnward(s, t, r, NetFailing, x);
    DropOnward(s, t, r, Stopped, x);
    match stage
    case NetTaken =>
      FinishOnward(s, t, r, NetDiscard, x);
      GotoOnward(s, t, r, NetPerforming, x);
    case NetPerforming =>
      GotoOnward(s, t, r, NetRejected, x);
      GotoOnward(s, t, r, NetAnswered(c.notModified), x);
    case NetAnswered(notModified) =>
      FinishOnward(s, t, r, NotModified, x);
      GotoOnward(s, t, r, NetParsing(notModified), x);
    case NetParsing(notModified) =>
      GotoOnward(s, t, r, NetWriting(Response(Network(notModified), c.success, false)), x);
    case NetWriting(response) =>
      GotoOnward(s, t, r, NetPosting(response), x);
  }

  lemma NetPostOnward(s: State, t: Thread, r: Id, stage: Stage, c: Choice, x: Id)
    requires r in s.requests && (stage.NetPosting? || stage.NetRejected? || stage.NetFailing?)
    ensures Onward(s, Act(s, t, r, stage, c), x)
  {
    hide Onward, Goto, PutNet, Post, Drop, Finish;
    if stage.NetPosting? {
      GotoOnward(Marked(s, r), t, r, NetFailing, x);
      DropOnward(Marked(s, r), t, r, Stopped, x);
      PostOnward(Marked(s, r), t, r, stage.response, false, x);
      MarkedOnward(s, r, Act(s, t, r, stage, c), x);
    } else {
      DropOnward(s, t, r, Stopped, x);
      GotoOnward(s, t, r, NetFailing, x);
      PostOnward(s, t, r, Response(Failure, false, false), false, x);
    }
  }

  lemma DeliveryOnward(s: State, t: Thread, r: Id, stage: Stage, c: Choice, x: Id)
    requires r in s.requests && (stage.Running? || stage.Forwarding? || (stage.Returned? && stage.forwards == stage.response.intermediate))
    ensures Onward(s, Act(s, t, r, stage, c), x)
  {
    hide Onward, Goto, PutNet, Post, Drop, Finish;
    match stage
    case Running(response, forwards) =>
      if s.requests[r].canceled {
        FinishOnward(s, t, r, AtDelivery, x);
      } else {
        GotoOnward(s, t, r, Calling(response, forwards), x);
      }
    case Returned(response, forwards) =>
      GotoOnward(s, t, r, Forwarding, x);
      FinishOnward(s, t, r, Done, x);
      IdleOnward(s, Finish(s, t, r, Done), t, x);
    case Forwarding =>
      DropOnward(s, t, r, Idle, x);
      DropOnward(s, t, r, Stopped, x);
      PutOnward(s, t, r, x);
  }

  lemma IdleOnward(s: State, v: State, t: Thread, x: Id)
    requires Onward(s, v, x)
    ensures Onward(s, v.(threads := v.threads[t := Idle]), x)
  {
  }

  lemma CallingOnward(s: State, t: Thread, r: Id, response: Response, forwards: bool, c: Choice, x: Id)
    requires r in s.requests && r in s.past && s.past[r].place == Held(t, Calling(response, forwards))
    ensures Onward(s, Act(s, t, r, Calling(response, forwards), c), x)
  {
  }

  lemma CallingCalls(s: State, t: Thread, r: Id, response: Response, forwards: bool, c: Choice)
    requires r in s.requests && r in s.past && c.fault == Fine
    ensures Calls(Act(s, t, r, Calling(response, forwards), c).past[r].log) == Calls(s.past[r].log) + 1
  {
    CallsSnoc(s.past[r].log, Called(response));
  }

  lemma ActOnward(s: State, t: Thread, r: Id, stage: Stage, c: Choice, x: Id)
    requires r in s.requests && r in s.past && s.past[r].place == Held(t, stage) && FitsHeld(stage, s.past[r].log, s.requests[r])
    ensures Onward(s, Act(s, t, r, stage, c), x)
  {
    hide Act, Onward;
    if stage.CacheTaken? || stage.CacheLooking? || stage.CacheParsing? || stage.CachePosting? {
      CacheOnward(s, t, r, stage, c, x);
    } else if stage.NetTaken? || stage.NetPerforming? || stage.NetAnswered? || stage.NetParsing? || stage.NetWriting? {
      NetOnward(s, t, r, stage, c, x);
    } else if stage.NetPosting? || stage.NetRejected? || stage.NetFailing? {
      NetPostOnward(s, t, r, stage, c, x);
    } else if stage.Calling? {
      CallingOnward(s, t, r, stage.response, stage.forwards, c, x);
    } else {
      DeliveryOnward(s, t, r, stage, c, x);
    }
  }

  lemma SameOnward(s: State, u: State, v: State, x: Id)
    requires Onward(u, v, x) && u.past == s.past && u.requests == s.requests
    ensures Onward(s, v, x)
  {
  }

  lemma NextOnward(s: State, step: Step, x: Id)
    requires Inv(s)
    ensures Onward(s, Next(s, step), x)
  {
    hide Shape, Fits, Act, Goto;
    match step
    case Add(_, _, _, _) =>
    case Cancel(_) =>
    case TakeCached(r) =>
      var u := s.(cacheQueue := s.cacheQueue - multiset{r});
      GotoOnward(u, Cache, r, CacheTaken, x);
      SameOnward(s, u, Goto(u, Cache, r, CacheTaken), x);
    case TakeNet(n, r) =>
      var u := s.(netQueue := s.netQueue - multiset{r});
      GotoOnward(u, Net(n), r, NetTaken, x);
      SameOnward(s, u, Goto(u, Net(n), r, NetTaken), x);
    case TakePosted(m, d) =>
      var u, stage := s.(deliveries := s.deliveries - multiset{d}), Running(d.response, d.forwards);
      GotoOnward(u, Poster(m), d.request, stage, x);
      SameOnward(s, u, Goto(u, Poster(m), d.request, stage), x);
    case Go(t, c) =>
      if t in s.threads && s.threads[t].Busy? && s.threads[t].request in s.requests {
        var r := s.threads[t].request;
        InvOpens(s, t, r);
        ActOnward(s, t, r, s.threads[t].stage, c, x);
      }
    case Interrupt(_, _) =>
  }

  // ----- main results about what comes later -----

  /** Nothing happens to a request any more once it has finished or been dropped. */
  lemma {:induction false} NothingAfterTheEnd(s: State, steps: seq<Step>, r: Id)
    requires Inv(s) && r in s.past && IsOver(s.past[r].log)
    ensures r in Run(s, steps).past && Run(s, steps).past[r].log == s.past[r].log
    decreases |steps|
  {
    hide Inv, Next, Onward, Goes, Legal, IsOver, Calls;
    if steps != [] {
      var s' := Next(s, steps[0]);
      NextKeeps(s, steps[0]);
      NextOnward(s, steps[0], r);
      InvMembers(s, r);
      OnwardLog(s, s', r);
      InvLegal(s', r);
      NoMore(s.past[r].log, s'.past[r].log);
      NothingAfterTheEnd(s', steps[1..], r);
    }
  }

  lemma InvMembers(s: State, r: Id)
    requires Inv(s)
    ensures r in s.past <==> r in s.requests
  {
    hide Queues, Holders, Waiters, Leaders, Fits;
  }

  lemma OnwardLog(s: State, s': State, r: Id)
    requires Onward(s, s', r) && r in s.past && r in s.requests
    ensures r in s'.past && s.past[r].log <= s'.past[r].log
  {
  }

  lemma NoMore(log: seq<Event>, log': seq<Event>)
    requires IsOver(log) && Legal(log') && log <= log'
    ensures log' == log
  {
    var i :| 0 <= i < |log| && Ends(log[i]);
    assert Ends(log'[i]);
  }

  /** A canceled request gets another callback in some continuation exactly when the delivery
      has already passed its check. */
  lemma CancelDecides(s: State, r: Id)
    requires Inv(s) && r in s.requests && s.requests[r].canceled
    ensures r in s.past
    ensures (exists steps :: r in Run(s, steps).past && Calls(Run(s, steps).past[r].log) > Calls(s.past[r].log))
      <==> AboutToCall(s.past[r])
  {
    hide Inv, Run, Next, Calls, Act;
    InvMembers(s, r);
    if AboutToCall(s.past[r]) {
      CallFollows(s, r);
    } else {
      forall steps | r in Run(s, steps).past
        ensures Calls(Run(s, steps).past[r].log) == Calls(s.past[r].log)
      {
        CancelSilences(s, steps, r);
      }
    }
  }

  lemma CallFollows(s: State, r: Id)
    requires Inv(s) && r in s.requests && r in s.past && AboutToCall(s.past[r])
    ensures exists steps :: r in Run(s, steps).past && Calls(Run(s, steps).past[r].log) > Calls(s.past[r].log)
  {
    hide Queues, Waiters, Leaders, Fits, Act, Calls;
    var c := Choice(Missing, false, true, Fine);
    var p := s.past[r].place;
    assert PlaceOf(s, r) == p;
    CallingCalls(s, p.t, r, p.stage.response, p.stage.forwards, c);
    CallingOnward(s, p.t, r, p.stage.response, p.stage.forwards, c, r);
    assert Run(s, [Go(p.t, c)]) == Next(s, Go(p.t, c));
  }

  lemma {:induction false} CancelSilences(s: State, steps: seq<Step>, r: Id)
    requires Inv(s) && r in s.requests && s.requests[r].canceled && r in s.past && !AboutToCall(s.past[r])
    ensures r in Run(s, steps).past && Calls(Run(s, steps).past[r].log) == Calls(s.past[r].log)
    decreases |steps|
  {
    hide Inv, Next, Calls, AboutToCall;
    if steps != [] {
      NextKeeps(s, steps[0]);
      NextOnward(s, steps[0], r);
      CancelSilences(Next(s, steps[0]), steps[1..], r);
    }
  }

  // ----- runs step by step -----

  lemma RunOne(s: State, a: Step)
    ensures Run(s, [a]) == Next(s, a)
  {
    hide Next;
    assert [a][1..] == [];
  }

  lemma RunTwo(s: State, a: Step, b: Step, rest: seq<Step>)
    ensures Run(s, [a, b] + rest) == Run(Next(Next(s, a), b), rest)
  {
    hide Next;
    assert ([a, b] + rest)[1..] == [b] + rest && ([b] + rest)[1..] == rest;
  }

  lemma {:induction false} RunSplit(s: State, x: seq<Step>, y: seq<Step>)
    ensures Run(s, x + y) == Run(Run(s, x), y)
    decreases |x|
  {
    hide Next;
    if x == [] {
      assert x + y == y;
    } else {
      assert (x + y)[1..] == x[1..] + y;
      RunSplit(Next(s, x[0]), x[1..], y);
    }
  }

  lemma RunSnoc(s: State, steps: seq<Step>, n: nat)
    requires n < |steps|
    ensures Run(s, steps[..n + 1]) == Next(Run(s, steps[..n]), steps[n])
  {
    hide Next;
    assert steps[..n + 1] == steps[..n] + [steps[n]];
    RunSplit(s, steps[..n], [steps[n]]);
    RunOne(Run(s, steps[..n]), steps[n]);
  }

  // ----- a callback after a cancel -----

  const ANSWER := Choice(Missing, false, true, Fine)
  const PARSED := Response(Network(false), true, false)

  /** A request goes through the network to its delivery, which checks it before the cancel and calls back after it. */
  function CancelTooLate(k: Key): (steps: seq<Step>)
    ensures |steps| == 12
  {
    [Add(1, k, false, false), TakeNet(0, 1),
     Go(Net(0), ANSWER), Go(Net(0), ANSWER), Go(Net(0), ANSWER), Go(Net(0), ANSWER), Go(Net(0), ANSWER), Go(Net(0), ANSWER),
     TakePosted(0, Delivery(1, PARSED, false)), Go(Poster(0), ANSWER), Cancel(1), Go(Poster(0), ANSWER)]
  }

  /** Where the request is after the first n of these steps. */
  function PlaceAt(n: nat): Place
  {
    match n
    case 1 => InNet
    case 2 => Held(Net(0), NetTaken)
    case 3 => Held(Net(0), NetPerforming)
    case 4 => Held(Net(0), NetAnswered(false))
    case 5 => Held(Net(0), NetParsing(false))
    case 6 => Held(Net(0), NetWriting(PARSED))
    case 7 => Held(Net(0), NetPosting(PARSED))
    case 8 => Posted(PARSED, false)
    case 9 => Held(Poster(0), Running(PARSED, false))
    case _ => Held(Poster(0), Calling(PARSED, false))
  }

  predicate Solo(s: State, n: nat)
  {
    && 1 in s.requests && 1 in s.past && s.past[1] == History(PlaceAt(n), []) && (s.requests[1].canceled <==> n > 10)
    && Net(0) in s.threads && Poster(0) in s.threads
    && (n == 1 ==> 1 in s.netQueue && s.threads[Net(0)] == Idle)
    && (n == 8 ==> Delivery(1, PARSED, false) in s.deliveries)
    && (n <= 8 ==> s.threads[Poster(0)] == Idle)
    && (PlaceAt(n).Held? ==> s.threads[PlaceAt(n).t] == Busy(1, PlaceAt(n).stage))
  }

  lemma SoloAdded(nets: nat, posters: nat, k: Key)
    requires nets > 0 && posters > 0
    ensures Solo(Next(Start(nets, posters), Add(1, k, false, false)), 1)
  {
  }

  lemma SoloTaken(s: State)
    ensures Solo(s, 1) ==> Solo(Next(s, TakeNet(0, 1)), 2)
    ensures Solo(s, 8) ==> Solo(Next(s, TakePosted(0, Delivery(1, PARSED, false))), 9)
  {
  }

  lemma SoloAnswered(s: State, n: nat)
    requires 2 <= n <= 4 && Solo(s, n)
    ensures Solo(Next(s, Go(Net(0), ANSWER)), n + 1)
  {
  }

  lemma SoloParsed(s: State, n: nat)
    requires 5 <= n <= 7 && Solo(s, n)
    ensures Solo(Next(s, Go(Net(0), ANSWER)), n + 1)
  {
  }

  lemma SoloChecked(s: State)
    ensures Solo(s, 9) ==> Solo(Next(s, Go(Poster(0), ANSWER)), 10)
    ensures Solo(s, 10) ==> Solo(Next(s, Cancel(1)), 11)
  {
  }

  lemma {:induction false} SoloAt(nets: nat, posters: nat, k: Key, n: nat)
    requires nets > 0 && posters > 0 && 1 <= n <= 11
    ensures Solo(Run(Start(nets, posters), CancelTooLate(k)[..n]), n)
  {
    hide Start, Next, Solo, Run;
    var s0 := Start(nets, posters);
    RunSnoc(s0, CancelTooLate(k), n - 1);
    if n == 1 {
      RunNone(s0, CancelTooLate(k));
      SoloAdded(nets, posters, k);
    } else {
      SoloAt(nets, posters, k, n - 1);
      var s := Run(s0, CancelTooLate(k)[..n - 1]);
      if n == 2 || n == 9 {
        SoloTaken(s);
      } else if n <= 5 {
        SoloAnswered(s, n - 1);
      } else if n <= 8 {
        SoloParsed(s, n - 1);
      } else {
        SoloChecked(s);
      }
    }
  }

  lemma RunNone(s: State, steps: seq<Step>)
    ensures Run(s, steps[..0]) == s
  {
  }

  lemma SoloCalled(s: State)
    requires Solo(s, 11)
    ensures 1 in s.past && 1 in Next(s, Go(Poster(0), ANSWER)).past
    ensures Next(s, Go(Poster(0), ANSWER)).past[1].log == [Called(PARSED)]
  {
  }

  /** The promise of Request.cancel fails in this run: after the cancel, before which there was no callback, comes one. */
  lemma CallAfterCancel(nets: nat, posters: nat, k: Key)
    requires nets > 0 && posters > 0
    ensures var s := Run(Start(nets, posters), CancelTooLate(k)[..11]);
      && 1 in s.requests && s.requests[1].canceled && 1 in s.past && AboutToCall(s.past[1]) && s.past[1].log == []
    ensures var s := Run(Start(nets, posters), CancelTooLate(k));
      1 in s.past && s.past[1].log == [Called(PARSED)]
  {
    hide Start, Run, Next;
    SoloAt(nets, posters, k, 11);
    RunSnoc(Start(nets, posters), CancelTooLate(k), 11);
    assert CancelTooLate(k)[..12] == CancelTooLate(k);
    SoloCalled(Run(Start(nets, posters), CancelTooLate(k)[..11]));
  }
}
