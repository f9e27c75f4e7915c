/** Where the callbacks of a request come from: each is traced to the answers of the cache, the network
    and the parser in the run. */
module VolleyOrigin {
  import opened Volley
  import opened VolleyInvariant
  import opened VolleyRuns
  import opened VolleyFuture
  import opened VolleyStranding

  predicate Holds(s: State, t: Thread, r: Id, stage: Stage)
  {
    t in s.threads && s.threads[t] == Busy(r, stage)
  }

  // ----- facts and what they support -----

  datatype Claim = LookedUp(entry: Entry) | Answered(notModified: bool) | CacheParsed(success: bool) | NetParsed(success: bool) | Failed

  datatype Fact = Fact(request: Id, claim: Claim)

  /** The action of a thread at the given stage, by its choice, establishes the claim. */
  predicate Establishes(stage: Stage, c: Choice, claim: Claim)
  {
    match claim
    case LookedUp(entry) => stage == CacheLooking && c.fault == Fine && c.entry == entry
    case Answered(notModified) => stage == NetPerforming && c.fault == Fine && c.notModified == notModified
    case CacheParsed(success) => stage.CacheParsing? && c.fault == Fine && c.success == success
    case NetParsed(success) => stage.NetParsing? && c.fault == Fine && c.success == success
    case Failed =>
      (stage == NetPerforming || stage.NetParsing? || stage.NetWriting? || stage.NetPosting?) && (c.fault == Refused || c.fault == Thrown)
  }

  ghost predicate Backed(r: Id, response: Response, facts: iset<Fact>)
  {
    match response.origin
    case CacheHit => Fact(r, LookedUp(Fresh)) in facts && Fact(r, CacheParsed(response.success)) in facts
    case SoftHit => Fact(r, LookedUp(SoftExpired)) in facts && Fact(r, CacheParsed(response.success)) in facts
    case Network(notModified) => Fact(r, Answered(notModified)) in facts && Fact(r, NetParsed(response.success)) in facts
    case Failure => Fact(r, Failed) in facts && !response.success
  }

  ghost predicate ToldStage(r: Id, stage: Stage, facts: iset<Fact>)
  {
    match stage
    case CacheParsing(soft) => Fact(r, LookedUp(if soft then SoftExpired else Fresh)) in facts
    case CachePosting(response) => Backed(r, response, facts)
    case NetAnswered(notModified) => Fact(r, Answered(notModified)) in facts
    case NetParsing(notModified) => Fact(r, Answered(notModified)) in facts
    case NetWriting(response) => Backed(r, response, facts)
    case NetPosting(response) => Backed(r, response, facts)
    case NetRejected => Fact(r, Failed) in facts
    case NetFailing => Fact(r, Failed) in facts
    case Running(response, _) => Backed(r, response, facts)
    case Calling(response, _) => Backed(r, response, facts)
    case _ => true
  }

  ghost predicate ToldPlace(r: Id, p: Place, facts: iset<Fact>)
  {
    match p
    case Posted(response, _) => Backed(r, response, facts)
    case Held(_, stage) => ToldStage(r, stage, facts)
    case _ => true
  }

  ghost predicate ToldLog(r: Id, log: seq<Event>, facts: iset<Fact>)
  {
    forall j | 0 <= j < |log| && log[j].Called? :: Backed(r, log[j].response, facts)
  }

  ghost predicate Told(r: Id, h: History, facts: iset<Fact>)
  {
    ToldPlace(r, h.place, facts) && ToldLog(r, h.log, facts)
  }

  ghost predicate ToldAll(s: State, facts: iset<Fact>)
  {
    forall x | x in s.past :: Told(x, s.past[x], facts)
  }

  ghost predicate ToldBut(s: State, r: Id, facts: iset<Fact>)
  {
    r in s.past && r in s.requests && ToldLog(r, s.past[r].log, facts) && forall x | x in s.past && x != r :: Told(x, s.past[x], facts)
  }

  // ----- the primitives -----

  lemma GotoTold(s: State, t: Thread, r: Id, stage: Stage, facts: iset<Fact>)
    requires ToldBut(s, r, facts) && ToldStage(r, stage, facts)
    ensures ToldAll(Goto(s, t, r, stage), facts)
  {
    hide ToldLog, ToldStage;
  }

  lemma PutTold(s: State, t: Thread, r: Id, facts: iset<Fact>)
    requires ToldBut(s, r, facts)
    ensures ToldAll(PutNet(s, t, r), facts)
  {
    hide ToldLog, ToldStage;
  }

  lemma PostTold(s: State, t: Thread, r: Id, response: Response, forwards: bool, facts: iset<Fact>)
    requires ToldBut(s, r, facts) && Backed(r, response, facts)
    ensures ToldAll(Post(s, t, r, response, forwards), facts)
  {
    hide ToldLog, ToldStage, Backed;
  }

  lemma MoreLog(r: Id, log: seq<Event>, e: Event, facts: iset<Fact>)
    requires ToldLog(r, log, facts) && (e.Called? ==> Backed(r, e.response, facts))
    ensures ToldLog(r, log + [e], facts)
  {
    hide Backed;
  }

  lemma DropTold(s: State, t: Thread, r: Id, pc: Pc, facts: iset<Fact>)
    requires ToldBut(s, r, facts)
    ensures ToldAll(Drop(s, t, r, pc), facts)
  {
    hide ToldLog, ToldStage;
    MoreLog(r, s.past[r].log, Dropped, facts);
  }

  lemma EndingTold(s: State, t: Thread, r: Id, why: Why, facts: iset<Fact>)
    requires ToldBut(s, r, facts)
    ensures ToldAll(Ending(s, t, r, why), facts)
  {
    hide ToldLog, ToldStage;
    MoreLog(r, s.past[r].log, Finished(why), facts);
  }

  lemma ReleaseTold(s: State, k: Key, facts: iset<Fact>)
    requires ToldAll(s, facts)
    ensures ToldAll(Release(s, k), facts)
  {
    hide ToldLog, ToldStage;
  }

  lemma FinishTold(s: State, t: Thread, r: Id, why: Why, facts: iset<Fact>)
    requires ToldBut(s, r, facts)
    ensures ToldAll(Finish(s, t, r, why), facts)
  {
    hide ToldAll, Release, Ending;
    EndingTold(s, t, r, why, facts);
    ReleaseTold(Ending(s, t, r, why), s.requests[r].key, facts);
  }

  lemma MarkedTold(s: State, r: Id, facts: iset<Fact>)
    requires ToldBut(s, r, facts)
    ensures ToldBut(Marked(s, r), r, facts)
  {
  }

  lemma NotedTold(s: State, r: Id, e: Event, facts: iset<Fact>)
    requires ToldBut(s, r, facts) && (e.Called? ==> Backed(r, e.response, facts))
    ensures ToldBut(Noted(s, r, e), r, facts)
  {
    hide ToldLog, ToldStage, Backed;
    MoreLog(r, s.past[r].log, e, facts);
  }

  // ----- the actions -----

  ghost predicate Knows(r: Id, stage: Stage, c: Choice, facts: iset<Fact>)
  {
    forall claim: Claim | Establishes(stage, c, claim) :: Fact(r, claim) in facts
  }

  ghost predicate Ready(s: State, r: Id, stage: Stage, c: Choice, facts: iset<Fact>)
  {
    ToldBut(s, r, facts) && ToldStage(r, stage, facts) && Knows(r, stage, c, facts)
  }

  lemma CacheTold(s: State, t: Thread, r: Id, stage: Stage, c: Choice, facts: iset<Fact>)
    requires Ready(s, r, stage, c, facts)
    requires stage.CacheTaken? || stage.CacheLooking? || stage.CacheParsing? || stage.CachePosting?
    ensures ToldAll(Act(s, t, r, stage, c), facts)
  {
    hide ToldBut, ToldAll, Goto, PutNet, Post, Drop, Finish, Marked;
    InRequests(s, r, facts);
    match stage
    case CacheTaken =>
      if s.requests[r].canceled {
        FinishTold(s, t, r, CacheDiscard, facts);
      } else {
        GotoTold(s, t, r, CacheLooking, facts);
      }
    case CacheLooking =>
      if c.fault != Fine {
        DropTold(s, t, r, Caught(c.fault), facts);
      } else if c.entry == Missing || c.entry == Expired {
        PutTold(s, t, r, facts);
      } else {
        assert Establishes(stage, c, LookedUp(c.entry));
        GotoTold(s, t, r, CacheParsing(c.entry == SoftExpired), facts);
      }
    case CacheParsing(soft) =>
      if c.fault != Fine {
        DropTold(s, t, r, Caught(c.fault), facts);
      } else {
        assert Establishes(stage, c, CacheParsed(c.success));
        GotoTold(s, t, r, CachePosting(Response(if soft then SoftHit else CacheHit, c.success, soft)), facts);
      }
    case CachePosting(response) =>
      MarkedTold(s, r, facts);
      if c.fault != Fine {
        DropTold(Marked(s, r), t, r, Caught(c.fault), facts);
      } else {
        PostTold(Marked(s, r), t, r, response, response.intermediate, facts);
      }
  }

  lemma InRequests(s: State, r: Id, facts: iset<Fact>)
    requires ToldBut(s, r, facts)
    ensures r in s.requests && r in s.past
  {
  }

  lemma NetTold(s: State, t: Thread, r: Id, stage: Stage, c: Choice, facts: iset<Fact>)
    requires Ready(s, r, stage, c, facts)
    requires stage.NetTaken? || stage.NetPerforming? || stage.NetAnswered? || stage.NetParsing?
    ensures ToldAll(Act(s, t, r, stage, c), facts)
  {
    hide ToldBut, ToldAll, Goto, PutNet, Post, Drop, Finish, Marked;
    InRequests(s, r, facts);
    match stage
    case NetTaken =>
      if s.requests[r].canceled {
        FinishTold(s, t, r, NetDiscard, facts);
      } else {
        GotoTold(s, t, r, NetPerforming, facts);
      }
    case NetPerforming =>
      if c.fault == Died {
        DropTold(s, t, r, Stopped, facts);
      } else if c.fault == Fine {
        assert Establishes(stage, c, Answered(c.notModified));
        GotoTold(s, t, r, NetAnswered(c.notModified), facts);
      } else {
        assert Establishes(stage, c, Failed);
        GotoTold(s, t, r, if c.fault == Refused then NetRejected else NetFailing, facts);
      }
    case NetAnswered(notModified) =>
      if notModified && s.requests[r].delivered {
        FinishTold(s, t, r, NotModified, facts);
      } else {
        GotoTold(s, t, r, NetParsing(notModified), facts);
      }
    case NetParsing(notModified) =>
      if c.fault == Died {
        DropTold(s, t, r, Stopped, facts);
      } else if c.fault == Fine {
        assert Establishes(stage, c, NetParsed(c.success));
        GotoTold(s, t, r, NetWriting(Response(Network(notModified), c.success, false)), facts);
      } else {
        assert Establishes(stage, c, Failed);
        GotoTold(s, t, r, NetFailing, facts);
      }
  }

  lemma NetPostTold(s: State, t: Thread, r: Id, stage: Stage, c: Choice, facts: iset<Fact>)
    requires Ready(s, r, stage, c, facts)
    requires stage.NetWriting? || stage.NetPosting? || stage.NetRejected? || stage.NetFailing?
    ensures ToldAll(Act(s, t, r, stage, c), facts)
  {
    hide ToldBut, ToldAll, Goto, PutNet, Post, Drop, Finish, Marked;
    InRequests(s, r, facts);
    MarkedTold(s, r, facts);
    match stage
    case NetWriting(response) =>
      if c.fault == Died {
        DropTold(s, t, r, Stopped, facts);
      } else if c.fault == Fine {
        GotoTold(s, t, r, NetPosting(response), facts);
      } else {
        assert Establishes(stage, c, Failed);
        GotoTold(s, t, r, NetFailing, facts);
      }
    case NetPosting(response) =>
      if c.fault == Died {
        DropTold(Marked(s, r), t, r, Stopped, facts);
      } else if c.fault == Fine {
        PostTold(Marked(s, r), t, r, response, false, facts);
      } else {
        assert Establishes(stage, c, Failed);
        GotoTold(Marked(s, r), t, r, NetFailing, facts);
      }
    case NetRejected =>
      if c.fault != Fine {
        DropTold(s, t, r, Stopped, facts);
      } else {
        GotoTold(s, t, r, NetFailing, facts);
      }
    case NetFailing =>
      if c.fault != Fine {
        DropTold(s, t, r, Stopped, facts);
      } else {
        PostTold(s, t, r, Response(Failure, false, false), false, facts);
      }
  }

  lemma DeliveryTold(s: State, t: Thread, r: Id, stage: Stage, c: Choice, facts: iset<Fact>)
    requires Ready(s, r, stage, c, facts) && HeldBy(s, t, r)
    requires stage.Running? || stage.Calling? || stage.Forwarding? || (stage.Returned? && stage.forwards == stage.response.intermediate)
    ensures ToldAll(Act(s, t, r, stage, c), facts)
  {
    hide ToldBut, ToldAll, Goto, PutNet, Post, Drop, Finish, Noted, HeldBy;
    InRequests(s, r, facts);
    match stage
    case Running(response, forwards) =>
      if s.requests[r].canceled {
        FinishTold(s, t, r, AtDelivery, facts);
      } else {
        GotoTold(s, t, r, Calling(response, forwards), facts);
      }
    case Calling(response, forwards) =>
      var called := Noted(s, r, Called(response));
      NotedTold(s, r, Called(response), facts);
      if c.fault == Refused {
        DropTold(s, t, r, Stopped, facts);
      } else if c.fault != Fine {
        DropTold(called, t, r, Stopped, facts);
      } else {
        GotoTold(called, t, r, Returned(response, forwards), facts);
      }
    case Returned(response, forwards) =>
      if response.intermediate {
        GotoTold(s, t, r, Forwarding, facts);
      } else {
        FinishTold(s, t, r, Done, facts);
        FinishStops(s, t, r, Done);
      }
    case Forwarding =>
      if c.fault != Fine {
        DropTold(s, t, r, if c.fault == Refused then Idle else Stopped, facts);
      } else {
        PutTold(s, t, r, facts);
      }
  }

  lemma ActTold(s: State, t: Thread, r: Id, stage: Stage, c: Choice, facts: iset<Fact>)
    requires Ready(s, r, stage, c, facts) && At(s, t, r, stage)
    ensures ToldAll(Act(s, t, r, stage, c), facts)
  {
    hide Act, Ready, ToldAll, Shape, FittingBut, HeldBy;
    if stage.CacheTaken? || stage.CacheLooking? || stage.CacheParsing? || stage.CachePosting? {
      CacheTold(s, t, r, stage, c, facts);
    } else if stage.NetTaken? || stage.NetPerforming? || stage.NetAnswered? || stage.NetParsing? {
      NetTold(s, t, r, stage, c, facts);
    } else if stage.NetWriting? || stage.NetPosting? || stage.NetRejected? || stage.NetFailing? {
      NetPostTold(s, t, r, stage, c, facts);
    } else {
      DeliveryTold(s, t, r, stage, c, facts);
    }
  }

  // ----- the steps -----

  /** In s the step is an action that establishes the claim of f for its request. */
  predicate Makes(s: State, step: Step, f: Fact)
  {
    step.Go? && step.t in s.threads && s.threads[step.t].Busy? && s.threads[step.t].request == f.request
    && Establishes(s.threads[step.t].stage, step.choice, f.claim)
  }

  lemma ToldMore(s: State, facts: iset<Fact>, facts': iset<Fact>)
    requires ToldAll(s, facts) && facts <= facts'
    ensures ToldAll(s, facts')
  {
    forall x | x in s.past
      ensures Told(x, s.past[x], facts')
    {
      assert Told(x, s.past[x], facts);
      LogMore(x, s.past[x].log, facts, facts');
    }
  }

  lemma LogMore(r: Id, log: seq<Event>, facts: iset<Fact>, facts': iset<Fact>)
    requires ToldLog(r, log, facts) && facts <= facts'
    ensures ToldLog(r, log, facts')
  {
    forall j | 0 <= j < |log| && log[j].Called?
      ensures Backed(r, log[j].response, facts')
    {
      assert Backed(r, log[j].response, facts);
    }
  }

  lemma AllBut(s: State, r: Id, facts: iset<Fact>)
    requires ToldAll(s, facts) && r in s.past && r in s.requests
    ensures ToldBut(s, r, facts) && ToldPlace(r, s.past[r].place, facts)
  {
    hide ToldPlace, ToldLog;
  }

  lemma TakeTold(s: State, u: State, t: Thread, r: Id, stage: Stage, facts: iset<Fact>)
    requires ToldAll(s, facts) && u.past == s.past && u.requests == s.requests && r in s.past && r in s.requests
    requires ToldPlace(r, s.past[r].place, facts) ==> ToldStage(r, stage, facts)
    ensures ToldAll(Goto(u, t, r, stage), facts)
  {
    hide ToldPlace, ToldStage, ToldLog;
    AllBut(s, r, facts);
    AllBut(u, r, facts);
    GotoTold(u, t, r, stage, facts);
  }

  lemma TakeKnows(r: Id, p: Place, stage: Stage, facts: iset<Fact>)
    requires match stage
      case CacheTaken => true
      case NetTaken => true
      case Running(response, forwards) => p == Posted(response, forwards)
      case _ => false
    ensures ToldPlace(r, p, facts) ==> ToldStage(r, stage, facts)
  {
    hide Backed;
  }

  lemma TakesTold(s: State, step: Step, facts: iset<Fact>)
    requires Inv(s) && ToldAll(s, facts) && (step.TakeCached? || step.TakeNet? || step.TakePosted?)
    ensures ToldAll(Next(s, step), facts)
  {
    InvShape(s);
    hide Inv, Queues, Members, Goto, ToldAll, ToldPlace, ToldStage;
    SameTold(s, s, facts);
    match step
    case TakeCached(r) =>
      if Free(s, Cache) && r in s.cacheQueue {
        CountPlace(s, r);
        TakeKnows(r, s.past[r].place, CacheTaken, facts);
        TakeTold(s, s.(cacheQueue := s.cacheQueue - multiset{r}), Cache, r, CacheTaken, facts);
      }
    case TakeNet(n, r) =>
      if Free(s, Net(n)) && r in s.netQueue {
        CountPlace(s, r);
        TakeKnows(r, s.past[r].place, NetTaken, facts);
        TakeTold(s, s.(netQueue := s.netQueue - multiset{r}), Net(n), r, NetTaken, facts);
      }
    case TakePosted(m, d) =>
      if Free(s, Poster(m)) && d in s.deliveries {
        CountPosted(s, d);
        TakeKnows(d.request, s.past[d.request].place, Running(d.response, d.forwards), facts);
        TakeTold(s, s.(deliveries := s.deliveries - multiset{d}), Poster(m), d.request, Running(d.response, d.forwards), facts);
      }
  }

  lemma AddedTold(s: State, r: Id, q: Request, facts: iset<Fact>)
    requires ToldAll(s, facts)
    ensures ToldAll(Added(s, r, q), facts)
  {
    hide Backed;
  }

  lemma SameTold(s: State, v: State, facts: iset<Fact>)
    requires ToldAll(s, facts) && v.past == s.past
    ensures ToldAll(v, facts)
  {
    hide Told;
  }

  lemma StepTold(s: State, step: Step, facts: iset<Fact>)
    requires Inv(s) && ToldAll(s, facts) && forall f | Makes(s, step, f) :: f in facts
    ensures ToldAll(Next(s, step), facts)
  {
    hide Shape, Fitting, ToldAll, Act, Added, Goto;
    match step
    case Add(r, key, shouldCache, canceled) =>
      AddedTold(s, r, Request(key, shouldCache, canceled, false), facts);
    case Cancel(_) => SameTold(s, Next(s, step), facts);
    case TakeCached(_) => TakesTold(s, step, facts);
    case TakeNet(_, _) => TakesTold(s, step, facts);
    case TakePosted(_, _) => TakesTold(s, step, facts);
    case Go(t, c) =>
      if t in s.threads && s.threads[t].Busy? && s.threads[t].request in s.requests {
        var r, stage := s.threads[t].request, s.threads[t].stage;
        InvOpens(s, t, r);
        AllBut(s, r, facts);
        forall claim: Claim | Establishes(stage, c, claim)
          ensures Fact(r, claim) in facts
        {
          assert Makes(s, step, Fact(r, claim));
        }
        ActTold(s, t, r, stage, c, facts);
      }
    case Interrupt(_, _) => SameTold(s, Next(s, step), facts);
  }

  // ----- the runs -----

  ghost predicate Made(s: State, steps: seq<Step>, n: nat, f: Fact)
    requires n <= |steps|
  {
    exists i | 0 <= i < n :: Makes(Run(s, steps[..i]), steps[i], f)
  }

  ghost function Facts(s: State, steps: seq<Step>, n: nat): iset<Fact>
    requires n <= |steps|
  {
    iset f | Made(s, steps, n, f)
  }

  lemma {:induction false} RunTold(nets: nat, posters: nat, steps: seq<Step>, n: nat)
    requires n <= |steps|
    ensures var s := Start(nets, posters); ToldAll(Run(s, steps[..n]), Facts(s, steps, n))
  {
    hide Inv, Next, Run, ToldAll, Makes;
    var s := Start(nets, posters);
    if n == 0 {
      RunNone(s, steps);
      assert ToldAll(s, Facts(s, steps, 0)) by { NothingTold(nets, posters, Facts(s, steps, 0)); }
    } else {
      var u := Run(s, steps[..n - 1]);
      RunTold(nets, posters, steps, n - 1);
      Reached(nets, posters, steps[..n - 1]);
      RunSnoc(s, steps, n - 1);
      ToldMore(u, Facts(s, steps, n - 1), Facts(s, steps, n));
      StepTold(u, steps[n - 1], Facts(s, steps, n));
    }
  }

  lemma NothingTold(nets: nat, posters: nat, facts: iset<Fact>)
    ensures ToldAll(Start(nets, posters), facts)
  {
  }

  /** Step i of the run is an action, with the choice c, of a thread that holds r at the stage. */
  predicate Chose(s: State, steps: seq<Step>, i: nat, r: Id, stage: Stage, c: Choice)
  {
    i < |steps| && steps[i].Go? && steps[i].choice == c && Holds(Run(s, steps[..i]), steps[i].t, r, stage)
  }

  lemma FactChosen(s: State, steps: seq<Step>, r: Id, claim: Claim)
    requires Fact(r, claim) in Facts(s, steps, |steps|)
    ensures exists i, stage, c | Chose(s, steps, i, r, stage, c) :: Establishes(stage, c, claim)
  {
    hide Run, Establishes;
    var i :| 0 <= i < |steps| && Makes(Run(s, steps[..i]), steps[i], Fact(r, claim));
    var u := Run(s, steps[..i]);
    assert Chose(s, steps, i, r, u.threads[steps[i].t].stage, steps[i].choice);
  }

  /** Every callback of a request has its origin in the run: from the cache, an action of the thread that held the
      request found the entry fresh, or soft-expired for an intermediate one, and another parsed it with this
      success; from the network, one was answered so and another parsed it; an error comes from a fault there. */
  lemma CallbackOrigin(nets: nat, posters: nat, steps: seq<Step>, r: Id, j: nat, response: Response)
    ensures var s0 := Start(nets, posters); var s := Run(s0, steps);
      r in s.past && j < |s.past[r].log| && s.past[r].log[j] == Called(response) ==>
      match response.origin
      case CacheHit =>
        && (exists i, stage, c | Chose(s0, steps, i, r, stage, c) :: stage == CacheLooking && c.fault == Fine && c.entry == Fresh)
        && (exists i, stage, c | Chose(s0, steps, i, r, stage, c) :: stage.CacheParsing? && c.fault == Fine && c.success == response.success)
      case SoftHit =>
        && (exists i, stage, c | Chose(s0, steps, i, r, stage, c) :: stage == CacheLooking && c.fault == Fine && c.entry == SoftExpired)
        && (exists i, stage, c | Chose(s0, steps, i, r, stage, c) :: stage.CacheParsing? && c.fault == Fine && c.success == response.success)
      case Network(notModified) =>
        && (exists i, stage, c | Chose(s0, steps, i, r, stage, c) :: stage == NetPerforming && c.fault == Fine && c.notModified == notModified)
        && (exists i, stage, c | Chose(s0, steps, i, r, stage, c) :: stage.NetParsing? && c.fault == Fine && c.success == response.success)
      case Failure =>
        !response.success
        && (exists i, stage, c | Chose(s0, steps, i, r, stage, c) :: (c.fault == Refused || c.fault == Thrown)
              && (stage == NetPerforming || stage.NetParsing? || stage.NetWriting? || stage.NetPosting?))
  {
    hide Inv, Next, Run, Chose, Facts;
    var s0 := Start(nets, posters);
    var s := Run(s0, steps);
    if r in s.past && j < |s.past[r].log| && s.past[r].log[j] == Called(response) {
      assert steps[..|steps|] == steps;
      RunTold(nets, posters, steps, |steps|);
      assert Told(r, s.past[r], Facts(s0, steps, |steps|));
      match response.origin
      case CacheHit =>
        FactChosen(s0, steps, r, LookedUp(Fresh));
        FactChosen(s0, steps, r, CacheParsed(response.success));
      case SoftHit =>
        FactChosen(s0, steps, r, LookedUp(SoftExpired));
        FactChosen(s0, steps, r, CacheParsed(response.success));
      case Network(notModified) =>
        FactChosen(s0, steps, r, Answered(notModified));
        FactChosen(s0, steps, r, NetParsed(response.success));
      case Failure => FactChosen(s0, steps, r, Failed);
    }
  }
}
