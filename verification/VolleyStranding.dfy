/** The requests staged under a key, and when nothing releases them. */
module VolleyStranding {
  import opened Volley
  import opened VolleyInvariant
  import opened VolleyRuns
  import opened VolleyFuture

  // ----- the requests staged under a key -----

  predicate Kin(s: State, x: Id, k: Key)
  {
    x in s.requests && x in s.past && s.requests[x].key == k && s.requests[x].shouldCache
  }

  /** k is taken, but no cacheable request under it is in the pipeline any more. */
  ghost predicate Stranded(s: State, k: Key)
  {
    k in s.waiting && forall x | Kin(s, x, k) :: s.past[x].place == Staged || !Alive(s.past[x].place)
  }

  ghost predicate Still(s: State, s': State, k: Key)
  {
    && k in s'.waiting
    && (forall x | Kin(s, x, k) :: Kin(s', x, k) && s'.past[x].place == s.past[x].place)
    && (forall x | Kin(s', x, k) && !Kin(s, x, k) :: s'.past[x].place == Staged)
  }

  predicate Beside(s: State, v: State, r: Id)
  {
    && v.waiting == s.waiting && SameKinds(s, v) && v.past.Keys == s.past.Keys
    && forall x | x in s.past && x != r :: v.past[x] == s.past[x]
  }

  lemma BesideStill(s: State, v: State, r: Id, k: Key)
    requires Beside(s, v, r) && k in s.waiting && !Kin(s, r, k)
    ensures Still(s, v, k)
  {
  }

  lemma ReleaseStill(s: State, v: State, r: Id, k: Key, k': Key)
    requires Beside(s, v, r) && k in s.waiting && !Kin(s, r, k) && k' != k
    ensures Still(s, Release(v, k'), k)
  {
    assert forall x :: StagedUnder(v, x, k') ==> !Kin(v, x, k);
  }

  lemma FinishStill(s: State, t: Thread, r: Id, why: Why, k: Key)
    requires r in s.requests && r in s.past && k in s.waiting && !Kin(s, r, k)
    ensures Still(s, Finish(s, t, r, why), k)
  {
    hide Still, Release;
    var e := Ending(s, t, r, why);
    BesideStill(s, e, r, k);
    if s.requests[r].shouldCache {
      ReleaseStill(s, e, r, k, s.requests[r].key);
    }
  }

  lemma GotoBeside(s: State, t: Thread, r: Id, stage: Stage)
    ensures Beside(s, Goto(s, t, r, stage), r)
  {
  }

  predicate MayFinish(stage: Stage)
  {
    stage.CacheTaken? || stage.NetTaken? || stage.NetAnswered? || stage.Running? || stage.Returned?
  }

  lemma PutBeside(s: State, t: Thread, r: Id)
    ensures Beside(s, PutNet(s, t, r), r)
  {
  }

  lemma PostBeside(s: State, t: Thread, r: Id, response: Response, forwards: bool)
    ensures Beside(s, Post(s, t, r, response, forwards), r)
  {
  }

  lemma DropBeside(s: State, t: Thread, r: Id, pc: Pc)
    ensures Beside(s, Drop(s, t, r, pc), r)
  {
  }

  lemma PrimitivesBeside(s: State, t: Thread, r: Id, pc: Pc, response: Response, forwards: bool)
    ensures Beside(s, PutNet(s, t, r), r)
    ensures Beside(s, Post(s, t, r, response, forwards), r)
    ensures Beside(s, Drop(s, t, r, pc), r)
  {
    hide Beside, PutNet, Post, Drop;
    PutBeside(s, t, r);
    PostBeside(s, t, r, response, forwards);
    DropBeside(s, t, r, pc);
  }

  lemma BesideChain(s: State, m: State, v: State, r: Id)
    requires Beside(s, m, r) && Beside(m, v, r)
    ensures Beside(s, v, r)
  {
  }

  lemma MarkNoteBeside(s: State, r: Id, e: Event)
    ensures Beside(s, s, r) && Beside(s, Marked(s, r), r) && Beside(s, Noted(s, r, e), r)
  {
  }

  lemma MarkedThen(s: State, v: State, r: Id)
    requires Beside(Marked(s, r), v, r)
    ensures Beside(s, v, r)
  {
    MarkNoteBeside(s, r, Dropped);
    hide Beside, Marked;
    BesideChain(s, Marked(s, r), v, r);
  }

  lemma CacheBeside(s: State, t: Thread, r: Id, stage: Stage, c: Choice)
    requires r in s.requests && (stage.CacheLooking? || stage.CacheParsing? || stage.CachePosting?)
    ensures Beside(s, Act(s, t, r, stage, c), r)
  {
    hide Beside, Goto, PutNet, Post, Drop, Marked;
    var m := if stage.CachePosting? then Marked(s, r) else s;
    var response := if stage.CachePosting? then stage.response else Response(CacheHit, true, false);
    PrimitivesBeside(m, t, r, Caught(c.fault), response, response.intermediate);
    match stage
    case CacheLooking => GotoBeside(s, t, r, CacheParsing(c.entry == SoftExpired));
    case CacheParsing(soft) => GotoBeside(s, t, r, CachePosting(Response(if soft then SoftHit else CacheHit, c.success, soft)));
    case CachePosting(_) => MarkedThen(s, Act(s, t, r, stage, c), r);
  }

  lemma NetBeside(s: State, t: Thread, r: Id, stage: Stage, c: Choice)
    requires r in s.requests && (stage.NetPerforming? || stage.NetParsing? || stage.NetWriting? || stage.NetPosting?)
    ensures Beside(s, Act(s, t, r, stage, c), r)
  {
    hide Beside, Goto, PutNet, Post, Drop, Marked;
    GotoBeside(s, t, r, NetFailing);
    DropBeside(s, t, r, Stopped);
    match stage
    case NetPerforming =>
      GotoBeside(s, t, r, NetRejected);
      GotoBeside(s, t, r, NetAnswered(c.notModified));
    case NetParsing(notModified) => GotoBeside(s, t, r, NetWriting(Response(Network(notModified), c.success, false)));
    case NetWriting(response) => GotoBeside(s, t, r, NetPosting(response));
    case NetPosting(response) =>
      PrimitivesBeside(Marked(s, r), t, r, Stopped, response, false);
      GotoBeside(Marked(s, r), t, r, NetFailing);
      MarkedThen(s, Act(s, t, r, stage, c), r);
  }

  lemma EndBeside(s: State, t: Thread, r: Id, stage: Stage, c: Choice)
    requires r in s.requests && (stage.NetRejected? || stage.NetFailing? || stage.Calling? || stage.Forwarding?)
    ensures Beside(s, Act(s, t, r, stage, c), r)
  {
    hide Beside, Goto, PutNet, Post, Drop, Noted;
    PrimitivesBeside(s, t, r, Stopped, Response(Failure, false, false), false);
    PrimitivesBeside(s, t, r, Idle, Response(Failure, false, false), false);
    GotoBeside(s, t, r, NetFailing);
    if stage.Calling? {
      var called := Noted(s, r, Called(stage.response));
      MarkNoteBeside(s, r, Called(stage.response));
      PrimitivesBeside(called, t, r, Stopped, stage.response, false);
      GotoBeside(called, t, r, Returned(stage.response, stage.forwards));
      if c.fault != Refused {
        BesideChain(s, called, Act(s, t, r, stage, c), r);
      }
    }
  }

  lemma FinishingStill(s: State, t: Thread, r: Id, stage: Stage, c: Choice, k: Key)
    requires At(s, t, r, stage) && MayFinish(stage) && k in s.waiting && !Kin(s, r, k)
    ensures Still(s, Act(s, t, r, stage, c), k)
  {
    hide Still, Finish, Goto, FittingBut, Shape, Kin, Beside, HeldBy;
    forall stage': Stage
      ensures Still(s, Goto(s, t, r, stage'), k)
    {
      GotoBeside(s, t, r, stage');
      BesideStill(s, Goto(s, t, r, stage'), r, k);
    }
    forall why: Why
      ensures Still(s, Finish(s, t, r, why), k)
    {
      FinishStill(s, t, r, why, k);
    }
    FinishStops(s, t, r, Done);
  }

  lemma ActStill(s: State, t: Thread, r: Id, stage: Stage, c: Choice, k: Key)
    requires At(s, t, r, stage) && k in s.waiting && !Kin(s, r, k)
    ensures Still(s, Act(s, t, r, stage, c), k)
  {
    if MayFinish(stage) {
      FinishingStill(s, t, r, stage, c, k);
    } else {
      hide Still, Act, Kin, Beside, Shape, FittingBut, FitsHeld;
      if stage.CacheLooking? || stage.CacheParsing? || stage.CachePosting? {
        CacheBeside(s, t, r, stage, c);
      } else if stage.NetPerforming? || stage.NetParsing? || stage.NetWriting? || stage.NetPosting? {
        NetBeside(s, t, r, stage, c);
      } else {
        EndBeside(s, t, r, stage, c);
      }
      BesideStill(s, Act(s, t, r, stage, c), r, k);
    }
  }

  lemma StaysStranded(s: State, s': State, k: Key)
    requires Stranded(s, k) && Still(s, s', k)
    ensures Stranded(s', k)
  {
  }

  lemma SameStill(s: State, s': State, k: Key)
    requires k in s.waiting && s'.waiting == s.waiting && SameKinds(s, s') && s'.past == s.past
    ensures Still(s, s', k)
  {
  }

  lemma TakeStill(s: State, u: State, t: Thread, r: Id, stage: Stage, k: Key)
    requires Stranded(s, k) && r in s.past && Alive(s.past[r].place) && s.past[r].place != Staged
    requires u.waiting == s.waiting && u.requests == s.requests && u.past == s.past
    ensures Still(s, Goto(u, t, r, stage), k)
  {
    hide Still, Goto;
    GotoBeside(u, t, r, stage);
    BesideStill(s, Goto(u, t, r, stage), r, k);
  }

  lemma AddStill(s: State, r: Id, q: Request, k: Key)
    requires Members(s) && r !in s.requests && k in s.waiting
    ensures Still(s, Added(s, r, q), k)
  {
  }

  lemma TakesStill(s: State, step: Step, k: Key)
    requires Inv(s) && Stranded(s, k) && (step.TakeCached? || step.TakeNet? || step.TakePosted?)
    ensures Still(s, Next(s, step), k)
  {
    hide Queues, Holders, Waiters, Leaders, Fits, Goto, Still, Shape;
    SameStill(s, s, k);
    match step
    case TakeCached(r) =>
      if Free(s, Cache) && r in s.cacheQueue {
        InvShape(s);
        CountPlace(s, r);
        TakeStill(s, s.(cacheQueue := s.cacheQueue - multiset{r}), Cache, r, CacheTaken, k);
      }
    case TakeNet(n, r) =>
      if Free(s, Net(n)) && r in s.netQueue {
        InvShape(s);
        CountPlace(s, r);
        TakeStill(s, s.(netQueue := s.netQueue - multiset{r}), Net(n), r, NetTaken, k);
      }
    case TakePosted(m, d) =>
      if Free(s, Poster(m)) && d in s.deliveries {
        InvShape(s);
        CountPosted(s, d);
        TakeStill(s, s.(deliveries := s.deliveries - multiset{d}), Poster(m), d.request, Running(d.response, d.forwards), k);
      }
  }

  lemma NextStill(s: State, step: Step, k: Key)
    requires Inv(s) && Stranded(s, k)
    ensures Still(s, Next(s, step), k)
  {
    hide Queues, Holders, Waiters, Leaders, Fits, Act, Goto, Still, Added, Shape;
    SameStill(s, s, k);
    match step
    case Add(r, key, shouldCache, canceled) =>
      if r !in s.requests {
        InvShape(s);
        AddStill(s, r, Request(key, shouldCache, canceled, false), k);
      }
    case Cancel(_) => SameStill(s, Next(s, step), k);
    case TakeCached(_) => TakesStill(s, step, k);
    case TakeNet(_, _) => TakesStill(s, step, k);
    case TakePosted(_, _) => TakesStill(s, step, k);
    case Go(t, c) =>
      if t in s.threads && s.threads[t].Busy? && s.threads[t].request in s.requests {
        var r := s.threads[t].request;
        InvOpens(s, t, r);
        ActStill(s, t, r, s.threads[t].stage, c, k);
      }
    case Interrupt(_, _) => SameStill(s, Next(s, step), k);
  }

  lemma InvShape(s: State)
    requires Inv(s)
    ensures Queues(s) && Members(s)
  {
  }

  /** The requests staged under a stranded key stay staged, without any event, whatever happens. */
  lemma {:induction false} StrandedForever(s: State, steps: seq<Step>, k: Key, r: Id)
    requires Inv(s) && Stranded(s, k) && r in s.past && StagedUnder(s, r, k)
    ensures var s' := Run(s, steps); Stranded(s', k) && StagedUnder(s', r, k) && r in s'.past && s'.past[r].log == []
    decreases |steps|
  {
    if steps != [] {
      var s' := Next(s, steps[0]);
      NextKeeps(s, steps[0]);
      NextStill(s, steps[0], k);
      StaysStranded(s, s', k);
      StagedStays(s, s', k, r);
      hide Inv, Next, Stranded, StagedUnder, Still;
      StrandedForever(s', steps[1..], k, r);
    } else {
      hide Queues, Holders, Leaders, Members;
      assert Fits(s.past[r], s.requests[r]);
    }
  }

  lemma StagedStays(s: State, s': State, k: Key, r: Id)
    requires Inv(s) && Still(s, s', k) && r in s.past && StagedUnder(s, r, k)
    ensures StagedUnder(s', r, k) && r in s'.past
  {
    hide Queues, Holders, Leaders, Fits;
    assert Kin(s, r, k);
  }

  /** While requests are staged under a key, an unfinished one that is not staged holds them back. They
      are stranded exactly when no cacheable request under the key stands at any other spot, by count. */
  lemma StagedHasLeader(nets: nat, posters: nat, steps: seq<Step>, k: Key)
    ensures var s := Run(Start(nets, posters), steps);
      && (k in s.waiting ==> exists r :: Leads(s, r, k))
      && (Stranded(s, k) <==> k in s.waiting && forall r, p | Kin(s, r, k) && Times(s, r, p) > 0 :: p == Stage(k))
  {
    hide Start, Run, Queues, Holders, Waiters, Fits, Stranded, Times, Kin;
    var s := Run(Start(nets, posters), steps);
    Reached(nets, posters, steps);
    StrandedMeans(s, k);
  }

  lemma StrandedMeans(s: State, k: Key)
    requires Shape(s)
    ensures Stranded(s, k) <==> k in s.waiting && forall r, p | Kin(s, r, k) && Times(s, r, p) > 0 :: p == Stage(k)
  {
    hide Queues, Holders, Waiters, Leaders, Members, Times, SpotOf;
    forall r, p | Kin(s, r, k)
      ensures Times(s, r, p) == One(Alive(s.past[r].place) && p == SpotOf(s.past[r].place, r, k))
    {
      TimesIs(s, r, p);
    }
    forall r | Kin(s, r, k)
      ensures SpotOf(s.past[r].place, r, k) == Stage(k) <==> s.past[r].place == Staged
    {
      OnlyStagedInStage(s.past[r].place, r, k);
    }
    if k in s.waiting && !Stranded(s, k) {
      var r :| Kin(s, r, k) && s.past[r].place != Staged && Alive(s.past[r].place);
      assert Times(s, r, SpotOf(s.past[r].place, r, k)) == 1;
    }
  }

  lemma OnlyStagedInStage(p: Place, r: Id, k: Key)
    ensures SpotOf(p, r, k) == Stage(k) <==> p == Staged
  {
  }

  /** Two cacheable requests under k: the first stands at p, the second is staged. */
  predicate Pair(s: State, k: Key, p: Place)
  {
    && s.requests.Keys == s.past.Keys == {1, 2} && k in s.waiting && Cache in s.threads
    && s.requests[1] == s.requests[2] == Request(k, true, false, false)
    && s.past[1].place == p && s.past[2].place == Staged
    && (p == InCache ==> s.threads[Cache] == Idle) && (p.Held? ==> s.threads[Cache] == Busy(1, p.stage))
  }

  lemma PairAdded(nets: nat, posters: nat, k: Key)
    ensures var s := Next(Next(Start(nets, posters), Add(1, k, true, false)), Add(2, k, true, false));
      Pair(s, k, InCache) && 1 in s.cacheQueue
  {
  }

  lemma PairTaken(s: State, k: Key)
    requires Pair(s, k, InCache) && 1 in s.cacheQueue
    ensures Pair(Next(s, TakeCached(1)), k, Held(Cache, CacheTaken))
  {
  }

  lemma PairChecked(s: State, k: Key, c: Choice)
    requires Pair(s, k, Held(Cache, CacheTaken))
    ensures Pair(Next(s, Go(Cache, c)), k, Held(Cache, CacheLooking))
  {
  }

  lemma PairDropped(s: State, k: Key, c: Choice)
    requires Pair(s, k, Held(Cache, CacheLooking)) && c.fault != Fine
    ensures Pair(Next(s, Go(Cache, c)), k, Gone)
  {
  }

  lemma PairStranded(s: State, k: Key)
    requires Pair(s, k, Gone)
    ensures Stranded(s, k) && StagedUnder(s, 2, k)
  {
  }

  /** One fault while the cache dispatcher looks up the first request under k strands the second. */
  lemma FaultStrands(nets: nat, posters: nat, k: Key, c: Choice)
    requires c.fault != Fine
    ensures var s := Run(Start(nets, posters), [Add(1, k, true, false), Add(2, k, true, false)] + [TakeCached(1), Go(Cache, c)] + [Go(Cache, c)]);
      Stranded(s, k) && StagedUnder(s, 2, k)
  {
    hide Next, Pair, Start, Stranded, StagedUnder;
    var s0 := Start(nets, posters);
    var s2 := Next(Next(s0, Add(1, k, true, false)), Add(2, k, true, false));
    var s5 := Next(Next(Next(s2, TakeCached(1)), Go(Cache, c)), Go(Cache, c));
    PairAdded(nets, posters, k);
    PairTaken(s2, k);
    PairChecked(Next(s2, TakeCached(1)), k, c);
    PairDropped(Next(Next(s2, TakeCached(1)), Go(Cache, c)), k, c);
    PairStranded(s5, k);
    assert [Add(1, k, true, false), Add(2, k, true, false)] + [TakeCached(1), Go(Cache, c)] + [Go(Cache, c)]
        == [Add(1, k, true, false), Add(2, k, true, false)] + ([TakeCached(1), Go(Cache, c)] + [Go(Cache, c)]);
    RunTwo(s0, Add(1, k, true, false), Add(2, k, true, false), [TakeCached(1), Go(Cache, c)] + [Go(Cache, c)]);
    RunTwo(s2, TakeCached(1), Go(Cache, c), [Go(Cache, c)]);
    RunOne(Next(Next(s2, TakeCached(1)), Go(Cache, c)), Go(Cache, c));
  }
}
