/** Which faults lose a request, and which of those strand its key. */
module VolleyLoss {
  import opened Volley
  import opened VolleyInvariant
  import opened VolleyRuns
  import opened VolleyFuture
  import opened VolleyStranding

  // ----- what is claimed -----

  /** r was dropped: it never finishes. */
  predicate Lost(s: State, r: Id)
  {
    r in s.past && s.past[r].log != [] && s.past[r].log[|s.past[r].log| - 1] == Dropped
  }

  /** The faults that no handler turns into a posted error. */
  predicate Fails(stage: Stage, fault: Fault)
  {
    match stage
    case CacheLooking => fault != Fine
    case CacheParsing(_) => fault != Fine
    case CachePosting(_) => fault != Fine
    case NetPerforming => fault == Died
    case NetParsing(_) => fault == Died
    case NetWriting(_) => fault == Died
    case NetPosting(_) => fault == Died
    case NetRejected => fault != Fine
    case NetFailing => fault != Fine
    case Calling(_, _) => fault != Fine
    case Forwarding => fault != Fine
    case _ => false
  }

  /** In the state s the step is such a fault of a thread that holds r. */
  predicate Loses(s: State, step: Step, r: Id)
  {
    step.Go? && step.t in s.threads && s.threads[step.t].Busy? && s.threads[step.t].request == r
    && Fails(s.threads[step.t].stage, step.choice.fault)
  }

  /** The step loses the last request that could still release those staged under k. */
  ghost predicate LosesLastLeader(s: State, step: Step, r: Id, k: Key)
  {
    Loses(s, step, r) && k in s.waiting && Leads(s, r, k) && forall x | Leads(s, x, k) && x != r :: Lost(s, x)
  }

  // ----- one action -----

  /** What an action of t, which holds r, does to places: r leaves the pipeline only by the given loss or by
      finishing, which releases its key; no other request moves but from the staged ones to the cache queue. */
  ghost predicate Effect(s: State, v: State, t: Thread, r: Id, lost: bool)
  {
    && v.past.Keys == s.past.Keys && SameKinds(s, v) && v.waiting.Keys <= s.waiting.Keys
    && s.cacheQueue <= v.cacheQueue
    && v.threads.Keys == s.threads.Keys && (forall t' | t' in s.threads && t' != t :: v.threads[t'] == s.threads[t'])
    && PlaceOf(v, r) != Staged && (PlaceOf(v, r) == Gone <==> lost)
    && (PlaceOf(v, r) == Ended && r in s.requests && s.requests[r].shouldCache ==> s.requests[r].key !in v.waiting)
    && (forall x | x != r :: PlaceOf(v, x) == PlaceOf(s, x)
          || (PlaceOf(v, x) == InCache && x in s.requests && StagedUnder(s, x, s.requests[x].key) && s.requests[x].key !in v.waiting))
  }

  predicate Holding(s: State, t: Thread, r: Id)
  {
    t in s.threads && r in s.past && r in s.requests && PlaceOf(s, r) != Staged
  }

  lemma GotoEffect(s: State, t: Thread, r: Id, stage: Stage)
    requires Holding(s, t, r)
    ensures Effect(s, Goto(s, t, r, stage), t, r, false)
  {
  }

  lemma PutEffect(s: State, t: Thread, r: Id)
    requires Holding(s, t, r)
    ensures Effect(s, PutNet(s, t, r), t, r, false)
  {
  }

  lemma PostEffect(s: State, t: Thread, r: Id, response: Response, forwards: bool)
    requires Holding(s, t, r)
    ensures Effect(s, Post(s, t, r, response, forwards), t, r, false)
  {
  }

  lemma DropEffect(s: State, t: Thread, r: Id, pc: Pc)
    requires Holding(s, t, r)
    ensures Effect(s, Drop(s, t, r, pc), t, r, true)
  {
  }

  lemma FinishEffect(s: State, t: Thread, r: Id, why: Why)
    requires Holding(s, t, r)
    ensures Effect(s, Finish(s, t, r, why), t, r, false)
  {
    hide PlaceOf, Ending, Release, Effect, EndedAs, Released;
    var e, k := Ending(s, t, r, why), s.requests[r].key;
    EndingPlaces(s, t, r, why);
    if s.requests[r].shouldCache && k in e.waiting {
      ReleaseIs(e, k);
      ReleasedEffect(s, e, Release(e, k), t, r);
    } else {
      if s.requests[r].shouldCache {
        NoRelease(e, k);
      }
      EndedEffect(s, e, t, r);
    }
  }

  ghost predicate EndedAs(s: State, e: State, t: Thread, r: Id)
  {
    && Placed(s, e, r, Ended) && e.requests == s.requests && e.waiting == s.waiting && e.cacheQueue == s.cacheQueue
    && e.past.Keys == s.past.Keys && t in s.threads && e.threads == s.threads[t := Idle] && r in s.requests
  }

  lemma EndedEffect(s: State, e: State, t: Thread, r: Id)
    requires EndedAs(s, e, t, r) && (r in s.requests && s.requests[r].shouldCache ==> s.requests[r].key !in e.waiting)
    ensures Effect(s, e, t, r, false)
  {
    hide PlaceOf;
  }

  lemma ReleasedEffect(s: State, e: State, v: State, t: Thread, r: Id)
    requires EndedAs(s, e, t, r) && r in s.requests && Released(e, v, s.requests[r].key)
    ensures Effect(s, v, t, r, false)
  {
    hide PlaceOf;
    assert PlaceOf(e, r) == Ended;
  }

  lemma NoRelease(e: State, k: Key)
    requires k !in e.waiting
    ensures Release(e, k) == e
  {
  }

  lemma EndingPlaces(s: State, t: Thread, r: Id, why: Why)
    requires Holding(s, t, r)
    ensures EndedAs(s, Ending(s, t, r, why), t, r)
  {
  }

  lemma MarkedEffect(s: State, v: State, t: Thread, r: Id, lost: bool)
    requires Effect(Marked(s, r), v, t, r, lost)
    ensures Effect(s, v, t, r, lost)
  {
  }

  lemma NotedEffect(s: State, e: Event, v: State, t: Thread, r: Id, lost: bool)
    requires Effect(Noted(s, r, e), v, t, r, lost)
    ensures Effect(s, v, t, r, lost)
  {
  }

  lemma CacheEffect(s: State, t: Thread, r: Id, stage: Stage, c: Choice)
    requires Holding(s, t, r)
    requires stage.CacheTaken? || stage.CacheLooking? || stage.CacheParsing? || stage.CachePosting?
    ensures Effect(s, Act(s, t, r, stage, c), t, r, Fails(stage, c.fault))
  {
    hide Effect, Goto, PutNet, Post, Drop, Finish;
    DropEffect(s, t, r, Caught(c.fault));
    match stage
    case CacheTaken =>
      FinishEffect(s, t, r, CacheDiscard);
      GotoEffect(s, t, r, CacheLooking);
    case CacheLooking =>
      PutEffect(s, t, r);
      GotoEffect(s, t, r, CacheParsing(c.entry == SoftExpired));
    case CacheParsing(soft) =>
      GotoEffect(s, t, r, CachePosting(Response(if soft then SoftHit else CacheHit, c.success, soft)));
    case CachePosting(response) =>
      MarkedHolding(s, t, r);
      DropEffect(Marked(s, r), t, r, Caught(c.fault));
      PostEffect(Marked(s, r), t, r, response, response.intermediate);
      MarkedEffect(s, Act(s, t, r, stage, c), t, r, Fails(stage, c.fault));
  }

  lemma MarkedHolding(s: State, t: Thread, r: Id)
    requires Holding(s, t, r)
    ensures Holding(Marked(s, r), t, r)
  {
  }

  lemma NetEffect(s: State, t: Thread, r: Id, stage: Stage, c: Choice)
    requires Holding(s, t, r)
    requires stage.NetTaken? || stage.NetPerforming? || stage.NetAnswered? || stage.NetParsing? || stage.NetWriting?
    ensures Effect(s, Act(s, t, r, stage, c), t, r, Fails(stage, c.fault))
  {
    hide Effect, Goto, PutNet, Post, Drop, Finish;
    DropEffect(s, t, r, Stopped);
    GotoEffect(s, t, r, NetFailing);
    match stage
    case NetTaken =>
      FinishEffect(s, t, r, NetDiscard);
      GotoEffect(s, t, r, NetPerforming);
    case NetPerforming =>
      GotoEffect(s, t, r, NetRejected);
      GotoEffect(s, t, r, NetAnswered(c.notModified));
    case NetAnswered(notModified) =>
      FinishEffect(s, t, r, NotModified);
      GotoEffect(s, t, r, NetParsing(notModified));
    case NetParsing(notModified) =>
      GotoEffect(s, t, r, NetWriting(Response(Network(notModified), c.success, false)));
    case NetWriting(response) =>
      GotoEffect(s, t, r, NetPosting(response));
  }

  lemma NetPostEffect(s: State, t: Thread, r: Id, stage: Stage, c: Choice)
    requires Holding(s, t, r)
    requires stage.NetPosting? || stage.NetRejected? || stage.NetFailing?
    ensures Effect(s, Act(s, t, r, stage, c), t, r, Fails(stage, c.fault))
  {
    hide Effect, Goto, PutNet, Post, Drop, Finish, Marked;
    if stage.NetPosting? {
      MarkedHolding(s, t, r);
      DropEffect(Marked(s, r), t, r, Stopped);
      GotoEffect(Marked(s, r), t, r, NetFailing);
      PostEffect(Marked(s, r), t, r, stage.response, false);
      MarkedEffect(s, Act(s, t, r, stage, c), t, r, Fails(stage, c.fault));
    } else {
      DropEffect(s, t, r, Stopped);
      GotoEffect(s, t, r, NetFailing);
      PostEffect(s, t, r, Response(Failure, false, false), false);
    }
  }

  lemma DeliveryEffect(s: State, t: Thread, r: Id, stage: Stage, c: Choice)
    requires Holding(s, t, r)
    requires stage.Running? || stage.Forwarding? || (stage.Returned? && stage.forwards == stage.response.intermediate && HeldBy(s, t, r))
    ensures Effect(s, Act(s, t, r, stage, c), t, r, Fails(stage, c.fault))
  {
    hide Effect, Goto, PutNet, Post, Drop, Finish;
    match stage
    case Running(response, forwards) =>
      FinishEffect(s, t, r, AtDelivery);
      GotoEffect(s, t, r, Calling(response, forwards));
    case Returned(response, forwards) =>
      GotoEffect(s, t, r, Forwarding);
      FinishEffect(s, t, r, Done);
      FinishStops(s, t, r, Done);
    case Forwarding =>
      DropEffect(s, t, r, Idle);
      DropEffect(s, t, r, Stopped);
      PutEffect(s, t, r);
  }

  lemma CallingEffect(s: State, t: Thread, r: Id, response: Response, forwards: bool, c: Choice)
    requires Holding(s, t, r)
    ensures Effect(s, Act(s, t, r, Calling(response, forwards), c), t, r, c.fault != Fine)
  {
    hide Effect, Goto, PutNet, Post, Drop, Finish;
    var e := Called(response);
    var called := Noted(s, r, e);
    assert Holding(called, t, r);
    DropEffect(s, t, r, Stopped);
    DropEffect(called, t, r, Stopped);
    GotoEffect(called, t, r, Returned(response, forwards));
    if c.fault != Refused {
      NotedEffect(s, e, Act(s, t, r, Calling(response, forwards), c), t, r, c.fault != Fine);
    }
  }

  lemma ActEffect(s: State, t: Thread, r: Id, stage: Stage, c: Choice)
    requires At(s, t, r, stage) && s.past[r].place == Held(t, stage)
    ensures Effect(s, Act(s, t, r, stage, c), t, r, Fails(stage, c.fault))
  {
    hide Act, Effect, Shape, FittingBut;
    if stage.CacheTaken? || stage.CacheLooking? || stage.CacheParsing? || stage.CachePosting? {
      CacheEffect(s, t, r, stage, c);
    } else if stage.NetTaken? || stage.NetPerforming? || stage.NetAnswered? || stage.NetParsing? || stage.NetWriting? {
      NetEffect(s, t, r, stage, c);
    } else if stage.NetPosting? || stage.NetRejected? || stage.NetFailing? {
      NetPostEffect(s, t, r, stage, c);
    } else if stage.Calling? {
      CallingEffect(s, t, r, stage.response, stage.forwards, c);
    } else {
      DeliveryEffect(s, t, r, stage, c);
    }
  }

  // ----- one step -----

  /** The step is an action of a thread that holds a request. */
  predicate Acts(s: State, step: Step)
  {
    step.Go? && step.t in s.threads && s.threads[step.t].Busy? && s.threads[step.t].request in s.requests
  }

  lemma StepEffect(s: State, step: Step)
    requires Inv(s) && Acts(s, step)
    ensures var r := s.threads[step.t].request;
      Effect(s, Next(s, step), step.t, r, Fails(s.threads[step.t].stage, step.choice.fault))
  {
    hide Shape, Fitting, Effect, Act;
    var t := step.t;
    var r := s.threads[t].request;
    InvOpens(s, t, r);
    ActEffect(s, t, r, s.threads[t].stage, step.choice);
  }

  /** In a step that is no action, the requests already added stay in the pipeline or out of it. */
  ghost predicate Quiet(s: State, v: State)
  {
    && s.past.Keys <= v.past.Keys
    && (forall x | x in s.past :: PlaceOf(s, x) == PlaceOf(v, x)
          || (PlaceOf(s, x) != Staged && Alive(PlaceOf(s, x)) && PlaceOf(v, x).Held?))
    && (forall x | x in v.past && x !in s.past :: PlaceOf(v, x) in {Staged, InCache, InNet})
  }

  lemma TakeQuiet(s: State, u: State, t: Thread, r: Id, stage: Stage)
    requires u.past == s.past && (r in s.past ==> PlaceOf(s, r) != Staged && Alive(PlaceOf(s, r)))
    ensures Quiet(s, Goto(u, t, r, stage))
  {
  }

  lemma AddQuiet(s: State, r: Id, q: Request)
    requires r !in s.past
    ensures Quiet(s, Added(s, r, q))
  {
  }

  lemma SameQuiet(s: State, v: State)
    requires v.past == s.past
    ensures Quiet(s, v)
  {
  }

  lemma TakesQuiet(s: State, step: Step)
    requires Inv(s) && (step.TakeCached? || step.TakeNet? || step.TakePosted?)
    ensures Quiet(s, Next(s, step))
  {
    InvShape(s);
    hide Inv, Queues, Members, Goto, Quiet, PlaceOf;
    SameQuiet(s, s);
    match step
    case TakeCached(r) =>
      if Free(s, Cache) && r in s.cacheQueue {
        CountPlace(s, r);
        PlaceIs(s, r);
        TakeQuiet(s, s.(cacheQueue := s.cacheQueue - multiset{r}), Cache, r, CacheTaken);
      }
    case TakeNet(n, r) =>
      if Free(s, Net(n)) && r in s.netQueue {
        CountPlace(s, r);
        PlaceIs(s, r);
        TakeQuiet(s, s.(netQueue := s.netQueue - multiset{r}), Net(n), r, NetTaken);
      }
    case TakePosted(m, d) =>
      if Free(s, Poster(m)) && d in s.deliveries {
        CountPosted(s, d);
        PlaceIs(s, d.request);
        TakeQuiet(s, s.(deliveries := s.deliveries - multiset{d}), Poster(m), d.request, Running(d.response, d.forwards));
      }
  }

  lemma StepQuiet(s: State, step: Step)
    requires Inv(s) && !Acts(s, step)
    ensures Quiet(s, Next(s, step))
  {
    hide Shape, Fitting, Quiet, Act, Added, Goto;
    if step.TakeCached? || step.TakeNet? || step.TakePosted? {
      TakesQuiet(s, step);
    } else if step.Add? && step.request !in s.requests {
      InvMembers(s, step.request);
      AddQuiet(s, step.request, Request(step.key, step.shouldCache, step.canceled, false));
    } else {
      SameQuiet(s, Next(s, step));
    }
  }

  lemma LostIsGone(s: State, r: Id)
    requires Inv(s)
    ensures Lost(s, r) <==> r in s.past && PlaceOf(s, r) == Gone
  {
    InvMembers(s, r);
    if r in s.past {
      GoneDropped(s.past[r], s.requests[r]);
    }
  }

  lemma GoneDropped(h: History, q: Request)
    requires Fits(h, q)
    ensures h.place == Gone <==> h.log != [] && h.log[|h.log| - 1] == Dropped
  {
    if Alive(h.place) {
      hide Fits;
      FitsLegal(h, q);
    }
  }

  lemma Actor(s: State, step: Step, r: Id)
    requires Inv(s)
    ensures Loses(s, step, r) ==> Acts(s, step) && r in s.past && s.threads[step.t].request == r
  {
    if Loses(s, step, r) {
      assert PlaceOf(s, r).Held?;
      InvMembers(s, r);
    }
  }

  /** A step drops a request exactly when it is one of the losing faults of the thread that holds it. */
  lemma StepLoses(s: State, step: Step, r: Id)
    requires Inv(s)
    ensures Lost(Next(s, step), r) <==> Lost(s, r) || Loses(s, step, r)
  {
    hide Inv, Next, Lost, Loses, Effect, Quiet, PlaceOf;
    NextKeeps(s, step);
    LostIsGone(s, r);
    LostIsGone(Next(s, step), r);
    Actor(s, step, r);
    if Acts(s, step) {
      var r0 := s.threads[step.t].request;
      StepEffect(s, step);
      HeldNotGone(s, step.t);
      InvMembers(s, r0);
      EffectOnGone(s, Next(s, step), step.t, r0, Fails(s.threads[step.t].stage, step.choice.fault), r);
      LosesIs(s, step, r);
    } else {
      StepQuiet(s, step);
      QuietOnGone(s, Next(s, step), r);
    }
  }

  lemma QuietOnGone(s: State, v: State, r: Id)
    requires Quiet(s, v)
    ensures (r in v.past && PlaceOf(v, r) == Gone) <==> (r in s.past && PlaceOf(s, r) == Gone)
  {
    hide PlaceOf;
  }

  lemma EffectOnGone(s: State, v: State, t: Thread, r0: Id, lost: bool, r: Id)
    requires Effect(s, v, t, r0, lost) && r0 in s.past && PlaceOf(s, r0) != Gone
    ensures (r in v.past && PlaceOf(v, r) == Gone) <==> (r in s.past && PlaceOf(s, r) == Gone) || (r == r0 && lost)
  {
    hide PlaceOf;
  }

  lemma LosesIs(s: State, step: Step, r: Id)
    requires Acts(s, step)
    ensures Loses(s, step, r) <==> r == s.threads[step.t].request && Fails(s.threads[step.t].stage, step.choice.fault)
  {
  }

  lemma HeldNotGone(s: State, t: Thread)
    requires Inv(s) && t in s.threads && s.threads[t].Busy?
    ensures PlaceOf(s, s.threads[t].request) == Held(t, s.threads[t].stage)
  {
  }

  // ----- which steps strand a key -----

  /** x is cacheable under k and in the pipeline, not staged. */
  predicate Works(s: State, x: Id, k: Key)
  {
    Kin(s, x, k) && PlaceOf(s, x) != Staged && Alive(PlaceOf(s, x))
  }

  lemma StrandedIs(s: State, k: Key)
    ensures Stranded(s, k) <==> k in s.waiting && forall x :: !Works(s, x, k)
  {
    forall x
      ensures Works(s, x, k) <==> Kin(s, x, k) && s.past[x].place != Staged && Alive(s.past[x].place)
    {
    }
  }

  lemma WorksIs(s: State, x: Id, k: Key)
    requires Inv(s)
    ensures Works(s, x, k) <==> Leads(s, x, k) && !Lost(s, x)
  {
    hide Shape, Fitting, Fits;
    InvMembers(s, x);
    LostIsGone(s, x);
  }

  /** A request at work stays at work, unless the step loses it or finishes it and releases its key. */
  lemma StaysAtWork(s: State, step: Step, x: Id, k: Key)
    requires Inv(s) && Works(s, x, k)
    ensures var v := Next(s, step); Works(v, x, k) || Loses(s, step, x) || k !in v.waiting
  {
    hide Inv, Next, Loses, Effect, Quiet, PlaceOf;
    KinStays(s, step, x, k);
    if Acts(s, step) {
      var r := s.threads[step.t].request;
      StepEffect(s, step);
      LosesIs(s, step, x);
      EffectAtWork(s, Next(s, step), step.t, r, Fails(s.threads[step.t].stage, step.choice.fault), x, k);
    } else {
      StepQuiet(s, step);
      QuietAtWork(s, Next(s, step), x);
    }
  }

  lemma KinStays(s: State, step: Step, x: Id, k: Key)
    requires Inv(s) && Kin(s, x, k)
    ensures Kin(Next(s, step), x, k)
  {
    NextOnward(s, step, x);
    hide Inv;
    if Acts(s, step) {
      StepEffect(s, step);
    } else {
      hide Goto, Act;
      NoActKinds(s, step, x);
    }
  }

  lemma NoActKinds(s: State, step: Step, x: Id)
    requires !Acts(s, step) && x in s.requests
    ensures var v := Next(s, step); x in v.requests && v.requests[x].key == s.requests[x].key && v.requests[x].shouldCache == s.requests[x].shouldCache
  {
    hide Act, Goto, Added;
    match step
    case Add(r, key, shouldCache, canceled) => AddedKinds(s, r, Request(key, shouldCache, canceled, false), x);
    case Cancel(_) =>
    case TakeCached(r) => GotoKinds(s.(cacheQueue := s.cacheQueue - multiset{r}), Cache, r, CacheTaken);
    case TakeNet(n, r) => GotoKinds(s.(netQueue := s.netQueue - multiset{r}), Net(n), r, NetTaken);
    case TakePosted(m, d) =>
      GotoKinds(s.(deliveries := s.deliveries - multiset{d}), Poster(m), d.request, Running(d.response, d.forwards));
    case Go(_, _) =>
    case Interrupt(_, _) =>
  }

  lemma AddedKinds(s: State, r: Id, q: Request, x: Id)
    requires x in s.requests
    ensures x in Added(s, r, q).requests && (x != r ==> Added(s, r, q).requests[x] == s.requests[x])
  {
  }

  lemma GotoKinds(u: State, t: Thread, r: Id, stage: Stage)
    ensures Goto(u, t, r, stage).requests == u.requests
  {
  }

  lemma EffectAtWork(s: State, v: State, t: Thread, r: Id, lost: bool, x: Id, k: Key)
    requires Effect(s, v, t, r, lost) && Works(s, x, k)
    ensures (PlaceOf(v, x) != Staged && Alive(PlaceOf(v, x))) || (x == r && lost) || k !in v.waiting
  {
    hide PlaceOf;
  }

  lemma QuietAtWork(s: State, v: State, x: Id)
    requires Quiet(s, v) && x in s.past && PlaceOf(s, x) != Staged && Alive(PlaceOf(s, x))
    ensures PlaceOf(v, x) != Staged && Alive(PlaceOf(v, x))
  {
    hide PlaceOf;
  }

  /** A key that becomes taken is taken by a request at work. */
  lemma NewKeyIsLed(s: State, step: Step, k: Key)
    requires Inv(s) && k !in s.waiting && k in Next(s, step).waiting
    ensures exists x :: Works(Next(s, step), x, k)
  {
    hide Shape, Fitting, Effect, Act;
    if Acts(s, step) {
      StepEffect(s, step);
      EffectWaiting(s, Next(s, step), step.t, s.threads[step.t].request, Fails(s.threads[step.t].stage, step.choice.fault));
      assert false;
    } else {
      assert step.Add?;
      assert Works(Next(s, step), step.request, k);
    }
  }

  lemma EffectWaiting(s: State, v: State, t: Thread, r: Id, lost: bool)
    requires Effect(s, v, t, r, lost)
    ensures v.waiting.Keys <= s.waiting.Keys
  {
  }

  /** A step strands a key exactly when it loses the last leader of the key. */
  lemma StepStrands(s: State, step: Step, k: Key)
    requires Inv(s)
    ensures Stranded(Next(s, step), k) <==> Stranded(s, k) || exists r :: LosesLastLeader(s, step, r, k)
  {
    hide Inv, Next, Stranded, Loses, Works, Still, Leads, Lost;
    var v := Next(s, step);
    if Stranded(s, k) {
      NextStill(s, step, k);
      StaysStranded(s, v, k);
    } else if Stranded(v, k) {
      StrandsOnlySo(s, step, k);
    } else if r :| LosesLastLeader(s, step, r, k) {
      LastLeaderStrands(s, step, r, k);
    }
  }

  lemma StrandsOnlySo(s: State, step: Step, k: Key)
    requires Inv(s) && !Stranded(s, k) && Stranded(Next(s, step), k)
    ensures exists r :: LosesLastLeader(s, step, r, k)
  {
    hide Inv, Next, Stranded, Loses, Works, Leads, Lost;
    var v := Next(s, step);
    StrandedIs(s, k);
    StrandedIs(v, k);
    if k !in s.waiting {
      NewKeyIsLed(s, step, k);
    }
    var r :| Works(s, r, k);
    StaysAtWork(s, step, r, k);
    WorksIs(s, r, k);
    forall x | Leads(s, x, k) && x != r
      ensures Lost(s, x)
    {
      WorksIs(s, x, k);
      if Works(s, x, k) {
        StaysAtWork(s, step, x, k);
        OneLoses(s, step, r, x);
      }
    }
    assert LosesLastLeader(s, step, r, k);
  }

  lemma OneLoses(s: State, step: Step, r: Id, x: Id)
    requires Loses(s, step, r) && Loses(s, step, x)
    ensures x == r
  {
  }

  lemma LastLeaderStrands(s: State, step: Step, r: Id, k: Key)
    requires Inv(s) && LosesLastLeader(s, step, r, k)
    ensures Stranded(Next(s, step), k)
  {
    hide Inv, Next, Stranded, Effect, PlaceOf, Leads, Lost;
    Actor(s, step, r);
    StepEffect(s, step);
    LossKeepsKey(s, step, k);
    forall x
      ensures !Works(Next(s, step), x, k)
    {
      WorksIs(s, x, k);
      EffectNotAtWork(s, Next(s, step), step.t, r, x, k);
    }
    StrandedIs(Next(s, step), k);
  }

  lemma LossKeepsKey(s: State, step: Step, k: Key)
    requires Inv(s) && Acts(s, step) && Fails(s.threads[step.t].stage, step.choice.fault) && k in s.waiting
    ensures k in Next(s, step).waiting
  {
    hide Shape, Fitting, Act, Beside;
    var t, c := step.t, step.choice;
    var r, stage := s.threads[t].request, s.threads[t].stage;
    var v := Next(s, step);
    if stage.CacheLooking? || stage.CacheParsing? || stage.CachePosting? {
      CacheBeside(s, t, r, stage, c);
    } else if stage.NetPerforming? || stage.NetParsing? || stage.NetWriting? || stage.NetPosting? {
      NetBeside(s, t, r, stage, c);
    } else {
      EndBeside(s, t, r, stage, c);
    }
    assert v.waiting == s.waiting by { BesideWaiting(s, v, r); }
  }

  lemma BesideWaiting(s: State, v: State, r: Id)
    requires Beside(s, v, r)
    ensures v.waiting == s.waiting
  {
  }

  lemma EffectNotAtWork(s: State, v: State, t: Thread, r: Id, x: Id, k: Key)
    requires Effect(s, v, t, r, true) && (x != r ==> !Works(s, x, k)) && k in v.waiting
    ensures !Works(v, x, k)
  {
    hide PlaceOf;
  }

  // ----- main results over all runs -----

  /** Within the first n steps there is one that loses r. */
  predicate LostWithin(s: State, steps: seq<Step>, n: nat, r: Id)
    requires n <= |steps|
  {
    exists i | 0 <= i < n :: Loses(Run(s, steps[..i]), steps[i], r)
  }

  /** A request is dropped in a run exactly when one of its steps is a losing fault of the thread that holds it. */
  lemma {:induction false} DroppedExactly(s: State, steps: seq<Step>, n: nat, r: Id)
    requires Inv(s) && n <= |steps|
    ensures Lost(Run(s, steps[..n]), r) <==> Lost(s, r) || LostWithin(s, steps, n, r)
  {
    hide Inv, Next, Run, Lost, Loses;
    if n == 0 {
      RunNone(s, steps);
    } else {
      var u := Run(s, steps[..n - 1]);
      DroppedExactly(s, steps, n - 1, r);
      RunKeeps(s, steps[..n - 1]);
      RunSnoc(s, steps, n - 1);
      StepLoses(u, steps[n - 1], r);
    }
  }

  ghost predicate StrandedWithin(s: State, steps: seq<Step>, n: nat, k: Key)
    requires n <= |steps|
  {
    exists i, r | 0 <= i < n :: LosesLastLeader(Run(s, steps[..i]), steps[i], r, k)
  }

  /** A key is stranded in a run exactly when one of its steps loses the last leader of the key. */
  lemma {:induction false} StrandedExactly(s: State, steps: seq<Step>, n: nat, k: Key)
    requires Inv(s) && n <= |steps|
    ensures Stranded(Run(s, steps[..n]), k) <==> Stranded(s, k) || StrandedWithin(s, steps, n, k)
  {
    hide Inv, Next, Run, Stranded, LosesLastLeader;
    if n == 0 {
      RunNone(s, steps);
    } else {
      var u := Run(s, steps[..n - 1]);
      StrandedExactly(s, steps, n - 1, k);
      RunKeeps(s, steps[..n - 1]);
      RunSnoc(s, steps, n - 1);
      StepStrands(u, steps[n - 1], k);
    }
  }

  predicate Faultless(steps: seq<Step>)
  {
    forall i | 0 <= i < |steps| && steps[i].Go? :: steps[i].choice.fault == Fine
  }

  /** In a run without faults no request is dropped, no key stranded, and every request added
      has finished or stands at a spot. */
  lemma FaultlessRuns(nets: nat, posters: nat, steps: seq<Step>, r: Id, k: Key)
    requires Faultless(steps)
    ensures var s := Run(Start(nets, posters), steps);
      && !Lost(s, r) && !Stranded(s, k)
      && (r in s.past && !(exists p :: Times(s, r, p) == 1) ==> s.past[r].log != [] && s.past[r].log[|s.past[r].log| - 1].Finished?)
  {
    hide Next, Lost, Stranded, Times, Legal, Inv, Run;
    var s0 := Start(nets, posters);
    StartKeeps(nets, posters);
    assert steps[..|steps|] == steps;
    DroppedExactly(s0, steps, |steps|, r);
    StrandedExactly(s0, steps, |steps|, k);
    NothingAtStart(nets, posters, r, k);
    InOnePlace(nets, posters, steps, r);
    EventsLegal(nets, posters, steps, r);
    OverIsLast(Run(s0, steps), r);
  }

  lemma NothingAtStart(nets: nat, posters: nat, r: Id, k: Key)
    ensures !Lost(Start(nets, posters), r) && !Stranded(Start(nets, posters), k)
  {
  }

  lemma OverIsLast(s: State, r: Id)
    requires r in s.past && IsOver(s.past[r].log) ==> Legal(s.past[r].log)
    ensures r in s.past && IsOver(s.past[r].log) && !Lost(s, r) ==>
      s.past[r].log != [] && s.past[r].log[|s.past[r].log| - 1].Finished?
  {
  }

  // ----- a stopped cache dispatcher -----

  predicate CacheStopped(s: State)
  {
    Cache in s.threads && s.threads[Cache] == Stopped
  }

  lemma StepLeavesCache(s: State, step: Step)
    requires Inv(s) && CacheStopped(s)
    ensures CacheStopped(Next(s, step)) && s.cacheQueue <= Next(s, step).cacheQueue
  {
    hide Shape, Fitting, Act, Goto;
    if Acts(s, step) {
      StepEffect(s, step);
    } else {
      match step
      case TakeNet(n, r) => GotoLeavesCache(s.(netQueue := s.netQueue - multiset{r}), Net(n), r, NetTaken);
      case TakePosted(m, d) =>
        GotoLeavesCache(s.(deliveries := s.deliveries - multiset{d}), Poster(m), d.request, Running(d.response, d.forwards));
      case _ =>
    }
  }

  lemma GotoLeavesCache(u: State, t: Thread, r: Id, stage: Stage)
    requires CacheStopped(u) && t != Cache
    ensures CacheStopped(Goto(u, t, r, stage)) && Goto(u, t, r, stage).cacheQueue == u.cacheQueue
  {
  }

  lemma {:induction false} CacheQueueStays(s: State, steps: seq<Step>, r: Id)
    requires Inv(s) && CacheStopped(s) && r in s.cacheQueue
    ensures var v := Run(s, steps); r in v.cacheQueue && r in v.past && v.past[r].log == []
    decreases |steps|
  {
    hide Inv, Next, CacheStopped;
    if steps == [] {
      QueuedHasNoEvents(s, r);
    } else {
      NextKeeps(s, steps[0]);
      StepLeavesCache(s, steps[0]);
      CacheQueueStays(Next(s, steps[0]), steps[1..], r);
    }
  }

  lemma QueuedHasNoEvents(s: State, r: Id)
    requires Inv(s) && r in s.cacheQueue
    ensures r in s.past && s.past[r].log == []
  {
    hide Holders, Waiters, Leaders, Fits;
    CountPlace(s, r);
    assert Fits(s.past[r], s.requests[r]);
    FitsInCache(s.past[r], s.requests[r]);
  }

  lemma FitsInCache(h: History, q: Request)
    requires Fits(h, q) && h.place == InCache
    ensures h.log == []
  {
  }

  /** An interrupt while the cache dispatcher waits ends it, whether or not it was asked to quit: what is in
      its queue then stays there without any event in every continuation. */
  lemma InterruptEndsCache(s: State, quit: bool, steps: seq<Step>)
    requires Inv(s) && Free(s, Cache)
    ensures var v := Run(Next(s, Interrupt(Cache, quit)), steps);
      CacheStopped(v) && forall r | r in s.cacheQueue :: r in v.cacheQueue && r in v.past && v.past[r].log == []
  {
    var u := Next(s, Interrupt(Cache, quit));
    assert CacheStopped(u) && u.cacheQueue == s.cacheQueue;
    hide Inv, Next, CacheStopped, Run;
    NextKeeps(s, Interrupt(Cache, quit));
    StaysStopped(u, steps);
    forall r | r in s.cacheQueue
      ensures var v := Run(u, steps); r in v.cacheQueue && r in v.past && v.past[r].log == []
    {
      CacheQueueStays(u, steps, r);
    }
  }

  lemma {:induction false} StaysStopped(s: State, steps: seq<Step>)
    requires Inv(s) && CacheStopped(s)
    ensures CacheStopped(Run(s, steps))
    decreases |steps|
  {
    hide Inv, Next, CacheStopped;
    if steps != [] {
      NextKeeps(s, steps[0]);
      StepLeavesCache(s, steps[0]);
      StaysStopped(Next(s, steps[0]), steps[1..]);
    }
  }
}
