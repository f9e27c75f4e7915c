/** What a thread makes of a request that it holds, from taking it up to passing it on, read off the queues,
    the threads and the events. */
module VolleyServe {
  import opened Volley
  import opened VolleyInvariant
  import opened VolleyOrigin

  /** t holds r at the stage; its flags are q and its events log. */
  predicate Stands(s: State, t: Thread, r: Id, stage: Stage, q: Request, log: seq<Event>)
  {
    Holds(s, t, r, stage) && r in s.requests && s.requests[r] == q && r in s.past && s.past[r].log == log
  }

  // ----- the cache dispatcher -----

  lemma LooksUp(s: State, t: Thread, r: Id, q: Request, log: seq<Event>, c: Choice)
    requires Stands(s, t, r, CacheLooking, q, log) && c.fault == Fine
    ensures var v := Next(s, Go(t, c));
      if c.entry == Missing || c.entry == Expired
      then v.threads[t] == Idle && v.netQueue == s.netQueue + multiset{r}
      else Stands(v, t, r, CacheParsing(c.entry == SoftExpired), q, log) && v.netQueue == s.netQueue && v.deliveries == s.deliveries
  {
  }

  /** The lookup sends a request to the network exactly for a missing or an expired entry. */
  lemma LookupDecides(s: State, r: Id, c: Choice)
    requires Inv(s) && Holds(s, Cache, r, CacheLooking) && c.fault == Fine
    ensures var v := Next(s, Go(Cache, c));
      && (r in v.netQueue <==> c.entry == Missing || c.entry == Expired)
      && (c.entry == Fresh <==> Holds(v, Cache, r, CacheParsing(false)))
      && (c.entry == SoftExpired <==> Holds(v, Cache, r, CacheParsing(true)))
  {
    InvHeld(s, Cache, r, CacheLooking);
    LooksUp(s, Cache, r, s.requests[r], s.past[r].log, c);
  }

  lemma InvHeld(s: State, t: Thread, r: Id, stage: Stage)
    requires Inv(s) && Holds(s, t, r, stage)
    ensures r in s.requests && r in s.past && s.past[r].place == Held(t, stage)
    ensures r !in s.netQueue && r !in s.cacheQueue
  {
    hide Waiters, Leaders, Fits;
    assert PlaceOf(s, r) == Held(t, stage);
    assert s.netQueue[r] == One(PlaceOf(s, r) == InNet);
    assert s.cacheQueue[r] == One(PlaceOf(s, r) == InCache);
  }

  lemma Parses(s: State, t: Thread, r: Id, soft: bool, q: Request, log: seq<Event>, c: Choice)
    requires Stands(s, t, r, CacheParsing(soft), q, log) && c.fault == Fine
    ensures var v := Next(s, Go(t, c));
      Stands(v, t, r, CachePosting(Response(if soft then SoftHit else CacheHit, c.success, soft)), q, log)
      && v.netQueue == s.netQueue && v.deliveries == s.deliveries
  {
  }

  lemma Posts(s: State, t: Thread, r: Id, response: Response, q: Request, log: seq<Event>, c: Choice)
    requires Stands(s, t, r, CachePosting(response), q, log) && c.fault == Fine
    ensures var v := Next(s, Go(t, c));
      t in v.threads && v.threads[t] == Idle && v.deliveries == s.deliveries + multiset{Delivery(r, response, response.intermediate)}
      && r in v.requests && v.requests[r] == q.(delivered := true) && v.netQueue == s.netQueue
  {
  }

  /** A hit is parsed, marked as delivered and posted: final if it is fresh, and if it is soft-expired intermediate
      and with the follow-up that queues for the network. */
  lemma CacheServes(s: State, t: Thread, r: Id, q: Request, log: seq<Event>, look: Choice, parse: Choice, post: Choice)
    requires Stands(s, t, r, CacheLooking, q, log) && look.fault == parse.fault == post.fault == Fine
    requires look.entry == Fresh || look.entry == SoftExpired
    ensures var v := Next(Next(Next(s, Go(t, look)), Go(t, parse)), Go(t, post));
      && (look.entry == Fresh ==> v.deliveries == s.deliveries + multiset{Delivery(r, Response(CacheHit, parse.success, false), false)})
      && (look.entry == SoftExpired ==> v.deliveries == s.deliveries + multiset{Delivery(r, Response(SoftHit, parse.success, true), true)})
      && r in v.requests && v.requests[r].delivered && v.netQueue == s.netQueue && t in v.threads && v.threads[t] == Idle
  {
    hide Next;
    var soft := look.entry == SoftExpired;
    var u := Next(s, Go(t, look));
    LooksUp(s, t, r, q, log, look);
    Parses(u, t, r, soft, q, log, parse);
    Posts(Next(u, Go(t, parse)), t, r, Response(if soft then SoftHit else CacheHit, parse.success, soft), q, log, post);
  }

  // ----- canceled before dispatch -----

  /** The cache dispatcher finishes a canceled request at once and goes on with any other. */
  lemma CacheChecks(s: State, t: Thread, r: Id, q: Request, log: seq<Event>, c: Choice)
    requires Stands(s, t, r, CacheTaken, q, log)
    ensures var v := Next(s, Go(t, c));
      if q.canceled then v.threads[t] == Idle && r in v.past && v.past[r].log == log + [Finished(CacheDiscard)]
      else Stands(v, t, r, CacheLooking, q, log)
  {
  }

  /** So does a network dispatcher. */
  lemma NetChecks(s: State, t: Thread, r: Id, q: Request, log: seq<Event>, c: Choice)
    requires Stands(s, t, r, NetTaken, q, log)
    ensures var v := Next(s, Go(t, c));
      if q.canceled then v.threads[t] == Idle && r in v.past && v.past[r].log == log + [Finished(NetDiscard)]
      else Stands(v, t, r, NetPerforming, q, log)
  {
  }

  // ----- a network dispatcher -----

  lemma Performs(s: State, t: Thread, r: Id, q: Request, log: seq<Event>, c: Choice)
    requires Stands(s, t, r, NetPerforming, q, log)
    ensures var v := Next(s, Go(t, c));
      && (c.fault == Fine ==> Stands(v, t, r, NetAnswered(c.notModified), q, log))
      && (c.fault == Refused ==> Stands(v, t, r, NetRejected, q, log))
      && (c.fault == Thrown ==> Stands(v, t, r, NetFailing, q, log))
      && v.deliveries == s.deliveries
  {
  }

  lemma Decides(s: State, t: Thread, r: Id, notModified: bool, q: Request, log: seq<Event>, c: Choice)
    requires Stands(s, t, r, NetAnswered(notModified), q, log)
    ensures var v := Next(s, Go(t, c));
      if notModified && q.delivered
      then v.threads[t] == Idle && v.deliveries == s.deliveries && r in v.past && v.past[r].log == log + [Finished(NotModified)]
      else Stands(v, t, r, NetParsing(notModified), q, log) && v.deliveries == s.deliveries
  {
  }

  lemma NetParses(s: State, t: Thread, r: Id, notModified: bool, q: Request, log: seq<Event>, c: Choice)
    requires Stands(s, t, r, NetParsing(notModified), q, log)
    ensures var v := Next(s, Go(t, c));
      && (c.fault == Fine ==> Stands(v, t, r, NetWriting(Response(Network(notModified), c.success, false)), q, log))
      && (c.fault == Refused || c.fault == Thrown ==> Stands(v, t, r, NetFailing, q, log))
      && v.deliveries == s.deliveries
  {
  }

  lemma Writes(s: State, t: Thread, r: Id, response: Response, q: Request, log: seq<Event>, c: Choice)
    requires Stands(s, t, r, NetWriting(response), q, log)
    ensures var v := Next(s, Go(t, c));
      && (c.fault == Fine ==> Stands(v, t, r, NetPosting(response), q, log))
      && (c.fault == Refused || c.fault == Thrown ==> Stands(v, t, r, NetFailing, q, log))
      && v.deliveries == s.deliveries
  {
  }

  lemma NetPosts(s: State, t: Thread, r: Id, response: Response, q: Request, log: seq<Event>, c: Choice)
    requires Stands(s, t, r, NetPosting(response), q, log) && c.fault == Fine
    ensures var v := Next(s, Go(t, c));
      v.threads[t] == Idle && v.deliveries == s.deliveries + multiset{Delivery(r, response, false)}
      && r in v.requests && v.requests[r] == q.(delivered := true)
  {
  }

  lemma PostsError(s: State, t: Thread, r: Id, q: Request, log: seq<Event>, c: Choice)
    requires Stands(s, t, r, NetFailing, q, log) && c.fault == Fine
    ensures var v := Next(s, Go(t, c));
      v.threads[t] == Idle && v.deliveries == s.deliveries + multiset{Delivery(r, Response(Failure, false, false), false)}
      && r in v.requests && v.requests[r] == q
  {
  }

  lemma Recovers(s: State, t: Thread, r: Id, q: Request, log: seq<Event>, c: Choice)
    requires Stands(s, t, r, NetRejected, q, log) && c.fault == Fine
    ensures var v := Next(s, Go(t, c)); Stands(v, t, r, NetFailing, q, log) && v.deliveries == s.deliveries
  {
  }

  /** A 304 for a request that had a response delivered finishes it without another; any other answer is parsed,
      marked as delivered and posted as final. */
  lemma NetworkServes(s: State, t: Thread, r: Id, q: Request, log: seq<Event>, ask: Choice, parse: Choice, c: Choice)
    requires Stands(s, t, r, NetPerforming, q, log) && ask.fault == parse.fault == c.fault == Fine
    ensures var u := Next(Next(s, Go(t, ask)), Go(t, c));
      if ask.notModified && q.delivered
      then u.deliveries == s.deliveries && r in u.past && u.past[r].log == log + [Finished(NotModified)]
      else var v := Next(Next(Next(u, Go(t, parse)), Go(t, c)), Go(t, c));
        v.deliveries == s.deliveries + multiset{Delivery(r, Response(Network(ask.notModified), parse.success, false), false)}
        && r in v.requests && v.requests[r].delivered
  {
    hide Next;
    var a := Next(s, Go(t, ask));
    Performs(s, t, r, q, log, ask);
    Decides(a, t, r, ask.notModified, q, log, c);
    if !(ask.notModified && q.delivered) {
      var u := Next(a, Go(t, c));
      var w := Next(u, Go(t, parse));
      var response := Response(Network(ask.notModified), parse.success, false);
      NetParses(u, t, r, ask.notModified, q, log, parse);
      Writes(w, t, r, response, q, log, c);
      NetPosts(Next(w, Go(t, c)), t, r, response, q, log, c);
    }
  }

  /** Whatever exception the network or the handling of its answer throws, an error is posted, and the request is not
      marked as delivered by that. */
  lemma NetworkFails(s: State, t: Thread, r: Id, stage: Stage, q: Request, log: seq<Event>, bad: Choice, c: Choice)
    requires Stands(s, t, r, stage, q, log) && (stage == NetPerforming || stage.NetParsing? || stage.NetWriting?)
    requires (bad.fault == Refused || bad.fault == Thrown) && c.fault == Fine
    ensures var u := Next(Next(s, Go(t, bad)), Go(t, c));
      var v := if stage == NetPerforming && bad.fault == Refused then Next(u, Go(t, c)) else u;
      v.deliveries == s.deliveries + multiset{Delivery(r, Response(Failure, false, false), false)} && r in v.requests && v.requests[r] == q
  {
    hide Next;
    var a := Next(s, Go(t, bad));
    if stage == NetPerforming {
      Performs(s, t, r, q, log, bad);
    } else if stage.NetParsing? {
      NetParses(s, t, r, stage.notModified, q, log, bad);
    } else {
      Writes(s, t, r, stage.response, q, log, bad);
    }
    if stage == NetPerforming && bad.fault == Refused {
      Recovers(a, t, r, q, log, c);
      PostsError(Next(a, Go(t, c)), t, r, q, log, c);
    } else {
      PostsError(a, t, r, q, log, c);
    }
  }

  // ----- a delivery -----

  lemma Checks(s: State, t: Thread, r: Id, response: Response, forwards: bool, q: Request, log: seq<Event>, c: Choice)
    requires Stands(s, t, r, Running(response, forwards), q, log)
    ensures var v := Next(s, Go(t, c));
      if q.canceled then v.threads[t] == Idle && r in v.past && v.past[r].log == log + [Finished(AtDelivery)]
      else Stands(v, t, r, Calling(response, forwards), q, log)
  {
  }

  lemma Calls(s: State, t: Thread, r: Id, response: Response, forwards: bool, q: Request, log: seq<Event>, c: Choice)
    requires Stands(s, t, r, Calling(response, forwards), q, log) && c.fault == Fine
    ensures Stands(Next(s, Go(t, c)), t, r, Returned(response, forwards), q, log + [Called(response)])
  {
  }

  lemma Ends(s: State, t: Thread, r: Id, response: Response, q: Request, log: seq<Event>, c: Choice)
    requires Stands(s, t, r, Returned(response, false), q, log) && !response.intermediate
    ensures var v := Next(s, Go(t, c)); v.threads[t] == Idle && r in v.past && v.past[r].log == log + [Finished(Done)]
  {
  }

  lemma Continues(s: State, t: Thread, r: Id, response: Response, q: Request, log: seq<Event>, c: Choice)
    requires Stands(s, t, r, Returned(response, true), q, log) && response.intermediate
    ensures var v := Next(s, Go(t, c)); Stands(v, t, r, Forwarding, q, log) && v.netQueue == s.netQueue
  {
  }

  lemma Forwards(s: State, t: Thread, r: Id, q: Request, log: seq<Event>, c: Choice)
    requires Stands(s, t, r, Forwarding, q, log) && c.fault == Fine
    ensures var v := Next(s, Go(t, c)); v.threads[t] == Idle && v.netQueue == s.netQueue + multiset{r} && r in v.past && v.past[r].log == log
  {
  }

  /** A delivery that is not canceled calls back with its response, and then finishes the request, or, for an
      intermediate one, hands it to the network; a canceled one only finishes it. */
  lemma DeliveryServes(s: State, t: Thread, r: Id, response: Response, q: Request, log: seq<Event>, c: Choice)
    requires Stands(s, t, r, Running(response, response.intermediate), q, log) && c.fault == Fine
    ensures var u := Next(s, Go(t, c));
      if q.canceled then r in u.past && u.past[r].log == log + [Finished(AtDelivery)]
      else
        var v := Next(Next(u, Go(t, c)), Go(t, c));
        if response.intermediate
        then
          var w := Next(v, Go(t, c));
          r in w.netQueue && r in w.past && w.past[r].log == log + [Called(response)]
        else r in v.past && v.past[r].log == log + [Called(response)] + [Finished(Done)]
  {
    hide Next;
    Checks(s, t, r, response, response.intermediate, q, log, c);
    if !q.canceled {
      var u := Next(s, Go(t, c));
      var a := Next(u, Go(t, c));
      Calls(u, t, r, response, response.intermediate, q, log, c);
      if response.intermediate {
        Continues(a, t, r, response, q, log + [Called(response)], c);
        Forwards(Next(a, Go(t, c)), t, r, q, log + [Called(response)], c);
      } else {
        Ends(a, t, r, response, q, log + [Called(response)], c);
      }
    }
  }

  // ----- the threads after a fault -----

  /** The cache dispatcher survives an exception and not an error; both lose the request. */
  lemma CacheFault(s: State, t: Thread, r: Id, stage: Stage, q: Request, log: seq<Event>, c: Choice)
    requires Stands(s, t, r, stage, q, log) && (stage == CacheLooking || stage.CacheParsing? || stage.CachePosting?) && c.fault != Fine
    ensures var v := Next(s, Go(t, c));
      v.threads[t] == (if c.fault == Died then Stopped else Idle) && r in v.past && v.past[r].log == log + [Dropped]
  {
  }

  /** An interrupt of a waiting network dispatcher ends it exactly if it was asked to quit. */
  lemma NetInterrupt(s: State, n: nat, quit: bool)
    requires Free(s, Net(n))
    ensures var v := Next(s, Interrupt(Net(n), quit)); Net(n) in v.threads && v.threads[Net(n)] == if quit then Stopped else Idle
  {
  }

  /** A new request goes to the network if it is not cacheable, is staged if its key is taken, and else takes the
      key and goes to the cache queue; it is uncanceled, undelivered and current. */
  lemma AddDecides(s: State, r: Id, k: Key, shouldCache: bool, canceled: bool)
    requires r !in s.requests
    ensures var v := Next(s, Add(r, k, shouldCache, canceled));
      && r in v.current && r in v.requests && v.requests[r] == Request(k, shouldCache, canceled, false)
      && (if !shouldCache then v.netQueue == s.netQueue + multiset{r} && v.cacheQueue == s.cacheQueue && v.waiting == s.waiting
          else if k in s.waiting
          then v.waiting == s.waiting[k := s.waiting[k] + multiset{r}] && v.cacheQueue == s.cacheQueue && v.netQueue == s.netQueue
          else v.waiting == s.waiting[k := multiset{}] && v.cacheQueue == s.cacheQueue + multiset{r} && v.netQueue == s.netQueue)
  {
  }

  /** Finishing releases exactly the requests staged under the key of a cacheable request. */
  lemma FinishReleases(s: State, t: Thread, r: Id, why: Why)
    requires r in s.requests
    ensures var v, k := Finish(s, t, r, why), s.requests[r].key;
      && v.current == s.current - {r}
      && (if s.requests[r].shouldCache && k in s.waiting
          then v.waiting == s.waiting - {k} && v.cacheQueue == s.cacheQueue + s.waiting[k]
          else v.waiting == s.waiting && v.cacheQueue == s.cacheQueue)
  {
  }

  /** A cancel sets the flag of its request and nothing else. */
  lemma CancelMarks(s: State, r: Id)
    requires r in s.requests
    ensures var v := Next(s, Cancel(r));
      && v.requests == s.requests[r := Request(s.requests[r].key, s.requests[r].shouldCache, true, s.requests[r].delivered)]
      && v == s.(requests := v.requests)
  {
  }
}
