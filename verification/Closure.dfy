/** What a crawl has covered when it comes to rest, under every interleaving of workers and
    result consumers. */
module Closure {
  import opened Models
  import opened Web
  import opened Protocol
  import opened Conservation
  import opened Provenance
  import opened WorkBound

  /** No loss, no failure, no clean-up, no link dropped.  Redelivery, races between consumers
      and false positives of the filter are all still possible. */
  ghost predicate Faultless(s: State, e: Event) {
    && !(e.SeedFail? || e.Cleanup? || e.ExpireActive? || e.ExpireMaxDepth?)
    && !(e.CrawlFails? || e.LoseTask? || e.LoseResult?)
    && (e.SeedAdd? ==> e.ok)
    && (e.By? ==> Succeeds(e.act) && (e.i < |s.consumers| ==> NoLinkDropped(s.consumers[e.i], e.act)))
  }

  predicate Succeeds(act: Act) {
    && !act.Crash? && act != Check(Unavailable)
    && (act.ReadDepth? || act.Add? || act.Publish? ==> act.ok)
  }

  predicate NoLinkDropped(c: Consumer, act: Act) {
    act.ReadDepth? && c.Received? ==> act.limit == |c.r.nextUrls|
  }

  ghost predicate FaultlessRun(web: Links, seed: Url, d: int, ss: seq<State>, es: seq<Event>) {
    JobRun(web, seed, d, ss, es) && forall k | 0 <= k < |es| :: Faultless(ss[k], es[k])
  }

  /** Nothing is left to do. */
  ghost predicate Quiescent(s: State) {
    && s.handlers == multiset{}
    && s.ready == s.held == multiset{}
    && s.results == multiset{}
    && forall i | 0 <= i < |s.consumers| :: s.consumers[i].Idle?
  }

  /** The links a consumer has still to deal with. */
  function Pending(c: Consumer): seq<Url> {
    match c
    case Idle => []
    case Received(r) => r.nextUrls
    case Expanding(_, _, rest) => rest
    case Checked(_, _, rest, url) => [url] + rest
    case Claimed(_, _, rest, _) => rest
  }

  ghost predicate Working(c: Consumer, r: UrlData, v: Url) {
    !c.Idle? && c.r == r && v in Pending(c)
  }

  ghost predicate SomeoneWorking(s: State, r: UrlData, v: Url) {
    exists i :: 0 <= i < |s.consumers| && Working(s.consumers[i], r, v)
  }

  ghost predicate Decided(s: State, v: Url) {
    v in s.filter || v in s.log.hits
  }

  /** Link `v` of task `t` has been dealt with, or something will still deal with it. */
  ghost predicate Covered(web: Links, s: State, t: Task, v: Url) {
    var r := UrlData(t.url, t.depth, web(t.url));
    Decided(s, v) || t in s.ready || t in s.held || r in s.results || SomeoneWorking(s, r, v)
  }

  /** The keys of the job live from its start on, and nothing happens before it. */
  ghost predicate JobAlive(seed: Url, d: int, s: State) {
    if s.log.starts == 0 then
      && s.handlers == multiset{} && s.log.published == multiset{} && s.log.outputs == multiset{}
      && forall i | 0 <= i < |s.consumers| :: s.consumers[i].Idle?
    else
      && s.maxDepth == Some(d)
      && s.active.Some?
      && (Task(seed, 0, d) in s.log.published || s.handlers != multiset{})
  }

  /** A job publishes its seed before anything else can happen. */
  ghost predicate SeedFirst(s: State) {
    s.handlers != multiset{} ==>
      && (exists h :: s.handlers == multiset{h})
      && s.log.published == multiset{} && s.log.outputs == multiset{}
      && forall i | 0 <= i < |s.consumers| :: s.consumers[i].Idle?
  }

  ghost predicate Closing(web: Links, seed: Url, d: int, s: State) {
    && JobAlive(seed, d, s)
    && SeedFirst(s)
    && forall t: Task, v: Url | t in s.log.published && t.depth < d && v in web(t.url) ::
         Covered(web, s, t, v)
  }

  lemma AliveAct(seed: Url, d: int, s: State, i: nat, act: Act, s': State)
    requires Acts(s, i, act, s') && JobAlive(seed, d, s)
    requires act.Consume? ==> s.log.outputs != multiset{}
    ensures JobAlive(seed, d, s')
  {
    hide Moved;
  }

  /** What the fault-free steps of workers and broker leave alone, workers' answers included. */
  ghost predicate StillEffect(s: State, s': State) {
    && s'.handlers == s.handlers && s'.maxDepth == s.maxDepth && s'.active == s.active
    && s'.filter == s.filter && s'.consumers == s.consumers
    && s'.log.published == s.log.published && s'.log.hits == s.log.hits && s'.log.starts == s.log.starts
  }

  predicate Handling(e: Event) {
    e.StartJob? || e.SeedAdd? || e.SeedPublish?
  }

  lemma StillFields(s: State, e: Event, s': State)
    requires Step(s, e, s') && Faultless(s, e) && !e.By? && !Handling(e)
    ensures StillEffect(s, s') && (!e.Emit? ==> s'.log.outputs == s.log.outputs)
  {
  }

  lemma AliveStill(seed: Url, d: int, s: State, s': State)
    requires StillEffect(s, s') && JobAlive(seed, d, s)
    requires s.log.published == multiset{} ==> s'.log.outputs == s.log.outputs
    ensures JobAlive(seed, d, s')
  {
  }

  lemma AliveStarted(seed: Url, d: int, s: State, s': State)
    requires Step(s, StartJob(seed, d), s')
    ensures JobAlive(seed, d, s')
  {
  }

  lemma AliveHandler(seed: Url, d: int, s: State, e: Event, s': State)
    requires Step(s, e, s') && JobAlive(seed, d, s) && (e.SeedAdd? || e.SeedPublish?)
    requires e.h.url == seed && e.h.maxDepth == d
    ensures JobAlive(seed, d, s')
  {
    if e.SeedAdd? {
      assert e.h.(added := true) in s'.handlers;
    }
  }

  lemma SeedFirstAct(s: State, i: nat, act: Act, s': State)
    requires Acts(s, i, act, s') && SeedFirst(s)
    requires act.Consume? ==> s.log.outputs != multiset{}
    ensures SeedFirst(s')
  {
    hide Moved;
  }

  lemma SeedFirstStarted(seed: Url, d: int, s: State, e: Event, s': State)
    requires Step(s, e, s') && JobAlive(seed, d, s) && e.StartJob?
    ensures SeedFirst(s')
  {
    assert s'.handlers == multiset{Seeding(e.seed, e.depth, false)};
  }

  lemma SeedFirstHandler(s: State, e: Event, s': State)
    requires Step(s, e, s') && SeedFirst(s) && (e.SeedAdd? || e.SeedPublish?)
    ensures SeedFirst(s')
  {
    var h :| s.handlers == multiset{h};
    assert s'.handlers == if e.SeedAdd? then multiset{h.(added := true)} else multiset{};
  }

  lemma SeedFirstStill(s: State, s': State)
    requires StillEffect(s, s') && SeedFirst(s)
    requires s.log.published == multiset{} ==> s'.log.outputs == s.log.outputs
    ensures SeedFirst(s')
  {
  }

  /** The bookkeeping of the job after any fault-free step. */
  lemma BookkeepingStep(web: Links, seed: Url, d: int, s: State, e: Event, s': State)
    requires Step(s, e, s') && Faultless(s, e) && OneTarget(seed, d, e)
    requires JobAlive(seed, d, s) && SeedFirst(s) && Conserved(s) && JobInv(web, seed, {seed}, d, s)
    ensures JobAlive(seed, d, s') && SeedFirst(s')
  {
    hide Enabled, Next, Conserved, JobConsumers, JobAlive, SeedFirst;
    TakenPublished(s, e);
    if e.By? {
      ByFields(s, e, s');
      hide Acts;
      AliveAct(seed, d, s, e.i, e.act, s');
      SeedFirstAct(s, e.i, e.act, s');
    } else if e.StartJob? {
      AliveStarted(seed, d, s, s');
      SeedFirstStarted(seed, d, s, e, s');
    } else if Handling(e) {
      HandlerPresent(s, e, s');
      AliveHandler(seed, d, s, e, s');
      SeedFirstHandler(s, e, s');
    } else {
      StillFields(s, e, s');
      AliveStill(seed, d, s, s');
      SeedFirstStill(s, s');
    }
  }

  lemma HandlerPresent(s: State, e: Event, s': State)
    requires Step(s, e, s') && (e.SeedAdd? || e.SeedPublish?)
    ensures e.h in s.handlers
  {
  }

  lemma WorkingMoved(s: State, c: Consumer, act: Act, r: UrlData, v: Url)
    requires CanAct(s, c, act) && Succeeds(act) && NoLinkDropped(c, act) && Working(c, r, v)
    requires s.maxDepth.Some? && r.depth < s.maxDepth.value
    ensures Working(Moved(s, c, act), r, v)
         || (act == Check(Present) && c.rest[0] == v) || (act == Add(true) && c.url == v)
  {
  }

  lemma WorkingAct(s: State, i: nat, act: Act, s': State, r: UrlData, v: Url)
    requires Acts(s, i, act, s') && Faultless(s, By(i, act))
    requires Working(s.consumers[i], r, v)
    requires s.maxDepth.Some? && r.depth < s.maxDepth.value
    ensures Working(s'.consumers[i], r, v) || Decided(s', v)
  {
    hide Moved, Working;
    WorkingMoved(s, s.consumers[i], act, r, v);
  }

  lemma StillWorking(s: State, i: nat, act: Act, s': State, r: UrlData, v: Url)
    requires Acts(s, i, act, s') && Faultless(s, By(i, act))
    requires SomeoneWorking(s, r, v)
    requires !s.consumers[i].Idle? ==> s.maxDepth.Some? && r.depth < s.maxDepth.value
    ensures SomeoneWorking(s', r, v) || Decided(s', v)
  {
    var j :| 0 <= j < |s.consumers| && Working(s.consumers[j], r, v);
    if i == j {
      WorkingAct(s, i, act, s', r, v);
    }
    hide Moved, CanAct, ByRecord;
    assert Decided(s', v) || Working(s'.consumers[j], r, v);
  }

  lemma NowWorking(s: State, i: nat, r: UrlData, s': State, v: Url)
    requires Acts(s, i, Consume(r), s') && v in r.nextUrls
    ensures SomeoneWorking(s', r, v)
  {
    assert Working(s'.consumers[i], r, v);
  }

  lemma CoveredAct(web: Links, s: State, i: nat, act: Act, s': State, t: Task, v: Url)
    requires Acts(s, i, act, s') && Faultless(s, By(i, act))
    requires Covered(web, s, t, v) && v in web(t.url)
    requires !s.consumers[i].Idle? ==> s.maxDepth.Some? && t.depth < s.maxDepth.value
    ensures Covered(web, s', t, v)
  {
    hide Working, SomeoneWorking;
    var r := UrlData(t.url, t.depth, web(t.url));
    if SomeoneWorking(s, r, v) {
      StillWorking(s, i, act, s', r, v);
    } else if act.Consume? && act.r == r {
      NowWorking(s, i, r, s', v);
    }
    hide Moved, CanAct;
  }

  /** What most steps of the others do: nothing that covers a link goes away. */
  ghost predicate NothingLeaves(s: State, s': State) {
    && s.ready <= s'.ready && s.held <= s'.held && s.results <= s'.results
    && s.filter <= s'.filter && s'.log.hits == s.log.hits && s'.consumers == s.consumers
  }

  lemma NothingLeavesFields(s: State, e: Event, s': State)
    requires Step(s, e, s') && Faultless(s, e) && !e.By? && !e.Emit? && !e.Deliver? && !e.Requeue?
    ensures NothingLeaves(s, s')
  {
  }

  lemma CoveredKept(web: Links, s: State, s': State, t: Task, v: Url)
    requires NothingLeaves(s, s') && Covered(web, s, t, v)
    ensures Covered(web, s', t, v)
  {
    var r := UrlData(t.url, t.depth, web(t.url));
    assert SomeoneWorking(s', r, v) == SomeoneWorking(s, r, v);
    hide SomeoneWorking;
  }

  lemma CoveredMove(web: Links, s: State, e: Event, s': State, t: Task, v: Url)
    requires Step(s, e, s') && (e.Deliver? || e.Requeue? || e.Emit?)
    requires e.Emit? ==> e.next == web(e.t.url)
    requires Covered(web, s, t, v)
    ensures Covered(web, s', t, v)
  {
    var r := UrlData(t.url, t.depth, web(t.url));
    assert SomeoneWorking(s', r, v) == SomeoneWorking(s, r, v);
    hide SomeoneWorking;
  }

  /** A task that has just been published waits on a task queue. */
  lemma JustPublished(s: State, e: Event, s': State, t: Task)
    requires Step(s, e, s') && t in s'.log.published && t !in s.log.published
    ensures t in s'.ready
  {
    hide Next;
    if e.By? {
      ByFields(s, e, s');
      hide Moved, CanAct;
    } else if e.SeedPublish? {
      SeedPublished(s, e, s');
    } else if Source(e) {
      SourceFields(s, e, s');
    } else {
      QuietFields(s, e, s');
    }
    hide Step;
  }

  lemma SeedPublished(s: State, e: Event, s': State)
    requires Step(s, e, s') && e.SeedPublish?
    ensures var t := Task(e.h.url, 0, e.h.maxDepth);
            t in s'.ready && s'.log.published == s.log.published + multiset{t}
  {
  }

  lemma CoveredStep(web: Links, seed: Url, d: int, s: State, e: Event, s': State, t: Task, v: Url)
    requires Step(s, e, s') && Faultless(s, e) && FromWeb(web, {seed}, e)
    requires Closing(web, seed, d, s)
    requires t in s'.log.published && t.depth < d && v in web(t.url)
    ensures Covered(web, s', t, v)
  {
    hide Next, Enabled, Faultless, SeedFirst;
    if t !in s.log.published {
      JustPublished(s, e, s', t);
    } else if e.By? {
      assert Covered(web, s, t, v);
      ByFields(s, e, s');
      hide ByEffect, ByRecord, Covered;
      CoveredAct(web, s, e.i, e.act, s', t, v);
    } else if e.Emit? || e.Deliver? || e.Requeue? {
      assert Covered(web, s, t, v);
      hide Covered;
      CoveredMove(web, s, e, s', t, v);
    } else {
      assert Covered(web, s, t, v);
      hide Covered;
      NothingLeavesFields(s, e, s');
      CoveredKept(web, s, s', t, v);
    }
  }

  lemma StepClosing(web: Links, seed: Url, d: int, s: State, e: Event, s': State)
    requires Step(s, e, s') && Faultless(s, e) && FromWeb(web, {seed}, e) && OneTarget(seed, d, e)
    requires Closing(web, seed, d, s) && Conserved(s) && JobInv(web, seed, {seed}, d, s)
    ensures Closing(web, seed, d, s')
  {
    hide Step, Covered, Conserved, JobInv, Faultless, SeedFirst, JobAlive, FromWeb, OneTarget;
    forall t: Task, v: Url | t in s'.log.published && t.depth < d && v in web(t.url)
      ensures Covered(web, s', t, v)
    {
      CoveredStep(web, seed, d, s, e, s', t, v);
    }
    BookkeepingStep(web, seed, d, s, e, s');
  }

  lemma ClosingAtStart(web: Links, seed: Url, d: int, s: State, n: nat)
    requires Init(s, n)
    ensures Closing(web, seed, d, s)
  {
  }

  lemma FaultlessSpares(web: Links, seed: Url, d: int, ss: seq<State>, es: seq<Event>)
    requires FaultlessRun(web, seed, d, ss, es)
    ensures forall e <- es :: Spares(seed, {seed}, e)
  {
    hide Step, FromWeb, OneTarget;
    forall e | e in es
      ensures Spares(seed, {seed}, e)
    {
      var k :| 0 <= k < |es| && es[k] == e;
      assert Faultless(ss[k], es[k]);
    }
  }

  lemma {:induction false} RunClosing(web: Links, seed: Url, d: int, ss: seq<State>, es: seq<Event>,
                                      n: nat, k: nat)
    requires FaultlessRun(web, seed, d, ss, es) && Init(ss[0], n) && k < |ss|
    ensures Closing(web, seed, d, ss[k])
  {
    hide Step, Init, Closing, JobInv, Conserved, Faultless, SeedCount, FromWeb, OneTarget, Spares;
    if k > 0 {
      RunClosing(web, seed, d, ss, es, n, k - 1);
      RunConserved(ss, es, n, k - 1);
      FaultlessSpares(web, seed, d, ss, es);
      RunJob(web, seed, {seed}, d, ss, es, n, k - 1);
      assert Step(ss[k - 1], es[k - 1], ss[k]) && es[k - 1] in es;
      StepClosing(web, seed, d, ss[k - 1], es[k - 1], ss[k]);
    } else {
      ClosingAtStart(web, seed, d, ss[0], n);
    }
  }

  /** When a crawl without faults comes to rest, every link of every page published above the
      depth limit has been claimed by the filter. */
  lemma ClosedAtRest(web: Links, seed: Url, d: int, ss: seq<State>, es: seq<Event>, n: nat,
                     t: Task, v: Url)
    requires FaultlessRun(web, seed, d, ss, es) && Init(ss[0], n)
    requires Quiescent(Last(ss))
    requires t in Last(ss).log.published && t.depth < d && v in web(t.url)
    ensures Decided(Last(ss), v)
  {
    RunClosing(web, seed, d, ss, es, n, |es|);
    assert Covered(web, Last(ss), t, v);
  }

  // ---- With an exact filter, what was claimed is what was published.

  /** The filter gives no false positives. */
  ghost predicate Exact(s: State, e: Event) {
    e.By? && e.act == Check(Present) && e.i < |s.consumers|
    && s.consumers[e.i].Expanding? && s.consumers[e.i].rest != []
    ==> s.consumers[e.i].rest[0] in s.filter
  }

  ghost predicate ExactRun(web: Links, seed: Url, d: int, ss: seq<State>, es: seq<Event>) {
    FaultlessRun(web, seed, d, ss, es) && forall k | 0 <= k < |es| :: Exact(ss[k], es[k])
  }

  ghost predicate PublishedUrl(s: State, u: Url) {
    exists t :: t in s.log.published && t.url == u
  }

  ghost predicate Claiming(s: State, u: Url) {
    exists i :: 0 <= i < |s.consumers| && s.consumers[i].Claimed? && s.consumers[i].url == u
  }

  ghost predicate Seeded(s: State, u: Url) {
    exists h :: h in s.handlers && h.added && h.url == u
  }

  /** Whatever the filter holds is published or about to be. */
  ghost predicate Known(s: State, u: Url) {
    && (u in s.filter ==> PublishedUrl(s, u) || Claiming(s, u) || Seeded(s, u))
    && (u in s.log.hits ==> u in s.filter)
  }

  lemma KnownAct(s: State, i: nat, act: Act, s': State, u: Url)
    requires Acts(s, i, act, s') && Faultless(s, By(i, act)) && Exact(s, By(i, act))
    requires Known(s, u)
    ensures Known(s', u)
  {
    hide Moved, PublishedUrl, Claiming, Seeded;
    var c := s.consumers[i];
    if act.Publish? && c.url == u {
      NowPublished(s, i, act, s');
    } else if act.Add? && c.url == u {
      NowClaimed(s, i, act, s');
    } else {
      KnownKept(s, i, act, s', u);
    }
    hide ByEffect;
    assert s'.filter == s.filter || (act.Add? && s'.filter == s.filter + {c.url}) by { FilterAct(s, i, act, s'); }
  }

  lemma FilterAct(s: State, i: nat, act: Act, s': State)
    requires Acts(s, i, act, s')
    ensures s'.filter == s.filter || (act.Add? && s'.filter == s.filter + {s.consumers[i].url})
  {
    hide Moved, ByRecord;
  }

  lemma NowPublished(s: State, i: nat, act: Act, s': State)
    requires Acts(s, i, act, s') && act == Publish(true)
    ensures PublishedUrl(s', s.consumers[i].url)
  {
    assert NewTask(s.consumers[i]) in s'.log.published;
  }

  lemma NowClaimed(s: State, i: nat, act: Act, s': State)
    requires Acts(s, i, act, s') && act.Add?
    ensures Claiming(s', s.consumers[i].url)
  {
    assert s'.consumers[i].Claimed? && s'.consumers[i].url == s.consumers[i].url;
  }

  lemma KnownKept(s: State, i: nat, act: Act, s': State, u: Url)
    requires Acts(s, i, act, s') && (act.Publish? || act.Add? ==> s.consumers[i].url != u) && !act.Crash?
    ensures PublishedUrl(s, u) ==> PublishedUrl(s', u)
    ensures Claiming(s, u) ==> Claiming(s', u)
    ensures Seeded(s, u) ==> Seeded(s', u)
  {
    if PublishedUrl(s, u) {
      var t :| t in s.log.published && t.url == u;
      assert t in s'.log.published;
    }
    if Claiming(s, u) {
      var j :| 0 <= j < |s.consumers| && s.consumers[j].Claimed? && s.consumers[j].url == u;
      KnownClaim(s, i, act, s', u, j);
    }
  }

  lemma KnownClaim(s: State, i: nat, act: Act, s': State, u: Url, j: nat)
    requires Acts(s, i, act, s') && (act.Publish? ==> s.consumers[i].url != u) && !act.Crash?
    requires j < |s.consumers| && s.consumers[j].Claimed? && s.consumers[j].url == u
    ensures Claiming(s', u)
  {
    assert s'.consumers[j] == s.consumers[j];
  }

  lemma KnownAdded(s: State, e: Event, s': State, u: Url)
    requires Step(s, e, s') && e.SeedAdd? && Known(s, u)
    ensures Known(s', u)
  {
    assert e.h.(added := true) in s'.handlers;
    assert forall h :: h in s.handlers && h.added ==> h in s'.handlers;
    assert s'.log == s.log && s'.consumers == s.consumers;
  }

  lemma KnownSeeded(s: State, e: Event, s': State, u: Url)
    requires Step(s, e, s') && e.SeedPublish? && Known(s, u)
    ensures Known(s', u)
  {
    assert Task(e.h.url, 0, e.h.maxDepth) in s'.log.published;
    assert forall t :: t in s.log.published ==> t in s'.log.published;
    assert forall h :: h in s.handlers && h != e.h ==> h in s'.handlers;
  }

  lemma KnownStarted(s: State, e: Event, s': State, u: Url)
    requires Step(s, e, s') && e.StartJob? && Known(s, u)
    ensures Known(s', u)
  {
    assert forall h :: h in s.handlers ==> h in s'.handlers;
  }

  lemma KnownStill(s: State, s': State, u: Url)
    requires StillEffect(s, s') && Known(s, u)
    ensures Known(s', u)
  {
  }

  lemma KnownStep(s: State, e: Event, s': State, u: Url)
    requires Step(s, e, s') && Faultless(s, e) && Exact(s, e) && Known(s, u)
    ensures Known(s', u)
  {
    hide Step, Known, Faultless, Exact;
    if e.By? {
      ByFields(s, e, s');
      hide Acts;
      KnownAct(s, e.i, e.act, s', u);
    } else if e.SeedAdd? {
      KnownAdded(s, e, s', u);
    } else if e.SeedPublish? {
      KnownSeeded(s, e, s', u);
    } else if e.StartJob? {
      KnownStarted(s, e, s', u);
    } else {
      StillFields(s, e, s');
      KnownStill(s, s', u);
    }
  }

  lemma KnownAtStart(s: State, n: nat, u: Url)
    requires Init(s, n)
    ensures Known(s, u)
  {
  }

  lemma {:induction false} RunKnown(web: Links, seed: Url, d: int, ss: seq<State>, es: seq<Event>,
                                    n: nat, k: nat, u: Url)
    requires ExactRun(web, seed, d, ss, es) && Init(ss[0], n) && k < |ss|
    ensures Known(ss[k], u)
  {
    hide Step, Known, Faultless, Exact, FromWeb, OneTarget, Init;
    if k > 0 {
      RunKnown(web, seed, d, ss, es, n, k - 1, u);
      var s, e, s' := ss[k - 1], es[k - 1], ss[k];
      assert Step(s, e, s') && Faultless(s, e) && Exact(s, e);
      KnownStep(s, e, s', u);
    } else {
      KnownAtStart(ss[0], n, u);
    }
  }

  /** ... and since no message reached the depth limit, so is everything behind it. */
  lemma {:induction false} ReachedAtRest(web: Links, seed: Url, d: int, ss: seq<State>,
                                         es: seq<Event>, n: nat, u: Url, k: nat)
    requires ExactRun(web, seed, d, ss, es) && Init(ss[0], n)
    requires Quiescent(Last(ss)) && Last(ss).log.starts > 0
    requires forall t <- Last(ss).log.published :: t.depth < d
    requires u in Frontier(web, seed, k)
    ensures PublishedUrl(Last(ss), u)
    decreases k
  {
    RunClosing(web, seed, d, ss, es, n, |es|);
    if k == 0 {
      assert Task(seed, 0, d) in Last(ss).log.published;
    } else {
      var w :| w in Frontier(web, seed, k - 1) && u in web(w);
      ReachedAtRest(web, seed, d, ss, es, n, w, k - 1);
      var t :| t in Last(ss).log.published && t.url == w;
      ClosedAtRest(web, seed, d, ss, es, n, t, u);
      RunKnown(web, seed, d, ss, es, n, |es|, u);
    }
  }

  /** A fault-free crawl with an exact filter that never hits its depth limit publishes, by the
      time it comes to rest, exactly the pages that can be reached from its seed - whatever
      the number of workers and consumers and however they interleave. */
  lemma ExactlyReachable(web: Links, seed: Url, d: int, ss: seq<State>, es: seq<Event>, n: nat)
    requires ExactRun(web, seed, d, ss, es) && Init(ss[0], n)
    requires Quiescent(Last(ss)) && Last(ss).log.starts > 0
    requires forall t <- Last(ss).log.published :: t.depth < d
    ensures forall u: Url :: PublishedUrl(Last(ss), u) <==> Reachable(web, seed, u)
  {
    RunProvenanced(web, {seed}, ss, es, n, |es|);
    forall u: Url
      ensures PublishedUrl(Last(ss), u) <==> Reachable(web, seed, u)
    {
      if PublishedUrl(Last(ss), u) {
        var t :| t in Last(ss).log.published && t.url == u;
        assert SoundTask(web, {seed}, t);
      }
      if k: nat :| u in Frontier(web, seed, k) {
        ReachedAtRest(web, seed, d, ss, es, n, u, k);
      }
    }
  }
}
