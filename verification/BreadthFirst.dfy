/** When a crawl is a breadth-first search. */
module BreadthFirst {
  import opened Models
  import opened Web
  import opened Protocol
  import opened Conservation
  import opened Provenance
  import opened WorkBound
  import opened Closure

  /** Everything shallower than `l` has been published and all its links are in the filter. */
  ghost predicate Expanded(web: Links, s: State, l: int) {
    && (l > 0 ==> s.handlers == multiset{})
    && (forall t: Task, v: Url | t in s.log.published && t.depth < l && v in web(t.url) :: v in s.filter)
    && (forall i | 0 <= i < |s.consumers| && s.consumers[i].Claimed? :: s.consumers[i].r.depth + 1 >= l)
  }

  /** A page that will be expanded is taken up only after everything shallower was expanded. */
  ghost predicate LevelByLevel(web: Links, d: int, s: State, e: Event) {
    e.By? && e.act.Consume? && e.act.r.depth < d ==> Expanded(web, s, e.act.r.depth)
  }

  ghost predicate LevelRun(web: Links, seed: Url, d: int, ss: seq<State>, es: seq<Event>) {
    ExactRun(web, seed, d, ss, es) && forall k | 0 <= k < |es| :: LevelByLevel(web, d, ss[k], es[k])
  }

  /** A consumer expands a page only when everything as close to the seed is in the filter. */
  ghost predicate Level(web: Links, seed: Url, d: int, filter: set<Url>, c: Consumer) {
    && (!c.Idle? && c.r.depth < d ==> c.r.depth >= 0 && Within(web, seed, c.r.depth) <= filter)
    && (c.Checked? || c.Claimed? ==> c.r.depth >= 0 && c.url !in Within(web, seed, c.r.depth))
  }

  ghost predicate Levelled(web: Links, seed: Url, d: int, s: State) {
    && (forall t <- s.log.published :: Shortest(web, seed, t.url, t.depth))
    && (forall i | 0 <= i < |s.consumers| :: Level(web, seed, d, s.filter, s.consumers[i]))
  }

  /** Everything the earlier modules establish about a reachable state. */
  ghost predicate Background(web: Links, seed: Url, d: int, s: State) {
    && Conserved(s)
    && Provenanced(web, {seed}, s)
    && JobInv(web, seed, {seed}, d, s)
    && Closing(web, seed, d, s)
    && forall u: Url :: Known(s, u)
  }

  /** If everything shallower than `l` was expanded, all pages within `n <= l` hops are in the
      filter. */
  lemma {:induction false} LevelComplete(web: Links, seed: Url, d: int, s: State, l: nat, n: nat)
    requires Background(web, seed, d, s) && Levelled(web, seed, d, s)
    requires Expanded(web, s, l) && n <= l
    requires seed in s.filter
    ensures Within(web, seed, n) <= s.filter
  {
    hide Background, Levelled, Expanded;
    if n > 0 {
      LevelComplete(web, seed, d, s, l, n - 1);
      forall v | v in Frontier(web, seed, n)
        ensures v in s.filter
      {
        var w :| w in Frontier(web, seed, n - 1) && v in web(w);
        FrontierWithin(web, seed, w, n - 1, n - 1);
        LinkInFilter(web, seed, d, s, l, n - 1, w, v);
      }
    }
  }

  lemma LinkInFilter(web: Links, seed: Url, d: int, s: State, l: nat, n: nat, w: Url, v: Url)
    requires Background(web, seed, d, s) && Levelled(web, seed, d, s)
    requires Expanded(web, s, l) && n < l
    requires w in Frontier(web, seed, n) && w in Within(web, seed, n) && w in s.filter
    requires v in web(w)
    ensures v in s.filter
  {
    hide Conserved, Provenanced, JobInv, JobAlive;
    assert Known(s, w);
    if Claiming(s, w) {
      var j :| 0 <= j < |s.consumers| && s.consumers[j].Claimed? && s.consumers[j].url == w;
      assert Level(web, seed, d, s.filter, s.consumers[j]);
      WithinGrows(web, seed, n, s.consumers[j].r.depth);
      assert false;
    }
    var t :| t in s.log.published && t.url == w;
    assert Shortest(web, seed, w, t.depth);
    assert t.depth <= n;
  }

  lemma PublishShortest(web: Links, seed: Url, d: int, s: State, c: Consumer)
    requires c.Claimed? && SoundConsumer(web, {seed}, c) && Level(web, seed, d, s.filter, c)
    ensures Shortest(web, seed, c.url, c.r.depth + 1)
  {
    assert c.url in Frontier(web, seed, c.r.depth + 1);
    forall k: nat | k < c.r.depth + 1
      ensures c.url !in Frontier(web, seed, k)
    {
      if c.url in Frontier(web, seed, k) {
        FrontierWithin(web, seed, c.url, k, c.r.depth);
      }
    }
  }

  lemma ConsumeLevel(web: Links, seed: Url, d: int, s: State, r: UrlData)
    requires Background(web, seed, d, s) && Levelled(web, seed, d, s)
    requires r in s.results && (r.depth < d ==> Expanded(web, s, r.depth))
    ensures Level(web, seed, d, s.filter, Received(r))
  {
    assert ResultAt(s, r);
    assert SoundResult(web, {seed}, r);
    if r.depth < d {
      LevelComplete(web, seed, d, s, r.depth, r.depth);
    }
  }

  lemma MovedLevel(web: Links, seed: Url, d: int, s: State, c: Consumer, act: Act)
    requires CanAct(s, c, act) && Level(web, seed, d, s.filter, c)
    requires act.Consume? ==> Level(web, seed, d, s.filter, Received(act.r))
    requires JobConsumer({seed}, d, s.filter, c)
    requires SoundConsumer(web, {seed}, c)
    ensures Level(web, seed, d, s.filter, Moved(s, c, act))
  {
    hide Within, SoundResult;
  }

  lemma ActLevels(web: Links, seed: Url, d: int, s: State, i: nat, act: Act, s': State)
    requires Acts(s, i, act, s')
    requires forall j | 0 <= j < |s.consumers| :: Level(web, seed, d, s.filter, s.consumers[j])
    requires Level(web, seed, d, s.filter, Moved(s, s.consumers[i], act))
    ensures forall j | 0 <= j < |s'.consumers| :: Level(web, seed, d, s'.filter, s'.consumers[j])
  {
    hide Moved, Within, CanAct, ByRecord;
    assert s.filter <= s'.filter;
    forall j | 0 <= j < |s'.consumers|
      ensures Level(web, seed, d, s'.filter, s'.consumers[j])
    {
      assert Level(web, seed, d, s.filter, s'.consumers[j]);
    }
  }

  lemma ActLevelled(web: Links, seed: Url, d: int, s: State, i: nat, act: Act, s': State)
    requires Acts(s, i, act, s') && Levelled(web, seed, d, s)
    requires SoundConsumer(web, {seed}, s.consumers[i])
    requires act.Consume? ==> Level(web, seed, d, s.filter, Received(act.r))
    requires JobConsumer({seed}, d, s.filter, s.consumers[i])
    ensures Levelled(web, seed, d, s')
  {
    hide Level, SoundConsumer, Shortest, JobConsumer, Moved, ByEffect;
    var c := s.consumers[i];
    assert Level(web, seed, d, s.filter, c);
    MovedLevel(web, seed, d, s, c, act);
    ActLevels(web, seed, d, s, i, act, s');
    if act.Publish? {
      PublishShortest(web, seed, d, s, c);
    }
    hide CanAct;
  }

  lemma SeedShortest(web: Links, seed: Url)
    ensures Shortest(web, seed, seed, 0)
  {
  }

  lemma SourceLevelled(web: Links, seed: Url, d: int, s: State, e: Event, s': State)
    requires SourceEffect(s, e, s') && OtherEffect(s, s') && Levelled(web, seed, d, s)
    requires e.SeedPublish? ==> e.h.url == seed
    ensures Levelled(web, seed, d, s')
  {
    hide Within, Shortest;
    SeedShortest(web, seed);
    OtherLevels(web, seed, d, s, s');
    hide Level;
  }

  lemma OtherLevels(web: Links, seed: Url, d: int, s: State, s': State)
    requires OtherEffect(s, s') && Levelled(web, seed, d, s)
    ensures forall j | 0 <= j < |s'.consumers| :: Level(web, seed, d, s'.filter, s'.consumers[j])
  {
    hide Within, Shortest;
    forall j | 0 <= j < |s'.consumers|
      ensures Level(web, seed, d, s'.filter, s'.consumers[j])
    {
      assert Level(web, seed, d, s.filter, s.consumers[j]);
    }
  }

  lemma QuietLevelled(web: Links, seed: Url, d: int, s: State, s': State)
    requires QuietEffect(s, s') && OtherEffect(s, s') && Levelled(web, seed, d, s)
    ensures Levelled(web, seed, d, s')
  {
    OtherLevels(web, seed, d, s, s');
    hide Level, Shortest;
  }

  lemma StepLevelled(web: Links, seed: Url, d: int, s: State, e: Event, s': State)
    requires Step(s, e, s') && Levelled(web, seed, d, s) && Background(web, seed, d, s)
    requires LevelByLevel(web, d, s, e)
    ensures Levelled(web, seed, d, s')
  {
    hide Next, Levelled, Level, SoundConsumer, JobConsumer;
    if e.By? {
      ByFields(s, e, s');
      if e.act.Consume? {
        ConsumeLevel(web, seed, d, s, e.act.r);
      }
      assert SoundConsumer(web, {seed}, s.consumers[e.i]);
      assert JobConsumer({seed}, d, s.filter, s.consumers[e.i]);
      hide Background, ByEffect, ByRecord;
      ActLevelled(web, seed, d, s, e.i, e.act, s');
    } else {
      OtherFields(s, e, s');
      if Source(e) {
        SourceFields(s, e, s');
        SourceLevelled(web, seed, d, s, e, s');
      } else {
        QuietFields(s, e, s');
        QuietLevelled(web, seed, d, s, s');
      }
    }
  }

  lemma RunBackground(web: Links, seed: Url, d: int, ss: seq<State>, es: seq<Event>, n: nat, k: nat)
    requires ExactRun(web, seed, d, ss, es) && Init(ss[0], n) && k < |ss|
    ensures Background(web, seed, d, ss[k])
  {
    hide Step, JobInv, Provenanced, Conserved, Closing, Known, Spares, FromWeb, OneTarget, Faultless, Exact, Init;
    RunConserved(ss, es, n, k);
    RunProvenanced(web, {seed}, ss, es, n, k);
    FaultlessSpares(web, seed, d, ss, es);
    RunJob(web, seed, {seed}, d, ss, es, n, k);
    RunClosing(web, seed, d, ss, es, n, k);
    forall u: Url
      ensures Known(ss[k], u)
    {
      RunKnown(web, seed, d, ss, es, n, k, u);
    }
  }

  lemma {:induction false} RunLevelled(web: Links, seed: Url, d: int, ss: seq<State>, es: seq<Event>,
                                       n: nat, k: nat)
    requires LevelRun(web, seed, d, ss, es) && Init(ss[0], n) && k < |ss|
    ensures Levelled(web, seed, d, ss[k])
  {
    hide Step, Init, Levelled, Background, LevelByLevel, Faultless, Exact, FromWeb, OneTarget;
    if k > 0 {
      RunLevelled(web, seed, d, ss, es, n, k - 1);
      RunBackground(web, seed, d, ss, es, n, k - 1);
      assert Step(ss[k - 1], es[k - 1], ss[k]) && LevelByLevel(web, d, ss[k - 1], es[k - 1]);
      StepLevelled(web, seed, d, ss[k - 1], es[k - 1], ss[k]);
    } else {
      LevelledAtStart(web, seed, d, ss[0], n);
    }
  }

  lemma LevelledAtStart(web: Links, seed: Url, d: int, s: State, n: nat)
    requires Init(s, n)
    ensures Levelled(web, seed, d, s)
  {
  }

  /** The published pages are exactly those within the depth limit of the seed, each published
      with its shortest distance and no other. */
  ghost predicate IsBreadthFirst(web: Links, seed: Url, d: int, s: State) {
    && (forall u: Url :: PublishedUrl(s, u) <==> u in Within(web, seed, Max(0, d)))
    && (forall t <- s.log.published :: Shortest(web, seed, t.url, t.depth))
  }

  lemma ExpandedAtRest(web: Links, seed: Url, d: int, s: State)
    requires Background(web, seed, d, s) && Quiescent(s)
    ensures Expanded(web, s, Max(0, d))
  {
    forall t: Task, v: Url | t in s.log.published && t.depth < Max(0, d) && v in web(t.url)
      ensures v in s.filter
    {
      assert SoundTask(web, {seed}, t);
      assert Covered(web, s, t, v);
      assert Known(s, v);
    }
  }

  /** A fault-free crawl with an exact filter that goes level by level is, once at rest, a
      breadth-first search. */
  lemma LevelByLevelIsBreadthFirst(web: Links, seed: Url, d: int, ss: seq<State>, es: seq<Event>, n: nat)
    requires LevelRun(web, seed, d, ss, es) && Init(ss[0], n)
    requires Quiescent(Last(ss)) && Last(ss).log.starts > 0
    ensures IsBreadthFirst(web, seed, d, Last(ss))
  {
    var s := Last(ss);
    RunBackground(web, seed, d, ss, es, n, |es|);
    RunLevelled(web, seed, d, ss, es, n, |es|);
    ExpandedAtRest(web, seed, d, s);
    assert Task(seed, 0, d) in s.log.published;
    LevelComplete(web, seed, d, s, Max(0, d), Max(0, d));
    forall u: Url
      ensures PublishedUrl(s, u) <==> u in Within(web, seed, Max(0, d))
    {
      if PublishedUrl(s, u) {
        var t :| t in s.log.published && t.url == u;
        assert SoundTask(web, {seed}, t);
        FrontierWithin(web, seed, u, t.depth, Max(0, d));
      }
      assert Known(s, u);
    }
  }

  // ---- Taking results in order of depth

  /** Nothing of a depth below `l` is on its way to being expanded. */
  ghost predicate NothingBelow(s: State, l: int) {
    && (l > 0 ==> s.handlers == multiset{})
    && (forall t <- s.ready :: t.depth >= l)
    && (forall t <- s.held :: t.depth >= l)
    && (forall r <- s.results :: r.depth >= l)
    && (forall i | 0 <= i < |s.consumers| && !s.consumers[i].Idle? :: s.consumers[i].r.depth >= l)
  }

  /** A result is taken only when nothing shallower is left. */
  ghost predicate InOrder(s: State, e: Event) {
    e.By? && e.act.Consume? ==> NothingBelow(s, e.act.r.depth)
  }

  lemma NothingBelowIsExpanded(web: Links, seed: Url, d: int, s: State, l: int)
    requires Background(web, seed, d, s) && NothingBelow(s, l) && l <= d
    ensures Expanded(web, s, l)
  {
    forall t: Task, v: Url | t in s.log.published && t.depth < l && v in web(t.url)
      ensures v in s.filter
    {
      assert Covered(web, s, t, v);
      assert Known(s, v);
    }
  }

  lemma InOrderIsLevelByLevel(web: Links, seed: Url, d: int, ss: seq<State>, es: seq<Event>, n: nat)
    requires ExactRun(web, seed, d, ss, es) && Init(ss[0], n)
    requires forall k | 0 <= k < |es| :: InOrder(ss[k], es[k])
    ensures LevelRun(web, seed, d, ss, es)
  {
    hide Step, Init, Background, NothingBelow, Expanded, Faultless, Exact, FromWeb, OneTarget;
    forall k | 0 <= k < |es|
      ensures LevelByLevel(web, d, ss[k], es[k])
    {
      assert InOrder(ss[k], es[k]);
      RunBackground(web, seed, d, ss, es, n, k);
      if es[k].By? && es[k].act.Consume? && es[k].act.r.depth < d {
        NothingBelowIsExpanded(web, seed, d, ss[k], es[k].act.r.depth);
      }
    }
  }

  /** Something of a depth below `l` will be taken by a consumer sooner or later. */
  ghost predicate Coming(s: State, l: int) {
    || (l > 0 && s.handlers != multiset{})
    || (exists t :: (t in s.ready || t in s.held) && t.depth < l)
    || (exists r :: r in s.results && r.depth < l)
  }

  /** A consumer takes a result shallower than `l`. */
  ghost predicate TakesBelow(e: Event, l: int) {
    e.By? && e.act.Consume? && e.act.r.depth < l
  }

  lemma ComingAct(s: State, i: nat, act: Act, s': State, l: int)
    requires Acts(s, i, act, s') && Coming(s, l) && !(act.Consume? && act.r.depth < l)
    ensures Coming(s', l)
  {
    assert forall t :: t in s.ready ==> t in s'.ready;
    assert forall r :: r in s.results && r.depth < l ==> r in s'.results;
    hide Moved, CanAct, ByRecord;
  }

  lemma ComingHandler(s: State, e: Event, s': State, l: int)
    requires Step(s, e, s') && Handling(e) && Coming(s, l)
    ensures Coming(s', l)
  {
    assert forall t :: t in s.ready ==> t in s'.ready;
    if e.SeedAdd? {
      assert e.h.(added := true) in s'.handlers;
    } else if e.SeedPublish? {
      assert Task(e.h.url, 0, e.h.maxDepth) in s'.ready;
    } else {
      assert Seeding(e.seed, e.depth, false) in s'.handlers;
    }
  }

  lemma ComingMove(s: State, e: Event, s': State, l: int)
    requires Step(s, e, s') && (e.Deliver? || e.Requeue? || e.Emit?) && Coming(s, l)
    ensures Coming(s', l)
  {
    assert e.Emit? ==> UrlData(e.t.url, e.t.depth, e.next) in s'.results;
    assert forall t :: t in s.ready || t in s.held ==> t in s'.ready || t in s'.held || (e.Emit? && t == e.t);
    assert forall r :: r in s.results ==> r in s'.results;
  }

  lemma ComingKept(s: State, s': State, l: int)
    requires NothingLeaves(s, s') && s'.handlers == s.handlers && Coming(s, l)
    ensures Coming(s', l)
  {
  }

  /** What is on its way stays on its way until it is taken. */
  lemma ComingStep(s: State, e: Event, s': State, l: int)
    requires Step(s, e, s') && Faultless(s, e) && Coming(s, l) && !TakesBelow(e, l)
    ensures Coming(s', l)
  {
    hide Step, Faultless, Coming, NothingLeaves, StillEffect;
    if e.By? {
      ByFields(s, e, s');
      hide Acts;
      ComingAct(s, e.i, e.act, s', l);
    } else if Handling(e) {
      ComingHandler(s, e, s', l);
    } else if e.Deliver? || e.Requeue? || e.Emit? {
      ComingMove(s, e, s', l);
    } else {
      NothingLeavesFields(s, e, s');
      SameHandlers(s, e, s');
      ComingKept(s, s', l);
    }
  }

  lemma SameHandlers(s: State, e: Event, s': State)
    requires Step(s, e, s') && Faultless(s, e) && !e.By? && !Handling(e)
    ensures s'.handlers == s.handlers
  {
    hide Step, Faultless;
    StillFields(s, e, s');
  }

  lemma {:induction false} ComingRun(web: Links, seed: Url, d: int, ss: seq<State>, es: seq<Event>,
                                     j: nat, k: nat, l: int)
    requires FaultlessRun(web, seed, d, ss, es) && j <= k < |ss| && Coming(ss[j], l)
    requires forall m | j <= m < k :: !TakesBelow(es[m], l)
    ensures Coming(ss[k], l)
    decreases k
  {
    hide Step, Faultless, FromWeb, OneTarget, Coming, TakesBelow;
    if j < k {
      ComingRun(web, seed, d, ss, es, j, k - 1, l);
      assert Step(ss[k - 1], es[k - 1], ss[k]) && Faultless(ss[k - 1], es[k - 1]);
      ComingStep(ss[k - 1], es[k - 1], ss[k], l);
    }
  }

  /** The results are taken in an order in which the depth never decreases. */
  ghost predicate TakenInOrder(es: seq<Event>) {
    forall j, k | 0 <= j < k < |es| && es[j].By? && es[j].act.Consume? && es[k].By? && es[k].act.Consume? ::
      es[j].act.r.depth <= es[k].act.r.depth
  }

  /** When a result is taken, no other consumer is still busy with a shallower one. */
  ghost predicate NoStraggler(s: State, e: Event) {
    e.By? && e.act.Consume? ==>
      forall i | 0 <= i < |s.consumers| && !s.consumers[i].Idle? :: s.consumers[i].r.depth >= e.act.r.depth
  }

  lemma AloneNoStraggler(s: State, e: Event)
    requires Enabled(s, e) && |s.consumers| <= 1
    ensures NoStraggler(s, e)
  {
  }

  /** If the crawl comes to rest, the order in which results are taken alone rules out that
      anything shallower is left anywhere. */
  lemma TakenInOrderLeavesNothing(web: Links, seed: Url, d: int, ss: seq<State>, es: seq<Event>, k: nat)
    requires FaultlessRun(web, seed, d, ss, es) && Quiescent(Last(ss)) && TakenInOrder(es)
    requires k < |es| && NoStraggler(ss[k], es[k])
    ensures InOrder(ss[k], es[k])
  {
    hide Step, Faultless, FromWeb, OneTarget;
    if es[k].By? && es[k].act.Consume? {
      var l := es[k].act.r.depth;
      if Coming(ss[k], l) {
        ComingRun(web, seed, d, ss, es, k, |es|, l);
        assert false;
      }
    }
  }

  /** A fault-free crawl with an exact filter that processes its results in nondecreasing order
      of depth is a breadth-first search: with one result consumer, whatever else happens; with
      several, if none takes a result while another still holds a shallower one. */
  lemma InOrderIsBreadthFirst(web: Links, seed: Url, d: int, ss: seq<State>, es: seq<Event>, n: nat)
    requires ExactRun(web, seed, d, ss, es) && Init(ss[0], n)
    requires TakenInOrder(es)
    requires n <= 1 || forall k | 0 <= k < |es| :: NoStraggler(ss[k], es[k])
    requires Quiescent(Last(ss)) && Last(ss).log.starts > 0
    ensures IsBreadthFirst(web, seed, d, Last(ss))
  {
    hide Next, Enabled, Faultless, Exact, FromWeb, OneTarget, IsBreadthFirst, InOrder, NoStraggler, Quiescent,
         TakenInOrder;
    forall k | 0 <= k < |es|
      ensures InOrder(ss[k], es[k])
    {
      if n <= 1 {
        ConsumersFixed(ss, es, k);
        assert Step(ss[k], es[k], ss[k + 1]);
        AloneNoStraggler(ss[k], es[k]);
      }
      TakenInOrderLeavesNothing(web, seed, d, ss, es, k);
    }
    InOrderIsLevelByLevel(web, seed, d, ss, es, n);
    LevelByLevelIsBreadthFirst(web, seed, d, ss, es, n);
  }
}
