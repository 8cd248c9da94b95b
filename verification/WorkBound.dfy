/** How much work one crawl job can put on the task queues. */
module WorkBound {
  import opened Models
  import opened Web
  import opened Protocol
  import opened Conservation
  import opened Provenance
  import opened Duplication

  /** Every job of the run crawls `seed` to depth `d`. */
  ghost predicate OneTarget(seed: Url, d: int, e: Event) {
    e.StartJob? ==> e == StartJob(seed, d)
  }

  ghost predicate JobRun(web: Links, seed: Url, d: int, ss: seq<State>, es: seq<Event>) {
    RunOnWeb(web, {seed}, ss, es) && forall e <- es :: OneTarget(seed, d, e)
  }

  /** `spared` are URLs that no consumer ever claims: none, or the seed, provided that its
      addition to the filter succeeds. */
  ghost predicate Spares(seed: Url, spared: set<Url>, e: Event) {
    spared <= {seed} && (e.SeedAdd? && !e.ok ==> spared == {})
  }

  ghost predicate JobConsumer(spared: set<Url>, d: int, filter: set<Url>, c: Consumer) {
    && (!c.Idle? ==> spared <= filter)
    && (c.Expanding? || c.Checked? || c.Claimed? ==> c.maxDepth == d)
    && (c.Checked? ==> c.url !in spared)
  }

  ghost predicate JobMessages(seed: Url, spared: set<Url>, d: int, s: State) {
    && (s.maxDepth.Some? ==> s.maxDepth.value == d)
    && (forall h <- s.handlers :: h.maxDepth == d && h.url == seed && (h.added ==> spared <= s.filter))
    && (forall t <- s.log.published :: t.maxDepth == d && spared <= s.filter)
    && (s.log.outputs != multiset{} ==> spared <= s.filter)
  }

  ghost predicate JobConsumers(web: Links, seed: Url, spared: set<Url>, d: int, s: State) {
    && (forall i | 0 <= i < |s.consumers| :: JobConsumer(spared, d, s.filter, s.consumers[i]))
    && (forall k <- s.log.claims :: k.0 < |s.consumers| && k.1 in Within(web, seed, Max(0, d)) - spared)
  }

  ghost predicate JobInv(web: Links, seed: Url, spared: set<Url>, d: int, s: State) {
    JobMessages(seed, spared, d, s) && JobConsumers(web, seed, spared, d, s)
  }

  /** Every start of a job accounts for at most one task that no consumer published. */
  ghost predicate SeedCount(s: State) {
    |s.log.published| + |s.handlers| <= s.log.starts + |s.log.expansions|
  }

  lemma CountStep(s: State, e: Event, s': State)
    requires Step(s, e, s') && SeedCount(s)
    ensures SeedCount(s')
  {
    if e.By? {
      hide Next;
      ByFields(s, e, s');
      hide ByEffect, Moved, CanAct, Step;
    } else {
      OtherFields(s, e, s');
    }
  }

  lemma MovedJob(spared: set<Url>, d: int, s: State, c: Consumer, act: Act)
    requires CanAct(s, c, act) && JobConsumer(spared, d, s.filter, c)
    requires s.maxDepth.Some? ==> s.maxDepth.value == d
    requires act.Consume? ==> spared <= s.filter
    ensures JobConsumer(spared, d, s.filter, Moved(s, c, act))
  {
  }

  lemma ClaimWithin(web: Links, seed: Url, spared: set<Url>, d: int, s: State, c: Consumer)
    requires c.Checked? && SoundConsumer(web, {seed}, c) && JobConsumer(spared, d, s.filter, c)
    ensures c.url in Within(web, seed, Max(0, d)) - spared
  {
    assert c.url in Frontier(web, seed, c.r.depth + 1);
    FrontierWithin(web, seed, c.url, c.r.depth + 1, d);
  }

  /** Nothing is new but tasks for depth `d`. */
  ghost predicate OnlyTasks(spared: set<Url>, d: int, s: State, s': State) {
    && s'.maxDepth == s.maxDepth && s'.handlers == s.handlers && s'.log.outputs == s.log.outputs
    && s.filter <= s'.filter
    && forall t <- s'.log.published :: t in s.log.published || (t.maxDepth == d && spared <= s.filter)
  }

  lemma OnlyTasksAct(spared: set<Url>, d: int, s: State, i: nat, act: Act, s': State)
    requires Acts(s, i, act, s') && JobConsumer(spared, d, s.filter, s.consumers[i])
    ensures OnlyTasks(spared, d, s, s')
  {
    hide Moved;
  }

  lemma MessagesAct(seed: Url, spared: set<Url>, d: int, s: State, s': State)
    requires OnlyTasks(spared, d, s, s') && JobMessages(seed, spared, d, s)
    ensures JobMessages(seed, spared, d, s')
  {
  }

  lemma ConsumersAct(web: Links, seed: Url, spared: set<Url>, d: int, s: State, i: nat, act: Act, s': State)
    requires Acts(s, i, act, s') && JobConsumers(web, seed, spared, d, s)
    requires JobConsumer(spared, d, s.filter, Moved(s, s.consumers[i], act))
    requires act.Add? ==> s.consumers[i].url in Within(web, seed, Max(0, d)) - spared
    ensures JobConsumers(web, seed, spared, d, s')
  {
    hide Moved, Within, CanAct;
    assert s.filter <= s'.filter;
    forall j | 0 <= j < |s'.consumers|
      ensures JobConsumer(spared, d, s'.filter, s'.consumers[j])
    {
      assert j != i ==> JobConsumer(spared, d, s.filter, s.consumers[j]);
    }
    hide JobConsumer;
  }

  lemma ActJob(web: Links, seed: Url, spared: set<Url>, d: int, s: State, i: nat, act: Act, s': State)
    requires Acts(s, i, act, s') && JobInv(web, seed, spared, d, s)
    requires SoundConsumer(web, {seed}, s.consumers[i])
    requires act.Consume? ==> s.log.outputs != multiset{}
    ensures JobInv(web, seed, spared, d, s')
  {
    var c := s.consumers[i];
    assert JobConsumer(spared, d, s.filter, c);
    hide ByRecord, Within, Moved, JobConsumer, SoundConsumer;
    if act.Add? {
      ClaimWithin(web, seed, spared, d, s, c);
    }
    MovedJob(spared, d, s, c, act);
    OnlyTasksAct(spared, d, s, i, act, s');
    MessagesAct(seed, spared, d, s, s');
    ConsumersAct(web, seed, spared, d, s, i, act, s');
  }

  lemma SourceMessages(seed: Url, spared: set<Url>, d: int, s: State, e: Event, s': State)
    requires SourceEffect(s, e, s') && JobMessages(seed, spared, d, s)
    requires OneTarget(seed, d, e) && Spares(seed, spared, e)
    requires e.Emit? ==> spared <= s.filter
    ensures JobMessages(seed, spared, d, s')
  {
    assert s.filter <= s'.filter;
    if e.SeedAdd? {
      assert e.h in s.handlers ==> spared <= s'.filter;
    }
  }

  lemma OtherConsumers(web: Links, seed: Url, spared: set<Url>, d: int, s: State, s': State)
    requires OtherEffect(s, s') && JobConsumers(web, seed, spared, d, s)
    ensures JobConsumers(web, seed, spared, d, s')
  {
    hide Within;
  }

  lemma QuietMessages(seed: Url, spared: set<Url>, d: int, s: State, s': State)
    requires QuietEffect(s, s') && JobMessages(seed, spared, d, s)
    ensures JobMessages(seed, spared, d, s')
  {
  }

  /** What is taken or crawled has been published. */
  lemma TakenPublished(s: State, e: Event)
    requires Enabled(s, e) && Conserved(s)
    ensures e.Emit? ==> e.t in s.log.published
    ensures e.By? && e.act.Consume? ==> s.log.outputs != multiset{}
  {
    if e.Emit? {
      assert TaskAt(s, e.t);
    } else if e.By? && e.act.Consume? {
      assert ResultAt(s, e.act.r);
    }
  }

  lemma StepJob(web: Links, seed: Url, spared: set<Url>, d: int, s: State, e: Event, s': State)
    requires Step(s, e, s') && JobInv(web, seed, spared, d, s)
    requires OneTarget(seed, d, e) && Spares(seed, spared, e)
    requires Provenanced(web, {seed}, s) && Conserved(s)
    ensures JobInv(web, seed, spared, d, s')
  {
    hide Enabled, Next, Conserved, JobConsumers, OneTarget, Spares, SoundConsumer, SoundTask, SoundResult;
    TakenPublished(s, e);
    if e.By? {
      ByFields(s, e, s');
      hide ByEffect, ByRecord, JobMessages;
      ActJob(web, seed, spared, d, s, e.i, e.act, s');
    } else {
      OtherFields(s, e, s');
      OtherConsumers(web, seed, spared, d, s, s');
      if Source(e) {
        SourceFields(s, e, s');
        SourceMessages(seed, spared, d, s, e, s');
      } else {
        QuietFields(s, e, s');
        QuietMessages(seed, spared, d, s, s');
      }
    }
  }

  lemma JobAtStart(web: Links, seed: Url, spared: set<Url>, d: int, s: State, n: nat)
    requires Init(s, n)
    ensures JobInv(web, seed, spared, d, s) && SeedCount(s)
  {
  }

  lemma {:induction false} RunJob(web: Links, seed: Url, spared: set<Url>, d: int, ss: seq<State>,
                                  es: seq<Event>, n: nat, k: nat)
    requires JobRun(web, seed, d, ss, es) && Init(ss[0], n) && k < |ss|
    requires forall e <- es :: Spares(seed, spared, e)
    ensures JobInv(web, seed, spared, d, ss[k]) && SeedCount(ss[k])
  {
    hide Step, JobInv, Provenanced, Conserved, OneTarget, FromWeb, SeedCount, Spares, Init;
    if k > 0 {
      RunJob(web, seed, spared, d, ss, es, n, k - 1);
      RunProvenanced(web, {seed}, ss, es, n, k - 1);
      RunConserved(ss, es, n, k - 1);
      assert Step(ss[k - 1], es[k - 1], ss[k]) && es[k - 1] in es;
      CountStep(ss[k - 1], es[k - 1], ss[k]);
      StepJob(web, seed, spared, d, ss[k - 1], es[k - 1], ss[k]);
    } else {
      JobAtStart(web, seed, spared, d, ss[0], n);
    }
  }

  // ---- Counting

  lemma {:induction false} ColumnBound(c: set<(nat, Url)>, i: nat, us: set<Url>)
    requires forall k <- c :: k.0 == i && k.1 in us
    ensures |c| <= |us|
    decreases |us|
  {
    if c != {} {
      var k :| k in c;
      ColumnBound(c - {k}, i, us - {k.1});
    }
  }

  lemma {:induction false} PairsBound(c: set<(nat, Url)>, n: nat, us: set<Url>)
    requires forall k <- c :: k.0 < n && k.1 in us
    ensures |c| <= n * |us|
  {
    if n > 0 {
      var column := set k | k in c && k.0 == n - 1;
      ColumnBound(column, n - 1, us);
      PairsBound(c - column, n - 1, us);
      assert (n - 1) * |us| + |us| == n * |us|;
    } else {
      assert c == {};
    }
  }

  lemma {:induction false} SubsetSize<T>(a: multiset<T>, b: multiset<T>)
    requires a <= b
    ensures |a| <= |b|
  {
    assert b == a + (b - a);
  }

  lemma ExpansionsBound(s: State)
    requires DupInv(s)
    ensures |s.log.expansions| <= |s.log.claims| + |s.log.failedAdds|
  {
    var bound := multiset(s.log.claims) + s.log.failedAdds;
    forall k: (nat, Url)
      ensures s.log.expansions[k] <= bound[k]
    {
      assert DupAt(s, k.0, k.1);
    }
    SubsetSize(s.log.expansions, bound);
  }

  /** Every addition of the seed to the filter succeeds. */
  ghost predicate SeedAdded(es: seq<Event>) {
    forall e <- es :: e.SeedAdd? ==> e.ok
  }

  /** Crawling `seed` to depth `d` with `n` result consumers publishes at most one task per
      start of the job, `n` per page within reach - other than the seed, if it was added to the
      filter - and one per add whose failure was ignored, even if workers are redelivered tasks
      without limit. */
  lemma TotalWork(web: Links, seed: Url, d: int, ss: seq<State>, es: seq<Event>, n: nat)
    requires JobRun(web, seed, d, ss, es) && Init(ss[0], n)
    ensures var within := |Within(web, seed, Max(0, d))|;
            |Last(ss).log.published| <= Last(ss).log.starts
              + n * (if SeedAdded(es) then within - 1 else within) + |Last(ss).log.failedAdds|
  {
    hide Step, Within;
    var s, spared := Last(ss), if SeedAdded(es) then {seed} else {};
    SeedWithin(web, seed, Max(0, d));
    assert SeedAdded(es) || spared == {};
    forall e <- es
      ensures Spares(seed, spared, e)
    {
    }
    RunJob(web, seed, spared, d, ss, es, n, |es|);
    DupRun(ss, es, n, |es|);
    ConsumersFixed(ss, es, |es|);
    ExpansionsBound(s);
    PairsBound(s.log.claims, n, Within(web, seed, Max(0, d)) - spared);
  }

  lemma SeedWithin(web: Links, seed: Url, d: nat)
    ensures seed in Within(web, seed, d)
  {
    WithinGrows(web, seed, 0, d);
  }

  // ---- Any number of jobs with seeds and depths of their own

  /** The pages at most `limit` hops from any of `seeds`. */
  ghost function Reach(web: Links, seeds: set<Url>, limit: nat): set<Url> {
    set seed, u | seed in seeds && u in Within(web, seed, limit) :: u
  }

  ghost predicate DepthLimited(limit: nat, e: Event) {
    e.StartJob? ==> e.depth <= limit
  }

  ghost predicate LimitedConsumer(limit: nat, c: Consumer) {
    c.Expanding? || c.Checked? || c.Claimed? ==> c.maxDepth <= limit
  }

  ghost predicate LimitInv(web: Links, seeds: set<Url>, limit: nat, s: State) {
    && (s.maxDepth.Some? ==> s.maxDepth.value <= limit)
    && (forall i | 0 <= i < |s.consumers| :: LimitedConsumer(limit, s.consumers[i]))
    && (forall k <- s.log.claims :: k.0 < |s.consumers| && k.1 in Reach(web, seeds, limit))
  }

  lemma ClaimReached(web: Links, seeds: set<Url>, limit: nat, c: Consumer)
    requires c.Checked? && SoundConsumer(web, seeds, c) && LimitedConsumer(limit, c)
    ensures c.url in Reach(web, seeds, limit)
  {
    var seed :| seed in seeds && c.r.url in Frontier(web, seed, c.r.depth);
    assert c.url in Frontier(web, seed, c.r.depth + 1);
    FrontierWithin(web, seed, c.url, c.r.depth + 1, limit);
  }

  lemma MovedLimited(limit: nat, s: State, c: Consumer, act: Act)
    requires CanAct(s, c, act) && LimitedConsumer(limit, c)
    requires s.maxDepth.Some? ==> s.maxDepth.value <= limit
    ensures LimitedConsumer(limit, Moved(s, c, act))
  {
  }

  lemma ActLimited(web: Links, seeds: set<Url>, limit: nat, s: State, i: nat, act: Act, s': State)
    requires Acts(s, i, act, s') && LimitInv(web, seeds, limit, s)
    requires SoundConsumer(web, seeds, s.consumers[i])
    ensures LimitInv(web, seeds, limit, s')
  {
    hide Moved, Reach, SoundConsumer, LimitedConsumer;
    var c := s.consumers[i];
    assert LimitedConsumer(limit, c);
    MovedLimited(limit, s, c, act);
    if act.Add? {
      ClaimReached(web, seeds, limit, c);
    }
  }

  lemma OtherLimited(web: Links, seeds: set<Url>, limit: nat, s: State, s': State)
    requires OtherEffect(s, s') && LimitInv(web, seeds, limit, s)
    requires s'.maxDepth.Some? ==> s'.maxDepth.value <= limit
    ensures LimitInv(web, seeds, limit, s')
  {
    hide Reach, LimitedConsumer;
  }

  lemma StepLimited(web: Links, seeds: set<Url>, limit: nat, s: State, e: Event, s': State)
    requires Step(s, e, s') && LimitInv(web, seeds, limit, s) && DepthLimited(limit, e)
    requires Provenanced(web, seeds, s)
    ensures LimitInv(web, seeds, limit, s')
  {
    hide Enabled, Next, Reach, LimitedConsumer, SoundConsumer, SoundTask, SoundResult;
    if e.By? {
      ByFields(s, e, s');
      ActLimited(web, seeds, limit, s, e.i, e.act, s');
    } else {
      OtherFields(s, e, s');
      if Source(e) {
        SourceFields(s, e, s');
      } else {
        QuietFields(s, e, s');
      }
      OtherLimited(web, seeds, limit, s, s');
    }
  }

  lemma LimitedAtStart(web: Links, seeds: set<Url>, limit: nat, s: State, n: nat)
    requires Init(s, n)
    ensures LimitInv(web, seeds, limit, s) && SeedCount(s)
  {
  }

  lemma {:induction false} RunLimited(web: Links, seeds: set<Url>, limit: nat, ss: seq<State>,
                                      es: seq<Event>, n: nat, k: nat)
    requires RunOnWeb(web, seeds, ss, es) && Init(ss[0], n) && k < |ss|
    requires forall e <- es :: DepthLimited(limit, e)
    ensures LimitInv(web, seeds, limit, ss[k]) && SeedCount(ss[k])
  {
    hide Step, LimitInv, Provenanced, DepthLimited, FromWeb, SeedCount, Init;
    if k > 0 {
      RunLimited(web, seeds, limit, ss, es, n, k - 1);
      RunProvenanced(web, seeds, ss, es, n, k - 1);
      assert Step(ss[k - 1], es[k - 1], ss[k]) && es[k - 1] in es;
      CountStep(ss[k - 1], es[k - 1], ss[k]);
      StepLimited(web, seeds, limit, ss[k - 1], es[k - 1], ss[k]);
    } else {
      LimitedAtStart(web, seeds, limit, ss[0], n);
    }
  }

  /** Any jobs from `seeds` to depths of at most `limit`, one after the other, publish at most one
      task per start, `n` per page within `limit` hops of some seed and one per add whose failure
      was ignored.  The greatest depth counts for every seed: what is left of one job can be
      expanded by the depth of the next. */
  lemma TotalWorkOfJobs(web: Links, seeds: set<Url>, limit: nat, ss: seq<State>, es: seq<Event>, n: nat)
    requires RunOnWeb(web, seeds, ss, es) && Init(ss[0], n)
    requires forall e <- es :: DepthLimited(limit, e)
    ensures var log := Last(ss).log;
      |log.published| <= log.starts + n * |Reach(web, seeds, limit)| + |log.failedAdds|
  {
    hide Step, Reach;
    var s := Last(ss);
    RunLimited(web, seeds, limit, ss, es, n, |es|);
    DupRun(ss, es, n, |es|);
    ConsumersFixed(ss, es, |es|);
    ExpansionsBound(s);
    PairsBound(s.log.claims, n, Reach(web, seeds, limit));
  }
}
