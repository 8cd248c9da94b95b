/** No message is lost track of: delivery, redelivery, failure, acknowledgement, overflow and
    purging move messages between a few places, and every message is in exactly one of them. */
module Conservation {
  import opened Models
  import opened Protocol

  /** Some result carrying the URL and depth of `t` was published. */
  ghost predicate Answered(s: State, t: Task) {
    exists r :: r in s.log.outputs && r.url == t.url && r.depth == t.depth
  }

  /** Result `r` carries the URL and depth of some task that was published and crawled. */
  ghost predicate Asked(s: State, r: UrlData) {
    exists t :: t in s.log.emitted && r.url == t.url && r.depth == t.depth
  }

  ghost predicate TaskAt(s: State, t: Task) {
    && s.log.published[t] ==
       s.ready[t] + s.held[t] + s.done[t] + s.log.acked[t] + s.log.failed[t] + s.log.lost[t]
    && s.log.acked[t] + s.done[t] <= s.log.emitted[t]
    && (t in s.log.emitted ==> Answered(s, t) && t in s.log.published)
  }

  ghost predicate ResultAt(s: State, r: UrlData) {
    && s.log.outputs[r] == s.results[r] + s.log.consumed[r] + s.log.lostResults[r]
    && (r in s.log.outputs ==> Asked(s, r))
  }

  ghost predicate ConsumerAt(s: State, i: nat) {
    i < |s.consumers| && !s.consumers[i].Idle? ==> s.consumers[i].r in s.log.consumed
  }

  ghost predicate Conserved(s: State) {
    && (forall t: Task :: TaskAt(s, t))
    && (forall r: UrlData :: ResultAt(s, r))
    && (forall i: nat :: ConsumerAt(s, i))
  }

  lemma TaskAct(s: State, i: nat, act: Act, s': State, t: Task)
    requires Acts(s, i, act, s') && TaskAt(s, t)
    ensures TaskAt(s', t)
  {
    assert Answered(s', t) == Answered(s, t);
    hide Answered, Moved, CanAct;
  }

  /** A worker or the broker moves one task from one place to another. */
  ghost predicate TaskMoves(e: Event) {
    e.Deliver? || e.Requeue? || e.RequeueDone? || e.CrawlFails? || e.Ack? || e.LoseTask?
  }

  lemma TaskLeavesQueue(s: State, e: Event, s': State, t: Task)
    requires Step(s, e, s') && TaskAt(s, t) && (e.Deliver? || e.LoseTask?)
    ensures TaskAt(s', t)
  {
    assert Answered(s', t) == Answered(s, t);
    hide Answered;
  }

  lemma TaskLeavesWorker(s: State, e: Event, s': State, t: Task)
    requires Step(s, e, s') && TaskAt(s, t) && (e.Requeue? || e.CrawlFails?)
    ensures TaskAt(s', t)
  {
    assert Answered(s', t) == Answered(s, t);
    hide Answered;
  }

  lemma TaskLeavesAnswered(s: State, e: Event, s': State, t: Task)
    requires Step(s, e, s') && TaskAt(s, t) && (e.RequeueDone? || e.Ack?)
    ensures TaskAt(s', t)
  {
    assert Answered(s', t) == Answered(s, t);
    hide Answered;
  }

  lemma TaskEmit(s: State, e: Event, s': State, t: Task)
    requires Step(s, e, s') && TaskAt(s, t) && e.Emit?
    ensures TaskAt(s', t)
  {
    assert UrlData(e.t.url, e.t.depth, e.next) in s'.log.outputs;
    assert forall r :: r in s.log.outputs ==> r in s'.log.outputs;
  }

  lemma TaskSeeded(s: State, e: Event, s': State, t: Task)
    requires Step(s, e, s') && TaskAt(s, t) && e.SeedPublish?
    ensures TaskAt(s', t)
  {
    assert Answered(s', t) == Answered(s, t);
    hide Answered;
  }

  /** What the remaining steps leave alone. */
  ghost predicate SameTasks(s: State, s': State) {
    && s'.ready == s.ready && s'.held == s.held && s'.done == s.done
    && s'.log.(starts := s.log.starts, lostResults := s.log.lostResults) == s.log
  }

  lemma OthersKeepTasks(s: State, e: Event, s': State)
    requires Step(s, e, s') && !e.By? && !TaskMoves(e) && !e.Emit? && !e.SeedPublish?
    ensures SameTasks(s, s')
  {
  }

  lemma TaskStep(s: State, e: Event, s': State, t: Task)
    requires Step(s, e, s') && TaskAt(s, t)
    ensures TaskAt(s', t)
  {
    hide Step, TaskAt;
    if e.By? {
      ByFields(s, e, s');
      hide Acts;
      TaskAct(s, e.i, e.act, s', t);
    } else if e.Emit? {
      TaskEmit(s, e, s', t);
    } else if e.SeedPublish? {
      TaskSeeded(s, e, s', t);
    } else if e.Deliver? || e.LoseTask? {
      TaskLeavesQueue(s, e, s', t);
    } else if e.Requeue? || e.CrawlFails? {
      TaskLeavesWorker(s, e, s', t);
    } else if e.RequeueDone? || e.Ack? {
      TaskLeavesAnswered(s, e, s', t);
    } else {
      OthersKeepTasks(s, e, s');
      TaskKept(s, s', t);
    }
  }

  lemma TaskKept(s: State, s': State, t: Task)
    requires SameTasks(s, s') && TaskAt(s, t)
    ensures TaskAt(s', t)
  {
    assert Answered(s', t) == Answered(s, t);
    hide Answered;
  }

  lemma ResultAct(s: State, i: nat, act: Act, s': State, r: UrlData)
    requires Acts(s, i, act, s') && ResultAt(s, r)
    ensures ResultAt(s', r)
  {
    assert Asked(s', r) == Asked(s, r);
    hide Asked, Moved;
  }

  lemma ResultEmit(s: State, e: Event, s': State, r: UrlData)
    requires Step(s, e, s') && ResultAt(s, r) && e.Emit?
    ensures ResultAt(s', r)
  {
    assert e.t in s'.log.emitted;
    assert forall t :: t in s.log.emitted ==> t in s'.log.emitted;
  }

  lemma ResultLost(s: State, e: Event, s': State, r: UrlData)
    requires Step(s, e, s') && ResultAt(s, r) && e.LoseResult?
    ensures ResultAt(s', r)
  {
    assert Asked(s', r) == Asked(s, r);
    hide Asked;
  }

  ghost predicate SameResults(s: State, s': State) {
    && s'.results == s.results && s'.log.outputs == s.log.outputs && s'.log.consumed == s.log.consumed
    && s'.log.lostResults == s.log.lostResults && s'.log.emitted == s.log.emitted
  }

  lemma OthersKeepResults(s: State, e: Event, s': State)
    requires Step(s, e, s') && !e.By? && !e.Emit? && !e.LoseResult?
    ensures SameResults(s, s')
  {
  }

  lemma ResultStep(s: State, e: Event, s': State, r: UrlData)
    requires Step(s, e, s') && ResultAt(s, r)
    ensures ResultAt(s', r)
  {
    hide Step, ResultAt;
    if e.By? {
      ByFields(s, e, s');
      hide Acts;
      ResultAct(s, e.i, e.act, s', r);
    } else if e.Emit? {
      ResultEmit(s, e, s', r);
    } else if e.LoseResult? {
      ResultLost(s, e, s', r);
    } else {
      OthersKeepResults(s, e, s');
      ResultKept(s, s', r);
    }
  }

  lemma ResultKept(s: State, s': State, r: UrlData)
    requires SameResults(s, s') && ResultAt(s, r)
    ensures ResultAt(s', r)
  {
    assert Asked(s', r) == Asked(s, r);
    hide Asked;
  }

  lemma ConsumerAct(s: State, j: nat, act: Act, s': State, i: nat)
    requires Acts(s, j, act, s') && ConsumerAt(s, i)
    ensures ConsumerAt(s', i)
  {
    assert act.Consume? ==> act.r in s'.log.consumed;
    assert forall r <- s.log.consumed :: r in s'.log.consumed;
    hide ByRecord;
  }

  lemma ConsumedKept(s: State, e: Event, s': State)
    requires Step(s, e, s') && !e.By?
    ensures s'.log.consumed == s.log.consumed && s'.consumers == s.consumers
  {
  }

  lemma ConsumerStep(s: State, e: Event, s': State, i: nat)
    requires Step(s, e, s') && ConsumerAt(s, i)
    ensures ConsumerAt(s', i)
  {
    hide Step;
    if e.By? {
      ByFields(s, e, s');
      hide Acts, ConsumerAt;
      ConsumerAct(s, e.i, e.act, s', i);
    } else {
      ConsumedKept(s, e, s');
    }
  }

  lemma StartConserved(s: State, n: nat)
    requires Init(s, n)
    ensures Conserved(s)
  {
  }

  lemma {:induction false} RunConserved(ss: seq<State>, es: seq<Event>, n: nat, k: nat)
    requires IsRun(ss, es) && Init(ss[0], n) && k < |ss|
    ensures Conserved(ss[k])
  {
    if k > 0 {
      hide Step, TaskAt, ResultAt, ConsumerAt, Init;
      RunConserved(ss, es, n, k - 1);
      var s, e := ss[k - 1], es[k - 1];
      assert Step(s, e, ss[k]);
      forall t: Task ensures TaskAt(ss[k], t) {
        assert TaskAt(s, t);
        TaskStep(s, e, ss[k], t);
      }
      forall r: UrlData ensures ResultAt(ss[k], r) {
        assert ResultAt(s, r);
        ResultStep(s, e, ss[k], r);
      }
      forall i: nat ensures ConsumerAt(ss[k], i) {
        assert ConsumerAt(s, i);
        ConsumerStep(s, e, ss[k], i);
      }
    } else {
      hide *;
      StartConserved(ss[0], n);
    }
  }

  /** In every reachable state each copy of each published task is in exactly one place, each
      published result likewise; whatever was acknowledged after a crawl has a result carrying
      its own URL and depth, and every result carries those of a task that was crawled. */
  lemma Accounted(ss: seq<State>, es: seq<Event>, n: nat)
    requires IsRun(ss, es) && Init(ss[0], n)
    ensures var s := Last(ss);
            && s.log.published ==
               s.ready + s.held + s.done + s.log.acked + s.log.failed + s.log.lost
            && s.log.outputs == s.results + s.log.consumed + s.log.lostResults
            && (forall t <- s.log.acked + s.done :: Answered(s, t))
            && (forall r <- s.log.outputs :: Asked(s, r))
  {
    RunConserved(ss, es, n, |es|);
    var s := Last(ss);
    var tasks := s.ready + s.held + s.done + s.log.acked + s.log.failed + s.log.lost;
    forall t: Task
      ensures s.log.published[t] == tasks[t]
    {
      assert TaskAt(s, t);
    }
    var results := s.results + s.log.consumed + s.log.lostResults;
    forall r: UrlData
      ensures s.log.outputs[r] == results[r]
    {
      assert ResultAt(s, r);
    }
    forall r | r in s.log.outputs
      ensures Asked(s, r)
    {
      assert ResultAt(s, r);
    }
    forall t | t in s.log.acked + s.done
      ensures Answered(s, t)
    {
      assert TaskAt(s, t);
    }
  }
}
