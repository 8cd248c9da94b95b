/** Without redelivery, a crawl stops: every step uses up some of a bound that is known as
    soon as the job is started. */
module Termination {
  import opened Models
  import opened Web
  import opened Protocol
  import opened Provenance
  import opened Closure
  import opened Sums
  import opened Scenarios

  /** The steps to deal with `u` once it is on a task queue, when pages `k - 1` levels further
      down are still expanded. */
  ghost function PageCost(web: Links, u: Url, k: nat): nat
    decreases k, 1, 0
  {
    6 + LinksCost(web, web(u), k)
  }

  /** The steps caused by a consumer's remaining links: check, add and publish each, and then
      deal with the new task. */
  ghost function LinksCost(web: Links, vs: seq<Url>, k: nat): nat
    decreases k, 0, |vs|
  {
    if k == 0 || vs == [] then 0
    else 3 + PageCost(web, vs[0], k - 1) + LinksCost(web, vs[1..], k)
  }

  lemma {:induction false} PrefixCost(web: Links, vs: seq<Url>, k: nat, n: nat)
    requires n <= |vs|
    ensures LinksCost(web, vs[..n], k) <= LinksCost(web, vs, k)
  {
    if n > 0 {
      PrefixCost(web, vs[1..], k, n - 1);
      assert vs[..n][1..] == vs[1..][..n - 1];
    }
  }

  /** How many levels below `depth` may still be expanded. */
  function Levels(d: int, depth: int): nat {
    Max(0, d - depth)
  }

  ghost function ReadyCost(web: Links, d: int): Task -> nat {
    (t: Task) => PageCost(web, t.url, Levels(d, t.depth))
  }

  ghost function CrawlCost(web: Links, d: int, t: Task): nat {
    5 + LinksCost(web, web(t.url), Levels(d, t.depth))
  }

  ghost function HeldCost(web: Links, d: int): Task -> nat {
    (t: Task) => CrawlCost(web, d, t)
  }

  ghost function DoneCost(): Task -> nat {
    (t: Task) => 1
  }

  ghost function ResultCost(web: Links, d: int): UrlData -> nat {
    (r: UrlData) => 3 + LinksCost(web, r.nextUrls, Levels(d, r.depth))
  }

  ghost function HandlerCost(web: Links, d: int): Seeding -> nat {
    (h: Seeding) => (if h.added then 1 else 2) + PageCost(web, h.url, Levels(d, 0))
  }

  ghost function StandCost(web: Links, d: int, c: Consumer): nat {
    match c
    case Idle => 0
    case Received(r) => 2 + LinksCost(web, r.nextUrls, Levels(d, r.depth))
    case Expanding(r, _, rest) => 1 + LinksCost(web, rest, Levels(d, r.depth))
    case Checked(r, _, rest, url) =>
      3 + PageCost(web, url, Levels(d, r.depth + 1)) + LinksCost(web, rest, Levels(d, r.depth))
    case Claimed(r, _, rest, url) =>
      2 + PageCost(web, url, Levels(d, r.depth + 1)) + LinksCost(web, rest, Levels(d, r.depth))
  }

  ghost function ConsumerCost(web: Links, d: int): Consumer -> nat {
    (c: Consumer) => StandCost(web, d, c)
  }

  ghost function KeyCost(s: State): nat {
    (if s.active.Some? then 1 else 0) + (if s.maxDepth.Some? then 1 else 0)
  }

  /** An upper bound on the number of steps the system can still take. */
  ghost function Work(web: Links, d: int, s: State): nat {
    Sum(s.handlers, HandlerCost(web, d)) + Sum(s.ready, ReadyCost(web, d))
    + Sum(s.held, HeldCost(web, d)) + Sum(s.done, DoneCost())
    + Sum(s.results, ResultCost(web, d)) + SumSeq(s.consumers, ConsumerCost(web, d))
    + KeyCost(s)
  }

  ghost predicate BoundedConsumer(d: int, c: Consumer) {
    c.Expanding? || c.Checked? || c.Claimed? ==> c.r.depth < c.maxDepth <= d
  }

  /** No expansion in this state goes deeper than `d`. */
  ghost predicate Bounded(d: int, s: State) {
    && (s.maxDepth.Some? ==> s.maxDepth.value <= d)
    && forall i | 0 <= i < |s.consumers| :: BoundedConsumer(d, s.consumers[i])
  }

  /** No job is started and no task is redelivered; the web does not change. */
  ghost predicate Onward(web: Links, e: Event) {
    && !e.StartJob? && !e.Requeue? && !e.RequeueDone?
    && (e.Emit? ==> e.next == web(e.t.url))
  }

  lemma MovedCost(web: Links, d: int, s: State, c: Consumer, act: Act)
    requires CanAct(s, c, act) && BoundedConsumer(d, c) && !act.Consume?
    requires s.maxDepth.Some? ==> s.maxDepth.value <= d
    ensures BoundedConsumer(d, Moved(s, c, act))
    ensures StandCost(web, d, Moved(s, c, act))
            + (if act.Publish? then PageCost(web, c.url, Levels(d, c.r.depth + 1)) else 0)
          < StandCost(web, d, c)
  {
    match act
    case ReadDepth(ok, limit) => PrefixCost(web, c.r.nextUrls, Levels(d, c.r.depth), limit);
    case Check(reply) =>
      assert Levels(d, c.r.depth) - 1 == Levels(d, c.r.depth + 1);
    case _ =>
  }

  lemma ActBounded(d: int, s: State, i: nat, act: Act, s': State)
    requires Acts(s, i, act, s') && Bounded(d, s)
    requires BoundedConsumer(d, Moved(s, s.consumers[i], act))
    ensures Bounded(d, s')
  {
    hide Moved, CanAct, ByRecord;
  }

  lemma ConsumeWork(web: Links, d: int, s: State, i: nat, r: UrlData, s': State)
    requires Acts(s, i, Consume(r), s')
    ensures Work(web, d, s') < Work(web, d, s)
  {
    hide Sum, SumSeq, PageCost, LinksCost, ByRecord;
    SumRemove(s.results, ResultCost(web, d), r);
    SumSeqUpdate(s.consumers, ConsumerCost(web, d), i, Received(r));
  }

  lemma MoveWork(web: Links, d: int, s: State, i: nat, act: Act, s': State)
    requires Acts(s, i, act, s') && !act.Consume?
    requires BoundedConsumer(d, s.consumers[i]) && (s.maxDepth.Some? ==> s.maxDepth.value <= d)
    ensures BoundedConsumer(d, Moved(s, s.consumers[i], act))
    ensures Work(web, d, s') < Work(web, d, s)
  {
    hide Sum, SumSeq, PageCost, LinksCost, ByRecord, Moved, BoundedConsumer;
    var c := s.consumers[i];
    MovedCost(web, d, s, c, act);
    SumSeqUpdate(s.consumers, ConsumerCost(web, d), i, Moved(s, c, act));
    if act.Publish? {
      SumAdd(s.ready, ReadyCost(web, d), NewTask(c));
    }
    hide CanAct, StandCost;
  }

  lemma ActWork(web: Links, d: int, s: State, i: nat, act: Act, s': State)
    requires Acts(s, i, act, s') && Bounded(d, s)
    ensures Bounded(d, s') && Work(web, d, s') < Work(web, d, s)
  {
    hide Work, ByEffect, ByRecord, Moved;
    assert BoundedConsumer(d, s.consumers[i]);
    if act.Consume? {
      ConsumeWork(web, d, s, i, act.r, s');
      assert BoundedConsumer(d, Received(act.r));
      ConsumedStands(s, i, act.r);
    } else {
      MoveWork(web, d, s, i, act, s');
    }
    hide BoundedConsumer;
    ActBounded(d, s, i, act, s');
  }

  lemma ConsumedStands(s: State, i: nat, r: UrlData)
    requires i < |s.consumers| && CanAct(s, s.consumers[i], Consume(r))
    ensures Moved(s, s.consumers[i], Consume(r)) == Received(r)
  {
  }

  lemma SeedAddWork(web: Links, d: int, s: State, e: Event, s': State)
    requires Step(s, e, s') && e.SeedAdd?
    ensures Work(web, d, s') < Work(web, d, s)
  {
    hide Sum, SumSeq, PageCost;
    SumRemove(s.handlers, HandlerCost(web, d), e.h);
    SumAdd(s.handlers - multiset{e.h}, HandlerCost(web, d), e.h.(added := true));
  }

  lemma SeedPublishWork(web: Links, d: int, s: State, e: Event, s': State)
    requires Step(s, e, s') && e.SeedPublish?
    ensures Work(web, d, s') < Work(web, d, s)
  {
    hide Sum, SumSeq, PageCost;
    SumRemove(s.handlers, HandlerCost(web, d), e.h);
    SumAdd(s.ready, ReadyCost(web, d), Task(e.h.url, 0, e.h.maxDepth));
  }

  lemma SeedFailWork(web: Links, d: int, s: State, e: Event, s': State)
    requires Step(s, e, s') && e.SeedFail?
    ensures Work(web, d, s') < Work(web, d, s)
  {
    hide Sum, SumSeq, PageCost;
    SumRemove(s.handlers, HandlerCost(web, d), e.h);
  }

  lemma DeliverWork(web: Links, d: int, s: State, e: Event, s': State)
    requires Step(s, e, s') && e.Deliver?
    ensures Work(web, d, s') < Work(web, d, s)
  {
    hide Sum, SumSeq, LinksCost;
    SumRemove(s.ready, ReadyCost(web, d), e.t);
    SumAdd(s.held, HeldCost(web, d), e.t);
  }

  lemma EmitWork(web: Links, d: int, s: State, e: Event, s': State)
    requires Step(s, e, s') && Onward(web, e) && e.Emit?
    ensures Work(web, d, s') < Work(web, d, s)
  {
    hide Sum, SumSeq, LinksCost;
    SumRemove(s.held, HeldCost(web, d), e.t);
    SumAdd(s.done, DoneCost(), e.t);
    SumAdd(s.results, ResultCost(web, d), UrlData(e.t.url, e.t.depth, e.next));
  }

  /** A message leaves the system. */
  lemma LeaveWork(web: Links, d: int, s: State, e: Event, s': State)
    requires Step(s, e, s') && (e.CrawlFails? || e.Ack?)
    ensures Work(web, d, s') < Work(web, d, s)
  {
    hide Sum, SumSeq, LinksCost, PageCost;
    if e.CrawlFails? {
      SumRemove(s.held, HeldCost(web, d), e.t);
    } else {
      SumRemove(s.done, DoneCost(), e.t);
    }
  }

  lemma LossWork(web: Links, d: int, s: State, e: Event, s': State)
    requires Step(s, e, s') && (e.LoseTask? || e.LoseResult?)
    ensures Work(web, d, s') < Work(web, d, s)
  {
    hide Sum, SumSeq, LinksCost;
    if e.LoseTask? {
      SumRemove(s.ready, ReadyCost(web, d), e.t);
    } else {
      SumRemove(s.results, ResultCost(web, d), e.r);
    }
  }

  lemma KeyWork(web: Links, d: int, s: State, e: Event, s': State)
    requires Step(s, e, s') && (e.Cleanup? || e.ExpireActive? || e.ExpireMaxDepth?)
    ensures Work(web, d, s') < Work(web, d, s)
  {
    hide Sum, SumSeq;
  }

  lemma StepWork(web: Links, d: int, s: State, e: Event, s': State)
    requires Step(s, e, s') && Onward(web, e) && Bounded(d, s)
    ensures Bounded(d, s') && Work(web, d, s') < Work(web, d, s)
  {
    hide Step, Work, BoundedConsumer;
    if e.By? {
      ByFields(s, e, s');
      hide Acts, Bounded;
      ActWork(web, d, s, e.i, e.act, s');
    } else {
      OtherBounded(d, s, e, s');
      hide Bounded;
      if e.SeedAdd? {
        SeedAddWork(web, d, s, e, s');
      } else if e.SeedPublish? {
        SeedPublishWork(web, d, s, e, s');
      } else if e.SeedFail? {
        SeedFailWork(web, d, s, e, s');
      } else if e.Deliver? {
        DeliverWork(web, d, s, e, s');
      } else if e.Emit? {
        EmitWork(web, d, s, e, s');
      } else if e.CrawlFails? || e.Ack? {
        LeaveWork(web, d, s, e, s');
      } else if e.LoseTask? || e.LoseResult? {
        LossWork(web, d, s, e, s');
      } else {
        KeyWork(web, d, s, e, s');
      }
    }
  }

  lemma OtherBounded(d: int, s: State, e: Event, s': State)
    requires Step(s, e, s') && !e.By? && !e.StartJob? && Bounded(d, s)
    ensures Bounded(d, s')
  {
    hide Next, BoundedConsumer;
    if Source(e) {
      SourceFields(s, e, s');
    } else {
      QuietFields(s, e, s');
    }
    hide Step;
  }

  /** Every run from `ss[0]` on uses up at least one unit of work per step: crawling, failing,
      losing messages, stopping and purging all shorten what is left. */
  lemma {:induction false} RunWork(web: Links, d: int, ss: seq<State>, es: seq<Event>, k: nat)
    requires IsRun(ss, es) && k < |ss|
    requires forall e <- es :: Onward(web, e)
    requires Bounded(d, ss[0])
    ensures Bounded(d, ss[k]) && k + Work(web, d, ss[k]) <= Work(web, d, ss[0])
  {
    hide Step, Work, Bounded, Onward;
    if k > 0 {
      RunWork(web, d, ss, es, k - 1);
      assert Step(ss[k - 1], es[k - 1], ss[k]) && es[k - 1] in es;
      StepWork(web, d, ss[k - 1], es[k - 1], ss[k]);
    }
  }

  /** The work of a freshly deployed system in which one job has just been started. */
  lemma StartedWork(web: Links, seed: Url, d: int, s: State, s': State, n: nat)
    requires Init(s, n) && Step(s, StartJob(seed, d), s')
    ensures Bounded(d, s')
    ensures Work(web, d, s') == 4 + PageCost(web, seed, Levels(d, 0))
  {
    var h := Seeding(seed, d, false);
    assert s'.handlers == multiset{} + multiset{h};
    SumAdd(multiset{}, HandlerCost(web, d), h);
    IdleCost(web, d, s'.consumers);
  }

  lemma {:induction false} IdleCost(web: Links, d: int, cs: seq<Consumer>)
    requires forall i | 0 <= i < |cs| :: cs[i].Idle?
    ensures SumSeq(cs, ConsumerCost(web, d)) == 0
  {
    if cs != [] {
      IdleCost(web, d, cs[1..]);
    }
  }

  /** A crawl of `seed` to depth `d` without redelivery takes at most 5 + PageCost steps in all,
      from the lock of the job on, under every schedule and every failure. */
  lemma CrawlStops(web: Links, seed: Url, d: int, ss: seq<State>, es: seq<Event>, n: nat)
    requires IsRun(ss, es) && Init(ss[0], n)
    requires es != [] && es[0] == StartJob(seed, d)
    requires forall e <- es[1..] :: Onward(web, e)
    ensures |es| <= 5 + PageCost(web, seed, Max(0, d))
  {
    assert Step(ss[0], es[0], ss[1]);
    StartedWork(web, seed, d, ss[0], ss[1], n);
    var ss', es' := ss[1..], es[1..];
    forall k | 0 <= k < |es'|
      ensures Step(ss'[k], es'[k], ss'[k + 1])
    {
      assert Step(ss[k + 1], es[k + 1], ss[k + 2]);
    }
    RunWork(web, d, ss', es', |es'|);
  }

  // ---- With redelivery there is no bound

  /** The only message on its way is task `t`, which waits on its queue. */
  ghost predicate OnlyWaits(s: State, t: Task) {
    s.ready == multiset{t} && s.held == s.done == multiset{}
  }

  /** A worker that had task `t` goes away before it has answered. */
  lemma LostBefore(web: Links, seed: Url, d: int, ss0: seq<State>, es0: seq<Event>, t: Task)
    returns (ss: seq<State>, es: seq<Event>)
    requires ExactRun(web, seed, d, ss0, es0) && OnlyWaits(Last(ss0), t)
    ensures |ss| > 0 && ExactRun(web, seed, d, ss, es) && ss[0] == ss0[0]
    ensures Last(ss) == Last(ss0)
  {
    ss, es := Go(web, seed, d, ss0, es0, Deliver(t));
    ss, es := Go(web, seed, d, ss, es, Requeue(t));
    hide ExactRun;
    assert Last(ss).ready == multiset{t} && Last(ss).held == multiset{};
  }

  /** ... or after that, but before it has acknowledged the task. */
  lemma LostAfter(web: Links, seed: Url, d: int, ss0: seq<State>, es0: seq<Event>, t: Task)
    returns (ss: seq<State>, es: seq<Event>)
    requires ExactRun(web, seed, d, ss0, es0) && OnlyWaits(Last(ss0), t)
    ensures |ss| > 0 && ExactRun(web, seed, d, ss, es) && ss[0] == ss0[0]
    ensures OnlyWaits(Last(ss), t) && Last(ss).log.published == Last(ss0).log.published
    ensures Last(ss).log.emitted == Last(ss0).log.emitted + multiset{t} && Last(ss).log.starts == Last(ss0).log.starts
  {
    ss, es := AnswerTask(web, seed, d, ss0, es0, t);
    ss, es := Go(web, seed, d, ss, es, RequeueDone(t));
  }

  /** The partner of the bound on a crawl's length: with nothing but workers that go away, before or
      after they answer, the one task of a job is crawled as often as one likes. */
  lemma {:induction false} RedeliveryNeverStops(web: Links, seed: Url, d: int, n: nat, m: nat)
    returns (ss: seq<State>, es: seq<Event>)
    ensures |ss| > 0 && ExactRun(web, seed, d, ss, es) && Init(ss[0], n)
    ensures var log := Last(ss).log;
      log.starts == 1 && |log.published| == 1 && log.emitted[Task(seed, 0, d)] == m
    ensures OnlyWaits(Last(ss), Task(seed, 0, d))
  {
    hide ExactRun, Init;
    if m == 0 {
      ss, es := StartCrawl(web, seed, d, Fresh(n), n);
    } else {
      ss, es := RedeliveryNeverStops(web, seed, d, n, m - 1);
      ss, es := LostBefore(web, seed, d, ss, es, Task(seed, 0, d));
      ss, es := LostAfter(web, seed, d, ss, es, Task(seed, 0, d));
    }
  }

  /** A step that is allowed and depends neither on a fault nor on a false positive. */
  ghost predicate CanGoOn(web: Links, s: State, e: Event) {
    Enabled(s, e) && Onward(web, e) && Faultless(s, e) && Exact(s, e)
  }

  lemma BusyGoesOn(web: Links, s: State, i: nat) returns (act: Act)
    requires i < |s.consumers| && !s.consumers[i].Idle?
    ensures CanGoOn(web, s, By(i, act))
  {
    var c := s.consumers[i];
    act := match c
      case Received(r) => ReadDepth(true, |r.nextUrls|)
      case Expanding(_, _, rest) =>
        if rest == [] then Finish else if rest[0] in s.filter then Check(Present) else Check(Absent)
      case Checked(_, _, _, _) => Add(true)
      case Claimed(_, _, _, _) => Publish(true);
  }

  lemma MessageGoesOn(web: Links, s: State, e: Event)
    requires |s.consumers| > 0
    requires match e
      case SeedAdd(h, ok) => ok && h in s.handlers && !h.added
      case SeedPublish(h) => h in s.handlers && h.added
      case Deliver(t) => t in s.ready
      case Emit(t, next) => t in s.held && next == web(t.url)
      case Ack(t) => t in s.done
      case By(i, act) => i == 0 && s.consumers[0].Idle? && act.Consume? && act.r in s.results
      case _ => false
    ensures CanGoOn(web, s, e)
  {
  }

  lemma RestCannotGoOn(web: Links, s: State, e: Event)
    requires Quiescent(s) && s.done == multiset{}
    ensures !CanGoOn(web, s, e)
  {
    if e.By? && e.i < |s.consumers| {
      assert s.consumers[e.i].Idle?;
    }
  }

  /** The crawl never gets stuck half-way: it can go on without any fault exactly until it is
      at rest.  Together with the bound on its length, it comes to rest. */
  lemma GoesOnUntilQuiescent(web: Links, s: State)
    requires |s.consumers| > 0
    ensures (exists e :: CanGoOn(web, s, e)) <==> !(Quiescent(s) && s.done == multiset{})
  {
    hide CanGoOn;
    if h :| h in s.handlers {
      MessageGoesOn(web, s, if h.added then SeedPublish(h) else SeedAdd(h, true));
    } else if t :| t in s.ready {
      MessageGoesOn(web, s, Deliver(t));
    } else if t :| t in s.held {
      MessageGoesOn(web, s, Emit(t, web(t.url)));
    } else if t :| t in s.done {
      MessageGoesOn(web, s, Ack(t));
    } else if i: nat :| i < |s.consumers| && !s.consumers[i].Idle? {
      var act := BusyGoesOn(web, s, i);
    } else if r :| r in s.results {
      MessageGoesOn(web, s, By(0, Consume(r)));
    } else {
      forall e
        ensures !CanGoOn(web, s, e)
      {
        RestCannotGoOn(web, s, e);
      }
    }
  }
}
