/** Whether a job stays by itself: what an earlier job has left on the queues, with workers, in
    handlers or in consumers can be worked off under the keys of the next one. */
module Isolation {
  import opened Models
  import opened Web
  import opened Protocol
  import opened Provenance
  import opened Drain

  ghost function Started(s: State, seed: Url, d: int): State
    requires s.active.None?
  {
    Next(s, StartJob(seed, d))
  }

  /** A run on `web` from `s1` on, in which no further job is started. */
  ghost predicate RunsOn(web: Links, seed: Url, s1: State, ss: seq<State>, es: seq<Event>) {
    After(s1, ss, es) && forall e <- es :: FromWeb(web, {seed}, e)
  }

  ghost predicate Descends(web: Links, seed: Url, t: Task) {
    Sound(web, {seed}, t.url, t.depth)
  }

  /** Every task that was published since `s0` lies as many links from `seed` as its depth says. */
  ghost predicate OnlyOwn(web: Links, seed: Url, s0: State, s: State) {
    forall t: Task :: s.log.published[t] <= s0.log.published[t] || Descends(web, seed, t)
  }

  /** Whatever job is started in `s`, on whatever web: all that is published in it is its own. */
  ghost predicate Isolates(s: State)
    requires s.active.None?
  {
    forall web: Links, seed: Url, d: int, ss: seq<State>, es: seq<Event> ::
      RunsOn(web, seed, Started(s, seed, d), ss, es) ==> OnlyOwn(web, seed, s, Last(ss))
  }

  ghost predicate Settled(links: seq<Url>, filter: set<Url>) {
    forall v <- links :: v in filter
  }

  /** Every page has been acknowledged or lost, nothing is about to be published, and the results
      that are left have no link that the filter lacks. */
  ghost predicate NothingLeft(s: State) {
    && s.ready == s.held == s.done == multiset{} && !Unfinished(s)
    && (forall r <- s.results :: Settled(r.nextUrls, s.filter))
    && (forall i | 0 <= i < |s.consumers| && s.consumers[i].Received? ::
          Settled(s.consumers[i].r.nextUrls, s.filter))
  }

  // ---- With nothing left, a job is by itself

  /** The consumer is at something old that leads to nothing. */
  ghost predicate Spent(filter: set<Url>, c: Consumer) {
    match c
    case Idle => true
    case Received(r) => Settled(r.nextUrls, filter)
    case Expanding(_, _, rest) => Settled(rest, filter)
    case Checked(_, _, _, _) => false
    case Claimed(_, _, _, _) => false
  }

  ghost predicate OwnResult(web: Links, seed: Url, filter: set<Url>, r: UrlData) {
    SoundResult(web, {seed}, r) || Settled(r.nextUrls, filter)
  }

  ghost predicate OwnConsumer(web: Links, seed: Url, filter: set<Url>, c: Consumer) {
    SoundConsumer(web, {seed}, c) || Spent(filter, c)
  }

  ghost predicate Waiting(s: State, t: Task) {
    t in s.ready || t in s.held || t in s.done
  }

  ghost predicate OwnMessages(web: Links, seed: Url, s: State) {
    && (forall t: Task | Waiting(s, t) :: Descends(web, seed, t))
    && (forall r <- s.results :: OwnResult(web, seed, s.filter, r))
    && (forall h <- s.handlers :: h.url == seed)
  }

  ghost predicate OwnConsumers(web: Links, seed: Url, s: State) {
    forall i | 0 <= i < |s.consumers| :: OwnConsumer(web, seed, s.filter, s.consumers[i])
  }

  ghost predicate OwnInv(web: Links, seed: Url, s0: State, s: State) {
    OwnMessages(web, seed, s) && OwnConsumers(web, seed, s) && OnlyOwn(web, seed, s0, s)
  }

  lemma MovedOwn(web: Links, seed: Url, s: State, c: Consumer, act: Act)
    requires CanAct(s, c, act) && OwnConsumer(web, seed, s.filter, c)
    requires act.Consume? ==> OwnResult(web, seed, s.filter, act.r)
    ensures OwnConsumer(web, seed, s.filter, Moved(s, c, act))
    ensures act.Publish? ==> Descends(web, seed, NewTask(c))
  {
    if SoundConsumer(web, {seed}, c) && (act.Consume? ==> SoundResult(web, {seed}, act.r)) {
      MovedSound(web, {seed}, s, c, act);
      if act.Publish? {
        NewTaskSound(web, {seed}, c);
      }
    } else {
      hide SoundResult;
    }
  }

  lemma OwnGrows(web: Links, seed: Url, filter: set<Url>, filter': set<Url>, c: Consumer)
    requires OwnConsumer(web, seed, filter, c) && filter <= filter'
    ensures OwnConsumer(web, seed, filter', c)
  {
    hide SoundConsumer;
  }

  lemma ActConsumers(web: Links, seed: Url, s: State, i: nat, act: Act, s': State)
    requires Acts(s, i, act, s') && OwnConsumers(web, seed, s)
    requires OwnConsumer(web, seed, s.filter, Moved(s, s.consumers[i], act))
    ensures OwnConsumers(web, seed, s')
  {
    hide Moved, CanAct, ByRecord, OwnConsumer;
    forall j | 0 <= j < |s'.consumers|
      ensures OwnConsumer(web, seed, s'.filter, s'.consumers[j])
    {
      assert j != i ==> OwnConsumer(web, seed, s.filter, s.consumers[j]);
      OwnGrows(web, seed, s.filter, s'.filter, s'.consumers[j]);
    }
  }

  /** Only tasks that descend from the seed are new. */
  ghost predicate NoneForeign(web: Links, seed: Url, s: State, s': State) {
    && s'.held == s.held && s'.done == s.done && s'.handlers == s.handlers && s.filter <= s'.filter
    && (forall r <- s'.results :: r in s.results)
    && (forall t <- s'.ready :: t in s.ready || Descends(web, seed, t))
  }

  lemma ActDelivers(web: Links, seed: Url, s: State, i: nat, act: Act, s': State)
    requires Acts(s, i, act, s')
    requires act.Publish? ==> Descends(web, seed, NewTask(s.consumers[i]))
    ensures NoneForeign(web, seed, s, s')
  {
    hide Moved, Descends, ByRecord;
  }

  lemma MessagesStay(web: Links, seed: Url, s: State, s': State)
    requires NoneForeign(web, seed, s, s') && OwnMessages(web, seed, s)
    ensures OwnMessages(web, seed, s')
  {
    hide Descends, OwnResult;
    ResultsGrow(web, seed, s, s'.filter);
    forall t: Task | Waiting(s', t)
      ensures Descends(web, seed, t)
    {
      assert Waiting(s, t) || Descends(web, seed, t);
    }
  }

  lemma ActPublishes(web: Links, seed: Url, s0: State, s: State, i: nat, act: Act, s': State)
    requires Acts(s, i, act, s') && OnlyOwn(web, seed, s0, s)
    requires act.Publish? ==> Descends(web, seed, NewTask(s.consumers[i]))
    ensures OnlyOwn(web, seed, s0, s')
  {
    hide Moved, Descends, ByEffect;
  }

  lemma ActOwn(web: Links, seed: Url, s0: State, s: State, i: nat, act: Act, s': State)
    requires Acts(s, i, act, s') && OwnInv(web, seed, s0, s)
    ensures OwnInv(web, seed, s0, s')
  {
    hide ByEffect, ByRecord, OwnConsumer, OwnResult, Moved, Descends, OnlyOwn, NoneForeign;
    assert OwnConsumer(web, seed, s.filter, s.consumers[i]);
    MovedOwn(web, seed, s, s.consumers[i], act);
    ActConsumers(web, seed, s, i, act, s');
    ActDelivers(web, seed, s, i, act, s');
    MessagesStay(web, seed, s, s');
    ActPublishes(web, seed, s0, s, i, act, s');
  }

  /** What steps of handlers, broker and workers do to tasks ... */
  ghost predicate TasksFrom(s: State, e: Event, s': State) {
    && (forall t: Task | Waiting(s', t) ::
          Waiting(s, t) || (e.SeedPublish? && t == Task(e.h.url, 0, e.h.maxDepth)))
    && (e.Emit? ==> Waiting(s, e.t))
  }

  /** ... and to everything else. */
  ghost predicate MessagesFrom(s: State, e: Event, s': State) {
    && (forall r <- s'.results :: r in s.results || (e.Emit? && r == UrlData(e.t.url, e.t.depth, e.next)))
    && (forall h <- s'.handlers :: h in s.handlers || (e.SeedAdd? && e.h in s.handlers && h.url == e.h.url))
    && s'.log.published == s.log.published
       + (if e.SeedPublish? then multiset{Task(e.h.url, 0, e.h.maxDepth)} else multiset{})
    && (e.SeedPublish? ==> e.h in s.handlers)
  }

  lemma TaskFields(s: State, e: Event, s': State)
    requires Step(s, e, s') && !e.By?
    ensures TasksFrom(s, e, s')
  {
  }

  lemma ResultFields(s: State, e: Event, s': State)
    requires Step(s, e, s') && !e.By?
    ensures forall r <- s'.results ::
      r in s.results || (e.Emit? && r == UrlData(e.t.url, e.t.depth, e.next))
  {
  }

  lemma MessageFields(s: State, e: Event, s': State)
    requires Step(s, e, s') && !e.By? && !e.StartJob?
    ensures MessagesFrom(s, e, s')
  {
    hide Next, Enabled, MessagesFrom, SourceEffect, QuietEffect;
    ResultFields(s, e, s');
    if Source(e) {
      SourceFields(s, e, s');
      SourceMessages(s, e, s');
    } else {
      QuietFields(s, e, s');
      QuietMessages(s, e, s');
    }
  }

  lemma SourceMessages(s: State, e: Event, s': State)
    requires SourceEffect(s, e, s') && !e.StartJob? && (forall r <- s'.results ::
      r in s.results || (e.Emit? && r == UrlData(e.t.url, e.t.depth, e.next)))
    ensures MessagesFrom(s, e, s')
  {
  }

  lemma QuietMessages(s: State, e: Event, s': State)
    requires QuietEffect(s, s') && !e.SeedPublish? && (forall r <- s'.results :: r in s.results)
    ensures MessagesFrom(s, e, s')
  {
  }

  lemma OtherMessages(web: Links, seed: Url, s0: State, s: State, e: Event, s': State)
    requires TasksFrom(s, e, s') && MessagesFrom(s, e, s') && OtherEffect(s, s') && FromWeb(web, {seed}, e)
    requires OwnMessages(web, seed, s) && OnlyOwn(web, seed, s0, s)
    ensures OwnMessages(web, seed, s') && OnlyOwn(web, seed, s0, s')
  {
    hide SoundResult, Settled;
    if e.SeedPublish? {
      assert e.h.url in Frontier(web, seed, 0);
      assert Descends(web, seed, Task(e.h.url, 0, e.h.maxDepth));
    } else if e.Emit? {
      assert Descends(web, seed, e.t);
      OwnAnswer(web, seed, e.t, e.next);
    }
    hide Descends, OwnResult;
    ResultsGrow(web, seed, s, s'.filter);
  }

  lemma OwnAnswer(web: Links, seed: Url, t: Task, next: seq<Url>)
    requires Descends(web, seed, t) && next == web(t.url)
    ensures SoundResult(web, {seed}, UrlData(t.url, t.depth, next))
  {
  }

  lemma ResultsGrow(web: Links, seed: Url, s: State, filter': set<Url>)
    requires s.filter <= filter'
    ensures forall r | OwnResult(web, seed, s.filter, r) :: OwnResult(web, seed, filter', r)
  {
    hide SoundResult;
  }

  lemma OtherConsumers(web: Links, seed: Url, s: State, s': State)
    requires OtherEffect(s, s') && OwnConsumers(web, seed, s)
    ensures OwnConsumers(web, seed, s')
  {
    hide OwnConsumer;
    forall i | 0 <= i < |s'.consumers|
      ensures OwnConsumer(web, seed, s'.filter, s'.consumers[i])
    {
      OwnGrows(web, seed, s.filter, s'.filter, s.consumers[i]);
    }
  }

  lemma StepOwn(web: Links, seed: Url, s0: State, s: State, e: Event, s': State)
    requires Step(s, e, s') && FromWeb(web, {seed}, e) && !e.StartJob? && OwnInv(web, seed, s0, s)
    ensures OwnInv(web, seed, s0, s')
  {
    hide Next, Enabled, FromWeb, OwnMessages, OwnConsumers, OnlyOwn;
    if e.By? {
      ByFields(s, e, s');
      hide Acts;
      ActOwn(web, seed, s0, s, e.i, e.act, s');
    } else {
      OtherFields(s, e, s');
      TaskFields(s, e, s');
      MessageFields(s, e, s');
      OtherMessages(web, seed, s0, s, e, s');
      OtherConsumers(web, seed, s, s');
    }
  }

  lemma OwnAtStart(web: Links, seed: Url, d: int, s: State)
    requires s.active.None? && NothingLeft(s)
    ensures OwnInv(web, seed, s, Started(s, seed, d))
  {
    forall i | 0 <= i < |s.consumers|
      ensures OwnConsumer(web, seed, s.filter, s.consumers[i])
    {
      assert !MayPublish(s.filter, s.consumers[i]);
    }
    hide SoundConsumer, SoundResult, Descends;
  }

  lemma {:induction false} RunOwn(web: Links, seed: Url, s0: State, s1: State, ss: seq<State>, es: seq<Event>, k: nat)
    requires RunsOn(web, seed, s1, ss, es) && OwnInv(web, seed, s0, s1) && k < |ss|
    ensures OwnInv(web, seed, s0, ss[k])
  {
    if k > 0 {
      hide Step, OwnInv, FromWeb;
      RunOwn(web, seed, s0, s1, ss, es, k - 1);
      assert Step(ss[k - 1], es[k - 1], ss[k]) && es[k - 1] in es;
      StepOwn(web, seed, s0, ss[k - 1], es[k - 1], ss[k]);
    }
  }

  // ---- Whatever is left can get into the next job

  /** A URL longer than all of `us`. */
  lemma {:induction false} LongUrl(us: set<Url>) returns (u: Url)
    ensures forall v <- us :: |v| < |u|
  {
    u := "u";
    if us != {} {
      var v :| v in us;
      u := LongUrl(us - {v});
      u := (if |u| < |v| then v else u) + "u";
      assert forall w <- us :: w == v || w in us - {v};
    }
  }

  lemma FreshUrl(us: set<Url>) returns (u: Url)
    ensures u !in us
  {
    u := LongUrl(us);
    assert u in us ==> |u| < |u|;
  }

  /** The seed has no links, and every other page links to `v`. */
  function LonelySeed(seed: Url, v: Url): Links {
    u => if u == seed then [] else [v]
  }

  lemma {:induction false} OnlySeedDescends(seed: Url, v: Url, u: Url, k: nat)
    requires u in Frontier(LonelySeed(seed, v), seed, k)
    ensures u == seed
  {
    if k > 0 {
      var w :| w in Frontier(LonelySeed(seed, v), seed, k - 1) && u in LonelySeed(seed, v)(w);
      OnlySeedDescends(seed, v, w, k - 1);
    }
  }

  /** A run on which nothing has been published yet. */
  ghost predicate Silent(web: Links, seed: Url, s1: State, ss: seq<State>, es: seq<Event>) {
    && RunsOn(web, seed, s1, ss, es)
    && Last(ss).log.published == s1.log.published && Last(ss).filter == s1.filter
    && Last(ss).maxDepth == s1.maxDepth && |Last(ss).consumers| == |s1.consumers|
  }

  /** ... and one on which a task for a page other than the seed has. */
  ghost predicate Leaks(web: Links, seed: Url, s1: State, ss: seq<State>, es: seq<Event>) {
    && RunsOn(web, seed, s1, ss, es)
    && exists t: Task :: t.url != seed && Last(ss).log.published == s1.log.published + multiset{t}
  }

  lemma GoOn(web: Links, seed: Url, s1: State, ss: seq<State>, es: seq<Event>, e: Event)
    returns (ss': seq<State>, es': seq<Event>)
    requires Silent(web, seed, s1, ss, es) && Enabled(Last(ss), e) && !e.StartJob? && FromWeb(web, {seed}, e)
    requires var s, s' := Last(ss), Next(Last(ss), e);
      && s'.log.published == s.log.published && s'.filter == s.filter && s'.maxDepth == s.maxDepth
      && |s'.consumers| == |s.consumers|
    ensures Silent(web, seed, s1, ss', es') && Last(ss') == Next(Last(ss), e)
  {
    hide Next, Enabled, FromWeb;
    ss', es' := Continue(s1, ss, es, e);
  }

  lemma SilentAtFirst(web: Links, seed: Url, d: int, s: State)
    requires s.active.None?
    ensures var s1 := Started(s, seed, d);
      && Silent(web, seed, s1, [s1], []) && s1.maxDepth == Some(d) && s1.filter == s.filter
      && s1.consumers == s.consumers && s1.results == s.results
      && s1.ready == s.ready && s1.held == s.held && s1.done == s.done
  {
  }

  lemma LeakConsumer(web: Links, seed: Url, s1: State, ss0: seq<State>, es0: seq<Event>, i: nat)
    returns (ss: seq<State>, es: seq<Event>)
    requires Silent(web, seed, s1, ss0, es0)
    requires i < |Last(ss0).consumers| && MayPublish(Last(ss0).filter, Last(ss0).consumers[i])
    requires seed !in Names(Last(ss0).consumers[i])
    ensures Leaks(web, seed, s1, ss, es)
  {
    hide MayPublish, Names, IsRun;
    var t;
    ss, es, t := DriveConsumer(s1, ss0, es0, i);
  }

  lemma LeakReceived(web: Links, seed: Url, s1: State, ss0: seq<State>, es0: seq<Event>, i: nat)
    returns (ss: seq<State>, es: seq<Event>)
    requires Silent(web, seed, s1, ss0, es0) && i < |Last(ss0).consumers| && Last(ss0).consumers[i].Received?
    requires var r := Last(ss0).consumers[i].r;
      !Settled(r.nextUrls, s1.filter) && seed !in r.nextUrls && s1.maxDepth.Some? && r.depth < s1.maxDepth.value
    ensures Leaks(web, seed, s1, ss, es)
  {
    var r := Last(ss0).consumers[i].r;
    ss, es := GoOn(web, seed, s1, ss0, es0, By(i, ReadDepth(true, |r.nextUrls|)));
    assert r.nextUrls[..|r.nextUrls|] == r.nextUrls;
    ss, es := LeakConsumer(web, seed, s1, ss, es, i);
  }

  lemma FreeConsumer(web: Links, seed: Url, s1: State, ss0: seq<State>, es0: seq<Event>)
    returns (ss: seq<State>, es: seq<Event>)
    requires Silent(web, seed, s1, ss0, es0) && |s1.consumers| > 0
    ensures Silent(web, seed, s1, ss, es) && Last(ss).consumers[0].Idle?
    ensures Last(ss).results == Last(ss0).results
  {
    ss, es := ss0, es0;
    if !Last(ss0).consumers[0].Idle? {
      ss, es := GoOn(web, seed, s1, ss0, es0, By(0, Crash));
    }
  }

  lemma LeakResult(web: Links, seed: Url, s1: State, ss0: seq<State>, es0: seq<Event>, r: UrlData)
    returns (ss: seq<State>, es: seq<Event>)
    requires Silent(web, seed, s1, ss0, es0) && |s1.consumers| > 0 && r in Last(ss0).results
    requires !Settled(r.nextUrls, s1.filter) && seed !in r.nextUrls
    requires s1.maxDepth.Some? && r.depth < s1.maxDepth.value
    ensures Leaks(web, seed, s1, ss, es)
  {
    hide Settled;
    ss, es := FreeConsumer(web, seed, s1, ss0, es0);
    ss, es := GoOn(web, seed, s1, ss, es, By(0, Consume(r)));
    ss, es := LeakReceived(web, seed, s1, ss, es, 0);
  }

  /** The page of a task that is left links to `v`, which nobody has seen. */
  lemma LeakHeld(seed: Url, v: Url, s1: State, ss0: seq<State>, es0: seq<Event>, t: Task)
    returns (ss: seq<State>, es: seq<Event>)
    requires Silent(LonelySeed(seed, v), seed, s1, ss0, es0) && |s1.consumers| > 0 && t in Last(ss0).held
    requires t.url != seed && v != seed && v !in s1.filter
    requires s1.maxDepth.Some? && t.depth < s1.maxDepth.value
    ensures Leaks(LonelySeed(seed, v), seed, s1, ss, es)
  {
    var web := LonelySeed(seed, v);
    ss, es := GoOn(web, seed, s1, ss0, es0, Emit(t, web(t.url)));
    ss, es := LeakResult(web, seed, s1, ss, es, UrlData(t.url, t.depth, [v]));
  }

  lemma LeakTask(seed: Url, v: Url, s1: State, t: Task)
    returns (ss: seq<State>, es: seq<Event>)
    requires |s1.consumers| > 0 && Waiting(s1, t)
    requires t.url != seed && v != seed && v !in s1.filter
    requires s1.maxDepth.Some? && t.depth < s1.maxDepth.value
    ensures Leaks(LonelySeed(seed, v), seed, s1, ss, es)
  {
    hide LonelySeed;
    var web := LonelySeed(seed, v);
    ss, es := [s1], [];
    if t !in s1.held {
      if t !in s1.ready {
        ss, es := GoOn(web, seed, s1, ss, es, RequeueDone(t));
      }
      ss, es := GoOn(web, seed, s1, ss, es, Deliver(t));
    }
    ss, es := LeakHeld(seed, v, s1, ss, es, t);
  }

  lemma LeakHandler(web: Links, seed: Url, s1: State, h: Seeding)
    returns (ss: seq<State>, es: seq<Event>)
    requires h in s1.handlers && h.url != seed
    ensures Leaks(web, seed, s1, ss, es)
  {
    ss, es := DriveHandler(s1, h);
    assert Task(h.url, 0, h.maxDepth).url != seed;
  }

  /** A leak is a task that does not descend from the seed. */
  lemma LeakIsForeign(seed: Url, v: Url, d: int, s: State, ss: seq<State>, es: seq<Event>)
    requires s.active.None? && Leaks(LonelySeed(seed, v), seed, Started(s, seed, d), ss, es)
    ensures !Isolates(s)
  {
    var web := LonelySeed(seed, v);
    var t: Task :| t.url != seed && Last(ss).log.published == Started(s, seed, d).log.published + multiset{t};
    if Descends(web, seed, t) {
      OnlySeedDescends(seed, v, t.url, t.depth);
    }
    assert RunsOn(web, seed, Started(s, seed, d), ss, es) && !OnlyOwn(web, seed, s, Last(ss));
  }

  // Each kind of leftover, with a seed and a web of which it knows nothing.

  lemma LeftTask(s: State, t: Task)
    requires s.active.None? && |s.consumers| > 0 && Waiting(s, t)
    ensures !Isolates(s)
  {
    hide Isolates, Leaks;
    var seed := FreshUrl({t.url});
    var v := FreshUrl(s.filter + {seed});
    var ss, es := LeakTask(seed, v, Started(s, seed, t.depth + 1), t);
    LeakIsForeign(seed, v, t.depth + 1, s, ss, es);
  }

  lemma LeftHandler(s: State, h: Seeding)
    requires s.active.None? && h in s.handlers
    ensures !Isolates(s)
  {
    hide Isolates, Leaks;
    var seed := FreshUrl({h.url});
    var ss, es := LeakHandler(LonelySeed(seed, ""), seed, Started(s, seed, 0), h);
    LeakIsForeign(seed, "", 0, s, ss, es);
  }

  lemma LeftResult(s: State, r: UrlData)
    requires s.active.None? && |s.consumers| > 0 && r in s.results && !Settled(r.nextUrls, s.filter)
    ensures !Isolates(s)
  {
    hide Isolates, Leaks, Settled, LonelySeed, Started, Silent;
    var seed := FreshUrl(set u | u in r.nextUrls);
    var s1 := Started(s, seed, r.depth + 1);
    SilentAtFirst(LonelySeed(seed, ""), seed, r.depth + 1, s);
    var ss, es := LeakResult(LonelySeed(seed, ""), seed, s1, [s1], [], r);
    LeakIsForeign(seed, "", r.depth + 1, s, ss, es);
  }

  lemma LeftReceived(s: State, i: nat)
    requires s.active.None? && i < |s.consumers| && s.consumers[i].Received?
    requires !Settled(s.consumers[i].r.nextUrls, s.filter)
    ensures !Isolates(s)
  {
    hide Isolates, Leaks, Settled, LonelySeed, Started, Silent;
    var r := s.consumers[i].r;
    var seed := FreshUrl(set u | u in r.nextUrls);
    var s1 := Started(s, seed, r.depth + 1);
    SilentAtFirst(LonelySeed(seed, ""), seed, r.depth + 1, s);
    var ss, es := LeakReceived(LonelySeed(seed, ""), seed, s1, [s1], [], i);
    LeakIsForeign(seed, "", r.depth + 1, s, ss, es);
  }

  lemma LeftExpansion(s: State, i: nat)
    requires s.active.None? && i < |s.consumers| && MayPublish(s.filter, s.consumers[i])
    ensures !Isolates(s)
  {
    hide Isolates, Leaks, LonelySeed, Names, MayPublish, Started, Silent;
    var c := s.consumers[i];
    var seed := FreshUrl(Names(c));
    var s1 := Started(s, seed, 0);
    SilentAtFirst(LonelySeed(seed, ""), seed, 0, s);
    var ss, es := LeakConsumer(LonelySeed(seed, ""), seed, s1, [s1], [], i);
    LeakIsForeign(seed, "", 0, s, ss, es);
  }

  lemma LeftOver(s: State)
    requires s.active.None? && |s.consumers| > 0 && !NothingLeft(s)
    ensures !Isolates(s)
  {
    hide Isolates, Settled, MayPublish;
    if s.ready != multiset{} {
      var t :| t in s.ready;
      LeftTask(s, t);
    } else if s.held != multiset{} {
      var t :| t in s.held;
      LeftTask(s, t);
    } else if s.done != multiset{} {
      var t :| t in s.done;
      LeftTask(s, t);
    } else if s.handlers != multiset{} {
      var h :| h in s.handlers;
      LeftHandler(s, h);
    } else if i :| 0 <= i < |s.consumers| && MayPublish(s.filter, s.consumers[i]) {
      LeftExpansion(s, i);
    } else if r :| r in s.results && !Settled(r.nextUrls, s.filter) {
      LeftResult(s, r);
    } else {
      var i :| 0 <= i < |s.consumers| && s.consumers[i].Received?
               && !Settled(s.consumers[i].r.nextUrls, s.filter);
      LeftReceived(s, i);
    }
  }

  /** Whatever job is started in `s`, on whatever web, with whatever redelivery, failures and stops
      afterwards: all tasks published before the next start descend from its seed - exactly if
      nothing is left of earlier jobs that could still lead to a task. */
  lemma JobIsolatedIff(s: State)
    requires s.active.None? && |s.consumers| > 0
    ensures Isolates(s) <==> NothingLeft(s)
  {
    hide OwnInv, Started, NothingLeft, Step, FromWeb;
    if NothingLeft(s) {
      forall web: Links, seed: Url, d: int, ss: seq<State>, es: seq<Event>
          | RunsOn(web, seed, Started(s, seed, d), ss, es)
        ensures OnlyOwn(web, seed, s, Last(ss))
      {
        OwnAtStart(web, seed, d, s);
        OwnAtEnd(web, seed, s, Started(s, seed, d), ss, es);
      }
    } else {
      LeftOver(s);
    }
  }

  lemma OwnAtEnd(web: Links, seed: Url, s0: State, s1: State, ss: seq<State>, es: seq<Event>)
    requires RunsOn(web, seed, s1, ss, es) && OwnInv(web, seed, s0, s1)
    ensures OnlyOwn(web, seed, s0, Last(ss))
  {
    RunOwn(web, seed, s0, s1, ss, es, |es|);
    hide OwnMessages, OwnConsumers, OnlyOwn, Step, FromWeb;
  }

  /** A stop that clears the keys and finds every queue empty does not see to that: some run from
      deployment ends in one after which the next job is not by itself. */
  lemma JobsCanMix(n: nat) returns (ss: seq<State>, es: seq<Event>)
    requires n >= 1
    ensures |ss| > 0 && IsRun(ss, es) && Init(ss[0], n) && es != [] && Last(es) == Cleanup
    ensures Purged(Last(ss)) && !Isolates(Last(ss))
  {
    hide Step, Init, Unfinished, Isolates;
    ss, es := StopDuringExpansion(n);
    ConsumersFixed(ss, es, |es|);
    SomeConsumer(ss[0], n);
    JobIsolatedIff(Last(ss));
  }

  lemma SomeConsumer(s: State, n: nat)
    requires Init(s, n)
    ensures |s.consumers| == n
  {
  }
}
