/** Two promises that depend on the number of result consumers: publishing a URL at most once,
    and crawling breadth-first whatever the schedule.  For each, exactly when it holds. */
module Schedules {
  import opened Models
  import opened Web
  import opened Protocol
  import opened Conservation
  import opened Provenance
  import opened Duplication
  import opened WorkBound
  import opened Closure
  import opened BreadthFirst
  import opened Scenarios

  // ---- A page s links to a and to x, and a links to x: the triangle web.

  function Triangle(u: Url): seq<Url> {
    if u == "s" then ["a", "x"] else if u == "a" then ["x"] else []
  }

  function TriangleWeb(): Links {
    (u: Url) => Triangle(u)
  }

  /** Consumer 0 expands s, consumer 1 expands a; both are about to check x. */
  lemma RaceForX(n: nat, d: int) returns (ss: seq<State>, es: seq<Event>)
    requires n >= 2 && d >= 2
    ensures |ss| > 0 && ExactRun(TriangleWeb(), "s", d, ss, es) && Init(ss[0], n)
    ensures var s := Last(ss);
            && |s.consumers| == n
            && s.consumers[0] == Expanding(UrlData("s", 0, ["a", "x"]), d, ["x"])
            && s.consumers[1] == Expanding(UrlData("a", 1, ["x"]), d, ["x"])
            && (forall i | 2 <= i < n :: s.consumers[i].Idle?)
            && s.filter == {"s", "a"} && s.maxDepth == Some(d) && s.log.starts == 1
            && s.handlers == multiset{} && s.ready == s.held == multiset{} && s.results == multiset{}
  {
    var web := TriangleWeb();
    ss, es := StartCrawl(web, "s", d, Fresh(n), n);
    ss, es := CrawlPage(web, "s", d, ss, es, Task("s", 0, d), 0);
    ss, es := ExpandLink(web, "s", d, ss, es, 0);
    ss, es := CrawlPage(web, "s", d, ss, es, Task("a", 1, d), 1);
  }

  lemma ExactAddsSucceed(web: Links, seed: Url, d: int, ss: seq<State>, es: seq<Event>)
    requires ExactRun(web, seed, d, ss, es)
    ensures AddsSucceed(es)
  {
    hide Step, JobRun, Exact;
  }

  // ---- A page s that links to x: every consumer can be told "absent" about x.

  function OneLink(u: Url): seq<Url> {
    if u == "s" then ["x"] else []
  }

  function OneLinkWeb(): Links {
    (u: Url) => OneLink(u)
  }

  const SEED_TASK := Task("s", 0, 1)
  const SEED_PAGE := UrlData("s", 0, ["x"])

  /** `m` consumers have been told that x is absent; the seed's task is ready once more. */
  ghost predicate ToldAbsent(s: State, n: nat, m: nat) {
    && |s.consumers| == n
    && (forall i | 0 <= i < m <= n :: s.consumers[i] == Checked(SEED_PAGE, 1, [], "x"))
    && (forall i | 0 <= m <= i < n :: s.consumers[i].Idle?)
    && s.filter == {"s"} && s.maxDepth == Some(1)
    && s.ready == multiset{SEED_TASK} && s.done == multiset{} && s.results == multiset{}
  }

  /** The seed's task is crawled, and redelivered because its acknowledgement is lost. */
  lemma CrawlAgain(n: nat, m: nat, ss0: seq<State>, es0: seq<Event>)
    returns (ss: seq<State>, es: seq<Event>)
    requires ExactRun(OneLinkWeb(), "s", 1, ss0, es0) && ToldAbsent(Last(ss0), n, m)
    ensures |ss| > 0 && ExactRun(OneLinkWeb(), "s", 1, ss, es) && ss[0] == ss0[0]
    ensures Last(ss).results == multiset{SEED_PAGE}
    ensures ToldAbsent(Last(ss).(results := multiset{}), n, m)
  {
    ss, es := AnswerTask(OneLinkWeb(), "s", 1, ss0, es0, SEED_TASK);
    hide ExactRun;
    ss, es := Go(OneLinkWeb(), "s", 1, ss, es, RequeueDone(SEED_TASK));
  }

  lemma TellOneMore(n: nat, m: nat, ss0: seq<State>, es0: seq<Event>)
    returns (ss: seq<State>, es: seq<Event>)
    requires m < n && ExactRun(OneLinkWeb(), "s", 1, ss0, es0) && ToldAbsent(Last(ss0), n, m)
    ensures |ss| > 0 && ExactRun(OneLinkWeb(), "s", 1, ss, es) && ss[0] == ss0[0]
    ensures ToldAbsent(Last(ss), n, m + 1)
  {
    ss, es := CrawlAgain(n, m, ss0, es0);
    hide ExactRun;
    ss, es := TakeResult(OneLinkWeb(), "s", 1, ss, es, SEED_PAGE, m);
    ss, es := Go(OneLinkWeb(), "s", 1, ss, es, By(m, Check(Absent)));
    assert Last(ss).consumers[m] == Checked(SEED_PAGE, 1, ["x"][1..], "x");
  }

  lemma {:induction false} TellAbsent(n: nat, m: nat) returns (ss: seq<State>, es: seq<Event>)
    requires m <= n
    ensures |ss| > 0 && ExactRun(OneLinkWeb(), "s", 1, ss, es) && Init(ss[0], n)
    ensures ToldAbsent(Last(ss), n, m)
  {
    hide ExactRun;
    if m == 0 {
      ss, es := StartCrawl(OneLinkWeb(), "s", 1, Fresh(n), n);
    } else {
      hide Init, ToldAbsent;
      ss, es := TellAbsent(n, m - 1);
      ss, es := TellOneMore(n, m - 1, ss, es);
    }
  }

  /** The first `m` consumers have published x, the others are about to. */
  ghost predicate Published(s: State, n: nat, m: nat) {
    && |s.consumers| == n
    && (forall i | 0 <= m <= i < n :: s.consumers[i] == Checked(SEED_PAGE, 1, [], "x"))
    && (forall i: nat | i < m :: s.log.expansions[(i, "x")] >= 1)
  }

  lemma PublishOneMore(n: nat, m: nat, ss0: seq<State>, es0: seq<Event>)
    returns (ss: seq<State>, es: seq<Event>)
    requires m < n && ExactRun(OneLinkWeb(), "s", 1, ss0, es0) && Published(Last(ss0), n, m)
    ensures |ss| > 0 && ExactRun(OneLinkWeb(), "s", 1, ss, es) && ss[0] == ss0[0]
    ensures Published(Last(ss), n, m + 1)
  {
    ss, es := Go(OneLinkWeb(), "s", 1, ss0, es0, By(m, Add(true)));
    hide ExactRun;
    ss, es := Go(OneLinkWeb(), "s", 1, ss, es, By(m, Publish(true)));
    assert Last(ss).log.expansions == Last(ss0).log.expansions + multiset{(m, "x")};
  }

  lemma {:induction false} PublishAll(n: nat, m: nat) returns (ss: seq<State>, es: seq<Event>)
    requires m <= n
    ensures |ss| > 0 && ExactRun(OneLinkWeb(), "s", 1, ss, es) && Init(ss[0], n)
    ensures Published(Last(ss), n, m)
  {
    hide ExactRun, Init;
    if m == 0 {
      ss, es := TellAbsent(n, n);
    } else {
      hide Published;
      ss, es := PublishAll(n, m - 1);
      ss, es := PublishOneMore(n, m - 1, ss, es);
    }
  }

  /** With every add succeeding, "each URL is published at most m times" holds of all runs of a
      scheduler with `n` result consumers exactly when n <= m.  The deployed scheduler has five. */
  lemma AtMostIff(n: nat, m: nat)
    ensures (forall ss: seq<State>, es: seq<Event> ::
               IsRun(ss, es) && Init(ss[0], n) && AddsSucceed(es) ==> AtMost(ss, n, m))
            <==> n <= m
  {
    hide Step, Init, AddsSucceed;
    if n <= m {
      forall ss: seq<State>, es: seq<Event> | IsRun(ss, es) && Init(ss[0], n) && AddsSucceed(es)
        ensures AtMost(ss, n, m)
      {
        OncePerConsumer(ss, es, n);
      }
    } else {
      hide Exact, Faultless, FromWeb, OneTarget;
      var ss, es := PublishAll(n, n);
      ExactAddsSucceed(OneLinkWeb(), "s", 1, ss, es);
      PerUrlAtLeast(Last(ss).log.expansions, "x", n);
      assert IsRun(ss, es) && Init(ss[0], n) && AddsSucceed(es) && !AtMost(ss, n, m);
    }
  }

  // ---- Schedules that are not breadth-first

  /** Consumer `i` deals with a page all of whose links are known. */
  lemma CrawlKnownPage(web: Links, seed: Url, d: int, ss0: seq<State>, es0: seq<Event>, t: Task, i: nat)
    returns (ss: seq<State>, es: seq<Event>)
    requires ExactRun(web, seed, d, ss0, es0)
    requires t in Last(ss0).ready && Last(ss0).maxDepth == Some(d) && Last(ss0).results == multiset{}
    requires i < |Last(ss0).consumers| && Last(ss0).consumers[i].Idle?
    requires forall v <- web(t.url) :: v in Last(ss0).filter
    ensures |ss| > 0 && ExactRun(web, seed, d, ss, es) && ss[0] == ss0[0]
    ensures SameButTasks(Last(ss0), Last(ss)) && Last(ss).results == multiset{}
    ensures Last(ss).ready == Last(ss0).ready - multiset{t}
    ensures Last(ss).consumers == Last(ss0).consumers
  {
    ss, es := CrawlPage(web, seed, d, ss0, es0, t, i);
    if t.depth < d {
      ss, es := SkipRest(web, seed, d, ss, es, i);
    }
  }

  /** With two consumers: x is one hop from s, but is published with depth 2. */
  lemma LateByRace(n: nat, d: int) returns (ss: seq<State>, es: seq<Event>)
    requires n >= 2 && d >= 2
    ensures |ss| > 0 && ExactRun(TriangleWeb(), "s", d, ss, es) && Init(ss[0], n)
    ensures Quiescent(Last(ss)) && Last(ss).log.starts > 0
    ensures Task("x", 2, d) in Last(ss).log.published
  {
    var web := TriangleWeb();
    ss, es := RaceForX(n, d);
    ss, es := ExpandLink(web, "s", d, ss, es, 1);
    ss, es := SkipRest(web, "s", d, ss, es, 0);
    ss, es := SkipRest(web, "s", d, ss, es, 1);
    ss, es := CrawlKnownPage(web, "s", d, ss, es, Task("x", 2, d), 0);
  }

  /** Page x hangs below b at two hops and below c at three. */
  function Detour(u: Url): seq<Url> {
    if u == "s" then ["a", "b"]
    else if u == "a" then ["c"]
    else if u == "b" || u == "c" then ["x"]
    else []
  }

  function DetourWeb(): Links {
    (u: Url) => Detour(u)
  }

  /** The seed's page is expanded: a and b are waiting. */
  lemma DetourBegun(n: nat, d: int) returns (ss: seq<State>, es: seq<Event>)
    requires n >= 1 && d >= 3
    ensures |ss| > 0 && ExactRun(DetourWeb(), "s", d, ss, es) && Init(ss[0], n)
    ensures var s := Last(ss);
            && |s.consumers| == n && (forall i | 0 <= i < n :: s.consumers[i].Idle?)
            && s.filter == {"s", "a", "b"} && s.maxDepth == Some(d) && s.log.starts == 1
            && s.ready == multiset{Task("a", 1, d), Task("b", 1, d)}
            && s.handlers == multiset{} && s.held == multiset{} && s.results == multiset{}
  {
    hide ExactRun;
    var web := DetourWeb();
    ss, es := StartCrawl(web, "s", d, Fresh(n), n);
    ss, es := CrawlPage(web, "s", d, ss, es, Task("s", 0, d), 0);
    ss, es := ExpandLink(web, "s", d, ss, es, 0);
    ss, es := ExpandLink(web, "s", d, ss, es, 0);
    ss, es := SkipRest(web, "s", d, ss, es, 0);
  }

  lemma DetourTaken(n: nat, d: int) returns (ss: seq<State>, es: seq<Event>)
    requires n >= 1 && d >= 3
    ensures |ss| > 0 && ExactRun(DetourWeb(), "s", d, ss, es) && Init(ss[0], n)
    ensures var s := Last(ss);
            && |s.consumers| == n && (forall i | 0 <= i < n :: s.consumers[i].Idle?)
            && s.filter == {"s", "a", "b", "c"} && s.maxDepth == Some(d) && s.log.starts == 1
            && s.ready == multiset{Task("b", 1, d), Task("c", 2, d)}
            && s.handlers == multiset{} && s.held == multiset{} && s.results == multiset{}
  {
    hide ExactRun, Init;
    var web := DetourWeb();
    ss, es := DetourBegun(n, d);
    ss, es := CrawlPage(web, "s", d, ss, es, Task("a", 1, d), 0);
    ss, es := ExpandLink(web, "s", d, ss, es, 0);
    ss, es := SkipRest(web, "s", d, ss, es, 0);
  }

  /** The page c is expanded before b: x is published below c. */
  lemma FarPathFirst(n: nat, d: int) returns (ss: seq<State>, es: seq<Event>)
    requires n >= 1 && d >= 3
    ensures |ss| > 0 && ExactRun(DetourWeb(), "s", d, ss, es) && Init(ss[0], n)
    ensures var s := Last(ss);
            && |s.consumers| == n && (forall i | 0 <= i < n :: s.consumers[i].Idle?)
            && s.filter == {"s", "a", "b", "c", "x"} && s.maxDepth == Some(d) && s.log.starts == 1
            && s.ready == multiset{Task("b", 1, d), Task("x", 3, d)}
            && Task("x", 3, d) in s.log.published
            && s.handlers == multiset{} && s.held == multiset{} && s.results == multiset{}
  {
    hide ExactRun, Init;
    var web := DetourWeb();
    ss, es := DetourTaken(n, d);
    ss, es := CrawlPage(web, "s", d, ss, es, Task("c", 2, d), 0);
    ss, es := ExpandLink(web, "s", d, ss, es, 0);
    ss, es := SkipRest(web, "s", d, ss, es, 0);
  }

  /** Even with one consumer: if b's result is processed after c's, x is published with depth 3. */
  lemma LateByOrder(n: nat, d: int) returns (ss: seq<State>, es: seq<Event>)
    requires n >= 1 && d >= 3
    ensures |ss| > 0 && ExactRun(DetourWeb(), "s", d, ss, es) && Init(ss[0], n)
    ensures Quiescent(Last(ss)) && Last(ss).log.starts > 0
    ensures Task("x", 3, d) in Last(ss).log.published
  {
    hide ExactRun, Init;
    var web := DetourWeb();
    ss, es := FarPathFirst(n, d);
    ss, es := CrawlKnownPage(web, "s", d, ss, es, Task("b", 1, d), 0);
    ss, es := CrawlKnownPage(web, "s", d, ss, es, Task("x", 3, d), 0);
  }

  lemma TriangleNotShortest(d: int, s: State)
    requires Task("x", 2, d) in s.log.published
    ensures !IsBreadthFirst(TriangleWeb(), "s", d, s)
  {
    var web := TriangleWeb();
    assert "s" in Frontier(web, "s", 0) && web("s")[1] == "x";
    FrontierLink(web, "s", "s", "x", 0);
  }

  lemma DetourNotShortest(d: int, s: State)
    requires Task("x", 3, d) in s.log.published
    ensures !IsBreadthFirst(DetourWeb(), "s", d, s)
  {
    var web := DetourWeb();
    assert "s" in Frontier(web, "s", 0) && web("s")[1] == "b";
    FrontierLink(web, "s", "s", "b", 0);
    assert web("b")[0] == "x";
    FrontierLink(web, "s", "b", "x", 1);
  }

  // ---- Depth limits shallow enough for every schedule

  /** Up to depth 1 only the seed is ever expanded. */
  lemma ShallowIsLevelByLevel(web: Links, seed: Url, d: int, ss: seq<State>, es: seq<Event>, n: nat)
    requires ExactRun(web, seed, d, ss, es) && Init(ss[0], n) && d <= 1
    ensures LevelRun(web, seed, d, ss, es)
  {
    forall k | 0 <= k < |es|
      ensures LevelByLevel(web, d, ss[k], es[k])
    {
      RunBackground(web, seed, d, ss, es, n, k);
      assert Step(ss[k], es[k], ss[k + 1]);
      if es[k].By? && es[k].act.Consume? {
        OnlySeedBelow(web, seed, d, ss[k], es[k].act.r);
      }
    }
  }

  lemma OnlySeedBelow(web: Links, seed: Url, d: int, s: State, r: UrlData)
    requires Background(web, seed, d, s) && r in s.results
    ensures r.depth >= 0 && Expanded(web, s, 0)
  {
    assert ResultAt(s, r);
    assert SoundResult(web, {seed}, r);
    forall t | t in s.log.published
      ensures t.depth >= 0
    {
      assert SoundTask(web, {seed}, t);
    }
    forall i | 0 <= i < |s.consumers| && s.consumers[i].Claimed?
      ensures s.consumers[i].r.depth >= 0
    {
      assert SoundConsumer(web, {seed}, s.consumers[i]);
    }
  }

  // With one consumer and depth limit 2, the seed's page is expanded before any other.

  /** A consumer in the middle of an expansion has put aside no link that the filter lacks. */
  ghost predicate Remembered(filter: set<Url>, c: Consumer, v: Url) {
    (c.Expanding? || c.Checked? || c.Claimed?) && v in c.r.nextUrls ==> v in filter || v in Pending(c)
  }

  /** Link `v` of the seed's page is in the filter, or the consumer is still busy with it. */
  ghost predicate SeedPageOpen(web: Links, seed: Url, s: State, v: Url)
    requires |s.consumers| == 1
  {
    v in s.filter || Working(s.consumers[0], UrlData(seed, 0, web(seed)), v)
  }

  ghost predicate BeyondSeed(s: State) {
    exists t :: t in s.log.published && t.depth > 0
  }

  ghost predicate SeedPageFirst(web: Links, seed: Url, s: State, v: Url) {
    && |s.consumers| == 1
    && Remembered(s.filter, s.consumers[0], v)
    && (BeyondSeed(s) ==> SeedPageOpen(web, seed, s, v))
  }

  lemma RememberedMoved(s: State, c: Consumer, act: Act, v: Url)
    requires CanAct(s, c, act) && Faultless(s, By(0, act)) && Exact(s, By(0, act))
    requires s.consumers == [c] && (!c.Idle? ==> s.maxDepth.Some?)
    requires Remembered(s.filter, c, v)
    ensures Remembered(if act.Add? then s.filter + {c.url} else s.filter, Moved(s, c, act), v)
  {
  }

  lemma RememberedStep(s: State, act: Act, s': State, v: Url)
    requires Acts(s, 0, act, s') && Faultless(s, By(0, act)) && Exact(s, By(0, act))
    requires |s.consumers| == 1 && (!s.consumers[0].Idle? ==> s.maxDepth.Some?)
    requires Remembered(s.filter, s.consumers[0], v)
    ensures Remembered(s'.filter, s'.consumers[0], v)
  {
    hide Moved, Remembered, ByRecord;
    RememberedMoved(s, s.consumers[0], act, v);
    hide CanAct;
  }

  lemma OpenStep(web: Links, seed: Url, d: int, s: State, act: Act, s': State, v: Url)
    requires Acts(s, 0, act, s') && Faultless(s, By(0, act)) && |s.consumers| == 1
    requires SeedPageOpen(web, seed, s, v) && Known(s', v)
    requires !s.consumers[0].Idle? ==> s.maxDepth == Some(d)
    requires d > 0
    ensures |s'.consumers| == 1 && SeedPageOpen(web, seed, s', v)
  {
    hide Moved;
    var r := UrlData(seed, 0, web(seed));
    if Working(s.consumers[0], r, v) {
      WorkingAct(s, 0, act, s', r, v);
    }
    hide CanAct, Faultless;
  }

  /** The first page one hop away is published while the seed's page is being expanded. */
  lemma PublishFirst(web: Links, seed: Url, d: int, s: State, v: Url)
    requires Background(web, seed, d, s) && SeedPageFirst(web, seed, s, v) && v in web(seed)
    requires s.consumers[0].Claimed?
    ensures SeedPageOpen(web, seed, s, v)
  {
    var c := s.consumers[0];
    assert SoundConsumer(web, {seed}, c) && ConsumerAt(s, 0);
    if c.r.depth == 0 {
      assert Frontier(web, seed, 0) == {seed};
    } else {
      assert ResultAt(s, c.r);
      var t :| t in s.log.emitted && c.r.url == t.url && c.r.depth == t.depth;
      assert TaskAt(s, t);
    }
  }

  /** Only a publication can take the crawl beyond its seed. */
  lemma StillBeforeSeed(s: State, act: Act, s': State)
    requires Acts(s, 0, act, s') && BeyondSeed(s') && !BeyondSeed(s)
    ensures act.Publish?
  {
    var t :| t in s'.log.published && t.depth > 0;
    hide Moved, ByEffect;
  }

  lemma SeedPageAct(web: Links, seed: Url, d: int, s: State, act: Act, s': State, v: Url)
    requires Acts(s, 0, act, s') && Faultless(s, By(0, act)) && Exact(s, By(0, act))
    requires Background(web, seed, d, s) && Known(s', v)
    requires SeedPageFirst(web, seed, s, v) && v in web(seed) && d > 0
    ensures SeedPageFirst(web, seed, s', v)
  {
    hide SeedPageOpen, Known, BeyondSeed, Conserved, Provenanced, JobInv, ByRecord, Remembered, Faultless, Exact,
         SeedFirst;
    AliveWhenBusy(web, seed, d, s);
    RememberedStep(s, act, s', v);
    if BeyondSeed(s') {
      if !BeyondSeed(s) {
        StillBeforeSeed(s, act, s');
        PublishFirst(web, seed, d, s, v);
      }
      OpenStep(web, seed, d, s, act, s', v);
    }
    hide Moved, Background, CanAct;
  }

  /** A busy consumer works for the one job there is. */
  lemma AliveWhenBusy(web: Links, seed: Url, d: int, s: State)
    requires Background(web, seed, d, s)
    ensures forall i | 0 <= i < |s.consumers| && !s.consumers[i].Idle? :: s.maxDepth == Some(d)
  {
    hide Conserved, Provenanced, JobInv, SeedFirst, Known;
  }

  lemma SeedPageOther(web: Links, seed: Url, s: State, e: Event, s': State, v: Url)
    requires Step(s, e, s') && !e.By? && SeedPageFirst(web, seed, s, v)
    ensures SeedPageFirst(web, seed, s', v)
  {
    hide Next;
    OtherFields(s, e, s');
    if Source(e) {
      SourceFields(s, e, s');
    } else {
      QuietFields(s, e, s');
    }
    hide Step, Remembered;
    FilterMonotone(s.filter, s'.filter, s.consumers[0], v);
  }

  lemma FilterMonotone(filter: set<Url>, filter': set<Url>, c: Consumer, v: Url)
    requires filter <= filter' && Remembered(filter, c, v)
    ensures Remembered(filter', c, v)
  {
  }

  lemma SeedPageStep(web: Links, seed: Url, d: int, s: State, e: Event, s': State, v: Url)
    requires Step(s, e, s') && Faultless(s, e) && Exact(s, e)
    requires Background(web, seed, d, s) && Known(s', v)
    requires SeedPageFirst(web, seed, s, v) && v in web(seed) && d > 0
    ensures SeedPageFirst(web, seed, s', v)
  {
    hide Next, Enabled, Background, Known, Faultless, Exact, Remembered, SeedPageOpen;
    if e.By? {
      ByFields(s, e, s');
      assert e == By(0, e.act);
      hide ByEffect, ByRecord, CanAct;
      SeedPageAct(web, seed, d, s, e.act, s', v);
    } else {
      SeedPageOther(web, seed, s, e, s', v);
    }
  }

  lemma {:induction false} RunSeedPage(web: Links, seed: Url, d: int, ss: seq<State>, es: seq<Event>,
                                       k: nat, v: Url)
    requires ExactRun(web, seed, d, ss, es) && Init(ss[0], 1) && k < |ss| && d > 0
    requires v in web(seed)
    ensures SeedPageFirst(web, seed, ss[k], v)
  {
    hide Step, Init, Background, Faultless, Exact, FromWeb, OneTarget, SeedPageFirst, Known;
    if k > 0 {
      RunSeedPage(web, seed, d, ss, es, k - 1, v);
      RunBackground(web, seed, d, ss, es, 1, k - 1);
      RunKnown(web, seed, d, ss, es, 1, k, v);
      var s, e, s' := ss[k - 1], es[k - 1], ss[k];
      assert Step(s, e, s') && Faultless(s, e) && Exact(s, e);
      SeedPageStep(web, seed, d, s, e, s', v);
    } else {
      SeedPageAtStart(web, seed, ss[0], v);
    }
  }

  lemma SeedPageAtStart(web: Links, seed: Url, s: State, v: Url)
    requires Init(s, 1)
    ensures SeedPageFirst(web, seed, s, v)
  {
  }

  lemma SeedPageDone(web: Links, seed: Url, d: int, ss: seq<State>, es: seq<Event>, k: nat, r: UrlData)
    requires ExactRun(web, seed, d, ss, es) && Init(ss[0], 1) && k < |ss| && d > 0
    requires |ss[k].consumers| == 1 && ss[k].consumers[0].Idle?
    requires r in ss[k].results && r.depth == 1
    ensures Expanded(web, ss[k], 1)
  {
    var s := ss[k];
    RunBackground(web, seed, d, ss, es, 1, k);
    assert ResultAt(s, r);
    var t1 :| t1 in s.log.emitted && r.url == t1.url && r.depth == t1.depth;
    assert TaskAt(s, t1);
    assert BeyondSeed(s);
    forall t: Task, v: Url | t in s.log.published && t.depth < 1 && v in web(t.url)
      ensures v in s.filter
    {
      assert SoundTask(web, {seed}, t);
      assert Frontier(web, seed, 0) == {seed};
      RunSeedPage(web, seed, d, ss, es, k, v);
    }
  }

  lemma DepthTwoIsLevelByLevel(web: Links, seed: Url, ss: seq<State>, es: seq<Event>)
    requires ExactRun(web, seed, 2, ss, es) && Init(ss[0], 1)
    ensures LevelRun(web, seed, 2, ss, es)
  {
    forall k | 0 <= k < |es|
      ensures LevelByLevel(web, 2, ss[k], es[k])
    {
      RunBackground(web, seed, 2, ss, es, 1, k);
      ConsumersFixed(ss, es, k);
      assert Step(ss[k], es[k], ss[k + 1]);
      if es[k].By? && es[k].act.Consume? {
        var r := es[k].act.r;
        OnlySeedBelow(web, seed, 2, ss[k], r);
        if r.depth == 1 {
          SeedPageDone(web, seed, 2, ss, es, k, r);
        }
      }
    }
  }

  /** A fault-free crawl to depth `d` that has come to rest. */
  ghost predicate AtRest(web: Links, seed: Url, d: int, n: nat, ss: seq<State>, es: seq<Event>) {
    && |ss| > 0 && ExactRun(web, seed, d, ss, es) && Init(ss[0], n)
    && Quiescent(Last(ss)) && Last(ss).log.starts > 0
  }

  /** With exact filter and no faults, every crawl to depth `d` with `n >= 1` consumers, on every
      web and under every schedule, is a breadth-first search exactly when `d` is at most 1, or
      is 2 and there is a single consumer. */
  lemma BreadthFirstForAllSchedulesIff(n: nat, d: int)
    requires n >= 1
    ensures (forall web: Links, seed: Url, ss: seq<State>, es: seq<Event> ::
               AtRest(web, seed, d, n, ss, es) ==> IsBreadthFirst(web, seed, d, Last(ss)))
            <==> d <= 1 || (d == 2 && n == 1)
  {
    hide Step, Init, Quiescent, IsBreadthFirst, JobRun, Faultless, Exact;
    if d <= 1 || (d == 2 && n == 1) {
      forall web: Links, seed: Url, ss: seq<State>, es: seq<Event> | AtRest(web, seed, d, n, ss, es)
        ensures IsBreadthFirst(web, seed, d, Last(ss))
      {
        if d <= 1 {
          ShallowIsLevelByLevel(web, seed, d, ss, es, n);
        } else {
          DepthTwoIsLevelByLevel(web, seed, ss, es);
        }
        LevelByLevelIsBreadthFirst(web, seed, d, ss, es, n);
      }
    } else if n >= 2 {
      var ss, es := LateByRace(n, d);
      assert AtRest(TriangleWeb(), "s", d, n, ss, es);
      TriangleNotShortest(d, Last(ss));
    } else {
      var ss, es := LateByOrder(n, d);
      assert AtRest(DetourWeb(), "s", d, n, ss, es);
      DetourNotShortest(d, Last(ss));
    }
  }
}
