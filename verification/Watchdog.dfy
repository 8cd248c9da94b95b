/** The crawl protocol and the timed job keys side by side: what the watchdog, which sees only
    the keys and the message counts of the queues, does to a job with work under way. */
module Watchdog {
  import opened Models
  import K = JobKeys
  import P = Protocol

  /** The crawl; the results among `crawl.results` that the broker has pushed to the consumers'
      clients, which acknowledge on delivery and take any number in advance; and every operation
      on the job keys so far. */
  datatype System = System(crawl: P.State, pushed: multiset<UrlData>, ops: seq<K.Op>)

  datatype Config = Config(ttl: nat, idle: nat)

  datatype Happening =
      // A step that is not about the job keys.  A consumer takes a result that was pushed to it,
      // and first of all stamps the activity time, which succeeds or not.
    | Crawl(e: P.Event, stamped: bool)
      // The broker pushes a result, and counts it no more.
    | Push(r: UrlData)
      // A client loses its connection, and with it a result that was pushed to it.
    | DropPushed(r: UrlData)
    | Start(url: Url, depth: int, fault: K.Fault)
    | GiveUp(h: P.Seeding)
    | Stop
    | Pass(ms: nat)
      // The watchdog looks; `readable` says whether it can read the activity time.
    | Look(readable: bool)

  ghost predicate AboutKeys(e: P.Event) {
    e.StartJob? || P.Clears(e)
  }

  ghost function KeysOf(x: System, cfg: Config): K.Keys {
    K.KeysAfter(x.ops, cfg.ttl, cfg.idle)
  }

  /** The broker counts no message on any queue: all that the watchdog can see of the work under
      way.  Tasks that workers hold and results that wait in a client are not counted. */
  ghost predicate Quiet(x: System) {
    x.crawl.ready == multiset{} && x.crawl.results == x.pushed
  }

  ghost function OpOf(x: System, h: Happening): K.Op {
    match h
    case Crawl(e, stamped) => K.Stamp(e.By? && e.act.Consume? && stamped)
    case Start(url, depth, fault) => K.Start(url, depth, fault)
    case Push(_) => K.Stamp(false)
    case DropPushed(_) => K.Stamp(false)
    case GiveUp(_) => K.Cleanup
    case Stop => K.Cleanup
    case Pass(ms) => K.Tick(ms)
    case Look(readable) => K.Watch(Quiet(x), readable)
  }

  ghost predicate Fires(x: System, readable: bool, cfg: Config) {
    K.Fires(KeysOf(x, cfg), Quiet(x), readable, cfg.ttl, cfg.idle)
  }

  /** The event of the protocol that goes with `h`, if any. */
  ghost function EventOf(x: System, h: Happening, cfg: Config): Option<P.Event> {
    match h
    case Crawl(e, _) => Some(e)
    case Push(_) => None
    case DropPushed(r) => Some(P.LoseResult(r))
    case Start(url, depth, _) =>
      if K.Starts(KeysOf(x, cfg), OpOf(x, h), cfg.ttl) then Some(P.StartJob(url, depth)) else None
    case GiveUp(h) => Some(P.SeedFail(h))
    case Stop => Some(P.Cleanup)
    case Pass(_) => None
    case Look(readable) => if Fires(x, readable, cfg) then Some(P.Cleanup) else None
  }

  /** Consumers take results that were pushed; overflow and purges reach those that were not. */
  ghost predicate Reaches(x: System, e: P.Event) {
    && (e.By? && e.act.Consume? ==> e.act.r in x.pushed)
    && (e.LoseResult? ==> e.r in x.crawl.results - x.pushed)
  }

  /** The pushed results afterwards. */
  ghost function PushedAfter(x: System, h: Happening): multiset<UrlData> {
    if h.Crawl? && h.e.By? && h.e.act.Consume? then x.pushed - multiset{h.e.act.r}
    else if h.DropPushed? then x.pushed - multiset{h.r}
    else if h.Push? then x.pushed + multiset{h.r}
    else x.pushed
  }

  ghost predicate Enabled(x: System, h: Happening, cfg: Config) {
    && (h.Crawl? ==> !AboutKeys(h.e) && Reaches(x, h.e))
    && (h.Push? ==> h.r in x.crawl.results - x.pushed)
    && (h.DropPushed? ==> h.r in x.pushed)
    && var e := EventOf(x, h, cfg);
    e.Some? ==> P.Enabled(x.crawl, e.value)
  }

  /** The keys as the crawl sees them. */
  ghost function Seen(s: P.State, k: K.Keys, ttl: nat): P.State {
    s.(active := K.Live(k.active, k.clock, ttl), maxDepth := K.Live(k.maxDepth, k.clock, ttl))
  }

  ghost function Next(x: System, h: Happening, cfg: Config): System
    requires Enabled(x, h, cfg)
  {
    var pushed, ops := PushedAfter(x, h), x.ops + [OpOf(x, h)];
    var e := EventOf(x, h, cfg);
    if e.Some? then System(P.Next(x.crawl, e.value), pushed, ops)
    else if h.Pass? then System(Seen(x.crawl, K.KeysAfter(ops, cfg.ttl, cfg.idle), cfg.ttl), pushed, ops)
    else System(x.crawl, pushed, ops)
  }

  ghost predicate Step(x: System, h: Happening, x': System, cfg: Config) {
    Enabled(x, h, cfg) && x' == Next(x, h, cfg)
  }

  ghost predicate IsRun(xs: seq<System>, hs: seq<Happening>, n: nat, cfg: Config) {
    && |xs| == |hs| + 1
    && P.Init(xs[0].crawl, n) && xs[0].pushed == multiset{} && xs[0].ops == []
    && forall k | 0 <= k < |hs| :: Step(xs[k], hs[k], xs[k + 1], cfg)
  }

  // ---- What was pushed is still unprocessed

  ghost predicate Unprocessed(x: System) {
    x.pushed <= x.crawl.results
  }

  lemma ResultsStep(s: P.State, e: P.Event, s': P.State)
    requires P.Step(s, e, s')
    ensures s'.results == (if e.By? && e.act.Consume? then s.results - multiset{e.act.r}
                           else if e.LoseResult? then s.results - multiset{e.r}
                           else if e.Emit? then s.results + multiset{UrlData(e.t.url, e.t.depth, e.next)}
                           else s.results)
  {
    if e.By? {
      P.ByFields(s, e, s');
    }
  }

  /** A step of the protocol that takes or loses a result does so in keeping with what is pushed. */
  lemma PushedEvent(s: P.State, e: P.Event, s': P.State, pushed: multiset<UrlData>)
    requires P.Step(s, e, s') && pushed <= s.results
    requires !(e.By? && e.act.Consume?) && (e.LoseResult? ==> e.r in s.results - pushed)
    ensures pushed <= s'.results
  {
    ResultsStep(s, e, s');
    hide P.Step;
  }

  lemma PushedTaken(s: P.State, e: P.Event, s': P.State, r: UrlData, pushed: multiset<UrlData>)
    requires P.Step(s, e, s') && pushed <= s.results && r in pushed
    requires (e.By? && e.act == P.Consume(r)) || e == P.LoseResult(r)
    ensures pushed - multiset{r} <= s'.results
  {
    ResultsStep(s, e, s');
    hide P.Step;
  }

  lemma PushedStep(x: System, h: Happening, x': System, cfg: Config)
    requires Step(x, h, x', cfg) && Unprocessed(x)
    ensures Unprocessed(x')
  {
    hide P.Enabled, P.Next, KeysOf, K.KeysAfter, K.Starts, Fires, OpOf;
    var e := EventOf(x, h, cfg);
    if h.Crawl? && h.e.By? && h.e.act.Consume? {
      PushedTaken(x.crawl, h.e, x'.crawl, h.e.act.r, x.pushed);
    } else if h.DropPushed? {
      PushedTaken(x.crawl, P.LoseResult(h.r), x'.crawl, h.r, x.pushed);
    } else if e.Some? {
      PushedEvent(x.crawl, e.value, x'.crawl, x.pushed);
    }
    hide P.Step;
  }

  /** Only results that no consumer has taken yet wait in a client. */
  lemma {:induction false} PushedWaits(xs: seq<System>, hs: seq<Happening>, n: nat, cfg: Config, k: nat)
    requires IsRun(xs, hs, n, cfg) && k < |xs|
    ensures Unprocessed(xs[k])
  {
    hide Step, P.Init, Unprocessed;
    if k > 0 {
      PushedWaits(xs, hs, n, cfg, k - 1);
      PushedStep(xs[k - 1], hs[k - 1], xs[k], cfg);
    } else {
      NonePushed(xs[0]);
    }
  }

  lemma NonePushed(x: System)
    requires x.pushed == multiset{}
    ensures Unprocessed(x)
  {
  }

  // ---- The crawl sees the live keys

  /** Lock and max depth were written together, so they go together. */
  ghost predicate Paired(k: K.Keys, ttl: nat) {
    K.Live(k.maxDepth, k.clock, ttl).Some? ==>
      k.active.Some? && k.active.value.at == k.maxDepth.value.at
  }

  ghost predicate Linked(x: System, cfg: Config) {
    var k := KeysOf(x, cfg);
    && Paired(k, cfg.ttl) && K.Agree(k, cfg.ttl)
    && x.crawl == Seen(x.crawl, k, cfg.ttl)
  }

  lemma PairedStep(k: K.Keys, op: K.Op, cfg: Config)
    requires Paired(k, cfg.ttl)
    ensures Paired(K.After(k, op, cfg.ttl, cfg.idle), cfg.ttl)
  {
    K.AfterFields(k, op, cfg.ttl, cfg.idle);
    hide K.After, K.Fires, K.Unix;
  }

  lemma KeysMore(x: System, op: K.Op, cfg: Config)
    ensures K.KeysAfter(x.ops + [op], cfg.ttl, cfg.idle) == K.After(KeysOf(x, cfg), op, cfg.ttl, cfg.idle)
  {
    assert (x.ops + [op])[..|x.ops|] == x.ops;
    hide K.After;
  }

  /** What an operation makes of the keys that the crawl sees. */
  lemma SeenAfter(s: P.State, k: K.Keys, op: K.Op, cfg: Config)
    requires Paired(k, cfg.ttl) && s == Seen(s, k, cfg.ttl) && !op.Tick?
    ensures var s' := Seen(s, K.After(k, op, cfg.ttl, cfg.idle), cfg.ttl);
      if K.Starts(k, op, cfg.ttl) then s' == s.(active := Some(op.url), maxDepth := Some(op.depth))
      else if op.Cleanup? || (op.Watch? && K.Fires(k, op.quiet, op.readable, cfg.ttl, cfg.idle))
      then s' == s.(active := None, maxDepth := None)
      else s' == s
  {
    K.AfterFields(k, op, cfg.ttl, cfg.idle);
    hide K.After, K.Fires, K.Unix;
  }

  lemma KeyEvents(s: P.State, e: P.Event, s': P.State)
    requires P.Step(s, e, s') && (e.StartJob? || e.SeedFail? || e.Cleanup?)
    ensures s'.active == (if e.StartJob? then Some(e.seed) else None)
    ensures s'.maxDepth == (if e.StartJob? then Some(e.depth) else None)
  {
  }

  lemma LinkedStep(x: System, h: Happening, x': System, cfg: Config)
    requires Step(x, h, x', cfg) && Linked(x, cfg)
    ensures Linked(x', cfg)
  {
    hide P.Enabled, P.Next, K.KeysAfter, K.After, K.Fires, K.Agree, Paired, K.Starts;
    var k, op := KeysOf(x, cfg), OpOf(x, h);
    KeysMore(x, op, cfg);
    PairedStep(k, op, cfg);
    K.KeysAgree(x'.ops, cfg.ttl, cfg.idle);
    var e := EventOf(x, h, cfg);
    if !h.Pass? {
      SeenAfter(x.crawl, k, op, cfg);
      if !h.Start? {
        NoStart(k, op, cfg);
      }
      if e.Some? {
        assert P.Step(x.crawl, e.value, x'.crawl);
        if h.Crawl? || h.DropPushed? {
          P.KeysKept(x.crawl, e.value, x'.crawl);
        } else {
          KeyEvents(x.crawl, e.value, x'.crawl);
        }
      }
    }
    hide P.Step;
  }

  lemma NoStart(k: K.Keys, op: K.Op, cfg: Config)
    requires !op.Start?
    ensures !K.Starts(k, op, cfg.ttl)
  {
  }

  lemma {:induction false} RunLinked(xs: seq<System>, hs: seq<Happening>, n: nat, cfg: Config, k: nat)
    requires IsRun(xs, hs, n, cfg) && k < |xs|
    ensures Linked(xs[k], cfg)
  {
    if k > 0 {
      hide Step, Linked, P.Init;
      RunLinked(xs, hs, n, cfg, k - 1);
      LinkedStep(xs[k - 1], hs[k - 1], xs[k], cfg);
    } else {
      hide Step;
    }
  }

  // ---- Every such run is a run of the protocol

  ghost predicate Protocolled(s: P.State, s': P.State) {
    exists ss: seq<P.State>, es: seq<P.Event> :: P.IsRun(ss, es) && ss[0] == s && Last(ss) == s'
  }

  lemma NoEvent(s: P.State)
    ensures Protocolled(s, s)
  {
    hide P.Step;
    assert P.IsRun([s], []) && Last([s]) == s;
  }

  lemma OneEvent(s: P.State, s': P.State, e: P.Event, s'': P.State)
    requires Protocolled(s, s') && P.Step(s', e, s'')
    ensures Protocolled(s, s'')
  {
    hide P.Enabled, P.Next;
    var ss: seq<P.State>, es: seq<P.Event> :| P.IsRun(ss, es) && ss[0] == s && Last(ss) == s';
    P.LongerRun(ss, es, e);
    assert Last(ss + [s'']) == s'' && (ss + [s''])[0] == s;
  }

  /** Time can only take away both keys at once: the lock and max depth expire together. */
  lemma ExpireTogether(x: System, ms: nat, x': System, cfg: Config)
    requires Step(x, Pass(ms), x', cfg) && Linked(x, cfg)
    ensures x'.crawl == x.crawl || x'.crawl == x.crawl.(active := None, maxDepth := None)
  {
    var k := KeysOf(x, cfg);
    KeysMore(x, K.Tick(ms), cfg);
    K.AfterFields(k, K.Tick(ms), cfg.ttl, cfg.idle);
    hide K.After, K.KeysAfter;
  }

  lemma BothExpire(s: P.State)
    ensures Protocolled(s, s.(active := None, maxDepth := None))
  {
    hide Protocolled;
    NoEvent(s);
    if s.active.Some? {
      OneEvent(s, s, P.ExpireActive, s.(active := None));
    }
    if s.maxDepth.Some? {
      OneEvent(s, s.(active := None), P.ExpireMaxDepth, s.(active := None, maxDepth := None));
    }
  }

  lemma StepProtocolled(x: System, h: Happening, x': System, cfg: Config)
    requires Step(x, h, x', cfg) && Linked(x, cfg)
    ensures Protocolled(x.crawl, x'.crawl)
  {
    hide Protocolled, Linked, P.Enabled, P.Next, K.Starts, Fires, KeysOf;
    NoEvent(x.crawl);
    if h.Pass? {
      ExpireTogether(x, h.ms, x', cfg);
      BothExpire(x.crawl);
    } else if EventOf(x, h, cfg).Some? {
      OneEvent(x.crawl, x.crawl, EventOf(x, h, cfg).value, x'.crawl);
    }
  }

  /** So whatever the watchdog does, the crawl is in a state that the protocol can reach, and all
      results about its runs hold. */
  lemma {:induction false} CrawlIsProtocolRun(xs: seq<System>, hs: seq<Happening>, n: nat, cfg: Config, k: nat)
    requires IsRun(xs, hs, n, cfg) && k < |xs|
    ensures Protocolled(xs[0].crawl, xs[k].crawl)
  {
    hide Step, Linked, P.Init, Protocolled;
    if k > 0 {
      CrawlIsProtocolRun(xs, hs, n, cfg, k - 1);
      RunLinked(xs, hs, n, cfg, k - 1);
      StepProtocolled(xs[k - 1], hs[k - 1], xs[k], cfg);
      Joined(xs[0].crawl, xs[k - 1].crawl, xs[k].crawl);
    } else {
      NoEvent(xs[0].crawl);
    }
  }

  lemma Joined(s: P.State, s': P.State, s'': P.State)
    requires Protocolled(s, s') && Protocolled(s', s'')
    ensures Protocolled(s, s'')
  {
    hide P.Step;
    var ss: seq<P.State>, es: seq<P.Event> :| P.IsRun(ss, es) && ss[0] == s && Last(ss) == s';
    var ss': seq<P.State>, es': seq<P.Event> :| P.IsRun(ss', es') && ss'[0] == s' && Last(ss') == s'';
    var all, events := ss + ss'[1..], es + es';
    assert forall m | 0 <= m < |ss'| :: all[|es| + m] == ss'[m];
    forall k | 0 <= k < |events|
      ensures P.Step(all[k], events[k], all[k + 1])
    {
      if k < |es| {
        assert P.Step(ss[k], es[k], ss[k + 1]);
      } else {
        var m := k - |es|;
        assert P.Step(ss'[m], es'[m], ss'[m + 1]) && all[|es| + (m + 1)] == ss'[m + 1];
      }
    }
    assert P.IsRun(all, events) && all[0] == s && Last(all) == s'';
  }

  // ---- When the watchdog ends a job

  /** The time after the first `k` happenings. */
  ghost function Time(hs: seq<Happening>, k: nat): nat
    requires k <= |hs|
  {
    if k == 0 then 0 else Time(hs, k - 1) + if hs[k - 1].Pass? then hs[k - 1].ms else 0
  }

  /** Happening `k` starts a job, or a consumer takes a result and stamps the activity time. */
  ghost predicate Activity(xs: seq<System>, hs: seq<Happening>, k: nat)
    requires k < |xs| && k < |hs|
  {
    || (hs[k].Start? && hs[k].fault.NoFault? && xs[k].crawl.active.None?)
    || (hs[k].Crawl? && hs[k].e.By? && hs[k].e.act.Consume? && hs[k].stamped)
  }

  /** When that last happened. */
  ghost function LastActivity(xs: seq<System>, hs: seq<Happening>, k: nat): nat
    requires k <= |hs| < |xs|
  {
    if k == 0 then 0
    else if Activity(xs, hs, k - 1) then Time(hs, k - 1)
    else LastActivity(xs, hs, k - 1)
  }

  lemma TimeStep(x: System, h: Happening, x': System, cfg: Config)
    requires Step(x, h, x', cfg) && Linked(x, cfg)
    ensures KeysOf(x', cfg).clock == KeysOf(x, cfg).clock + if h.Pass? then h.ms else 0
    ensures K.LastStamp(x'.ops, cfg.ttl, cfg.idle) ==
      if (h.Start? && h.fault.NoFault? && x.crawl.active.None?)
         || (h.Crawl? && h.e.By? && h.e.act.Consume? && h.stamped)
      then KeysOf(x, cfg).clock else K.LastStamp(x.ops, cfg.ttl, cfg.idle)
  {
    hide P.Enabled, P.Next, K.KeysAfter, K.After, Fires;
    var op := OpOf(x, h);
    assert x'.ops == x.ops + [op] && x'.ops[..|x.ops|] == x.ops;
    KeysMore(x, op, cfg);
    LinkedLock(x, cfg);
    K.AfterFields(KeysOf(x, cfg), op, cfg.ttl, cfg.idle);
    hide Linked, K.Fires;
  }

  lemma {:induction false} RunTimes(xs: seq<System>, hs: seq<Happening>, n: nat, cfg: Config, k: nat)
    requires IsRun(xs, hs, n, cfg) && k < |xs|
    ensures KeysOf(xs[k], cfg).clock == Time(hs, k)
    ensures K.LastStamp(xs[k].ops, cfg.ttl, cfg.idle) == LastActivity(xs, hs, k)
  {
    hide Step, Linked, P.Init, K.After;
    if k > 0 {
      RunTimes(xs, hs, n, cfg, k - 1);
      RunLinked(xs, hs, n, cfg, k - 1);
      TimeStep(xs[k - 1], hs[k - 1], xs[k], cfg);
    }
  }

  /** A look of the watchdog ends the active job exactly when the broker counts no task and no
      result and the activity time cannot be read or was written more than `idle` whole seconds
      ago, by the start of the job or by the latest taking of a result.  Tasks that workers hold,
      results that consumers are busy with and results that wait in a client make no difference. */
  lemma LookEndsIff(xs: seq<System>, hs: seq<Happening>, n: nat, cfg: Config, k: nat)
    requires IsRun(xs, hs, n, cfg) && k < |hs| && hs[k].Look?
    ensures var x, x' := xs[k], xs[k + 1];
      x.crawl.active.Some? && x'.crawl.active.None? <==>
      && x.crawl.active.Some? && x.crawl.ready == multiset{} && x.crawl.results == x.pushed
      && (hs[k].readable ==> Time(hs, k) / 1000 - LastActivity(xs, hs, k) / 1000 > cfg.idle)
  {
    hide P.Init, Linked, Step, K.KeysAfter, K.Fires, K.LastStamp, LastActivity, Time;
    var x, x' := xs[k], xs[k + 1];
    assert Step(x, hs[k], x', cfg);
    RunLinked(xs, hs, n, cfg, k);
    RunTimes(xs, hs, n, cfg, k);
    LookStep(x, hs[k].readable, x', cfg);
    K.WatchdogFiresIff(x.ops, Quiet(x), hs[k].readable, cfg.ttl, cfg.idle);
    LinkedLock(x, cfg);
  }

  lemma LinkedLock(x: System, cfg: Config)
    requires Linked(x, cfg)
    ensures var k := KeysOf(x, cfg); x.crawl.active == K.Live(k.active, k.clock, cfg.ttl)
  {
  }

  lemma LookStep(x: System, readable: bool, x': System, cfg: Config)
    requires Step(x, Look(readable), x', cfg)
    ensures x'.crawl.active == if Fires(x, readable, cfg) then None else x.crawl.active
  {
    hide Fires;
    CleanupEnds(x.crawl);
  }

  lemma CleanupEnds(s: P.State)
    ensures P.Enabled(s, P.Cleanup) ==> P.Next(s, P.Cleanup).active.None?
  {
  }

  /** Work that the watchdog does not see: a task with a worker, a result that waits in a client,
      a consumer in the middle of a result. */
  datatype Unseen = HeldTask | WaitingResult | BusyConsumer

  ghost predicate Outstanding(x: System, work: Unseen) {
    match work
    case HeldTask => x.crawl.held != multiset{}
    case WaitingResult => x.pushed != multiset{}
    case BusyConsumer => exists i :: 0 <= i < |x.crawl.consumers| && !x.crawl.consumers[i].Idle?
  }

  /** In some run with `n` consumers the watchdog, although it can read the activity time, ends a
      job with work under way. */
  ghost predicate EndsWork(xs: seq<System>, hs: seq<Happening>, n: nat, cfg: Config, work: Unseen) {
    && IsRun(xs, hs, n, cfg) && hs != [] && Last(hs) == Look(true)
    && var x := xs[|hs| - 1];
    && x.crawl.active.Some? && xs[|hs|].crawl.active.None? && Outstanding(x, work)
  }

  // The run: time 999, the job is started and its seed published, a worker takes the seed, and,
  // for the other kinds of work, answers it, the answer is pushed to a client, and a consumer takes
  // it; then nothing but time.

  lemma Happen(xs: seq<System>, hs: seq<Happening>, n: nat, cfg: Config, h: Happening)
    returns (xs': seq<System>, hs': seq<Happening>)
    requires IsRun(xs, hs, n, cfg) && Enabled(Last(xs), h, cfg)
    ensures IsRun(xs', hs', n, cfg) && hs' == hs + [h] && xs' == xs + [Next(Last(xs), h, cfg)]
  {
    hide Enabled, Next, P.Init;
    xs', hs' := xs + [Next(Last(xs), h, cfg)], hs + [h];
    forall k | 0 <= k < |hs'|
      ensures Step(xs'[k], hs'[k], xs'[k + 1], cfg)
    {
      if k < |hs| {
        assert Step(xs[k], hs[k], xs[k + 1], cfg);
      }
    }
  }

  /** A happening that is an event of the crawl only. */
  lemma HappenCrawl(xs: seq<System>, hs: seq<Happening>, n: nat, cfg: Config, e: P.Event, stamped: bool)
    returns (xs': seq<System>, hs': seq<Happening>)
    requires |xs| > 0 && IsRun(xs, hs, n, cfg)
    requires P.Enabled(Last(xs).crawl, e) && !AboutKeys(e) && Reaches(Last(xs), e)
    ensures |xs'| > 0 && IsRun(xs', hs', n, cfg) && Last(xs').crawl == P.Next(Last(xs).crawl, e)
    ensures Last(xs').pushed == PushedAfter(Last(xs), Crawl(e, stamped))
    ensures KeysOf(Last(xs'), cfg) ==
            K.After(KeysOf(Last(xs), cfg), K.Stamp(e.By? && e.act.Consume? && stamped), cfg.ttl, cfg.idle)
  {
    hide P.Enabled, P.Next, IsRun, K.KeysAfter, K.After;
    xs', hs' := Happen(xs, hs, n, cfg, Crawl(e, stamped));
    KeysMore(Last(xs), K.Stamp(e.By? && e.act.Consume? && stamped), cfg);
  }

  /** The keys of a job that was started, and last stamped, at time 999. */
  ghost predicate JustStamped(x: System, cfg: Config) {
    KeysOf(x, cfg) == K.Keys(Some(K.Entry("s", 999)), Some(K.Entry(1, 999)), Some(K.Entry(0, 999)), 999)
  }

  lemma StampAgain(k: K.Keys, ok: bool, cfg: Config)
    requires k == K.Keys(Some(K.Entry("s", 999)), Some(K.Entry(1, 999)), Some(K.Entry(0, 999)), 999)
    ensures K.After(k, K.Stamp(ok), cfg.ttl, cfg.idle) == k
  {
    K.AfterFields(k, K.Stamp(ok), cfg.ttl, cfg.idle);
    hide K.After;
  }

  ghost predicate JustStarted(s: P.State, n: nat) {
    && |s.consumers| == n && (forall i | 0 <= i < n :: s.consumers[i].Idle?)
    && s.ready == s.held == multiset{} && s.results == multiset{}
    && s.handlers == multiset{P.Seeding("s", 1, false)} && s.active.Some?
  }

  lemma StartKeys(cfg: Config)
    ensures K.KeysAfter([], cfg.ttl, cfg.idle) == K.NO_KEYS
    ensures K.After(K.NO_KEYS, K.Tick(999), cfg.ttl, cfg.idle) == K.NO_KEYS.(clock := 999)
    ensures K.After(K.NO_KEYS.(clock := 999), K.Start("s", 1, K.NoFault), cfg.ttl, cfg.idle)
         == K.Keys(Some(K.Entry("s", 999)), Some(K.Entry(1, 999)), Some(K.Entry(0, 999)), 999)
  {
    K.AfterFields(K.NO_KEYS, K.Tick(999), cfg.ttl, cfg.idle);
    K.AfterFields(K.NO_KEYS.(clock := 999), K.Start("s", 1, K.NoFault), cfg.ttl, cfg.idle);
    hide K.After;
  }

  lemma StartRun(n: nat, cfg: Config) returns (xs: seq<System>, hs: seq<Happening>)
    ensures |xs| > 0 && IsRun(xs, hs, n, cfg) && JustStamped(Last(xs), cfg)
    ensures JustStarted(Last(xs).crawl, n) && Last(xs).pushed == multiset{}
  {
    hide K.KeysAfter, K.After;
    StartKeys(cfg);
    var x0 := System(P.Fresh(n), multiset{}, []);
    KeysMore(x0, K.Tick(999), cfg);
    xs, hs := Happen([x0], [], n, cfg, Pass(999));
    var x1 := xs[1];
    assert x1.crawl == P.Fresh(n);
    KeysMore(x1, K.Start("s", 1, K.NoFault), cfg);
    hide IsRun;
    xs, hs := Happen(xs, hs, n, cfg, Start("s", 1, K.NoFault));
  }

  lemma HeldRun(n: nat, cfg: Config) returns (xs: seq<System>, hs: seq<Happening>)
    ensures |xs| > 0 && IsRun(xs, hs, n, cfg) && JustStamped(Last(xs), cfg)
    ensures var s := Last(xs).crawl;
      && |s.consumers| == n && (forall i | 0 <= i < n :: s.consumers[i].Idle?)
      && s.held == multiset{Task("s", 0, 1)} && s.results == multiset{} && s.active.Some?
    ensures Quiet(Last(xs)) && Outstanding(Last(xs), HeldTask) && Last(xs).pushed == multiset{}
  {
    hide IsRun, KeysOf, K.After;
    var h, t := P.Seeding("s", 1, false), Task("s", 0, 1);
    xs, hs := StartRun(n, cfg);
    StampAgain(KeysOf(Last(xs), cfg), false, cfg);
    xs, hs := HappenCrawl(xs, hs, n, cfg, P.SeedAdd(h, true), false);
    xs, hs := HappenCrawl(xs, hs, n, cfg, P.SeedPublish(h.(added := true)), false);
    assert Last(xs).crawl.ready == multiset{t};
    xs, hs := HappenCrawl(xs, hs, n, cfg, P.Deliver(t), false);
  }

  const SEED_RESULT := UrlData("s", 0, [])

  lemma WaitingRun(n: nat, cfg: Config) returns (xs: seq<System>, hs: seq<Happening>)
    ensures |xs| > 0 && IsRun(xs, hs, n, cfg) && JustStamped(Last(xs), cfg)
    ensures var s := Last(xs).crawl;
      && |s.consumers| == n && (forall i | 0 <= i < n :: s.consumers[i].Idle?)
      && s.results == multiset{SEED_RESULT} && s.active.Some?
    ensures Quiet(Last(xs)) && Outstanding(Last(xs), WaitingResult) && Last(xs).pushed == multiset{SEED_RESULT}
  {
    hide IsRun, KeysOf, K.After, K.KeysAfter;
    xs, hs := HeldRun(n, cfg);
    StampAgain(KeysOf(Last(xs), cfg), false, cfg);
    xs, hs := HappenCrawl(xs, hs, n, cfg, P.Emit(Task("s", 0, 1), []), false);
    assert Last(xs).crawl.results == multiset{SEED_RESULT};
    xs, hs := HappenPush(xs, hs, n, cfg, SEED_RESULT);
  }

  lemma HappenPush(xs: seq<System>, hs: seq<Happening>, n: nat, cfg: Config, r: UrlData)
    returns (xs': seq<System>, hs': seq<Happening>)
    requires |xs| > 0 && IsRun(xs, hs, n, cfg) && r in Last(xs).crawl.results - Last(xs).pushed
    ensures |xs'| > 0 && IsRun(xs', hs', n, cfg) && Last(xs').crawl == Last(xs).crawl
    ensures Last(xs').pushed == Last(xs).pushed + multiset{r}
    ensures KeysOf(Last(xs'), cfg) == K.After(KeysOf(Last(xs), cfg), K.Stamp(false), cfg.ttl, cfg.idle)
  {
    hide P.Enabled, P.Next, IsRun, K.KeysAfter, K.After;
    xs', hs' := Happen(xs, hs, n, cfg, Push(r));
    KeysMore(Last(xs), K.Stamp(false), cfg);
  }

  lemma BusyRun(n: nat, cfg: Config) returns (xs: seq<System>, hs: seq<Happening>)
    requires n >= 1
    ensures |xs| > 0 && IsRun(xs, hs, n, cfg) && JustStamped(Last(xs), cfg)
    ensures Quiet(Last(xs)) && Outstanding(Last(xs), BusyConsumer) && Last(xs).crawl.active.Some?
  {
    hide IsRun, KeysOf, K.After, K.KeysAfter;
    xs, hs := WaitingRun(n, cfg);
    StampAgain(KeysOf(Last(xs), cfg), true, cfg);
    xs, hs := HappenCrawl(xs, hs, n, cfg, P.By(0, P.Consume(SEED_RESULT)), true);
    assert !Last(xs).crawl.consumers[0].Idle?;
  }

  ghost predicate LongEnough(cfg: Config) {
    cfg.ttl == 0 || cfg.ttl >= 1000 * cfg.idle + 2
  }

  /** Time passes until the watchdog has waited just too long. */
  lemma WaitKeys(k: K.Keys, cfg: Config)
    requires k == K.Keys(Some(K.Entry("s", 999)), Some(K.Entry(1, 999)), Some(K.Entry(0, 999)), 999)
    requires LongEnough(cfg)
    ensures var k' := K.After(k, K.Tick(1000 * cfg.idle + 1), cfg.ttl, cfg.idle);
      && K.Live(k'.active, k'.clock, cfg.ttl) == Some("s") && K.Live(k'.maxDepth, k'.clock, cfg.ttl) == Some(1)
      && K.Fires(k', true, true, cfg.ttl, cfg.idle)
  {
    K.AfterFields(k, K.Tick(1000 * cfg.idle + 1), cfg.ttl, cfg.idle);
    hide K.After;
  }

  lemma WaitAndLook(xs0: seq<System>, hs0: seq<Happening>, n: nat, cfg: Config, work: Unseen)
    returns (xs: seq<System>, hs: seq<Happening>)
    requires IsRun(xs0, hs0, n, cfg) && JustStamped(Last(xs0), cfg) && LongEnough(cfg)
    requires Quiet(Last(xs0)) && Outstanding(Last(xs0), work) && Last(xs0).crawl.active.Some?
    ensures EndsWork(xs, hs, n, cfg, work)
  {
    hide K.KeysAfter, K.After, K.Fires, P.Init, P.Next;
    var x0 := Last(xs0);
    WaitKeys(KeysOf(x0, cfg), cfg);
    KeysMore(x0, K.Tick(1000 * cfg.idle + 1), cfg);
    xs, hs := Happen(xs0, hs0, n, cfg, Pass(1000 * cfg.idle + 1));
    var x1 := Last(xs);
    assert Quiet(x1) && Outstanding(x1, work) && x1.crawl.active.Some?;
    CleanupEnds(x1.crawl);
    xs, hs := Happen(xs, hs, n, cfg, Look(true));
  }

  /** When the watchdog fires, the lock has lived longer than the timeout. */
  lemma FiredLate(ops: seq<K.Op>, quiet: bool, cfg: Config)
    requires K.Fires(K.KeysAfter(ops, cfg.ttl, cfg.idle), quiet, true, cfg.ttl, cfg.idle)
    ensures LongEnough(cfg)
  {
    K.WatchdogFiresIff(ops, quiet, true, cfg.ttl, cfg.idle);
    K.KeysWrittenInOrder(ops, cfg.ttl, cfg.idle);
    hide K.KeysAfter, K.LastStamp, K.Fires;
  }

  lemma EndedLate(xs: seq<System>, hs: seq<Happening>, n: nat, cfg: Config, work: Unseen)
    requires EndsWork(xs, hs, n, cfg, work)
    ensures LongEnough(cfg)
  {
    hide K.KeysAfter, K.Fires, P.Init, Linked, P.Next, P.Enabled;
    var x := xs[|hs| - 1];
    assert Step(x, hs[|hs| - 1], xs[|hs|], cfg);
    LookStep(x, true, xs[|hs|], cfg);
    FiredLate(x.ops, Quiet(x), cfg);
  }

  /** The watchdog can end a job while a worker holds a task, while a result waits in a client, or
      while a consumer is busy with a result - each exactly if the keys outlive its timeout, in the
      deployment hours against five minutes. */
  lemma WorkCanBeEndedIff(n: nat, cfg: Config, work: Unseen)
    requires n >= 1
    ensures (exists xs, hs :: EndsWork(xs, hs, n, cfg, work)) <==> LongEnough(cfg)
  {
    hide EndsWork, IsRun, JustStamped, Quiet, Outstanding;
    if LongEnough(cfg) {
      var xs, hs;
      match work {
        case HeldTask => xs, hs := HeldRun(n, cfg);
        case WaitingResult => xs, hs := WaitingRun(n, cfg);
        case BusyConsumer => xs, hs := BusyRun(n, cfg);
      }
      xs, hs := WaitAndLook(xs, hs, n, cfg, work);
    }
    if xs, hs :| EndsWork(xs, hs, n, cfg, work) {
      EndedLate(xs, hs, n, cfg, work);
    }
  }
}
