/** The order in which a crawl goes about a page - delay, slot, verdict, request - in runs of any
    number of concurrent crawls over one politeness manager and one robots checker. */
module Fetching {
  import opened Models
  import opened Politeness
  import opened Sums
  import R = Robots

  /** A URL that can be parsed and normalised: the host it was parsed with, by which slots are
      reserved, the normalised URL, which is requested, and how the robots checker parses that. */
  datatype Page = Page(host: Host, url: Url, target: R.Target)

  datatype Stage = LookingUp | Reserving | Waiting | Asking | Requesting | Over

  /** A reserved slot, and which operation of the manager reserved it. */
  datatype Ticket = Ticket(op: nat, slot: int)

  /** One call of CrawlUrl and when it got how far. */
  datatype Call = Call(
    worker: nat,                            // by this caller of the robots checker
    page: Page,
    stage: Stage,
    since: nat,                             // answers of the checker before the latest question
    looked: Option<nat>,                    // the checker's answer about the delay
    delay: int,
    ticket: Option<Ticket>,
    returned: Option<int>,                  // Enforce returned without an error
    verdict: Option<nat>,                   // the checker's answer that the page may be fetched
    fetched: Option<int>)                   // the page was requested

  datatype State = State(calls: seq<Call>, ops: seq<Op>, clock: int, robots: R.State)

  /** What is fixed: the delay for hosts without one, when the sweeper forgets, and the rules. */
  datatype Config = Config(defaultDelay: int, maxAge: int, server: R.Server)

  datatype Event =
    | Begin(worker: nat, page: Page)
      // A step of the robots checker, by any of its callers.
    | Checker(e: R.Event)
      // Call i receives answer k of the checker: about the delay, or the verdict.
    | LookUp(i: nat, k: nat)
    | Ask(i: nat, k: nat)
    | Reserve(i: nat)
    | Return(i: nat)
    | Cancel(i: nat)
      // The request is sent, whether or not a page comes back; or it cannot even be built.
    | Request(i: nat)
    | GiveUp(i: nat)
    | Sweeping
    | Tick(ms: nat)

  function Start(n: nat): State {
    State([], [], 0, R.Start(n))
  }

  /** The delay to keep: the one robots.txt asks for, or the default if it asks for none or
      cannot be had. */
  function DelayFor(reply: R.Reply, defaultDelay: int): int {
    if reply.Delay? && reply.delay > 0 then reply.delay else defaultDelay
  }

  predicate AtStage(s: State, i: nat, stage: Stage) {
    i < |s.calls| && s.calls[i].stage == stage
  }

  /** No call of `worker` is under way. */
  ghost predicate Free(s: State, worker: nat) {
    forall c <- s.calls :: c.worker == worker ==> c.stage.Over?
  }

  /** Answer k was given to the worker of `c` for this question, after `c` had come to ask it. */
  ghost predicate Answers(s: State, c: Call, k: nat, q: R.Question) {
    && c.since <= k < |s.robots.answers|
    && s.robots.answers[k].i == c.worker
    && s.robots.answers[k].call == R.Call(q, c.page.target)
  }

  ghost predicate Enabled(s: State, e: Event, cfg: Config) {
    match e
    case Begin(worker, _) => Free(s, worker)
    case Checker(e) => R.Enabled(s.robots, e, cfg.server)
    case LookUp(i, k) => AtStage(s, i, LookingUp) && Answers(s, s.calls[i], k, R.CrawlDelay)
    case Ask(i, k) => AtStage(s, i, Asking) && Answers(s, s.calls[i], k, R.MayFetch)
    case Reserve(i) => AtStage(s, i, Reserving)
      // A wait ends no earlier than the reserved slot.
    case Return(i) => AtStage(s, i, Waiting) && s.calls[i].ticket.Some? && s.calls[i].ticket.value.slot <= s.clock
    case Cancel(i) => AtStage(s, i, Waiting)
    case Request(i) => AtStage(s, i, Requesting)
    case GiveUp(i) => AtStage(s, i, Requesting)
    case Sweeping => true
    case Tick(_) => true
  }

  /** The event is one of a call's own. */
  predicate Own(e: Event) {
    e.LookUp? || e.Ask? || e.Reserve? || e.Return? || e.Cancel? || e.Request? || e.GiveUp?
  }

  /** The call after an event of its own. */
  ghost function Moved(s: State, c: Call, e: Event, cfg: Config): Call
    requires Own(e) && (e.LookUp? || e.Ask? ==> e.k < |s.robots.answers|)
  {
    match e
    case LookUp(_, k) =>
      c.(stage := Reserving, looked := Some(k), delay := DelayFor(s.robots.answers[k].reply, cfg.defaultDelay))
    case Reserve(_) =>
      c.(stage := Waiting,
      ticket := Some(Ticket(|s.ops|, Slot(Cache(s.ops, cfg.maxAge, true), c.page.host, s.clock, c.delay))))
    case Return(_) => c.(stage := Asking, returned := Some(s.clock), since := |s.robots.answers|)
    case Ask(_, k) =>
      if s.robots.answers[k].reply == R.Verdict(true) then c.(stage := Requesting, verdict := Some(k))
      else c.(stage := Over)
    case Request(_) => c.(stage := Over, fetched := Some(s.clock))
    case GiveUp(_) => c.(stage := Over)
    case Cancel(_) => c.(stage := Over)
  }

  ghost function NewCall(s: State, worker: nat, page: Page): Call {
    Call(worker, page, LookingUp, |s.robots.answers|, None, 0, None, None, None, None)
  }

  ghost function Next(s: State, e: Event, cfg: Config): State
    requires Enabled(s, e, cfg)
  {
    if Own(e) then
      var c := s.calls[e.i];
      var s' := s.(calls := s.calls[e.i := Moved(s, c, e, cfg)]);
      if e.Reserve? then s'.(ops := s.ops + [Enforce(c.page.host, s.clock, c.delay)]) else s'
    else if e.Begin? then s.(calls := s.calls + [NewCall(s, e.worker, e.page)])
    else if e.Checker? then s.(robots := R.Next(s.robots, e.e, cfg.server))
    else if e.Sweeping? then s.(ops := s.ops + [Sweep(s.clock)])
    else s.(clock := s.clock + e.ms)
  }

  ghost predicate Step(s: State, e: Event, s': State, cfg: Config) {
    Enabled(s, e, cfg) && s' == Next(s, e, cfg)
  }

  ghost predicate IsRun(ss: seq<State>, es: seq<Event>, cfg: Config, n: nat) {
    && |ss| == |es| + 1
    && ss[0] == Start(n)
    && forall k | 0 <= k < |es| :: Step(ss[k], es[k], ss[k + 1], cfg)
  }

  lemma RunMore(ss: seq<State>, es: seq<Event>, e: Event, cfg: Config, n: nat)
    requires IsRun(ss, es, cfg, n) && Enabled(Last(ss), e, cfg)
    ensures IsRun(ss + [Next(Last(ss), e, cfg)], es + [e], cfg, n)
  {
    hide Next, Enabled;
    var ss', es' := ss + [Next(Last(ss), e, cfg)], es + [e];
    forall k | 0 <= k < |es'|
      ensures Step(ss'[k], es'[k], ss'[k + 1], cfg)
    {
      if k < |es| {
        assert Step(ss[k], es[k], ss[k + 1], cfg);
      }
    }
  }

  // ---- Every request has its own slot, and keeps to it

  /** `t` is the slot that the manager reserved for the host of `c`, with the delay of `c`. */
  ghost predicate Genuine(c: Call, t: Ticket, ops: seq<Op>, maxAge: int) {
    && t.op < |ops|
    && ops[t.op].Enforce? && ops[t.op].host == c.page.host && ops[t.op].delay == c.delay
    && t.slot == Slot(Cache(ops[..t.op], maxAge, true), c.page.host, ops[t.op].now, c.delay)
  }

  /** Answer k is the checker's reply to this question of the worker of `c`. */
  ghost predicate Replied(c: Call, k: nat, q: R.Question, answers: seq<R.Answer>) {
    k < |answers| && answers[k].i == c.worker && answers[k].call == R.Call(q, c.page.target)
  }

  ghost predicate Orderly(c: Call, s: State, cfg: Config) {
    && (c.looked.Some? ==>
          && Replied(c, c.looked.value, R.CrawlDelay, s.robots.answers)
          && c.delay == DelayFor(s.robots.answers[c.looked.value].reply, cfg.defaultDelay))
    && (c.ticket.Some? ==> c.looked.Some? && Genuine(c, c.ticket.value, s.ops, cfg.maxAge))
    && (c.stage.LookingUp? ==> c.looked.None? && c.ticket.None?)
    && (c.stage.Reserving? ==> c.looked.Some? && c.ticket.None?)
    && (c.stage.Waiting? ==> c.ticket.Some? && c.returned.None?)
    && (c.stage.Asking? ==> c.returned.Some? && c.verdict.None?)
    && (c.stage.Requesting? ==> c.verdict.Some? && c.fetched.None?)
    && (c.returned.Some? ==> c.ticket.Some? && c.ticket.value.slot <= c.returned.value <= s.clock)
    && (c.verdict.Some? ==>
          && c.returned.Some? && c.since <= c.verdict.value
          && Replied(c, c.verdict.value, R.MayFetch, s.robots.answers)
          && s.robots.answers[c.verdict.value].reply == R.Verdict(true))
    && (c.fetched.Some? ==>
          c.verdict.Some? && c.stage.Over? && c.returned.value <= c.fetched.value <= s.clock)
  }

  /** No step takes anything back. */
  ghost predicate Grows(s: State, s': State) {
    s.ops <= s'.ops && s.robots.answers <= s'.robots.answers && s.clock <= s'.clock
  }

  lemma CheckerGrows(s: R.State, e: R.Event, server: R.Server)
    requires R.Enabled(s, e, server)
    ensures s.answers <= R.Next(s, e, server).answers
  {
  }

  lemma StepGrows(s: State, e: Event, s': State, cfg: Config)
    requires Step(s, e, s', cfg)
    ensures Grows(s, s')
  {
    hide Moved, R.Next, R.Enabled, Free, Answers;
    if e.Checker? {
      CheckerGrows(s.robots, e.e, cfg.server);
    }
  }

  lemma OrderlyGrows(c: Call, s: State, s': State, cfg: Config)
    requires Orderly(c, s, cfg) && Grows(s, s')
    ensures Orderly(c, s', cfg)
  {
    if c.ticket.Some? {
      assert s'.ops[..c.ticket.value.op] == s.ops[..c.ticket.value.op];
    }
    hide Cache, Slot, DelayFor;
  }

  lemma OrderlyReserved(c: Call, s: State, s': State, e: Event, cfg: Config)
    requires Orderly(c, s, cfg) && e.Reserve? && c.stage.Reserving?
    requires s' == s.(calls := s'.calls, ops := s.ops + [Enforce(c.page.host, s.clock, c.delay)])
    ensures Orderly(Moved(s, c, e, cfg), s', cfg)
  {
    assert s'.ops[..|s.ops|] == s.ops;
    hide Cache, Slot, DelayFor;
  }

  lemma OrderlyMoved(c: Call, s: State, e: Event, cfg: Config)
    requires Orderly(c, s, cfg) && Own(e) && !e.Reserve?
    requires match e
      case LookUp(_, k) => c.stage.LookingUp? && Answers(s, c, k, R.CrawlDelay)
      case Ask(_, k) => c.stage.Asking? && Answers(s, c, k, R.MayFetch)
      case Return(_) => c.stage.Waiting? && c.ticket.Some? && c.ticket.value.slot <= s.clock
      case Cancel(_) => c.stage.Waiting?
      case _ => c.stage.Requesting?
    ensures Orderly(Moved(s, c, e, cfg), s, cfg)
  {
    hide Cache, Slot, DelayFor;
  }

  lemma OrderlyNew(s: State, worker: nat, page: Page, cfg: Config)
    ensures Orderly(NewCall(s, worker, page), s, cfg)
  {
  }

  ghost predicate AllOrderly(s: State, cfg: Config) {
    forall c <- s.calls :: Orderly(c, s, cfg)
  }

  /** The call that an event is about, afterwards. */
  lemma OwnOrderly(s: State, e: Event, s': State, cfg: Config)
    requires Step(s, e, s', cfg) && AllOrderly(s, cfg) && Own(e)
    ensures e.i < |s.calls| == |s'.calls| && Orderly(s'.calls[e.i], s', cfg)
    ensures s'.calls == s.calls[e.i := s'.calls[e.i]]
  {
    hide Orderly, Moved, Cache, Slot;
    var c := s.calls[e.i];
    StepGrows(s, e, s', cfg);
    if e.Reserve? {
      OrderlyReserved(c, s, s', e, cfg);
    } else {
      OrderlyMoved(c, s, e, cfg);
      OrderlyGrows(Moved(s, c, e, cfg), s, s', cfg);
    }
  }

  lemma OthersCalls(s: State, e: Event, s': State, cfg: Config)
    requires Step(s, e, s', cfg) && !Own(e)
    ensures s'.calls == if e.Begin? then s.calls + [NewCall(s, e.worker, e.page)] else s.calls
  {
    hide R.Next, R.Enabled;
  }

  lemma OrderlyStep(s: State, e: Event, s': State, cfg: Config)
    requires Step(s, e, s', cfg) && AllOrderly(s, cfg)
    ensures AllOrderly(s', cfg)
  {
    hide Enabled, Next, Orderly, NewCall;
    StepGrows(s, e, s', cfg);
    if Own(e) {
      OwnOrderly(s, e, s', cfg);
    } else {
      OthersCalls(s, e, s', cfg);
      if e.Begin? {
        OrderlyNew(s, e.worker, e.page, cfg);
      }
    }
    forall c | c in s'.calls
      ensures Orderly(c, s', cfg)
    {
      if c in s.calls {
        OrderlyGrows(c, s, s', cfg);
      } else if e.Begin? {
        OrderlyGrows(c, s, s', cfg);
      }
    }
  }

  ghost predicate Disjoint(c: Call, d: Call) {
    c.ticket.Some? && d.ticket.Some? ==> c.ticket.value.op != d.ticket.value.op
  }

  ghost predicate AllDisjoint(s: State) {
    forall i, j | 0 <= i < j < |s.calls| :: Disjoint(s.calls[i], s.calls[j])
  }

  /** A ticket that is already held is older than the next one. */
  lemma TicketsOld(s: State, cfg: Config)
    requires AllOrderly(s, cfg)
    ensures forall c <- s.calls :: c.ticket.Some? ==> c.ticket.value.op < |s.ops|
  {
    hide Cache, Slot, DelayFor;
    forall c | c in s.calls
      ensures c.ticket.Some? ==> c.ticket.value.op < |s.ops|
    {
      assert Orderly(c, s, cfg);
    }
  }

  lemma MovedTicket(s: State, c: Call, e: Event, cfg: Config)
    requires Own(e) && (e.LookUp? || e.Ask? ==> e.k < |s.robots.answers|)
    ensures var c' := Moved(s, c, e, cfg);
      && c'.page == c.page && c'.worker == c.worker
      && (if e.Reserve? then c'.ticket.Some? && c'.ticket.value.op == |s.ops| else c'.ticket == c.ticket)
  {
    hide Cache, Slot;
  }

  lemma DisjointStep(s: State, e: Event, s': State, cfg: Config)
    requires Step(s, e, s', cfg) && AllOrderly(s, cfg) && AllDisjoint(s)
    ensures AllDisjoint(s')
  {
    hide Orderly, Moved, AllOrderly, Free;
    TicketsOld(s, cfg);
    if Own(e) {
      MovedTicket(s, s.calls[e.i], e, cfg);
      OneMoved(s, e.i, s'.calls[e.i], s');
    } else {
      OthersCalls(s, e, s', cfg);
    }
    hide Next, Enabled;
  }

  lemma OneMoved(s: State, i: nat, c: Call, s': State)
    requires AllDisjoint(s) && i < |s.calls| && s'.calls == s.calls[i := c]
    requires forall d <- s.calls :: d.ticket.Some? ==> d.ticket.value.op < |s.ops|
    requires c.ticket == s.calls[i].ticket || (c.ticket.Some? && c.ticket.value.op == |s.ops|)
    ensures AllDisjoint(s')
  {
  }

  lemma {:induction false} RunDisciplined(ss: seq<State>, es: seq<Event>, cfg: Config, n: nat, k: nat)
    requires IsRun(ss, es, cfg, n) && k < |ss|
    ensures AllOrderly(ss[k], cfg) && AllDisjoint(ss[k])
  {
    if k > 0 {
      hide Step, AllOrderly, AllDisjoint;
      RunDisciplined(ss, es, cfg, n, k - 1);
      assert Step(ss[k - 1], es[k - 1], ss[k], cfg);
      OrderlyStep(ss[k - 1], es[k - 1], ss[k], cfg);
      DisjointStep(ss[k - 1], es[k - 1], ss[k], cfg);
    } else {
      hide Step;
    }
  }

  /** In every run of concurrent crawls, each page request comes after a true verdict that the
      robots checker gave to this call's worker once the wait was over, and no earlier than a slot
      that was reserved for the host of the page with the delay that the checker had answered, or
      the default if it had answered none; and no other call has that slot. */
  lemma FetchDiscipline(ss: seq<State>, es: seq<Event>, cfg: Config, n: nat, k: nat, i: nat)
    requires IsRun(ss, es, cfg, n) && k < |ss| && i < |ss[k].calls| && ss[k].calls[i].fetched.Some?
    ensures var s, c := ss[k], ss[k].calls[i];
      && c.verdict.Some? && c.since <= c.verdict.value < |s.robots.answers|
      && s.robots.answers[c.verdict.value] == R.Answer(c.worker, R.Call(R.MayFetch, c.page.target), R.Verdict(true))
      && c.looked.Some? && Replied(c, c.looked.value, R.CrawlDelay, s.robots.answers)
      && (var r := s.robots.answers[c.looked.value].reply;
          c.delay == if r.Delay? && r.delay > 0 then r.delay else cfg.defaultDelay)
      && c.ticket.Some? && Genuine(c, c.ticket.value, s.ops, cfg.maxAge)
      && c.returned.Some? && c.ticket.value.slot <= c.returned.value <= c.fetched.value
      && forall j | 0 <= j < |s.calls| && j != i && s.calls[j].ticket.Some? ::
           s.calls[j].ticket.value.op != c.ticket.value.op
  {
    hide Step, Genuine;
    RunDisciplined(ss, es, cfg, n, k);
    var s, c := ss[k], ss[k].calls[i];
    assert Orderly(c, s, cfg);
    forall j | 0 <= j < |s.calls| && j != i
      ensures Disjoint(s.calls[j], c)
    {
      assert if i < j then Disjoint(c, s.calls[j]) else Disjoint(s.calls[j], c);
    }
  }

  // ---- Only what the rules allow

  lemma {:induction false} RunRobots(ss: seq<State>, es: seq<Event>, cfg: Config, n: nat, k: nat, d: int)
    requires IsRun(ss, es, cfg, n) && k < |ss|
    ensures R.HostOnly(cfg.server) ==> R.Sound(ss[k].robots, cfg.server)
    ensures R.ServerFloor(cfg.server, d) ==> R.Floored(ss[k].robots, d)
  {
    hide R.Enabled, R.Next, R.Sound, R.Floored, R.HostOnly, R.ServerFloor, Moved, Answers, Free;
    if k > 0 {
      RunRobots(ss, es, cfg, n, k - 1, d);
      var s, e := ss[k - 1], es[k - 1];
      assert Step(s, e, ss[k], cfg);
      if e.Checker? {
        if R.HostOnly(cfg.server) {
          R.SoundStep(s.robots, e.e, cfg.server);
        }
        if R.ServerFloor(cfg.server, d) {
          R.FlooredStep(s.robots, e.e, cfg.server, d);
        }
      }
    } else {
      hide Step;
      RobotsStart(n, cfg.server, d);
    }
  }

  lemma RobotsStart(n: nat, server: R.Server, d: int)
    ensures R.Sound(R.Start(n), server) && R.Floored(R.Start(n), d)
  {
  }

  /** What the server's rules say about a page, however they are fetched. */
  ghost function Ruling(c: Call, q: R.Question, cfg: Config): R.Reply {
    R.Uncached(cfg.server, R.Call(q, c.page.target))
  }

  /** If rules depend on the host alone, every page that is requested is one that the rules of its
      host allow, and the delay kept is the one they ask for, or the default. */
  lemma FetchAllowed(ss: seq<State>, es: seq<Event>, cfg: Config, n: nat, k: nat, i: nat)
    requires IsRun(ss, es, cfg, n) && k < |ss| && i < |ss[k].calls| && ss[k].calls[i].fetched.Some?
    requires R.HostOnly(cfg.server)
    ensures var c := ss[k].calls[i];
      && Ruling(c, R.MayFetch, cfg) == R.Verdict(true) && R.Allows(cfg.server, c.page.target)
      && (c.delay == cfg.defaultDelay || c.delay == DelayFor(Ruling(c, R.CrawlDelay, cfg), cfg.defaultDelay))
      && var t := c.page.target;
      && (c.delay == cfg.defaultDelay
          || (R.AsksDelay(cfg.server, t) && c.delay == cfg.server(t.scheme, t.host).value.crawlDelay))
  {
    hide IsRun, Genuine, R.HostOnly, R.CacheSound, R.CallerSound, R.Uncached;
    FetchDiscipline(ss, es, cfg, n, k, i);
    RunRobots(ss, es, cfg, n, k, 0);
    var s, c := ss[k], ss[k].calls[i];
    assert s.robots.answers[c.verdict.value] in s.robots.answers;
    assert s.robots.answers[c.looked.value] in s.robots.answers;
    R.UncachedFollows(cfg.server, R.Call(R.MayFetch, c.page.target));
    R.UncachedFollows(cfg.server, R.Call(R.CrawlDelay, c.page.target));
  }

  // ---- No more returns and no more requests than slots

  ghost predicate HasSlotBy(c: Call, h: Host, t: int) {
    c.page.host == h && c.ticket.Some? && c.ticket.value.slot <= t
  }

  /** Calls for host `h` that hold a slot at or before time `t`. */
  ghost function SlotsBy(h: Host, t: int): Call -> nat {
    (c: Call) => if HasSlotBy(c, h, t) then 1 else 0
  }

  /** Calls for host `h` whose Enforce has returned by time `t`. */
  ghost function ReturnsBy(h: Host, t: int): Call -> nat {
    (c: Call) => if c.page.host == h && c.returned.Some? && c.returned.value <= t then 1 else 0
  }

  /** Calls that have requested a page of host `h` by time `t`. */
  ghost function FetchesBy(h: Host, t: int): Call -> nat {
    (c: Call) => if c.page.host == h && c.fetched.Some? && c.fetched.value <= t then 1 else 0
  }

  ghost predicate NoMoreThanSlots(s: State, cfg: Config, h: Host, t: int) {
    SumSeq(s.calls, SlotsBy(h, t)) <= InWindow(SlotsOf(s.ops, h, cfg.maxAge, true), 0, t)
  }

  /** The clock starts at 0 and does not go backwards. */
  ghost predicate Timely(s: State) {
    s.clock >= 0 && Clocked(s.ops) && forall op <- s.ops :: 0 <= op.now <= s.clock
  }

  lemma OpsStep(s: State, e: Event, s': State, cfg: Config)
    requires Step(s, e, s', cfg)
    ensures s'.ops == s.ops
         || (e.Sweeping? && s'.ops == s.ops + [Sweep(s.clock)])
         || (e.Reserve? && s'.ops == s.ops + [Enforce(s.calls[e.i].page.host, s.clock, s.calls[e.i].delay)])
  {
    hide Moved, R.Next, R.Enabled;
  }

  lemma TimelyStep(s: State, e: Event, s': State, cfg: Config)
    requires Step(s, e, s', cfg) && Timely(s)
    ensures Timely(s')
  {
    hide Next, Enabled;
    OpsStep(s, e, s', cfg);
    StepGrows(s, e, s', cfg);
  }

  /** An event of a call other than a reservation leaves its slot alone. */
  lemma SlotKept(s: State, e: Event, s': State, cfg: Config, h: Host, t: int)
    requires Step(s, e, s', cfg) && Own(e) && !e.Reserve?
    ensures s'.ops == s.ops
    ensures SumSeq(s'.calls, SlotsBy(h, t)) == SumSeq(s.calls, SlotsBy(h, t))
  {
    hide Moved, SumSeq;
    MovedTicket(s, s.calls[e.i], e, cfg);
    SumSeqUpdate(s.calls, SlotsBy(h, t), e.i, s'.calls[e.i]);
  }

  lemma WindowMore(x: seq<int>, slot: int, a: int, b: int)
    ensures InWindow(x + [slot], a, b) == InWindow(x, a, b) + if a <= slot <= b then 1 else 0
  {
    assert (x + [slot])[..|x|] == x;
  }

  lemma SlotTaken(s: State, i: nat, s': State, cfg: Config, h: Host, t: int)
    requires Step(s, Reserve(i), s', cfg) && s.clock >= 0 && s.calls[i].ticket.None?
    requires NoMoreThanSlots(s, cfg, h, t)
    ensures NoMoreThanSlots(s', cfg, h, t)
  {
    hide Cache, Slot, SlotsOf, SumSeq, InWindow;
    var c, c' := s.calls[i], s'.calls[i];
    var slots := SlotsOf(s.ops, h, cfg.maxAge, true);
    SumSeqUpdate(s.calls, SlotsBy(h, t), i, c');
    Snoc(s.ops, Enforce(c.page.host, s.clock, c.delay), h, cfg.maxAge, true);
    if c.page.host == h {
      WindowMore(slots, c'.ticket.value.slot, 0, t);
      SlotNotBefore(Cache(s.ops, cfg.maxAge, true), h, s.clock, c.delay);
    } else {
      assert slots + [] == slots;
    }
  }

  lemma SlotNotBefore(m: map<Host, int>, h: Host, now: int, delay: int)
    ensures Slot(m, h, now, delay) >= now
  {
  }

  lemma SlotsStep(s: State, e: Event, s': State, cfg: Config, h: Host, t: int)
    requires Step(s, e, s', cfg) && s.clock >= 0 && NoMoreThanSlots(s, cfg, h, t)
    requires e.Reserve? ==> s.calls[e.i].ticket.None?
    ensures NoMoreThanSlots(s', cfg, h, t)
  {
    hide SumSeq, SlotsOf, InWindow, Moved, SlotsBy, R.Next, R.Enabled, Free, Answers;
    if e.Reserve? {
      SlotTaken(s, e.i, s', cfg, h, t);
    } else if Own(e) {
      SlotKept(s, e, s', cfg, h, t);
    } else if e.Begin? {
      SumSeqMore(s.calls, SlotsBy(h, t), NewCall(s, e.worker, e.page));
      NoSlotYet(s, e.worker, e.page, h, t);
    } else if e.Sweeping? {
      Snoc(s.ops, Sweep(s.clock), h, cfg.maxAge, true);
      assert SlotsOf(s.ops, h, cfg.maxAge, true) + [] == SlotsOf(s.ops, h, cfg.maxAge, true);
    }
  }

  lemma NoSlotYet(s: State, worker: nat, page: Page, h: Host, t: int)
    ensures SlotsBy(h, t)(NewCall(s, worker, page)) == 0
  {
  }

  /** Neither the rules of any host nor the default ask for a delay below `d`. */
  ghost predicate DelayFloor(cfg: Config, d: int) {
    cfg.defaultDelay >= d && R.ServerFloor(cfg.server, d)
  }

  ghost predicate Patient(s: State, d: int) {
    && DelaysFrom(s.ops, d)
    && forall c <- s.calls :: c.looked.Some? ==> c.delay >= d
  }

  lemma PatientCalls(s: State, cfg: Config, d: int)
    requires AllOrderly(s, cfg) && R.Floored(s.robots, d) && cfg.defaultDelay >= d
    ensures forall c <- s.calls :: c.looked.Some? ==> c.delay >= d
  {
    hide Genuine, R.NoDelayBelow;
    forall c | c in s.calls && c.looked.Some?
      ensures c.delay >= d
    {
      assert Orderly(c, s, cfg);
      assert s.robots.answers[c.looked.value] in s.robots.answers;
    }
  }

  lemma {:induction false} RunPatient(ss: seq<State>, es: seq<Event>, cfg: Config, n: nat, k: nat, d: int)
    requires IsRun(ss, es, cfg, n) && k < |ss| && DelayFloor(cfg, d)
    ensures Timely(ss[k]) && Patient(ss[k], d)
  {
    hide Step, Timely, AllOrderly, R.ServerFloor, R.Floored, R.HostOnly, R.Sound;
    RunDisciplined(ss, es, cfg, n, k);
    RunRobots(ss, es, cfg, n, k, d);
    PatientCalls(ss[k], cfg, d);
    if k > 0 {
      RunPatient(ss, es, cfg, n, k - 1, d);
      var s, e := ss[k - 1], es[k - 1];
      assert Step(s, e, ss[k], cfg);
      TimelyStep(s, e, ss[k], cfg);
      ReservesPatiently(ss, es, cfg, n, k, d);
    } else {
      TimelyAtStart(n);
    }
  }

  lemma TimelyAtStart(n: nat)
    ensures Timely(Start(n))
  {
  }

  lemma ReservesPatiently(ss: seq<State>, es: seq<Event>, cfg: Config, n: nat, k: nat, d: int)
    requires IsRun(ss, es, cfg, n) && 0 < k < |ss| && Patient(ss[k - 1], d)
    ensures DelaysFrom(ss[k].ops, d)
  {
    hide Next, R.Next, R.Enabled, Free, Answers;
    var s, e := ss[k - 1], es[k - 1];
    assert Step(s, e, ss[k], cfg);
    OpsStep(s, e, ss[k], cfg);
    if e.Reserve? {
      RunDisciplined(ss, es, cfg, n, k - 1);
      ReservingLooked(s, e.i, cfg);
      assert s.calls[e.i] in s.calls;
    }
    hide AllOrderly, Step;
  }

  lemma ReservingLooked(s: State, i: nat, cfg: Config)
    requires AllOrderly(s, cfg) && AtStage(s, i, Reserving)
    ensures s.calls[i].looked.Some? && s.calls[i].ticket.None?
  {
    hide Genuine, DelayFor;
    assert s.calls[i] in s.calls;
  }

  lemma {:induction false} RunSlots(ss: seq<State>, es: seq<Event>, cfg: Config, n: nat, k: nat, h: Host, t: int)
    requires IsRun(ss, es, cfg, n) && k < |ss|
    ensures Timely(ss[k]) && NoMoreThanSlots(ss[k], cfg, h, t)
  {
    if k > 0 {
      hide Next, NoMoreThanSlots, AllOrderly, R.Next, R.Enabled, Free, Answers;
      var s, e := ss[k - 1], es[k - 1];
      RunSlots(ss, es, cfg, n, k - 1, h, t);
      assert Step(s, e, ss[k], cfg);
      TimelyStep(s, e, ss[k], cfg);
      RunDisciplined(ss, es, cfg, n, k - 1);
      if e.Reserve? {
        ReservingLooked(s, e.i, cfg);
      }
      SlotsStep(s, e, ss[k], cfg, h, t);
    } else {
      hide Step;
    }
  }

  /** By time `t`, a host has had no more page requests than returns of Enforce, no more of those
      than slots at or before `t`, and no more slots than one per shortest delay that rules or
      default ask for - or per age at which the sweeper forgets, if that is less - plus one.
      Cancelled waits only waste slots. */
  lemma RequestsBounded(ss: seq<State>, es: seq<Event>, cfg: Config, n: nat, k: nat, h: Host, t: nat, d: int)
    requires IsRun(ss, es, cfg, n) && k < |ss| && DelayFloor(cfg, d) && Min(d, cfg.maxAge + 1) > 0
    ensures var s, slots := ss[k], InWindow(SlotsOf(ss[k].ops, h, cfg.maxAge, true), 0, t);
      && SumSeq(s.calls, FetchesBy(h, t)) <= SumSeq(s.calls, ReturnsBy(h, t)) <= slots
      && slots <= t / Min(d, cfg.maxAge + 1) + 1
  {
    hide SlotsOf, InWindow, SumSeq, Step, DelayFloor, AllOrderly, AllDisjoint;
    var s := ss[k];
    RunDisciplined(ss, es, cfg, n, k);
    RunPatient(ss, es, cfg, n, k, d);
    RunSlots(ss, es, cfg, n, k, h, t);
    RateBound(s.ops, h, cfg.maxAge, d, 0, t);
    CountsOrdered(s, cfg, h, t);
    hide Min;
  }

  lemma CountsOrdered(s: State, cfg: Config, h: Host, t: int)
    requires AllOrderly(s, cfg)
    ensures SumSeq(s.calls, FetchesBy(h, t)) <= SumSeq(s.calls, ReturnsBy(h, t)) <= SumSeq(s.calls, SlotsBy(h, t))
  {
    hide Genuine, SumSeq, DelayFor;
    forall c <- s.calls
      ensures FetchesBy(h, t)(c) <= ReturnsBy(h, t)(c) <= SlotsBy(h, t)(c)
    {
      assert Orderly(c, s, cfg);
    }
    SumSeqBelow(s.calls, FetchesBy(h, t), ReturnsBy(h, t));
    SumSeqBelow(s.calls, ReturnsBy(h, t), SlotsBy(h, t));
  }
}
