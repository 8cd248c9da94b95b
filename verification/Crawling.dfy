/** The program text of one crawl: the politeness manager and the robots checker around a page
    request, and the links taken from the page.  Every step is recorded, and each crawl is proved
    to be part of a run of concurrent crawls as in module Fetching. */
module Crawling {
  import opened Models
  import P = Politeness
  import Robots
  import opened Fetching
  import Sums

  /** An anchor of the page: its href attribute, if it has one. */
  type Anchor = Option<string>

  /** Parses an href, resolves it against the page and normalises it, or fails at one of these. */
  type Resolver = string -> Option<Url>

  function LinkOf(resolve: Resolver, a: Anchor): seq<Url> {
    if a.None? then []
    else match resolve(a.value)
         case None => []
         case Some(url) => [url]
  }

  /** The links of a page: its anchors, in order, without those that give no link. */
  function LinksOf(resolve: Resolver, anchors: seq<Anchor>): seq<Url> {
    if anchors == [] then []
    else LinksOf(resolve, anchors[..|anchors| - 1]) + LinkOf(resolve, anchors[|anchors| - 1])
  }

  /** Exactly the anchors that resolve become links. */
  lemma {:induction false} LinksComplete(resolve: Resolver, anchors: seq<Anchor>, url: Url)
    ensures url in LinksOf(resolve, anchors) <==>
            exists i :: 0 <= i < |anchors| && anchors[i].Some? && resolve(anchors[i].value) == Some(url)
  {
    if anchors != [] {
      var before, last := anchors[..|anchors| - 1], anchors[|anchors| - 1];
      LinksComplete(resolve, before, url);
      if url in LinkOf(resolve, last) {
        assert anchors[|anchors| - 1].Some? && resolve(anchors[|anchors| - 1].value) == Some(url);
      }
    }
  }

  /** Link j is what anchor at[j] resolves to, the anchors are in order, and none is left out that
      resolves. */
  ghost predicate InOrder(resolve: Resolver, anchors: seq<Anchor>, links: seq<Url>, at: seq<nat>) {
    && |at| == |links|
    && (forall j, k | 0 <= j < k < |at| :: at[j] < at[k])
    && (forall j | 0 <= j < |at| ::
          at[j] < |anchors| && anchors[at[j]].Some? && resolve(anchors[at[j]].value) == Some(links[j]))
    && (forall i | 0 <= i < |anchors| && anchors[i].Some? && resolve(anchors[i].value).Some? :: i in at)
  }

  lemma InOrderMore(resolve: Resolver, anchors: seq<Anchor>, links: seq<Url>, at: seq<nat>, a: Anchor)
    requires InOrder(resolve, anchors, links, at)
    ensures a.Some? && resolve(a.value).Some? ==>
      InOrder(resolve, anchors + [a], links + [resolve(a.value).value], at + [|anchors|])
    ensures a.None? || resolve(a.value).None? ==> InOrder(resolve, anchors + [a], links, at)
  {
    var anchors' := anchors + [a];
    var resolves := a.Some? && resolve(a.value).Some?;
    var at' := if resolves then at + [|anchors|] else at;
    forall i | 0 <= i < |anchors'| && anchors'[i].Some? && resolve(anchors'[i].value).Some?
      ensures i in at'
    {
      if i < |anchors| {
        assert i in at;
      } else {
        assert at'[|at|] == i;
      }
    }
  }

  /** The links come in the order of the anchors. */
  lemma {:induction false} LinksInOrder(resolve: Resolver, anchors: seq<Anchor>) returns (at: seq<nat>)
    ensures InOrder(resolve, anchors, LinksOf(resolve, anchors), at)
  {
    at := [];
    if anchors != [] {
      var before, last := anchors[..|anchors| - 1], anchors[|anchors| - 1];
      assert before + [last] == anchors;
      at := LinksInOrder(resolve, before);
      InOrderMore(resolve, before, LinksOf(resolve, before), at, last);
      hide InOrder;
      if last.Some? && resolve(last.value).Some? {
        at := at + [|before|];
      } else {
        assert LinksOf(resolve, anchors) == LinksOf(resolve, before);
      }
    }
  }

  lemma LastReserved(before: seq<P.Op>, host: P.Host, now: int, delay: int, maxAge: int, slot: int)
    requires P.SlotsOf(before + [P.Enforce(host, now, delay)], host, maxAge, true)
             == P.SlotsOf(before, host, maxAge, true) + [slot]
    ensures slot == P.Slot(P.Cache(before, maxAge, true), host, now, delay)
  {
    hide P.Cache, P.Slot, P.SlotsOf;
    var slots := P.SlotsOf(before, host, maxAge, true);
    P.Snoc(before, P.Enforce(host, now, delay), host, maxAge, true);
    assert (slots + [slot])[|slots|] == slot;
  }

  datatype Outcome =
    | Crawled(data: UrlData)
    | Disallowed(url: Url)
    | Error

  /** What the outside world contributes to one crawl. */
  datatype Surroundings = Surroundings(
    delayResp: Robots.Response,             // to the request for robots.txt, if the delay needs one
    verdictResp: Robots.Response,           // ... if the verdict needs one
    late: nat,                              // from the slot to the end of the wait
    built: bool,                            // the page request can be built
    page: Option<seq<Anchor>>)              // the page, unless the request or reading it fails

  class Crawler {
    const robotCheck: Robots.RobotChecker
    const politeness: P.PolitenessManager
    const defaultDelay: int
    // url.Parse, twice: for the host of a task's URL, and inside the robots checker
    const hostOf: Url -> Option<P.Host>
    const targetOf: Url -> Robots.Target
    const normalize: Url -> Option<Url>
    var clock: int
    // The run of concurrent crawls performed so far
    ghost var states: seq<State>
    ghost var events: seq<Event>

    ghost function Cfg(): Config {
      Config(defaultDelay, politeness.maxAge, robotCheck.server)
    }

    ghost predicate Recorded()
      reads this
    {
      |states| > 0 && IsRun(states, events, Cfg(), |states[0].robots.callers|)
    }

    ghost function Model(): State
      reads this
      requires Recorded()
    {
      Last(states)
    }

    /** The clock, the manager's history and the checker's run are those of the recorded run. */
    ghost predicate Valid()
      reads this, robotCheck, politeness
    {
      && robotCheck.Valid() && politeness.Valid() && Recorded()
      && Model().clock == clock
      && Model().ops == politeness.history
      && Model().robots == robotCheck.Model()
    }

    twostate predicate Continued()
      reads this
    {
      old(states) <= states && old(events) <= events
    }

    /** Call `id` stands at `c`; its worker is not in the middle of a question and has no other
        call under way. */
    ghost predicate At(id: nat, c: Call)
      reads this, robotCheck
      requires Recorded() && robotCheck.Recorded()
    {
      && id < |Model().calls| && Model().calls[id] == c
      && robotCheck.Standing(c.worker, Robots.Idle)
      && forall j | 0 <= j < |Model().calls| && j != id && Model().calls[j].worker == c.worker ::
           Model().calls[j].stage.Over?
    }

    constructor (robotCheck: Robots.RobotChecker, politeness: P.PolitenessManager, defaultDelay: int,
                 hostOf: Url -> Option<P.Host>, targetOf: Url -> Robots.Target, normalize: Url -> Option<Url>)
      requires robotCheck.Valid() && politeness.Valid()
      requires robotCheck.Model() == Robots.Start(|robotCheck.Model().callers|) && politeness.history == []
      ensures Valid() && this.robotCheck == robotCheck && this.politeness == politeness
      ensures Model() == Start(|robotCheck.Model().callers|) && events == []
    {
      this.robotCheck, this.politeness, this.defaultDelay := robotCheck, politeness, defaultDelay;
      this.hostOf, this.targetOf, this.normalize := hostOf, targetOf, normalize;
      clock := 0;
      states, events := [Start(|robotCheck.Model().callers|)], [];
    }

    ghost method Record(e: Event)
      requires Recorded() && Enabled(Model(), e, Cfg())
      modifies this`states, this`events
      ensures Recorded() && Model() == Next(old(Model()), e, Cfg())
      ensures states == old(states) + [Model()] && events == old(events) + [e]
    {
      hide Next, Enabled, Step;
      RunMore(states, events, e, Cfg(), |states[0].robots.callers|);
      states, events := states + [Next(Model(), e, Cfg())], events + [e];
    }

    /** Everything that the checker has done since its state `from` is recorded. */
    ghost method FollowChecker(from: nat)
      requires Recorded() && robotCheck.Recorded()
      requires from < |robotCheck.states| && Model().robots == robotCheck.states[from]
      modifies this`states, this`events
      ensures Recorded() && Continued()
      ensures Model() == old(Model()).(robots := robotCheck.Model())
    {
      hide Robots.Next, Robots.Enabled, IsRun, Free;
      var k := from;
      while k < |robotCheck.events|
        invariant from <= k <= |robotCheck.events| && Recorded() && Continued()
        invariant Model() == old(Model()).(robots := robotCheck.states[k])
      {
        Record(Checker(robotCheck.events[k]));
        k := k + 1;
      }
    }

    /** Time passes. */
    method Wait(ms: nat)
      requires Valid()
      modifies this
      ensures Valid() && Continued() && clock == old(clock) + ms
      ensures Model() == old(Model()).(clock := clock)
    {
      hide IsRun;
      clock := clock + ms;
      Record(Tick(ms));
    }

    /** Whatever other crawls may do meanwhile.  Callers rely on the contract alone. */
    method OtherCrawls(ghost id: nat, ghost c: Call)
      requires Valid() && At(id, c)
      modifies this, robotCheck, politeness
      ensures Valid() && Continued() && At(id, c)
      ensures clock >= old(clock) && robotCheck.Given() >= old(robotCheck.Given())
    {
    }

    /** The cleaner's tick: hosts whose last slot is more than `maxAge` old are forgotten. */
    method SweepHosts() returns (evictedCount: nat)
      requires Valid()
      modifies this, politeness
      ensures Valid() && Continued() && events == old(events) + [Sweeping] && clock == old(clock)
      ensures forall h :: h in politeness.lastScrapeTime <==>
        h in old(politeness.lastScrapeTime) && clock - old(politeness.lastScrapeTime)[h] <= politeness.maxAge
      ensures evictedCount == |old(politeness.lastScrapeTime)| - |politeness.lastScrapeTime|
    {
      hide IsRun, Robots.IsRun, Free;
      evictedCount := politeness.Clean(clock);
      Record(Sweeping);
    }

    /** A crawl begins. */
    method BeginCrawl(worker: nat, page: Page) returns (ghost id: nat)
      requires Valid() && robotCheck.Standing(worker, Robots.Idle) && Free(Model(), worker)
      modifies this
      ensures Valid() && Continued() && id == |old(Model()).calls|
      ensures At(id, NewCall(Model(), worker, page))
    {
      hide IsRun;
      id := |Model().calls|;
      Record(Begin(worker, page));
    }

    /** A successful request for robots.txt finds the server's rules. */
    ghost predicate Honest(t: Robots.Target, resp: Robots.Response) {
      Robots.Proper(t) && Robots.Interpret(resp).Rules? ==>
        Robots.Interpret(resp).group == robotCheck.server(t.scheme, t.host)
    }

    /** The delay before the next request: the host's own, or the default. */
    method LookUpDelay(ghost id: nat, ghost c: Call, target: Robots.Target, worker: nat, resp: Robots.Response)
      returns (delay: int)
      requires Valid() && At(id, c) && Honest(target, resp)
      requires c.stage.LookingUp? && c.worker == worker && c.page.target == target
      requires c.since <= robotCheck.Given()
      modifies this, robotCheck
      ensures Valid() && Continued() && clock == old(clock)
      ensures exists k :: At(id, c.(stage := Reserving, looked := Some(k), delay := delay))
      ensures Robots.HostOnly(robotCheck.server) ==> KeepsDelay(c.page, delay, resp)
    {
      hide IsRun, Robots.IsRun, Robots.HostOnly, Robots.Uncached, Robots.Next, Robots.Interpret, Free;
      ghost var from := |robotCheck.states| - 1;
      var reply := robotCheck.GetCrawlDelay(worker, target, resp);
      FollowChecker(from);
      delay := DelayFor(reply, defaultDelay);
      ghost var k := |Model().robots.answers| - 1;
      Record(LookUp(id, k));
      assert At(id, c.(stage := Reserving, looked := Some(k), delay := delay));
    }

    /** Reserves a slot: the lock is held throughout. */
    method ReserveSlot(ghost id: nat, ghost c: Call, host: P.Host, delay: int)
      returns (slot: int, ghost t: Ticket)
      requires Valid() && At(id, c) && c.stage.Reserving? && c.page.host == host && c.delay == delay
      modifies this`states, this`events, politeness
      ensures Valid() && Continued() && t.slot == slot
      ensures At(id, c.(stage := Waiting, ticket := Some(t)))
    {
      hide IsRun, Robots.IsRun, P.Cache, P.SlotsOf, P.Slot, Free;
      ghost var before := politeness.history;
      var waitDuration := politeness.Enforce(host, delay, clock);
      slot := clock + waitDuration;
      t := Ticket(|before|, slot);
      LastReserved(before, host, clock, delay, politeness.maxAge, slot);
      Record(Reserve(id));
    }

    /** The wait is over. */
    method EndWait(ghost id: nat, ghost c: Call)
      requires Valid() && At(id, c) && c.stage.Waiting? && c.ticket.Some? && c.ticket.value.slot <= clock
      modifies this`states, this`events
      ensures Valid() && Continued()
      ensures At(id, c.(stage := Asking, returned := Some(clock), since := robotCheck.Given()))
    {
      hide IsRun, Robots.IsRun, Free;
      Record(Return(id));
    }

    /** Reserves a slot and waits for it. */
    method WaitForSlot(ghost id: nat, ghost c: Call, host: P.Host, delay: int, late: nat)
      requires Valid() && At(id, c) && c.stage.Reserving? && c.page.host == host && c.delay == delay
      modifies this, robotCheck, politeness
      ensures Valid() && Continued()
      ensures exists t ::
        At(id, c.(stage := Asking, ticket := Some(t), returned := Some(clock), since := robotCheck.Given()))
    {
      hide IsRun, Robots.IsRun, P.Cache, P.SlotsOf, P.Slot, Free;
      var slot;
      ghost var t;
      slot, t := ReserveSlot(id, c, host, delay);
      ghost var waiting := c.(stage := Waiting, ticket := Some(t));
      OtherCrawls(id, waiting);
      Wait(late + if clock < slot then slot - clock else 0);
      EndWait(id, waiting);
      assert At(id, c.(stage := Asking, ticket := Some(t), returned := Some(clock), since := robotCheck.Given()));
    }

    /** A call that has received answer k, `verdict`. */
    ghost function Judged(c: Call, verdict: Robots.Reply, k: nat): Call {
      if verdict == Robots.Verdict(true) then c.(stage := Requesting, verdict := Some(k)) else c.(stage := Over)
    }

    /** Asks whether the page may be requested. */
    method AskVerdict(ghost id: nat, ghost c: Call, target: Robots.Target, worker: nat, resp: Robots.Response)
      returns (verdict: Robots.Reply)
      requires Valid() && At(id, c) && Honest(target, resp)
      requires c.stage.Asking? && c.worker == worker && c.page.target == target
      requires c.since <= robotCheck.Given()
      modifies this, robotCheck
      ensures Valid() && Continued() && clock == old(clock)
      ensures exists k :: At(id, Judged(c, verdict, k))
      ensures Robots.HostOnly(robotCheck.server) && !verdict.Error? ==> verdict == Robots.Verdict(MayFetch(c.page))
      ensures verdict.Error? ==> !Robots.Proper(target) || Robots.Interpret(resp).Failed?
    {
      hide IsRun, Robots.IsRun, Robots.HostOnly, Robots.Uncached, Robots.Next, Robots.Interpret, Free;
      ghost var from := |robotCheck.states| - 1;
      verdict := robotCheck.IsAllowed(worker, target, resp);
      FollowChecker(from);
      ghost var k := |Model().robots.answers| - 1;
      Record(Ask(id, k));
      assert At(id, Judged(c, verdict, k));
    }

    /** Sends the request for the page, if it can be built. */
    method SendRequest(ghost id: nat, ghost c: Call, built: bool)
      requires Valid() && At(id, c) && c.stage.Requesting?
      modifies this
      ensures Valid() && Continued() && clock == old(clock)
      ensures At(id, c.(stage := Over, fetched := if built then Some(clock) else c.fetched))
    {
      hide IsRun, Free;
      if built {
        Record(Request(id));
      } else {
        Record(GiveUp(id));
      }
    }

    /** The links of the page, accumulated anchor by anchor. */
    method CollectLinks(resolve: Resolver, anchors: seq<Anchor>) returns (nextUrls: seq<Url>)
      ensures nextUrls == LinksOf(resolve, anchors)
    {
      nextUrls := [];
      for k := 0 to |anchors|
        invariant nextUrls == LinksOf(resolve, anchors[..k])
      {
        assert anchors[..k + 1][..k] == anchors[..k];
        if anchors[k].Some? {
          var href := resolve(anchors[k].value);
          if href.Some? {
            nextUrls := nextUrls + [href.value];
          }
        }
      }
      assert anchors[..|anchors|] == anchors;
    }

    /** The page that a URL stands for, if it can be parsed and normalised. */
    function PageOf(rawUrl: Url): Option<Page> {
      if hostOf(rawUrl).None? || normalize(rawUrl).None? then None
      else Some(Page(hostOf(rawUrl).value, normalize(rawUrl).value, targetOf(normalize(rawUrl).value)))
    }

    /** From the look-up of the delay to the end of the wait. */
    method Approach(ghost id: nat, ghost c: Call, page: Page, worker: nat, env: Surroundings)
      returns (ghost c': Call)
      requires Valid() && At(id, c) && c.stage.LookingUp? && c.worker == worker && c.page == page
      requires c.since <= robotCheck.Given() && Honest(page.target, env.delayResp)
      modifies this, robotCheck, politeness
      ensures Valid() && Continued() && At(id, c') && c'.stage.Asking? && c'.worker == worker && c'.page == page
      ensures c'.since <= robotCheck.Given() && c'.fetched == c.fetched
      ensures Robots.HostOnly(robotCheck.server) ==> KeepsDelay(page, c'.delay, env.delayResp)
    {
      hide IsRun, Robots.IsRun, Robots.HostOnly, Robots.Interpret, Free, Honest;
      var delay := LookUpDelay(id, c, page.target, worker, env.delayResp);
      ghost var k :| At(id, c.(stage := Reserving, looked := Some(k), delay := delay));
      assert Robots.HostOnly(robotCheck.server) ==> KeepsDelay(page, delay, env.delayResp);
      hide KeepsDelay, Valid;
      c' := WaitTurn(id, c.(stage := Reserving, looked := Some(k), delay := delay), page.host, delay, env.late);
    }

    /** Lets others go on before and after the wait. */
    method WaitTurn(ghost id: nat, ghost c: Call, host: P.Host, delay: int, late: nat) returns (ghost c': Call)
      requires Valid() && At(id, c) && c.stage.Reserving? && c.page.host == host && c.delay == delay
      modifies this, robotCheck, politeness
      ensures Valid() && Continued() && At(id, c')
      ensures exists t, r, since ::
        c' == c.(stage := Asking, ticket := Some(t), returned := Some(r), since := since)
      ensures c'.since <= robotCheck.Given()
    {
      hide IsRun, Robots.IsRun;
      OtherCrawls(id, c);
      WaitForSlot(id, c, host, delay, late);
      ghost var t :|
        At(id, c.(stage := Asking, ticket := Some(t), returned := Some(clock), since := robotCheck.Given()));
      c' := c.(stage := Asking, ticket := Some(t), returned := Some(clock), since := robotCheck.Given());
      OtherCrawls(id, c');
    }

    /** The delay is the one that the page's rules ask for, or the default if they could not be had. */
    ghost predicate KeepsDelay(page: Page, delay: int, resp: Robots.Response) {
      var t := page.target;
      if Robots.AsksDelay(robotCheck.server, t) then
        var own := robotCheck.server(t.scheme, t.host).value.crawlDelay;
        delay == own || (delay == defaultDelay && Robots.Interpret(resp).Failed?)
      else delay == defaultDelay
    }

    ghost predicate MayFetch(page: Page) {
      Robots.Allows(robotCheck.server, page.target)
    }

    /** How a call that has come to its end goes with the outcome. */
    ghost predicate Reported(c: Call, outcome: Outcome, depth: int, resolve: Resolver, env: Surroundings) {
      match outcome
      case Crawled(data) =>
        && c.fetched.Some? && env.page.Some?
        && data == UrlData(c.page.url, depth, LinksOf(resolve, env.page.value))
      case Disallowed(url) => c.fetched.None? && url == c.page.url
      case Error => c.fetched.None? || env.page.None?
    }

    /** The page is requested only if its rules allow it, and always if they can be had and do; if they
        can be had and do not, that is reported. */
    ghost predicate Obedient(c: Call, outcome: Outcome, env: Surroundings) {
      && (c.fetched.Some? ==> MayFetch(c.page) && env.built)
      && (outcome.Disallowed? ==> !MayFetch(c.page))
      && (c.page.target.Target? && c.page.target.host != "" && Robots.Interpret(env.verdictResp).Rules? ==>
            if MayFetch(c.page) then c.fetched.Some? == env.built else outcome.Disallowed?)
    }

    /** From the verdict to the end. */
    method Visit(ghost id: nat, ghost c: Call, page: Page, worker: nat, depth: int, resolve: Resolver,
                 env: Surroundings)
      returns (outcome: Outcome, ghost c': Call)
      requires Valid() && At(id, c) && c.stage.Asking? && c.worker == worker && c.page == page && c.fetched.None?
      requires c.since <= robotCheck.Given() && Honest(page.target, env.verdictResp)
      modifies this, robotCheck
      ensures Valid() && Continued() && At(id, c') && c'.stage.Over?
      ensures c'.page == page && c'.worker == worker && c'.delay == c.delay
      ensures Reported(c', outcome, depth, resolve, env)
      ensures Robots.HostOnly(robotCheck.server) ==> Obedient(c', outcome, env)
    {
      hide IsRun, Robots.IsRun, Robots.HostOnly, Robots.Interpret, Free, Honest, Robots.Allows, Robots.Uncached;
      var verdict := AskVerdict(id, c, page.target, worker, env.verdictResp);
      ghost var k :| At(id, Judged(c, verdict, k));
      c' := Judged(c, verdict, k);
      if verdict.Error? {
        outcome := Error;
      } else if verdict != Robots.Verdict(true) {
        outcome := Disallowed(page.url);
      } else {
        SendRequest(id, c', env.built);
        c' := c'.(stage := Over, fetched := if env.built then Some(clock) else c'.fetched);
        outcome := Error;
        if env.built && env.page.Some? {
          var nextUrls := CollectLinks(resolve, env.page.value);
          outcome := Crawled(UrlData(page.url, depth, nextUrls));
        }
      }
    }

    /** Crawls one page.  `id` is the number of the call in the recorded run. */
    method CrawlUrl(worker: nat, rawUrl: Url, depth: int, resolve: Resolver, env: Surroundings)
      returns (outcome: Outcome, ghost id: nat)
      requires Valid() && robotCheck.Standing(worker, Robots.Idle) && Free(Model(), worker)
      requires hostOf(rawUrl).Some? && normalize(rawUrl).Some? ==>
        var t := targetOf(normalize(rawUrl).value); Honest(t, env.delayResp) && Honest(t, env.verdictResp)
      modifies this, robotCheck, politeness
      ensures Valid() && Continued()
      ensures robotCheck.Standing(worker, Robots.Idle) && Free(Model(), worker)
      // Nothing happens to a URL that cannot be parsed or normalised.
      ensures hostOf(rawUrl).None? || normalize(rawUrl).None? ==> outcome == Error && events == old(events)
      // Otherwise this is one call of the recorded run, carried through to its end: its slot goes by
      // the host of the URL as received, the questions and the request by the normalised URL.
      ensures hostOf(rawUrl).Some? && normalize(rawUrl).Some? ==>
        && |old(Model()).calls| <= id < |Model().calls|
        && var c, url := Model().calls[id], normalize(rawUrl).value;
        && c.worker == worker && c.page == Page(hostOf(rawUrl).value, url, targetOf(url)) && c.stage.Over?
        && Reported(c, outcome, depth, resolve, env)
        && (Robots.HostOnly(robotCheck.server) ==>
              KeepsDelay(c.page, c.delay, env.delayResp) && Obedient(c, outcome, env))
    {
      hide IsRun, Robots.IsRun, Robots.HostOnly, Free, Honest, KeepsDelay, Obedient, Reported;
      id := 0;
      var page := PageOf(rawUrl);
      if page.None? {
        return Error, 0;
      }
      id := BeginCrawl(worker, page.value);
      ghost var c := Model().calls[id];
      c := Approach(id, c, page.value, worker, env);
      outcome, c := Visit(id, c, page.value, worker, depth, resolve, env);
      FreeAgain(Model(), id, worker);
    }
  }

  lemma FreeAgain(s: State, id: nat, worker: nat)
    requires id < |s.calls| && s.calls[id].stage.Over?
    requires forall j | 0 <= j < |s.calls| && j != id && s.calls[j].worker == worker :: s.calls[j].stage.Over?
    ensures Free(s, worker)
  {
  }

  // ---- What holds of every crawler

  /** Whatever its methods have done and however its crawls were interleaved: every page that the
      crawler has requested was asked for in a slot of its own on the page's host, reserved with
      the delay that was looked up, after the robots checker had told this crawl that the page may
      be fetched - and if rules depend on the host alone, they allow the page. */
  lemma CrawlerDisciplined(c: Crawler, i: nat)
    requires c.Valid() && i < |c.Model().calls| && c.Model().calls[i].fetched.Some?
    ensures var s, call := c.Model(), c.Model().calls[i];
      && call.ticket.Some? && Genuine(call, call.ticket.value, c.politeness.history, c.politeness.maxAge)
      && call.returned.Some? && call.ticket.value.slot <= call.returned.value <= call.fetched.value
      && (forall j | 0 <= j < |s.calls| && j != i && s.calls[j].ticket.Some? ::
            s.calls[j].ticket.value.op != call.ticket.value.op)
      && call.verdict.Some? && call.since <= call.verdict.value < |c.robotCheck.Model().answers|
      && c.robotCheck.Model().answers[call.verdict.value]
         == Robots.Answer(call.worker, Robots.Call(Robots.MayFetch, call.page.target), Robots.Verdict(true))
      && (Robots.HostOnly(c.robotCheck.server) ==>
            && c.MayFetch(call.page)
            && var t := call.page.target;
            (call.delay == c.defaultDelay
             || (Robots.AsksDelay(c.robotCheck.server, t)
                 && call.delay == c.robotCheck.server(t.scheme, t.host).value.crawlDelay)))
  {
    hide Step, Genuine, Robots.HostOnly, Robots.Uncached, Robots.IsRun, Replied;
    var n, k := |c.states[0].robots.callers|, |c.events|;
    FetchDiscipline(c.states, c.events, c.Cfg(), n, k, i);
    if Robots.HostOnly(c.robotCheck.server) {
      FetchAllowed(c.states, c.events, c.Cfg(), n, k, i);
    }
  }

  /** And no host is requested by time `t` more often than its slots allow. */
  lemma CrawlerPaced(c: Crawler, h: P.Host, t: nat, d: int)
    requires c.Valid() && DelayFloor(c.Cfg(), d) && P.Min(d, c.politeness.maxAge + 1) > 0
    ensures Sums.SumSeq(c.Model().calls, FetchesBy(h, t)) <= t / P.Min(d, c.politeness.maxAge + 1) + 1
  {
    hide Step, Robots.IsRun, Sums.SumSeq, FetchesBy, DelayFloor, P.Min;
    RequestsBounded(c.states, c.events, c.Cfg(), |c.states[0].robots.callers|, |c.events|, h, t, d);
  }
}
