/** The robots.txt checker: a cache per host that several callers read, fill and read again
    without holding its lock in between. */
module Robots {
  import opened Models

  type Host = string
  type Path = string

  /** The rules a host's robots.txt gives our user agent. */
  datatype Group = Group(allows: Path -> bool, crawlDelay: int)

  /** A parsed URL, or one that cannot be parsed. */
  datatype Target = BadUrl | Target(scheme: string, host: Host, path: Path)

  /** The outcome of requesting robots.txt; `body` is the group found in it, if it can be parsed. */
  datatype Response = NoResponse | Response(status: int, body: Option<Group>)

  datatype Fetched = Failed | Rules(group: Option<Group>)

  /** Only a page that is there or is denied says anything; a robots.txt that is denied, missing
      or malformed answers every question like one without rules. */
  function Interpret(resp: Response): (f: Fetched)
    ensures f.Rules? <==> resp.Response? && (resp.status == 200 || 400 <= resp.status < 500)
    ensures f.Rules? ==> f.group == if resp.status == 200 then resp.body else None
    ensures f.Rules? && (resp.status != 200 || resp.body.None?) ==>
      forall q, path :: Judge(q, path, f.group) in {Verdict(true), Delay(0)}
  {
    if resp.NoResponse? then Failed
    else if resp.status == 404 then Rules(None)
    else if 400 <= resp.status < 500 then Rules(None)
    else if resp.status >= 500 then Failed
    else if resp.status == 200 then Rules(resp.body)
    else Failed
  }

  /** The two questions: may the page be fetched, and how long to wait between requests. */
  datatype Question = MayFetch | CrawlDelay

  datatype Call = Call(question: Question, target: Target)

  datatype Reply = Error | Verdict(allowed: bool) | Delay(delay: int)

  predicate Proper(t: Target) {
    t.Target? && t.host != ""
  }

  /** What the rules `g` say; no rules allow everything and ask for no delay. */
  function Judge(q: Question, path: Path, g: Option<Group>): Reply {
    match q
    case MayFetch => Verdict(g.None? || g.value.allows(path))
    case CrawlDelay => Delay(if g.None? then 0 else g.value.crawlDelay)
  }

  /** The rules that a successful request to `scheme://host/robots.txt` yields. */
  type Server = (string, Host) -> Option<Group>

  /** The answer of a checker that fetches robots.txt for every question, successfully. */
  function Uncached(server: Server, c: Call): Reply {
    if Proper(c.target) then Judge(c.question, c.target.path, server(c.target.scheme, c.target.host)) else Error
  }

  /** So a verdict is what the rules that the server gives for scheme and host say of the path, a
      delay is the one that they ask for; without rules everything is allowed and there is no delay. */
  lemma UncachedFollows(server: Server, c: Call)
    ensures Uncached(server, c).Error? <==> c.target.BadUrl? || c.target.host == ""
    ensures c.target.Target? && c.target.host != "" ==>
      var r, g := Uncached(server, c), server(c.target.scheme, c.target.host);
      if c.question.MayFetch? then r == Verdict(g.Some? ==> g.value.allows(c.target.path))
      else r == Delay(if g.Some? then g.value.crawlDelay else 0)
  {
  }

  /** The rules of the page's host allow it. */
  ghost predicate Allows(server: Server, t: Target) {
    && t.Target? && t.host != ""
    && var g := server(t.scheme, t.host);
    g.Some? ==> g.value.allows(t.path)
  }

  /** They ask for a delay. */
  ghost predicate AsksDelay(server: Server, t: Target) {
    && t.Target? && t.host != ""
    && var g := server(t.scheme, t.host);
    g.Some? && g.value.crawlDelay > 0
  }

  // ---- Callers that race

  datatype Caller =
    | Idle
      // GetCrawlDelay missed and has called IsAllowed, which has not looked yet.
    | Asking(call: Call)
      // IsAllowed missed.
    | Fetching(call: Call)
    | Writing(call: Call, group: Option<Group>)
      // GetCrawlDelay, after IsAllowed returned.
    | Rereading(call: Call)

  /** A reply that caller `i` has been given. */
  datatype Answer = Answer(i: nat, call: Call, reply: Reply)

  datatype State = State(
    cache: map<Host, Option<Group>>,
    callers: seq<Caller>,
    answers: seq<Answer>,                   // every answer given
    fetches: multiset<(nat, Host)>)         // every successful request, by caller

  datatype Event = Event(i: nat, act: Act)

  datatype Act = Begin(call: Call) | Ask | Fetch(resp: Response) | Write | Reread

  function Start(n: nat): State {
    State(map[], seq(n, _ => Idle), [], multiset{})
  }

  function Answered(s: State, i: nat, c: Call, r: Reply): State
    requires i < |s.callers|
  {
    s.(callers := s.callers[i := Idle], answers := s.answers + [Answer(i, c, r)])
  }

  function At(s: State, i: nat, c: Caller): State
    requires i < |s.callers|
  {
    s.(callers := s.callers[i := c])
  }

  ghost predicate Enabled(s: State, e: Event, server: Server) {
    && e.i < |s.callers|
    && var c := s.callers[e.i];
    match e.act
    case Begin(_) => c.Idle?
    case Ask => c.Asking? && Proper(c.call.target)
    case Fetch(resp) =>
      && c.Fetching? && Proper(c.call.target)
      && (Interpret(resp).Rules? ==>
            Interpret(resp).group == server(c.call.target.scheme, c.call.target.host))
    case Write => c.Writing? && Proper(c.call.target)
    case Reread => c.Rereading? && Proper(c.call.target)
  }

  ghost function Next(s: State, e: Event, server: Server): State
    requires Enabled(s, e, server)
  {
    var i, c := e.i, s.callers[e.i];
    match e.act
    case Begin(call) =>
      if !Proper(call.target) then Answered(s, i, call, Error)
      else if call.target.host in s.cache then
        Answered(s, i, call, Judge(call.question, call.target.path, s.cache[call.target.host]))
      else At(s, i, if call.question.MayFetch? then Fetching(call) else Asking(call))
    case Ask =>
      At(s, i, if c.call.target.host in s.cache then Rereading(c.call) else Fetching(c.call))
    case Fetch(resp) =>
      match Interpret(resp) {
        case Failed => Answered(s, i, c.call, Error)
        case Rules(g) =>
          At(s, i, Writing(c.call, g)).(fetches := s.fetches + multiset{(i, c.call.target.host)})
      }
    case Write =>
      var s' := s.(cache := s.cache[c.call.target.host := c.group]);
      if c.call.question.MayFetch? then Answered(s', i, c.call, Judge(MayFetch, c.call.target.path, c.group))
      else At(s', i, Rereading(c.call))
    case Reread =>
      var host := c.call.target.host;
      // A missing key reads as no rules.
      var g := if host in s.cache then s.cache[host] else None;
      Answered(s, i, c.call, Judge(CrawlDelay, c.call.target.path, g))
  }

  ghost predicate IsRun(ss: seq<State>, es: seq<Event>, server: Server) {
    && |ss| == |es| + 1
    && forall k | 0 <= k < |es| :: Enabled(ss[k], es[k], server) && ss[k + 1] == Next(ss[k], es[k], server)
  }

  // ---- The cache agrees with fetching

  /** No question tells the two apart. */
  ghost predicate Same(g: Option<Group>, h: Option<Group>) {
    forall q, path :: Judge(q, path, g) == Judge(q, path, h)
  }

  /** Which scheme robots.txt is requested by makes no difference. */
  ghost predicate HostOnly(server: Server) {
    forall s, t, h | h != "" :: Same(server(s, h), server(t, h))
  }

  ghost predicate CacheSound(cache: map<Host, Option<Group>>, server: Server) {
    forall h, s | h in cache :: Same(cache[h], server(s, h))
  }

  ghost predicate CallerSound(c: Caller, cache: map<Host, Option<Group>>, server: Server) {
    c.Idle? ||
    (&& Proper(c.call.target)
     && (c.Asking? || c.Rereading? ==> c.call.question.CrawlDelay?)
     && (c.Writing? ==> c.group == server(c.call.target.scheme, c.call.target.host))
     && (c.Rereading? ==> c.call.target.host in cache))
  }

  ghost predicate AnswersAgree(answers: seq<Answer>, server: Server) {
    forall a <- answers :: a.reply.Error? || a.reply == Uncached(server, a.call)
  }

  ghost predicate Sound(s: State, server: Server) {
    && CacheSound(s.cache, server)
    && (forall i | 0 <= i < |s.callers| :: CallerSound(s.callers[i], s.cache, server))
    && AnswersAgree(s.answers, server)
  }

  lemma CacheStep(s: State, e: Event, server: Server)
    requires HostOnly(server) && Enabled(s, e, server) && CacheSound(s.cache, server)
    requires CallerSound(s.callers[e.i], s.cache, server)
    ensures CacheSound(Next(s, e, server).cache, server)
    ensures forall h <- s.cache :: h in Next(s, e, server).cache && Same(s.cache[h], Next(s, e, server).cache[h])
  {
    hide Judge, Interpret;
  }

  lemma BegunStep(s: State, e: Event, server: Server)
    requires Enabled(s, e, server) && e.act.Begin?
    ensures var s' := Next(s, e, server);
      |s'.callers| == |s.callers| && CallerSound(s'.callers[e.i], s'.cache, server)
      && s'.callers == s.callers[e.i := s'.callers[e.i]] && s.cache.Keys <= s'.cache.Keys
  {
    hide Judge;
  }

  lemma WentOnStep(s: State, e: Event, server: Server)
    requires Enabled(s, e, server) && CallerSound(s.callers[e.i], s.cache, server) && !e.act.Begin?
    ensures var s' := Next(s, e, server);
      |s'.callers| == |s.callers| && CallerSound(s'.callers[e.i], s'.cache, server)
      && s'.callers == s.callers[e.i := s'.callers[e.i]] && s.cache.Keys <= s'.cache.Keys
  {
    hide Judge, Interpret;
  }

  lemma AnswerStep(s: State, e: Event, server: Server)
    requires HostOnly(server) && Enabled(s, e, server) && CacheSound(s.cache, server)
    requires CallerSound(s.callers[e.i], s.cache, server) && AnswersAgree(s.answers, server)
    ensures AnswersAgree(Next(s, e, server).answers, server)
  {
    hide Interpret;
  }

  lemma SoundStep(s: State, e: Event, server: Server)
    requires HostOnly(server) && Enabled(s, e, server) && Sound(s, server)
    ensures Sound(Next(s, e, server), server)
    ensures forall h <- s.cache :: h in Next(s, e, server).cache && Same(s.cache[h], Next(s, e, server).cache[h])
  {
    hide Next, HostOnly, CacheSound, AnswersAgree, Same;
    assert CallerSound(s.callers[e.i], s.cache, server);
    CacheStep(s, e, server);
    if e.act.Begin? {
      BegunStep(s, e, server);
    } else {
      WentOnStep(s, e, server);
    }
    AnswerStep(s, e, server);
    var s' := Next(s, e, server);
    forall i | 0 <= i < |s'.callers|
      ensures CallerSound(s'.callers[i], s'.cache, server)
    {
      assert i != e.i ==> CallerSound(s.callers[i], s.cache, server);
    }
  }

  /** However `n` callers race between reading, fetching and writing, and whenever fetches fail:
      if robots.txt depends on the host alone, every answer that is not an error is the one of a
      checker without a cache. */
  lemma {:induction false} RunSound(ss: seq<State>, es: seq<Event>, server: Server, n: nat, k: nat)
    requires IsRun(ss, es, server) && ss[0] == Start(n) && k < |ss| && HostOnly(server)
    ensures Sound(ss[k], server)
  {
    if k > 0 {
      RunSound(ss, es, server, n, k - 1);
      SoundStep(ss[k - 1], es[k - 1], server);
    }
  }

  /** An entry, once written, never answers differently. */
  lemma {:induction false} EntriesStay(ss: seq<State>, es: seq<Event>, server: Server, n: nat, j: nat, k: nat, h: Host)
    requires IsRun(ss, es, server) && ss[0] == Start(n) && j <= k < |ss| && HostOnly(server)
    requires h in ss[j].cache
    ensures h in ss[k].cache && Same(ss[j].cache[h], ss[k].cache[h])
    decreases k
  {
    hide Next, Enabled, Sound, HostOnly, Judge;
    if j < k {
      EntriesStay(ss, es, server, n, j, k - 1, h);
      RunSound(ss, es, server, n, k - 1);
      SoundStep(ss[k - 1], es[k - 1], server);
    }
  }

  /** Every answer given to a caller agrees with fetching, in every run of `n` callers. */
  ghost predicate AlwaysAgrees(server: Server, n: nat) {
    forall ss: seq<State>, es: seq<Event> ::
      IsRun(ss, es, server) && ss[0] == Start(n) ==> AnswersAgree(Last(ss).answers, server)
  }

  lemma RunMore(ss: seq<State>, es: seq<Event>, e: Event, server: Server)
    requires IsRun(ss, es, server) && Enabled(Last(ss), e, server)
    ensures IsRun(ss + [Next(Last(ss), e, server)], es + [e], server)
  {
    hide Next, Enabled;
    var ss', es' := ss + [Next(Last(ss), e, server)], es + [e];
    forall k | 0 <= k < |es'|
      ensures Enabled(ss'[k], es'[k], server) && ss'[k + 1] == Next(ss'[k], es'[k], server)
    {
      if k < |es| {
        assert ss'[k] == ss[k] && ss'[k + 1] == ss[k + 1] && es'[k] == es[k];
      } else {
        assert ss'[k] == Last(ss);
      }
    }
  }

  /** A page is asked about under one scheme, which fills the cache, and then under another. */
  lemma TwoSchemes(server: Server, n: nat, h: Host, s: string, t: string, q: Question, path: Path)
    returns (ss: seq<State>, es: seq<Event>)
    requires n > 0 && h != ""
    ensures IsRun(ss, es, server) && ss[0] == Start(n)
    ensures Answer(0, Call(q, Target(t, h, path)), Judge(q, path, server(s, h))) in Last(ss).answers
  {
    var first := Call(MayFetch, Target(s, h, path));
    var second := Call(q, Target(t, h, path));
    ss, es := [Start(n)], [];
    var acts := [Begin(first), Fetch(Response(200, server(s, h))), Write, Begin(second)];
    var k := 0;
    while k < 4
      invariant 0 <= k <= 4 && IsRun(ss, es, server) && ss[0] == Start(n) && |Last(ss).callers| == n
      invariant k == 0 ==> Last(ss) == Start(n)
      invariant k == 1 ==> Last(ss).callers[0] == Fetching(first)
      invariant k == 2 ==> Last(ss).callers[0] == Writing(first, server(s, h))
      invariant k == 3 ==>
        && Last(ss).callers[0] == Idle && h in Last(ss).cache && Last(ss).cache[h] == server(s, h)
      invariant k == 4 ==> Answer(0, second, Judge(q, path, server(s, h))) in Last(ss).answers
    {
      RunMore(ss, es, Event(0, acts[k]), server);
      ss, es := ss + [Next(Last(ss), Event(0, acts[k]), server)], es + [Event(0, acts[k])];
      k := k + 1;
    }
  }

  /** The cache is keyed by host but robots.txt is requested by the scheme of whichever URL comes
      first.  So the cached checker agrees with fetching in every run exactly when the rules do
      not depend on the scheme. */
  lemma CacheAgreesIff(server: Server, n: nat)
    requires n > 0
    ensures AlwaysAgrees(server, n) <==> HostOnly(server)
  {
    hide Next, Enabled, Sound;
    if HostOnly(server) {
      forall ss: seq<State>, es: seq<Event> | IsRun(ss, es, server) && ss[0] == Start(n)
        ensures AnswersAgree(Last(ss).answers, server)
      {
        SoundAtEnd(ss, es, server, n);
      }
    } else {
      var s, t, h :| h != "" && !Same(server(s, h), server(t, h));
      var q, path :| Judge(q, path, server(s, h)) != Judge(q, path, server(t, h));
      var ss, es := TwoSchemes(server, n, h, s, t, q, path);
      assert !AnswersAgree(Last(ss).answers, server);
    }
  }

  lemma SoundAtEnd(ss: seq<State>, es: seq<Event>, server: Server, n: nat)
    requires IsRun(ss, es, server) && ss[0] == Start(n) && HostOnly(server)
    ensures AnswersAgree(Last(ss).answers, server)
  {
    RunSound(ss, es, server, n, |es|);
  }

  // ---- Delays

  /** The rules ask for no delay below `d`, other than none at all. */
  ghost predicate NoDelayBelow(g: Option<Group>, d: int) {
    g.Some? ==> !(0 < g.value.crawlDelay < d)
  }

  ghost predicate ServerFloor(server: Server, d: int) {
    forall s, h :: NoDelayBelow(server(s, h), d)
  }

  /** Nor does anything that the checker remembers or has answered. */
  ghost predicate Floored(s: State, d: int) {
    && (forall h <- s.cache :: NoDelayBelow(s.cache[h], d))
    && (forall c <- s.callers :: c.Writing? ==> NoDelayBelow(c.group, d))
    && (forall a <- s.answers :: a.reply.Delay? ==> !(0 < a.reply.delay < d))
  }

  lemma FlooredStep(s: State, e: Event, server: Server, d: int)
    requires Enabled(s, e, server) && ServerFloor(server, d) && Floored(s, d)
    ensures Floored(Next(s, e, server), d)
  {
  }

  // ---- How often robots.txt is fetched

  ghost predicate OnceAt(s: State, i: nat, h: Host)
    requires i < |s.callers|
  {
    var c := s.callers[i];
    && s.fetches[(i, h)] <= 1
    && (s.fetches[(i, h)] > 0 ==> h in s.cache || (c.Writing? && Proper(c.call.target) && c.call.target.host == h))
    && (c.Fetching? && Proper(c.call.target) && c.call.target.host == h ==> s.fetches[(i, h)] == 0)
  }

  lemma OnceStep(s: State, e: Event, server: Server, i: nat, h: Host)
    requires Enabled(s, e, server) && i < |s.callers| && OnceAt(s, i, h)
    ensures i < |Next(s, e, server).callers| && OnceAt(Next(s, e, server), i, h)
  {
  }

  lemma {:induction false} OncePerCaller(ss: seq<State>, es: seq<Event>, server: Server, n: nat, k: nat,
                                         i: nat, h: Host)
    requires IsRun(ss, es, server) && ss[0] == Start(n) && k < |ss| && i < n
    ensures i < |ss[k].callers| && OnceAt(ss[k], i, h)
  {
    if k > 0 {
      OncePerCaller(ss, es, server, n, k - 1, i, h);
      OnceStep(ss[k - 1], es[k - 1], server, i, h);
      hide Next, OnceAt;
    }
  }

  /** The successful requests to host `h` by the first `n` callers. */
  ghost function FetchesOf(m: multiset<(nat, Host)>, h: Host, n: nat): nat {
    if n == 0 then 0 else FetchesOf(m, h, n - 1) + m[(n - 1, h)]
  }

  /** `n` racing callers fetch the robots.txt of a host successfully at most `n` times in all;
      used sequentially, at most once. */
  lemma {:induction false} FetchedRarely(ss: seq<State>, es: seq<Event>, server: Server, n: nat, m: nat, h: Host)
    requires IsRun(ss, es, server) && ss[0] == Start(n) && m <= n
    ensures FetchesOf(Last(ss).fetches, h, m) <= m
    decreases m
  {
    if m > 0 {
      FetchedRarely(ss, es, server, n, m - 1, h);
      OncePerCaller(ss, es, server, n, |es|, m - 1, h);
    }
  }

  // ---- The program text

  /** The checker as used by caller `i`, with the other callers' steps in between. */
  class RobotChecker {
    const server: Server
    var cache: map<Host, Option<Group>>
    // The run performed so far
    ghost var states: seq<State>
    ghost var events: seq<Event>

    ghost predicate Recorded()
      reads this
    {
      |states| > 0 && IsRun(states, events, server) && states[0] == Start(|states[0].callers|)
    }

    ghost function Model(): State
      reads this
      requires Recorded()
    {
      Last(states)
    }

    ghost predicate Valid()
      reads this
    {
      Recorded() && Model().cache == cache
    }

    ghost predicate Standing(i: nat, c: Caller)
      reads this
      requires Recorded()
    {
      i < |Model().callers| && Model().callers[i] == c
    }

    /** How many answers have been given. */
    ghost function Given(): nat
      reads this
    {
      if states == [] then 0 else |Last(states).answers|
    }

    /** The run has only been continued, and no entry has gone. */
    twostate predicate Continued()
      reads this
    {
      && old(states) <= states && old(events) <= events
      && old(cache).Keys <= cache.Keys && old(Given()) <= Given()
    }

    /** The latest answer is `r`, given to caller `i` for `call`. */
    ghost predicate JustAnswered(i: nat, call: Call, r: Reply)
      reads this
      requires Recorded()
    {
      Model().answers != [] && Last(Model().answers) == Answer(i, call, r)
    }

    constructor (n: nat, server: Server)
      ensures Valid() && Model() == Start(n) && this.server == server
    {
      this.server := server;
      cache, states, events := map[], [Start(n)], [];
    }

    ghost method Record(e: Event)
      requires Recorded() && Enabled(Model(), e, server)
      modifies this`states, this`events
      ensures Recorded() && Model() == Next(old(Model()), e, server)
      ensures states == old(states) + [Model()] && events == old(events) + [e]
      ensures old(Given()) <= Given()
    {
      RunMore(states, events, e, server);
      states, events := states + [Next(Model(), e, server)], events + [e];
    }

    /** Caller `i` has requested robots.txt since `from`. */
    ghost predicate Requested(i: nat, from: nat)
      reads this
    {
      exists k :: from <= k < |events| && events[k].i == i && events[k].act.Fetch?
    }

    /** Whatever other callers may do while caller `i` does not hold the lock.  Callers rely on
        the contract alone. */
    method Others(i: nat, ghost c: Caller)
      requires Valid() && Standing(i, c)
      modifies this
      ensures Valid() && Continued() && Standing(i, c)
      ensures forall k | |old(events)| <= k < |events| :: events[k].i != i
    {
    }

    /** The part of IsAllowed after a cache miss: request robots.txt, store what it says. */
    method FetchAndStore(i: nat, call: Call, resp: Response) returns (fetched: Fetched)
      requires Valid() && Standing(i, Fetching(call)) && Proper(call.target)
      requires Interpret(resp).Rules? ==> Interpret(resp).group == server(call.target.scheme, call.target.host)
      modifies this
      ensures Valid() && Continued() && fetched == Interpret(resp)
      ensures Requested(i, |old(events)|)
      ensures fetched.Failed? ==> Standing(i, Idle) && JustAnswered(i, call, Error) && Given() > old(Given())
      ensures fetched.Rules? && call.question.MayFetch? ==>
        && Standing(i, Idle) && JustAnswered(i, call, Judge(MayFetch, call.target.path, fetched.group))
        && Given() > old(Given())
      ensures fetched.Rules? && call.question.CrawlDelay? ==>
        Standing(i, Rereading(call)) && call.target.host in cache
    {
      hide IsRun;
      ghost var at := |events|;
      fetched := Interpret(resp);
      Record(Event(i, Fetch(resp)));
      assert events[at] == Event(i, Fetch(resp));
      if fetched.Rules? {
        Others(i, Writing(call, fetched.group));
        StoreRules(i, call, fetched.group);
      }
      assert events[at] == Event(i, Fetch(resp));
    }

    method StoreRules(i: nat, call: Call, group: Option<Group>)
      requires Valid() && Standing(i, Writing(call, group)) && Proper(call.target)
      modifies this
      ensures Valid() && Continued() && call.target.host in cache
      ensures if call.question.MayFetch?
              then
                && Standing(i, Idle) && JustAnswered(i, call, Judge(MayFetch, call.target.path, group))
                && Given() > old(Given())
              else Standing(i, Rereading(call))
    {
      cache := cache[call.target.host := group];
      Record(Event(i, Write));
    }

    /** Whether the page may be fetched. */
    method IsAllowed(i: nat, target: Target, resp: Response) returns (r: Reply)
      requires Valid() && Standing(i, Idle)
      requires Proper(target) && Interpret(resp).Rules? ==>
        Interpret(resp).group == server(target.scheme, target.host)
      modifies this
      ensures Valid() && Continued() && Standing(i, Idle)
      ensures JustAnswered(i, Call(MayFetch, target), r) && Given() > old(Given())
      ensures r.Error? <==>
        || target.BadUrl? || target.host == "" || (target.host !in old(cache) && Interpret(resp).Failed?)
      ensures HostOnly(server) ==> r.Error? || r == Uncached(server, Call(MayFetch, target))
      // So the rules decide.
      ensures HostOnly(server) && !r.Error? ==>
        match server(target.scheme, target.host)
        case Some(g) => r == Verdict(g.allows(target.path))
        case None => r == Verdict(true)
    {
      hide IsRun;
      var call := Call(MayFetch, target);
      Record(Event(i, Begin(call)));
      if !Proper(target) {
        r := Error;
      } else if target.host in cache {
        r := Judge(MayFetch, target.path, cache[target.host]);
      } else {
        Others(i, Fetching(call));
        var fetched := FetchAndStore(i, call, resp);
        r := if fetched.Failed? then Error else Judge(MayFetch, target.path, fetched.group);
      }
      AnswerAgrees(states, events, server, i, call, r);
      UncachedFollows(server, call);
    }

    /** How long to wait between requests to the page's host. */
    method GetCrawlDelay(i: nat, target: Target, resp: Response) returns (r: Reply)
      requires Valid() && Standing(i, Idle)
      requires Proper(target) && Interpret(resp).Rules? ==>
        Interpret(resp).group == server(target.scheme, target.host)
      modifies this
      ensures Valid() && Continued() && Standing(i, Idle)
      ensures JustAnswered(i, Call(CrawlDelay, target), r) && Given() > old(Given())
      ensures r.Error? <==>
        || target.BadUrl? || target.host == "" || (Requested(i, |old(events)|) && Interpret(resp).Failed?)
      ensures Requested(i, |old(events)|) ==> Proper(target) && target.host !in old(cache)
      ensures HostOnly(server) ==> r.Error? || r == Uncached(server, Call(CrawlDelay, target))
      ensures HostOnly(server) && !r.Error? ==>
        match server(target.scheme, target.host)
        case Some(g) => r == Delay(g.crawlDelay)
        case None => r == Delay(0)
    {
      hide IsRun;
      var call := Call(CrawlDelay, target);
      Record(Event(i, Begin(call)));
      if !Proper(target) {
        r := Error;
      } else if target.host in cache {
        r := Judge(CrawlDelay, target.path, cache[target.host]);
      } else {
        r := FetchDelay(i, call, resp);
      }
      AnswerAgrees(states, events, server, i, call, r);
      UncachedFollows(server, call);
    }

    /** IsAllowed, called by GetCrawlDelay, reads the cache. */
    method ReadAgain(i: nat, call: Call) returns (cached: bool)
      requires Valid() && Standing(i, Asking(call)) && Proper(call.target)
      modifies this`states, this`events
      ensures Valid() && Continued() && events == old(events) + [Event(i, Ask)]
      ensures cached == (call.target.host in cache)
      ensures Standing(i, if cached then Rereading(call) else Fetching(call))
    {
      cached := call.target.host in cache;
      Record(Event(i, Ask));
    }

    /** GetCrawlDelay reads the cache after it was filled. */
    method ReadFilled(i: nat, call: Call) returns (r: Reply)
      requires Valid() && Standing(i, Rereading(call)) && Proper(call.target)
      requires call.target.host in cache
      modifies this`states, this`events
      ensures Valid() && Continued() && events == old(events) + [Event(i, Reread)]
      ensures Standing(i, Idle) && JustAnswered(i, call, r) && !r.Error? && Given() > old(Given())
    {
      r := Judge(CrawlDelay, call.target.path, cache[call.target.host]);
      Record(Event(i, Reread));
    }

    /** The part of GetCrawlDelay after a cache miss: IsAllowed fills the cache, unless somebody
        else has by now, and the cache is read again. */
    method FetchDelay(i: nat, call: Call, resp: Response) returns (r: Reply)
      requires Valid() && Standing(i, Asking(call)) && Proper(call.target) && call.question.CrawlDelay?
      requires Interpret(resp).Rules? ==> Interpret(resp).group == server(call.target.scheme, call.target.host)
      modifies this
      ensures Valid() && Continued() && Standing(i, Idle) && JustAnswered(i, call, r) && Given() > old(Given())
      ensures r.Error? <==> Requested(i, |old(events)|) && Interpret(resp).Failed?
    {
      hide IsRun, Interpret, Judge, Enabled, Next;
      Others(i, Asking(call));
      var cached := ReadAgain(i, call);
      if !cached {
        Others(i, Fetching(call));
        var fetched := FetchAndStore(i, call, resp);
        if fetched.Failed? {
          return Error;
        }
      }
      Others(i, Rereading(call));
      r := ReadFilled(i, call);
    }
  }

  lemma AnswerAgrees(ss: seq<State>, es: seq<Event>, server: Server, i: nat, call: Call, r: Reply)
    requires IsRun(ss, es, server) && ss[0] == Start(|ss[0].callers|)
    requires Last(ss).answers != [] && Last(Last(ss).answers) == Answer(i, call, r)
    ensures HostOnly(server) ==> r.Error? || r == Uncached(server, call)
  {
    if HostOnly(server) {
      RunSound(ss, es, server, |ss[0].callers|, |es|);
      assert Answer(i, call, r) in Last(ss).answers;
    }
  }
}
