/** The crawl protocol as a transition system.
    One event is one operation that is atomic in the deployed system: one Redis command on the
    filter or a read of a key, one broker delivery, publication or acknowledgement.  The
    exceptions are the start of a job and the clearing of its keys, which write several keys;
    they are one event here, and module JobKeys takes them apart.  Everything that is decided
    outside the program (answers of the filter, failures, page contents, scheduling) is
    carried by the event, so `Next` is a function and a run is a sequence of events. */
module Protocol {
  import opened Models

  /** Where one result consumer stands inside `processResult`. */
  datatype Consumer =
    | Idle
      // The body was taken from the result queue; max depth has not been read yet.
    | Received(r: UrlData)
      // At the head of the loop over the links, `rest` still to visit.
    | Expanding(r: UrlData, maxDepth: int, rest: seq<Url>)
      // The filter answered "absent" for `url`; it has not been added yet.
    | Checked(r: UrlData, maxDepth: int, rest: seq<Url>, url: Url)
      // AddToBloom returned for `url`; it has not been published yet.
    | Claimed(r: UrlData, maxDepth: int, rest: seq<Url>, url: Url)

  /** A crawl request whose handler has started the job but not yet published the seed. */
  datatype Seeding = Seeding(url: Url, maxDepth: int, added: bool)

  /** What has happened so far.  No step reads it. */
  datatype Log = Log(
    starts: nat,                            // jobs started
    published: multiset<Task>,              // every task put on a task queue
    expansions: multiset<(nat, Url)>,       // ... of which by consumer i for link u
    claims: set<(nat, Url)>,                // successful AddToBloom by consumer i for u
    failedAdds: multiset<(nat, Url)>,       // failed AddToBloom by consumer i for u
    hits: set<Url>,                         // URLs the filter answered "present" for
    acked: multiset<Task>,                  // acknowledged after publishing a result
    failed: multiset<Task>,                 // acknowledged without a result
    lost: multiset<Task>,                   // dropped on overflow or purged
    emitted: multiset<Task>,                // crawled, with a result published
    outputs: multiset<UrlData>,             // every result put on the result queue
    consumed: multiset<UrlData>,            // ... taken by a consumer
    lostResults: multiset<UrlData>)         // ... dropped on overflow or purged

  datatype State = State(
    ready: multiset<Task>,                  // on the task queues
    held: multiset<Task>,                   // delivered, no result published for this delivery
    done: multiset<Task>,                   // delivered, result published, not acknowledged
    results: multiset<UrlData>,             // on the result queue
    consumers: seq<Consumer>,
    handlers: multiset<Seeding>,
    filter: set<Url>,                       // everything successfully added
    active: Option<Url>,                    // crawler:active_job
    maxDepth: Option<int>,                  // crawler:max_depth
    log: Log)

  /** The filter's reply to BF.EXISTS. */
  datatype Reply = Present | Absent | Unavailable

  datatype Event =
    // The crawl handler: lock the job, add the seed, publish it or give the job up.
    | StartJob(seed: Url, depth: int)
    | SeedAdd(h: Seeding, ok: bool)
    | SeedPublish(h: Seeding)
    | SeedFail(h: Seeding)
    // Stop handler or watchdog, and key expiry.
    | Cleanup
    | ExpireActive
    | ExpireMaxDepth
    // Task queues and workers.
    | Deliver(t: Task)
    | Requeue(t: Task)
    | RequeueDone(t: Task)
    | CrawlFails(t: Task)
    | Emit(t: Task, next: seq<Url>)
    | Ack(t: Task)
    | LoseTask(t: Task)
    | LoseResult(r: UrlData)
    // Result consumer i.
    | By(i: nat, act: Act)

  /** The operations of a result consumer, in the order of `processResult`. */
  datatype Act =
    | Consume(r: UrlData)
    | ReadDepth(ok: bool, limit: nat)
    | Check(reply: Reply)
    | Add(ok: bool)
    | Publish(ok: bool)
    | Finish
    | Crash

  const NO_LOG := Log(0, multiset{}, multiset{}, {}, multiset{}, {}, multiset{}, multiset{},
                      multiset{}, multiset{}, multiset{}, multiset{}, multiset{})

  /** A freshly deployed system with `n` result consumers. */
  ghost predicate Init(s: State, n: nat) {
    && s.ready == s.held == s.done == multiset{}
    && s.results == multiset{}
    && |s.consumers| == n
    && (forall i | 0 <= i < n :: s.consumers[i] == Idle)
    && s.handlers == multiset{}
    && s.filter == {}
    && s.active == None
    && s.maxDepth == None
    && s.log == NO_LOG
  }

  ghost function Fresh(n: nat): (s: State)
    ensures Init(s, n)
  {
    State(multiset{}, multiset{}, multiset{}, multiset{}, seq(n, _ => Idle), multiset{},
          {}, None, None, NO_LOG)
  }

  ghost predicate Enabled(s: State, e: Event) {
    match e
    case StartJob(_, _) => s.active.None?
    case SeedAdd(h, _) => h in s.handlers && !h.added
    case SeedPublish(h) => h in s.handlers && h.added
    case SeedFail(h) => h in s.handlers
    case Cleanup => s.active.Some? || s.maxDepth.Some?
    case ExpireActive => s.active.Some?
    case ExpireMaxDepth => s.maxDepth.Some?
    case Deliver(t) => t in s.ready
    case Requeue(t) => t in s.held
    case RequeueDone(t) => t in s.done
    case CrawlFails(t) => t in s.held
    case Emit(t, _) => t in s.held
    case Ack(t) => t in s.done
    case LoseTask(t) => t in s.ready
    case LoseResult(r) => r in s.results
    case By(i, act) => i < |s.consumers| && CanAct(s, s.consumers[i], act)
  }

  ghost predicate CanAct(s: State, c: Consumer, act: Act) {
    match act
    case Consume(r) => c.Idle? && r in s.results
    case ReadDepth(_, limit) => c.Received? && limit <= |c.r.nextUrls|
      // The filter has no false negatives; it may have false positives.
    case Check(reply) =>
      c.Expanding? && c.rest != [] && (reply.Absent? ==> c.rest[0] !in s.filter)
    case Add(_) => c.Checked?
    case Publish(_) => c.Claimed?
    case Finish => c.Expanding? && c.rest == []
    case Crash => !c.Idle?
  }

  /** The consumer after reading the max-depth key, with `limit` links kept. */
  function AfterRead(r: UrlData, key: Option<int>, ok: bool, limit: nat): Consumer
    requires limit <= |r.nextUrls|
  {
    // An unreadable key counts as the depth of the page itself, so nothing is expanded.
    var maxDepth := if ok && key.Some? then key.value else r.depth;
    if r.depth < maxDepth then Expanding(r, maxDepth, r.nextUrls[..limit]) else Idle
  }

  /** The crawl message that a consumer at `Claimed` is about to publish. */
  function NewTask(c: Consumer): Task
    requires c.Claimed?
  {
    Task(c.url, c.r.depth + 1, c.maxDepth)
  }

  /** Where a consumer stands after `act`. */
  ghost function Moved(s: State, c: Consumer, act: Act): Consumer
    requires CanAct(s, c, act)
  {
    match act
    case Consume(r) => Received(r)
    case ReadDepth(ok, limit) => AfterRead(c.r, s.maxDepth, ok, limit)
    case Check(reply) =>
      if reply.Absent? then Checked(c.r, c.maxDepth, c.rest[1..], c.rest[0])
      else Expanding(c.r, c.maxDepth, c.rest[1..])
    case Add(_) => Claimed(c.r, c.maxDepth, c.rest, c.url)
    case Publish(_) => Expanding(c.r, c.maxDepth, c.rest)
    case Finish => Idle
    case Crash => Idle
  }

  /** The whole effect of `act` by consumer `i`. */
  ghost function NextBy(s: State, i: nat, act: Act): State
    requires i < |s.consumers| && CanAct(s, s.consumers[i], act)
  {
    var log, c := s.log, s.consumers[i];
    var moved := s.consumers[i := Moved(s, c, act)];
    match act
    case Consume(r) =>
      s.(consumers := moved, results := s.results - multiset{r},
      log := log.(consumed := log.consumed + multiset{r}))
    case Check(reply) =>
      if reply.Present? then s.(consumers := moved, log := log.(hits := log.hits + {c.rest[0]}))
      else s.(consumers := moved)
    case Add(ok) =>
      if ok then
        s.(consumers := moved, filter := s.filter + {c.url},
        log := log.(claims := log.claims + {(i, c.url)}))
      else
        s.(consumers := moved, log := log.(failedAdds := log.failedAdds + multiset{(i, c.url)}))
    case Publish(ok) =>
      if ok then
        s.(consumers := moved, ready := s.ready + multiset{NewTask(c)},
        log := log.(published := log.published + multiset{NewTask(c)},
        expansions := log.expansions + multiset{(i, c.url)}))
      else s.(consumers := moved)
    case ReadDepth(_, _) => s.(consumers := moved)
    case Finish => s.(consumers := moved)
    case Crash => s.(consumers := moved)
  }

  ghost function Next(s: State, e: Event): State
    requires Enabled(s, e)
  {
    var log := s.log;
    match e
    case StartJob(u, d) =>
      s.(active := Some(u), maxDepth := Some(d),
      handlers := s.handlers + multiset{Seeding(u, d, false)},
      log := log.(starts := log.starts + 1))
    case SeedAdd(h, ok) =>
      s.(handlers := s.handlers - multiset{h} + multiset{h.(added := true)},
      filter := if ok then s.filter + {h.url} else s.filter)
    case SeedPublish(h) =>
      var t := Task(h.url, 0, h.maxDepth);
      s.(handlers := s.handlers - multiset{h}, ready := s.ready + multiset{t},
      log := log.(published := log.published + multiset{t}))
    case SeedFail(h) =>
      s.(handlers := s.handlers - multiset{h}, active := None, maxDepth := None)
    case Cleanup => s.(active := None, maxDepth := None)
    case ExpireActive => s.(active := None)
    case ExpireMaxDepth => s.(maxDepth := None)
    case Deliver(t) =>
      s.(ready := s.ready - multiset{t}, held := s.held + multiset{t})
    case Requeue(t) =>
      s.(held := s.held - multiset{t}, ready := s.ready + multiset{t})
    case RequeueDone(t) =>
      s.(done := s.done - multiset{t}, ready := s.ready + multiset{t})
    case CrawlFails(t) =>
      s.(held := s.held - multiset{t}, log := log.(failed := log.failed + multiset{t}))
    case Emit(t, next) =>
      var r := UrlData(t.url, t.depth, next);
      s.(held := s.held - multiset{t}, done := s.done + multiset{t},
      results := s.results + multiset{r},
      log := log.(emitted := log.emitted + multiset{t}, outputs := log.outputs + multiset{r}))
    case Ack(t) =>
      s.(done := s.done - multiset{t}, log := log.(acked := log.acked + multiset{t}))
    case LoseTask(t) =>
      s.(ready := s.ready - multiset{t}, log := log.(lost := log.lost + multiset{t}))
    case LoseResult(r) =>
      s.(results := s.results - multiset{r},
      log := log.(lostResults := log.lostResults + multiset{r}))
    case By(i, act) =>
      NextBy(s, i, act)
  }

  ghost predicate Step(s: State, e: Event, s': State) {
    Enabled(s, e) && s' == Next(s, e)
  }

  /** The effect of a consumer's step, one field at a time. */
  ghost predicate ByEffect(s: State, i: nat, act: Act, s': State)
    requires i < |s.consumers| && CanAct(s, s.consumers[i], act)
  {
    var c := s.consumers[i];
    var claims, publishes := act.Add? && act.ok, act.Publish? && act.ok;
    && s'.consumers == s.consumers[i := Moved(s, c, act)]
    && s'.held == s.held && s'.done == s.done
    && s'.handlers == s.handlers && s'.maxDepth == s.maxDepth && s'.active == s.active
    && s'.filter == (if claims then s.filter + {c.url} else s.filter)
    && s'.results == (if act.Consume? then s.results - multiset{act.r} else s.results)
    && s'.ready == (if publishes then s.ready + multiset{NewTask(c)} else s.ready)
  }

  /** ... and its records. */
  ghost predicate ByRecord(l: Log, c: Consumer, i: nat, act: Act, l': Log)
    requires act.Add? ==> c.Checked?
    requires act.Publish? ==> c.Claimed?
    requires act.Check? ==> c.Expanding? && c.rest != []
  {
    var claims, publishes := act.Add? && act.ok, act.Publish? && act.ok;
    && l'.starts == l.starts && l'.outputs == l.outputs && l'.emitted == l.emitted
    && l'.acked == l.acked && l'.failed == l.failed && l'.lost == l.lost && l'.lostResults == l.lostResults
    && l'.consumed == (if act.Consume? then l.consumed + multiset{act.r} else l.consumed)
    && l'.claims == (if claims then l.claims + {(i, c.url)} else l.claims)
    && l'.failedAdds == (if act.Add? && !claims then l.failedAdds + multiset{(i, c.url)} else l.failedAdds)
    && l'.published == (if publishes then l.published + multiset{NewTask(c)} else l.published)
    && l'.expansions == (if publishes then l.expansions + multiset{(i, c.url)} else l.expansions)
    && l'.hits == (if act == Check(Present) then l.hits + {c.rest[0]} else l.hits)
  }

  /** Consumer `i` has performed `act`. */
  ghost predicate Acts(s: State, i: nat, act: Act, s': State) {
    && i < |s.consumers| && CanAct(s, s.consumers[i], act)
    && ByEffect(s, i, act, s')
    && ByRecord(s.log, s.consumers[i], i, act, s'.log)
  }

  lemma ByFields(s: State, e: Event, s': State)
    requires Step(s, e, s') && e.By?
    ensures e == By(e.i, e.act) && Acts(s, e.i, e.act, s')
  {
  }

  /** What no step of the handlers, the broker or the workers touches. */
  ghost predicate OtherEffect(s: State, s': State) {
    && s'.consumers == s.consumers && s.filter <= s'.filter
    && s'.log.claims == s.log.claims && s'.log.failedAdds == s.log.failedAdds
    && s'.log.expansions == s.log.expansions && s'.log.hits == s.log.hits
  }

  lemma OtherFields(s: State, e: Event, s': State)
    requires Step(s, e, s') && !e.By?
    ensures OtherEffect(s, s')
  {
  }

  /** The steps of the handlers that start a job or publish its seed, and the answers of workers. */
  predicate Source(e: Event) {
    e.StartJob? || e.SeedAdd? || e.SeedPublish? || e.Emit?
  }

  /** The other steps publish nothing, learn nothing and start nothing. */
  ghost predicate QuietEffect(s: State, s': State) {
    && s'.consumers == s.consumers && s'.filter == s.filter
    && s'.log.outputs == s.log.outputs && s'.log.published == s.log.published
    && s'.log.claims == s.log.claims && s'.log.starts == s.log.starts
    && (s'.maxDepth == s.maxDepth || s'.maxDepth == None)
    && forall h <- s'.handlers :: h in s.handlers
  }

  lemma QuietFields(s: State, e: Event, s': State)
    requires Step(s, e, s') && !e.By? && !Source(e)
    ensures QuietEffect(s, s')
  {
  }

  /** The steps that start jobs and put new messages on the queues. */
  ghost predicate SourceEffect(s: State, e: Event, s': State) {
    && (e.SeedPublish? ==> e.h in s.handlers && e.h.added)
    && s'.consumers == s.consumers && s'.log.claims == s.log.claims
    && s'.filter == (if e.SeedAdd? && e.ok then s.filter + {e.h.url} else s.filter)
    && s'.maxDepth == (if e.StartJob? then Some(e.depth) else s.maxDepth)
    && s'.log.published == (if e.SeedPublish? then s.log.published + multiset{Task(e.h.url, 0, e.h.maxDepth)}
                            else s.log.published)
    && s'.log.outputs == (if e.Emit? then s.log.outputs + multiset{UrlData(e.t.url, e.t.depth, e.next)}
                          else s.log.outputs)
    && (forall h <- s'.handlers ::
          || h in s.handlers
          || (e.StartJob? && h == Seeding(e.seed, e.depth, false))
          || (e.SeedAdd? && e.h in s.handlers && h == e.h.(added := true)))
  }

  lemma SourceFields(s: State, e: Event, s': State)
    requires Step(s, e, s') && Source(e)
    ensures SourceEffect(s, e, s')
  {
  }

  /** An event after which the keys of a job need not be there any more. */
  ghost predicate Clears(e: Event) {
    e.SeedFail? || e.Cleanup? || e.ExpireActive? || e.ExpireMaxDepth?
  }

  lemma KeysKept(s: State, e: Event, s': State)
    requires Step(s, e, s') && !Clears(e) && !e.StartJob?
    ensures s'.active == s.active && s'.maxDepth == s.maxDepth
  {
    if e.By? {
      ByFields(s, e, s');
    }
  }

  /** `ss` are the states visited by performing the events `es` one after the other. */
  ghost predicate IsRun(ss: seq<State>, es: seq<Event>) {
    && |ss| == |es| + 1
    && forall k | 0 <= k < |es| :: Step(ss[k], es[k], ss[k + 1])
  }

  lemma LongerRun(ss: seq<State>, es: seq<Event>, e: Event)
    requires IsRun(ss, es) && Enabled(Last(ss), e)
    ensures IsRun(ss + [Next(Last(ss), e)], es + [e])
  {
    var ss', es' := ss + [Next(Last(ss), e)], es + [e];
    forall k | 0 <= k < |es'|
      ensures Step(ss'[k], es'[k], ss'[k + 1])
    {
      if k < |es| {
        assert Step(ss[k], es[k], ss[k + 1]);
      }
    }
  }

  /** The number of consumers never changes. */
  lemma {:induction false} ConsumersFixed(ss: seq<State>, es: seq<Event>, k: nat)
    requires IsRun(ss, es) && k < |ss|
    ensures |ss[k].consumers| == |ss[0].consumers|
  {
    if k > 0 {
      ConsumersFixed(ss, es, k - 1);
      assert Step(ss[k - 1], es[k - 1], ss[k]);
    }
  }
}
