/** The program text of the scheduler's result consumer and request handlers and of the
    worker's message loop, over the state they share through Redis and RabbitMQ.  Every
    operation on that state is recorded as an event, and each method is proved to perform a
    run of the protocol. */
module Deployment {
  import opened Models
  import opened Protocol
  import opened Lookups

  lemma FractionOf(c: real, rate: real)
    requires 0.0 <= c && 0.0 <= rate <= 1.0
    ensures 0.0 <= c * rate <= c
  {
    var kept := 1.0 - rate;
    assert c * kept >= 0.0;
    assert c * rate + c * kept == c * (rate + kept);
  }

  /** The number of leading links that are kept when a fraction `rate` of them is dropped: the
      largest whole number that is not above the exact share. */
  function Kept(count: nat, rate: real): (limit: nat)
    requires 0.0 <= rate <= 1.0
    ensures limit <= count
    ensures limit as real <= count as real * (1.0 - rate) < limit as real + 1.0
    ensures rate == 0.0 ==> limit == count
    ensures rate == 1.0 ==> limit == 0
  {
    FractionOf(count as real, 1.0 - rate);
    (count as real * (1.0 - rate)).Floor
  }

  /** The messages on the three task queues. */
  ghost function AllQueued(queues: seq<multiset<Task>>): multiset<Task>
    requires |queues| == 3
  {
    queues[0] + queues[1] + queues[2]
  }

  /** Each message is on the queue that the exchange routes its URL to. */
  ghost predicate Routed(queues: seq<multiset<Task>>, route: Url -> nat)
    requires |queues| == 3
  {
    forall q, t | 0 <= q < 3 && t in queues[q] :: route(t.url) % 3 == q
  }

  /** Of the messages `ready`, `some` are exactly those that are routed to queue `q`. */
  ghost predicate AreOfQueue(ready: multiset<Task>, some: multiset<Task>, route: Url -> nat, q: nat) {
    && some <= ready
    && forall t: Task :: (ready - some)[t] == if route(t.url) % 3 == q then 0 else ready[t]
  }

  lemma QueueEmptied(queues: seq<multiset<Task>>, route: Url -> nat, q: nat)
    requires |queues| == 3 && q < 3 && Routed(queues, route)
    ensures var left := queues[q := multiset{}];
      && Routed(left, route) && queues[q] <= AllQueued(queues)
      && AllQueued(left) == AllQueued(queues) - queues[q]
      && AreOfQueue(AllQueued(queues), queues[q], route, q)
  {
  }

  /** The fields that are not about messages on their way. */
  ghost predicate SameKeys(s: State, s': State) {
    s'.filter == s.filter && s'.active == s.active && s'.maxDepth == s.maxDepth
  }

  /** The state after the loss of `doomed`. */
  ghost function WithoutTasks(s: State, doomed: multiset<Task>): State {
    s.(ready := s.ready - doomed, log := s.log.(lost := s.log.lost + doomed))
  }

  /** Exactly the messages of queue `q` are lost from `s` to `s'`. */
  ghost predicate QueuePurged(s: State, s': State, route: Url -> nat, q: nat) {
    && s' == WithoutTasks(s, s.ready - s'.ready)
    && forall t: Task :: s'.ready[t] == if route(t.url) % 3 == q then 0 else s.ready[t]
  }

  lemma LossIsPurge(s: State, doomed: multiset<Task>, route: Url -> nat, q: nat)
    requires AreOfQueue(s.ready, doomed, route, q)
    ensures QueuePurged(s, WithoutTasks(s, doomed), route, q)
  {
    var rest := s.ready - doomed;
    assert s.ready - rest == doomed;
  }

  /** At some time after the first `from` events of a run queue `q` was purged. */
  ghost predicate PurgedIn(ss: seq<State>, route: Url -> nat, q: nat, from: nat) {
    exists k, k' :: from <= k <= k' < |ss| && QueuePurged(ss[k], ss[k'], route, q)
  }

  lemma PurgedNow(ss: seq<State>, ss': seq<State>, doomed: multiset<Task>, route: Url -> nat, q: nat)
    requires 0 < |ss| && ss <= ss' && Last(ss') == WithoutTasks(Last(ss), doomed)
    requires AreOfQueue(Last(ss).ready, doomed, route, q)
    ensures PurgedIn(ss', route, q, |ss| - 1)
  {
    LossIsPurge(Last(ss), doomed, route, q);
    hide QueuePurged, WithoutTasks;
    assert QueuePurged(ss'[|ss| - 1], ss'[|ss'| - 1], route, q);
  }

  lemma PurgedStays(ss: seq<State>, ss': seq<State>, route: Url -> nat, q: nat, from: nat, since: nat)
    requires PurgedIn(ss, route, q, from) && ss <= ss' && since <= from
    ensures PurgedIn(ss', route, q, since)
  {
    hide QueuePurged;
    var k, k' :| from <= k <= k' < |ss| && QueuePurged(ss[k], ss[k'], route, q);
    assert QueuePurged(ss'[k], ss'[k'], route, q);
  }

  ghost function WithoutResults(s: State, doomed: multiset<UrlData>): State {
    s.(results := s.results - doomed, log := s.log.(lostResults := s.log.lostResults + doomed))
  }

  lemma LossFields(s: State, doomed: multiset<Task>)
    ensures var s' := WithoutTasks(s, doomed);
      && SameKeys(s, s') && s'.ready == s.ready - doomed && s'.held == s.held && s'.done == s.done
      && s'.results == s.results
  {
  }

  lemma LoseTaskNone(s: State)
    ensures WithoutTasks(s, multiset{}) == s
  {
  }

  lemma LoseTaskFirst(s: State, doomed: multiset<Task>, t: Task)
    requires doomed <= s.ready && t in doomed
    ensures Enabled(s, LoseTask(t))
    ensures var s' := Next(s, LoseTask(t));
      doomed - multiset{t} <= s'.ready && WithoutTasks(s', doomed - multiset{t}) == WithoutTasks(s, doomed)
  {
    var rest := doomed - multiset{t};
    assert s.ready - multiset{t} - rest == s.ready - doomed;
    assert s.log.lost + multiset{t} + rest == s.log.lost + doomed;
  }

  /** A run that loses the messages `doomed` one after the other. */
  lemma {:induction false} LossRun(ss: seq<State>, es: seq<Event>, doomed: multiset<Task>)
    returns (ss': seq<State>, es': seq<Event>)
    requires |ss| > 0 && IsRun(ss, es) && doomed <= Last(ss).ready
    ensures |ss'| > 0 && IsRun(ss', es') && ss <= ss' && es <= es'
    ensures Last(ss') == WithoutTasks(Last(ss), doomed) && forall k | |es| <= k < |es'| :: es'[k].LoseTask?
    decreases doomed
  {
    hide IsRun, Next, Enabled, WithoutTasks;
    ss', es' := ss, es;
    var s := Last(ss);
    if doomed == multiset{} {
      LoseTaskNone(s);
    } else {
      var t :| t in doomed;
      LoseTaskFirst(s, doomed, t);
      LongerRun(ss, es, LoseTask(t));
      ss', es' := LossRun(ss + [Next(s, LoseTask(t))], es + [LoseTask(t)], doomed - multiset{t});
    }
  }

  lemma ResultLossFields(s: State, doomed: multiset<UrlData>)
    ensures var s' := WithoutResults(s, doomed);
      && SameKeys(s, s') && s'.ready == s.ready && s'.held == s.held && s'.done == s.done
      && s'.results == s.results - doomed
  {
  }

  lemma LoseResultNone(s: State)
    ensures WithoutResults(s, multiset{}) == s
  {
  }

  lemma LoseResultFirst(s: State, doomed: multiset<UrlData>, r: UrlData)
    requires doomed <= s.results && r in doomed
    ensures Enabled(s, LoseResult(r))
    ensures var s' := Next(s, LoseResult(r));
      doomed - multiset{r} <= s'.results && WithoutResults(s', doomed - multiset{r}) == WithoutResults(s, doomed)
  {
    var rest := doomed - multiset{r};
    assert s.results - multiset{r} - rest == s.results - doomed;
    assert s.log.lostResults + multiset{r} + rest == s.log.lostResults + doomed;
  }

  lemma {:induction false} ResultLossRun(ss: seq<State>, es: seq<Event>, doomed: multiset<UrlData>)
    returns (ss': seq<State>, es': seq<Event>)
    requires |ss| > 0 && IsRun(ss, es) && doomed <= Last(ss).results
    ensures |ss'| > 0 && IsRun(ss', es') && ss <= ss' && es <= es'
    ensures Last(ss') == WithoutResults(Last(ss), doomed) && forall k | |es| <= k < |es'| :: es'[k].LoseResult?
    decreases doomed
  {
    hide IsRun, Next, Enabled, WithoutResults;
    ss', es' := ss, es;
    var s := Last(ss);
    if doomed == multiset{} {
      LoseResultNone(s);
    } else {
      var r :| r in doomed;
      LoseResultFirst(s, doomed, r);
      LongerRun(ss, es, LoseResult(r));
      ss', es' := ResultLossRun(ss + [Next(s, LoseResult(r))], es + [LoseResult(r)], doomed - multiset{r});
    }
  }

  lemma KeysOnly(s: State, e: Event, s': State)
    requires Step(s, e, s')
    ensures s.active.Some? ==> !e.StartJob?
    ensures !e.StartJob? ==>
      && (s.active.None? ==> s'.active.None?)
      && (s.maxDepth.None? ==> s'.maxDepth.None?)
  {
    if e.By? {
      ByFields(s, e, s');
    }
  }

  lemma KeysStayOnce(s: State, e: Event, s': State)
    requires Step(s, e, s') && !Clears(e) && s.active.Some?
    ensures s'.active == s.active && s'.maxDepth == s.maxDepth
  {
    KeysOnly(s, e, s');
    KeysKept(s, e, s');
    hide Step;
  }

  /** A job keeps its keys until they are cleared or expire. */
  lemma {:induction false} KeysStay(ss: seq<State>, es: seq<Event>, p: nat, k: nat)
    requires IsRun(ss, es) && p <= k < |ss| && ss[p].active.Some?
    requires forall m | p <= m < k :: !Clears(es[m])
    ensures ss[k].active == ss[p].active && ss[k].maxDepth == ss[p].maxDepth
  {
    if p < k {
      hide Step, Clears;
      assert Step(ss[k - 1], es[k - 1], ss[k]);
      KeysStay(ss, es, p, k - 1);
      KeysStayOnce(ss[k - 1], es[k - 1], ss[k]);
    }
  }

  /** Keys that are gone stay so until a job is started. */
  lemma {:induction false} KeysGone(ss: seq<State>, es: seq<Event>, p: nat, k: nat)
    requires IsRun(ss, es) && p <= k < |ss|
    requires ss[p].active == None && ss[p].maxDepth == None
    requires forall m | p <= m < k :: !es[m].StartJob?
    ensures ss[k].active == None && ss[k].maxDepth == None
  {
    if p < k {
      hide Step;
      KeysGone(ss, es, p, k - 1);
      KeysOnly(ss[k - 1], es[k - 1], ss[k]);
    }
  }

  datatype Status = Accepted | TooManyRequests | BadRequest | ServiceUnavailable | InternalError

  // The effects of single steps on what the program holds.

  lemma ConsumeFields(s: State, i: nat, r: UrlData)
    requires i < |s.consumers| && s.consumers[i].Idle? && r in s.results
    ensures Enabled(s, By(i, Consume(r)))
    ensures var s' := Next(s, By(i, Consume(r)));
      && SameKeys(s, s') && s'.ready == s.ready && s'.held == s.held && s'.done == s.done
      && s'.results == s.results - multiset{r} && s'.consumers == s.consumers[i := Received(r)]
  {
  }

  lemma PublishFields(s: State, i: nat, ok: bool)
    requires i < |s.consumers| && s.consumers[i].Claimed?
    ensures Enabled(s, By(i, Publish(ok)))
    ensures var s', c := Next(s, By(i, Publish(ok))), s.consumers[i];
      && SameKeys(s, s') && s'.held == s.held && s'.done == s.done && s'.results == s.results
      && s'.ready == s.ready + (if ok then multiset{NewTask(c)} else multiset{})
      && s'.consumers == s.consumers[i := Expanding(c.r, c.maxDepth, c.rest)]
      && s'.log.published == s.log.published + (if ok then multiset{NewTask(c)} else multiset{})
  {
  }

  lemma AnswerFields(s: State, t: Task, next: seq<Url>)
    requires t in s.held
    ensures Enabled(s, Emit(t, next))
    ensures var s' := Next(s, Emit(t, next));
      && SameKeys(s, s') && s'.ready == s.ready && s'.held + s'.done == s.held + s.done && t in s'.done
      && s'.results == s.results + multiset{UrlData(t.url, t.depth, next)}
  {
  }

  lemma AckFields(s: State, t: Task, e: Event)
    requires (e == Ack(t) && t in s.done) || (e == CrawlFails(t) && t in s.held)
    ensures Enabled(s, e)
    ensures var s' := Next(s, e);
      && SameKeys(s, s') && s'.ready == s.ready && s'.results == s.results
      && s'.held + s'.done == s.held + s.done - multiset{t}
  {
    if e.Ack? {
      assert s.held + (s.done - multiset{t}) == s.held + s.done - multiset{t};
    } else {
      assert s.held - multiset{t} + s.done == s.held + s.done - multiset{t};
    }
  }

  // What a consumer does with one link.

  /** What Redis and the broker do when a consumer visits a link. */
  datatype Replies = Replies(
    answers: bool,                          // to BF.EXISTS
    falsePositive: bool,                    // by which an unknown link passes for known
    adds: bool,                             // on BF.ADD
    accepts: bool)                          // the broker, the message

  /** Event `p` looks up link `k`. */
  ghost predicate LinkChecked(ss: seq<State>, es: seq<Event>, i: nat, p: nat, data: UrlData, jobDepth: int,
                              links: seq<Url>, k: nat, replies: Replies)
    requires k < |links|
  {
    && p < |es| && p + 1 < |ss| && es[p].By? && es[p].i == i && es[p].act.Check?
    && i < |ss[p].consumers| && ss[p].consumers[i] == Expanding(data, jobDepth, links[k..])
    && (es[p].act.reply.Unavailable? <==> !replies.answers)
    && (es[p].act.reply.Absent? <==> replies.answers && !replies.falsePositive && links[k] !in ss[p].filter)
    && i < |ss[p + 1].consumers|
    && (!es[p].act.reply.Absent? ==> ss[p + 1].consumers[i] == Expanding(data, jobDepth, links[k + 1..]))
  }

  /** Event `a` adds the link to the filter, if Redis does. */
  ghost predicate LinkAdded(ss: seq<State>, es: seq<Event>, i: nat, a: nat, u: Url, replies: Replies) {
    && a < |es| && a + 1 < |ss| && es[a] == By(i, Add(replies.adds))
    && (replies.adds ==> u in ss[a + 1].filter)
  }

  /** Event `q` publishes `t`, if the broker accepts it. */
  ghost predicate LinkPublished(ss: seq<State>, es: seq<Event>, i: nat, q: nat, t: Task, replies: Replies) {
    && q < |es| && q + 1 < |ss| && es[q] == By(i, Publish(replies.accepts))
    && var added := if replies.accepts then multiset{t} else multiset{};
    && ss[q + 1].log.published == ss[q].log.published + added && ss[q + 1].ready == ss[q].ready + added
  }

  /** After `p`, the link `u` is added and then published as `t`. */
  ghost predicate LinkClaimed(ss: seq<State>, es: seq<Event>, i: nat, p: nat, u: Url, t: Task, replies: Replies) {
    exists a, q :: p < a < q && LinkAdded(ss, es, i, a, u, replies) && LinkPublished(ss, es, i, q, t, replies)
  }

  /** Since `from` consumer `i` has looked up link `k` and, if the filter did not know it, added and
      published it, one deeper than the page it is on. */
  ghost predicate LinkServed(ss: seq<State>, es: seq<Event>, i: nat, from: nat, data: UrlData, jobDepth: int,
                             links: seq<Url>, k: nat, replies: Replies)
    requires k < |links|
  {
    exists p :: from <= p && LinkChecked(ss, es, i, p, data, jobDepth, links, k, replies) &&
      (es[p].act.reply.Absent? ==>
         LinkClaimed(ss, es, i, p, links[k], Task(links[k], data.depth + 1, jobDepth), replies))
  }

  lemma RunLength(ss: seq<State>, es: seq<Event>)
    requires IsRun(ss, es)
    ensures |ss| == |es| + 1
  {
  }

  lemma JustAdded(ss: seq<State>, es: seq<Event>, i: nat, u: Url, replies: Replies)
    requires |es| > 0 && |ss| == |es| + 1 && Last(es) == By(i, Add(replies.adds))
    requires replies.adds ==> u in Last(ss).filter
    ensures LinkAdded(ss, es, i, |es| - 1, u, replies)
  {
  }

  lemma JustPublished(ss: seq<State>, ss': seq<State>, es: seq<Event>, i: nat, t: Task, replies: Replies)
    requires |ss| > 0 && |ss'| == |ss| + 1 == |es| + 1 && ss <= ss' && Last(es) == By(i, Publish(replies.accepts))
    requires var added := if replies.accepts then multiset{t} else multiset{};
      Last(ss').log.published == Last(ss).log.published + added && Last(ss').ready == Last(ss).ready + added
    ensures LinkPublished(ss', es, i, |es| - 1, t, replies)
  {
  }

  lemma CheckedStays(ss: seq<State>, es: seq<Event>, ss': seq<State>, es': seq<Event>, i: nat, p: nat,
                     data: UrlData, jobDepth: int, links: seq<Url>, k: nat, replies: Replies)
    requires k < |links| && LinkChecked(ss, es, i, p, data, jobDepth, links, k, replies) && ss <= ss' && es <= es'
    ensures LinkChecked(ss', es', i, p, data, jobDepth, links, k, replies)
  {
  }

  lemma AddedStays(ss: seq<State>, es: seq<Event>, ss': seq<State>, es': seq<Event>, i: nat, a: nat,
                   u: Url, replies: Replies)
    requires LinkAdded(ss, es, i, a, u, replies) && ss <= ss' && es <= es'
    ensures LinkAdded(ss', es', i, a, u, replies)
  {
  }

  lemma PublishedStays(ss: seq<State>, es: seq<Event>, ss': seq<State>, es': seq<Event>, i: nat, q: nat,
                       t: Task, replies: Replies)
    requires LinkPublished(ss, es, i, q, t, replies) && ss <= ss' && es <= es'
    ensures LinkPublished(ss', es', i, q, t, replies)
  {
  }

  lemma ClaimedStays(ss: seq<State>, es: seq<Event>, ss': seq<State>, es': seq<Event>, i: nat, p: nat,
                     u: Url, t: Task, replies: Replies)
    requires LinkClaimed(ss, es, i, p, u, t, replies) && ss <= ss' && es <= es'
    ensures LinkClaimed(ss', es', i, p, u, t, replies)
  {
    hide LinkAdded, LinkPublished;
    var a, q :| p < a < q && LinkAdded(ss, es, i, a, u, replies) && LinkPublished(ss, es, i, q, t, replies);
    AddedStays(ss, es, ss', es', i, a, u, replies);
    PublishedStays(ss, es, ss', es', i, q, t, replies);
  }

  lemma ServedStays(ss: seq<State>, es: seq<Event>, ss': seq<State>, es': seq<Event>, i: nat, from: nat, since: nat,
                    data: UrlData, jobDepth: int, links: seq<Url>, k: nat, replies: Replies)
    requires k < |links| && LinkServed(ss, es, i, from, data, jobDepth, links, k, replies)
    requires ss <= ss' && es <= es' && since <= from
    ensures LinkServed(ss', es', i, since, data, jobDepth, links, k, replies)
  {
    hide LinkClaimed;
    var t := Task(links[k], data.depth + 1, jobDepth);
    var p :| from <= p && LinkChecked(ss, es, i, p, data, jobDepth, links, k, replies) &&
      (es[p].act.reply.Absent? ==> LinkClaimed(ss, es, i, p, links[k], t, replies));
    CheckedStays(ss, es, ss', es', i, p, data, jobDepth, links, k, replies);
    if es[p].act.reply.Absent? {
      ClaimedStays(ss, es, ss', es', i, p, links[k], t, replies);
    }
  }

  /** The first `n` links are served. */
  ghost predicate AllServed(ss: seq<State>, es: seq<Event>, i: nat, from: nat, data: UrlData, jobDepth: int,
                            links: seq<Url>, n: nat, replies: nat -> Replies)
    requires n <= |links|
  {
    forall k | 0 <= k < n :: LinkServed(ss, es, i, from, data, jobDepth, links, k, replies(k))
  }

  lemma AllStay(ss: seq<State>, es: seq<Event>, ss': seq<State>, es': seq<Event>, i: nat, from: nat, since: nat,
                data: UrlData, jobDepth: int, links: seq<Url>, n: nat, replies: nat -> Replies)
    requires n <= |links| && AllServed(ss, es, i, from, data, jobDepth, links, n, replies)
    requires ss <= ss' && es <= es' && since <= from
    ensures AllServed(ss', es', i, since, data, jobDepth, links, n, replies)
  {
    hide LinkServed;
    forall k | 0 <= k < n
      ensures LinkServed(ss', es', i, since, data, jobDepth, links, k, replies(k))
    {
      ServedStays(ss, es, ss', es', i, from, since, data, jobDepth, links, k, replies(k));
    }
  }

  lemma OneMoreServed(ss: seq<State>, es: seq<Event>, ss': seq<State>, es': seq<Event>, i: nat, from: nat, at: nat,
                      data: UrlData, jobDepth: int, links: seq<Url>, n: nat, replies: nat -> Replies)
    requires n < |links| && AllServed(ss, es, i, from, data, jobDepth, links, n, replies)
    requires LinkServed(ss', es', i, at, data, jobDepth, links, n, replies(n))
    requires ss <= ss' && es <= es' && from <= at
    ensures AllServed(ss', es', i, from, data, jobDepth, links, n + 1, replies)
  {
    hide LinkServed;
    AllStay(ss, es, ss', es', i, from, from, data, jobDepth, links, n, replies);
    ServedStays(ss', es', ss', es', i, at, from, data, jobDepth, links, n, replies(n));
  }

  lemma NoneServed(ss: seq<State>, es: seq<Event>, i: nat, from: nat, data: UrlData, jobDepth: int,
                   links: seq<Url>, replies: nat -> Replies)
    ensures AllServed(ss, es, i, from, data, jobDepth, links, 0, replies)
  {
  }

  /** Since `from` consumer `i` has read max depth and, if it could and that is deeper than the page,
      served the first `limit` links of the page with that max depth; otherwise it looked up none. */
  ghost predicate Expanded(ss: seq<State>, es: seq<Event>, i: nat, from: nat, data: UrlData, readable: bool,
                           limit: nat, replies: nat -> Replies)
    requires limit <= |data.nextUrls|
  {
    exists r :: from <= r < |es| && r < |ss| && es[r] == By(i, ReadDepth(readable, limit)) &&
      var key := ss[r].maxDepth;
      if readable && key.Some? && data.depth < key.value
      then AllServed(ss, es, i, r, data, key.value, data.nextUrls[..limit], limit, replies)
      else forall m | r < m < |es| && es[m].By? && es[m].i == i :: !es[m].act.Check?
  }

  class Cluster {
    // Redis
    var urlBloom: set<Url>
    var activeJob: Option<Url>
    var maxDepth: Option<int>
    // Every value written to crawler:last_activity_time
    var stamps: seq<int>
    // RabbitMQ: queue_1 .. queue_3, the result queue, and unacknowledged deliveries
    var queues: seq<multiset<Task>>
    var resultQueue: multiset<UrlData>
    // Results that the broker has pushed to the consumers' clients, and counts as acknowledged
    var delivered: multiset<UrlData>
    var unacked: multiset<Task>
    // Unacknowledged deliveries that cannot be decoded
    var malformed: nat
    // The channel to the batcher
    var dbchan: seq<Body>
    // The consistent-hashing exchange
    const route: Url -> nat

    // The run of the protocol performed so far
    ghost var states: seq<State>
    ghost var events: seq<Event>
    // The events among them that the caller itself performed, everybody else's left out
    ghost var own: seq<Event>

    ghost predicate Recorded()
      reads this
    {
      |states| > 0 && IsRun(states, events) && Init(states[0], |states[0].consumers|)
    }

    ghost function Model(): State
      reads this
      requires Recorded()
    {
      Last(states)
    }

    /** The shared state is the one the recorded run ends in. */
    ghost predicate Valid()
      reads this
    {
      && Recorded()
      && |queues| == 3 && Routed(queues, route)
      && Model().filter == urlBloom
      && Model().active == activeJob
      && Model().maxDepth == maxDepth
      && Model().ready == AllQueued(queues)
      && Model().results == resultQueue + delivered
      && Model().held + Model().done == unacked
    }

    constructor (n: nat, route: Url -> nat)
      ensures Valid() && Init(Model(), n) && events == own == []
      ensures dbchan == [] && stamps == [] && malformed == 0 && delivered == multiset{}
    {
      urlBloom, activeJob, maxDepth := {}, None, None;
      queues, unacked, dbchan := [multiset{}, multiset{}, multiset{}], multiset{}, [];
      resultQueue, delivered := multiset{}, multiset{};
      this.route, stamps, malformed := route, [], 0;
      states := [State(multiset{}, multiset{}, multiset{}, multiset{}, seq(n, _ => Idle), multiset{},
                       {}, None, None, NO_LOG)];
      events, own := [], [];
    }

    ghost method Record(e: Event)
      requires Recorded() && Enabled(Model(), e)
      modifies this`states, this`events, this`own
      ensures Recorded() && Model() == Next(old(Model()), e)
      ensures states == old(states) + [Model()] && events == old(events) + [e] && own == old(own) + [e]
    {
      LongerRun(states, events, e);
      states, events, own := states + [Next(Model(), e)], events + [e], own + [e];
    }

    /** The run has only been continued. */
    twostate predicate Continued()
      reads this
    {
      old(states) <= states && old(events) <= events
    }

    /** What was sent to the batcher and stamped stays sent and stamped. */
    twostate predicate Sent()
      reads this
    {
      old(dbchan) <= dbchan && old(stamps) <= stamps
    }

    /** Whatever the other consumers, the handlers, the workers and the watchdog may do between
        two operations of consumer `i`.  Callers rely on the contract alone. */
    method Interference(i: nat)
      requires Valid() && i < |Model().consumers|
      modifies this
      ensures Valid() && Continued() && Sent() && own == old(own)
      ensures i < |Model().consumers| && Model().consumers[i] == old(Model().consumers[i])
      ensures forall k | |old(events)| <= k < |events| && events[k].By? :: events[k].i != i
    {
    }

    /** BF.EXISTS: nothing added is ever reported absent; what was not may still be reported present.
        `answers` says whether Redis answers. */
    method CheckUrlDuplicate(i: nat, url: Url, answers: bool, falsePositive: bool) returns (reply: Reply)
      requires Valid() && i < |Model().consumers| && Model().consumers[i].Expanding?
      requires Model().consumers[i].rest != [] && Model().consumers[i].rest[0] == url
      modifies this`states, this`events, this`own
      ensures Valid() && Continued() && events == old(events) + [By(i, Check(reply))]
      ensures reply.Unavailable? <==> !answers
      ensures reply.Absent? <==> answers && !falsePositive && url !in urlBloom
      ensures i < |Model().consumers|
      ensures var c := old(Model().consumers[i]);
              Model().consumers[i] ==
              if reply.Absent? then Checked(c.r, c.maxDepth, c.rest[1..], url)
              else Expanding(c.r, c.maxDepth, c.rest[1..])
    {
      reply := if !answers then Unavailable else if url in urlBloom || falsePositive then Present else Absent;
      Record(By(i, Check(reply)));
    }

    /** BF.ADD, which works if `ok`; the consumer ignores its error. */
    method AddToBloom(i: nat, url: Url, ok: bool)
      requires Valid() && i < |Model().consumers|
      requires Model().consumers[i].Checked? && Model().consumers[i].url == url
      modifies this`urlBloom, this`states, this`events, this`own
      ensures Valid() && Continued() && events == old(events) + [By(i, Add(ok))]
      ensures urlBloom == if ok then old(urlBloom) + {url} else old(urlBloom)
      ensures i < |Model().consumers|
      ensures var c := old(Model().consumers[i]);
              Model().consumers[i] == Claimed(c.r, c.maxDepth, c.rest, url)
    {
      if ok {
        urlBloom := urlBloom + {url};
      }
      Record(By(i, Add(ok)));
    }

    /** Publishes a crawl message, if the broker `accepts` it; the exchange routes it by its URL to
        one of the queues. */
    method InsertMessage(url: Url, currentDepth: int, maxDepth: int, accepts: bool) returns (ok: bool)
      requires |queues| == 3 && Routed(queues, route)
      modifies this`queues
      ensures |queues| == 3 && Routed(queues, route)
      ensures ok == accepts
      ensures AllQueued(queues) == AllQueued(old(queues))
              + (if ok then multiset{Task(url, currentDepth, maxDepth)} else multiset{})
      ensures if ok then Task(url, currentDepth, maxDepth) in queues[route(url) % 3] else queues == old(queues)
    {
      ok := accepts;
      if ok {
        var q := route(url) % 3;
        queues := queues[q := queues[q] + multiset{Task(url, currentDepth, maxDepth)}];
      }
    }

    /** One round of the loop over the links, the one for link `k`. */
    method VisitLink(i: nat, data: UrlData, jobDepth: int, links: seq<Url>, k: nat, replies: Replies,
                     ghost from: nat, ghost readable: bool, ghost limit: nat)
      requires Valid() && i < |Model().consumers| && from <= |events| && k < |links|
      requires Model().consumers[i] == Expanding(data, jobDepth, links[k..])
      requires Uninterrupted(events, i, from, readable, limit)
      modifies this
      ensures Valid() && Continued() && Sent()
      ensures i < |Model().consumers| && Model().consumers[i] == Expanding(data, jobDepth, links[k + 1..])
      ensures Uninterrupted(events, i, from, readable, limit)
      ensures LinkServed(states, events, i, |old(events)|, data, jobDepth, links, k, replies)
    {
      hide Step, IsRun, Moved, Init, Next, Enabled, AllQueued, Routed, LinkChecked, LinkClaimed;
      Interference(i);
      ghost var p := |events|;
      var reply := CheckLink(i, data, jobDepth, links, k, replies);
      assert Uninterrupted(events, i, from, readable, limit);
      ghost var ss, es := states, events;
      if reply.Absent? {
        ClaimLink(i, data, jobDepth, links[k], links[k + 1..], replies, from, readable, limit, p);
      }
      CheckedStays(ss, es, states, events, i, p, data, jobDepth, links, k, replies);
    }

    method CheckLink(i: nat, data: UrlData, jobDepth: int, links: seq<Url>, k: nat, replies: Replies)
      returns (reply: Reply)
      requires Valid() && i < |Model().consumers| && k < |links|
      requires Model().consumers[i] == Expanding(data, jobDepth, links[k..])
      modifies this`states, this`events, this`own
      ensures Valid() && Continued() && events == old(events) + [By(i, Check(reply))]
      ensures i < |Model().consumers|
      ensures Model().consumers[i] == if reply.Absent? then Checked(data, jobDepth, links[k + 1..], links[k])
                                      else Expanding(data, jobDepth, links[k + 1..])
      ensures LinkChecked(states, events, i, |old(events)|, data, jobDepth, links, k, replies)
    {
      hide Step, IsRun, Moved, Init, Next, Enabled, AllQueued, Routed;
      assert links[k..][0] == links[k] && links[k..][1..] == links[k + 1..];
      RunLength(states, events);
      reply := CheckUrlDuplicate(i, links[k], replies.answers, replies.falsePositive);
      RunLength(states, events);
      assert states[|old(events)|] == old(Model());
    }

    /** The link is not known yet: it is added to the filter and published. */
    method ClaimLink(i: nat, data: UrlData, jobDepth: int, nextUrl: Url, ghost rest: seq<Url>, replies: Replies,
                     ghost from: nat, ghost readable: bool, ghost limit: nat, ghost p: nat)
      requires Valid() && i < |Model().consumers| && from <= |events| && p < |events|
      requires Model().consumers[i] == Checked(data, jobDepth, rest, nextUrl)
      requires Uninterrupted(events, i, from, readable, limit)
      modifies this
      ensures Valid() && Continued() && Sent()
      ensures i < |Model().consumers| && Model().consumers[i] == Expanding(data, jobDepth, rest)
      ensures Uninterrupted(events, i, from, readable, limit)
      ensures LinkClaimed(states, events, i, p, nextUrl, Task(nextUrl, data.depth + 1, jobDepth), replies)
    {
      hide Step, IsRun, Moved, Init, Next, Enabled, AllQueued, Routed, LinkAdded, LinkPublished;
      AddLink(i, data, jobDepth, nextUrl, rest, replies, from, readable, limit);
      ghost var a, ss, es := |events| - 1, states, events;
      Interference(i);
      PublishLink(i, data, jobDepth, nextUrl, rest, replies);
      AddedStays(ss, es, states, events, i, a, nextUrl, replies);
    }

    method AddLink(i: nat, data: UrlData, jobDepth: int, nextUrl: Url, ghost rest: seq<Url>, replies: Replies,
                   ghost from: nat, ghost readable: bool, ghost limit: nat)
      requires Valid() && i < |Model().consumers| && from <= |events|
      requires Model().consumers[i] == Checked(data, jobDepth, rest, nextUrl)
      requires Uninterrupted(events, i, from, readable, limit)
      modifies this
      ensures Valid() && Continued() && Sent() && |events| > |old(events)|
      ensures i < |Model().consumers| && Model().consumers[i] == Claimed(data, jobDepth, rest, nextUrl)
      ensures Uninterrupted(events, i, from, readable, limit)
      ensures LinkAdded(states, events, i, |events| - 1, nextUrl, replies)
    {
      hide Step, IsRun, Moved, Init, Next, Enabled, AllQueued, Routed, LinkAdded, Uninterrupted;
      ghost var before := events;
      Interference(i);
      AddAtOnce(i, data, jobDepth, nextUrl, rest, replies);
      StillUninterrupted(before, events, i, from, readable, limit);
    }

    method AddAtOnce(i: nat, data: UrlData, jobDepth: int, nextUrl: Url, ghost rest: seq<Url>, replies: Replies)
      requires Valid() && i < |Model().consumers|
      requires Model().consumers[i] == Checked(data, jobDepth, rest, nextUrl)
      modifies this`urlBloom, this`states, this`events, this`own
      ensures Valid() && Continued() && events == old(events) + [By(i, Add(replies.adds))]
      ensures i < |Model().consumers| && Model().consumers[i] == Claimed(data, jobDepth, rest, nextUrl)
      ensures LinkAdded(states, events, i, |events| - 1, nextUrl, replies)
    {
      hide Step, IsRun, Moved, Init, Next, Enabled, AllQueued, Routed, LinkAdded;
      AddToBloom(i, nextUrl, replies.adds);
      RunLength(states, events);
      JustAdded(states, events, i, nextUrl, replies);
    }

    /** The consumer publishes the link it has just claimed; a failure is only logged. */
    method PublishLink(i: nat, data: UrlData, jobDepth: int, nextUrl: Url, ghost rest: seq<Url>, replies: Replies)
      requires Valid() && i < |Model().consumers|
      requires Model().consumers[i] == Claimed(data, jobDepth, rest, nextUrl)
      modifies this`queues, this`states, this`events, this`own
      ensures Valid() && Continued() && events == old(events) + [By(i, Publish(replies.accepts))]
      ensures i < |Model().consumers| && Model().consumers[i] == Expanding(data, jobDepth, rest)
      ensures LinkPublished(states, events, i, |old(events)|, Task(nextUrl, data.depth + 1, jobDepth), replies)
      ensures replies.accepts ==> Task(nextUrl, data.depth + 1, jobDepth) in queues[route(nextUrl) % 3]
    {
      hide Step, IsRun, Init, AllQueued, Routed, Enabled, Next, LinkPublished;
      RunLength(states, events);
      ghost var ss := states;
      var ok := InsertMessage(nextUrl, data.depth + 1, jobDepth, replies.accepts);
      PublishFields(Model(), i, ok);
      Record(By(i, Publish(ok)));
      RunLength(states, events);
      JustPublished(ss, states, events, i, Task(nextUrl, data.depth + 1, jobDepth), replies);
    }

    /** The consumer reads the max-depth key.  If it is missing or cannot be read, the depth of
        the page itself is used, so that nothing is expanded. */
    method ReadMaxDepth(i: nat, data: UrlData, readable: bool, limit: nat) returns (jobDepth: int)
      requires Valid() && i < |Model().consumers| && Model().consumers[i] == Received(data)
      requires limit <= |data.nextUrls|
      modifies this`states, this`events, this`own
      ensures Valid() && Continued()
      ensures events == old(events) + [By(i, ReadDepth(readable, limit))]
      ensures jobDepth == if readable && maxDepth.Some? then maxDepth.value else data.depth
      ensures i < |Model().consumers|
      ensures Model().consumers[i] ==
              if data.depth < jobDepth then Expanding(data, jobDepth, data.nextUrls[..limit]) else Idle
    {
      jobDepth := if readable && maxDepth.Some? then maxDepth.value else data.depth;
      Record(By(i, ReadDepth(readable, limit)));
    }

    method FinishLinks(i: nat)
      requires Valid() && i < |Model().consumers|
      requires Model().consumers[i].Expanding? && Model().consumers[i].rest == []
      modifies this`states, this`events, this`own
      ensures Valid() && Continued() && events == old(events) + [By(i, Finish)]
      ensures i < |Model().consumers| && Model().consumers[i] == Idle
    {
      Record(By(i, Finish));
    }

    /** The loop over the kept links. */
    method ExpandLinks(i: nat, data: UrlData, jobDepth: int, limit: nat, replies: nat -> Replies,
                       ghost from: nat, ghost readable: bool)
      requires Valid() && i < |Model().consumers| && from <= |events| && limit <= |data.nextUrls|
      requires Model().consumers[i] == Expanding(data, jobDepth, data.nextUrls[..limit])
      requires Uninterrupted(events, i, from, readable, limit)
      modifies this
      ensures Valid() && Continued() && Sent()
      ensures i < |Model().consumers| && Model().consumers[i] == Idle
      ensures Uninterrupted(events, i, from, readable, limit)
      ensures AllServed(states, events, i, |old(events)|, data, jobDepth, data.nextUrls[..limit], limit, replies)
    {
      hide Step, IsRun, Moved, Init, Next, Enabled, AllQueued, Routed, AllServed, Uninterrupted;
      var links := data.nextUrls[..limit];
      ghost var start := |events|;
      var k := 0;
      NoneServed(states, events, i, start, data, jobDepth, links, replies);
      while k < |links|
        invariant 0 <= k <= |links|
        invariant Valid() && Continued() && Sent()
        invariant i < |Model().consumers| && Model().consumers[i] == Expanding(data, jobDepth, links[k..])
        invariant Uninterrupted(events, i, from, readable, limit)
        invariant AllServed(states, events, i, start, data, jobDepth, links, k, replies)
      {
        ghost var ss, es := states, events;
        VisitLink(i, data, jobDepth, links, k, replies(k), from, readable, limit);
        OneMoreServed(ss, es, states, events, i, start, |es|, data, jobDepth, links, k, replies);
        k := k + 1;
      }
      ghost var ss, es := states, events;
      CloseLinks(i, from, readable, limit);
      AllStay(ss, es, states, events, i, start, start, data, jobDepth, links, limit, replies);
    }

    /** After the last link. */
    method CloseLinks(i: nat, ghost from: nat, ghost readable: bool, ghost limit: nat)
      requires Valid() && i < |Model().consumers| && from <= |events|
      requires Model().consumers[i].Expanding? && Model().consumers[i].rest == []
      requires Uninterrupted(events, i, from, readable, limit)
      modifies this`states, this`events, this`own
      ensures Valid() && Continued()
      ensures i < |Model().consumers| && Model().consumers[i] == Idle
      ensures Uninterrupted(events, i, from, readable, limit)
    {
      hide Step, IsRun, Moved, Init, Next, Enabled, AllQueued, Routed;
      FinishLinks(i);
    }

    /** Handles the result message that consumer `i` has taken from the queue at time `now`,
        `stamped` saying whether Redis accepts the activity stamp, `readable` whether it answers the
        read of the max-depth key, and `replies` what Redis and the broker do at each link.  It is a
        run of the protocol, with everybody else's steps in between, in which the consumer goes from
        receiving the result to being idle, looks up exactly the kept links, in order, and publishes
        those that the filter does not know. */
    method ProcessResult(i: nat, body: Body, dropRate: real, readable: bool, now: int, stamped: bool,
                         replies: nat -> Replies)
      requires Valid() && i < |Model().consumers| && 0.0 <= dropRate <= 1.0
      requires Model().consumers[i] == match body case Json(data) => Received(data) case Malformed => Idle
      modifies this
      ensures Valid() && Continued()
      ensures i < |Model().consumers| && Model().consumers[i] == Idle
      ensures old(dbchan) + [body] <= dbchan
      ensures old(stamps) + (if stamped then [now] else []) <= stamps
      ensures body.Malformed? ==> events == old(events) && stamps == old(stamps) + if stamped then [now] else []
      ensures body.Json? ==>
        var limit := Kept(|body.data.nextUrls|, dropRate);
        && Uninterrupted(events, i, |old(events)|, readable, limit)
        && Served(states, events, i, |old(events)|, body.data, readable, limit)
        && Expanded(states, events, i, |old(events)|, body.data, readable, limit, replies)
    {
      hide IsRun, Init, Next, Enabled, AllQueued, Routed, Uninterrupted, Served, Expanded, Kept;
      dbchan := dbchan + [body];
      if stamped {
        stamps := stamps + [now];
      }
      if body.Malformed? {
        return;
      }
      ServeResult(i, body.data, Kept(|body.data.nextUrls|, dropRate), readable, replies);
    }

    /** The part of `ProcessResult` after decoding. */
    method ServeResult(i: nat, data: UrlData, limit: nat, readable: bool, replies: nat -> Replies)
      requires Valid() && i < |Model().consumers| && Model().consumers[i] == Received(data)
      requires limit <= |data.nextUrls|
      modifies this
      ensures Valid() && Continued() && Sent()
      ensures i < |Model().consumers| && Model().consumers[i] == Idle
      ensures Uninterrupted(events, i, |old(events)|, readable, limit)
      ensures Served(states, events, i, |old(events)|, data, readable, limit)
      ensures Expanded(states, events, i, |old(events)|, data, readable, limit, replies)
    {
      hide Step, IsRun, Moved, Served, Expanded, AllQueued, Routed, Init, Next, Enabled;
      ghost var from := |events|;
      RunLength(states, events);
      assert states[from] == Model();
      Interference(i);
      ExpandResult(i, data, limit, readable, replies, from);
      IdleMeansServed(states, events, i, from, data, readable, limit);
    }

    /** Reads max depth, and goes through the links if that asks for it. */
    method ExpandResult(i: nat, data: UrlData, limit: nat, readable: bool, replies: nat -> Replies, ghost from: nat)
      requires Valid() && i < |Model().consumers| && Model().consumers[i] == Received(data)
      requires limit <= |data.nextUrls| && from <= |events| && Uninterrupted(events, i, from, readable, limit)
      modifies this
      ensures Valid() && Continued() && Sent()
      ensures i < |Model().consumers| && Model().consumers[i] == Idle
      ensures Uninterrupted(events, i, from, readable, limit)
      ensures Expanded(states, events, i, from, data, readable, limit, replies)
    {
      hide Step, IsRun, Moved, AllServed, AllQueued, Routed, Init, Next, Enabled;
      ghost var r, key := |events|, maxDepth;
      RunLength(states, events);
      assert states[r] == Model();
      var jobDepth := ReadMaxDepth(i, data, readable, limit);
      assert events[r] == By(i, ReadDepth(readable, limit)) && states[r].maxDepth == key;
      ghost var ss, es := states, events;
      if data.depth < jobDepth {
        ExpandLinks(i, data, jobDepth, limit, replies, from, readable);
        AllStay(states, events, states, events, i, |es|, r, data, jobDepth, data.nextUrls[..limit], limit, replies);
      }
      assert events[r] == By(i, ReadDepth(readable, limit)) && states[r].maxDepth == key;
    }

    // ---- The result queue and its consumers

    /** The broker pushes a result to a client and takes it for acknowledged. */
    method PushResult(r: UrlData)
      requires Valid() && r in resultQueue
      modifies this`resultQueue, this`delivered
      ensures Valid() && Continued()
      ensures resultQueue == old(resultQueue) - multiset{r} && delivered == old(delivered) + multiset{r}
    {
      hide IsRun, Init, AllQueued, Routed;
      resultQueue, delivered := resultQueue - multiset{r}, delivered + multiset{r};
    }

    /** Consumer `i` takes a result that was pushed. */
    method TakeResult(i: nat, r: UrlData)
      requires Valid() && r in delivered && i < |Model().consumers| && Model().consumers[i].Idle?
      modifies this`delivered, this`states, this`events, this`own
      ensures Valid() && Continued() && events == old(events) + [By(i, Consume(r))]
      ensures delivered == old(delivered) - multiset{r}
      ensures i < |Model().consumers| && Model().consumers[i] == Received(r)
    {
      hide IsRun, Init, AllQueued, Routed, Next, Enabled;
      ConsumeFields(Model(), i, r);
      assert resultQueue + delivered - multiset{r} == resultQueue + (delivered - multiset{r});
      delivered := delivered - multiset{r};
      Record(By(i, Consume(r)));
    }

    // ---- Request handlers

    /** Whatever everybody else may do between two operations of a request handler, which holds
        `mine` itself.  Callers rely on the contract alone. */
    method Others(ghost mine: multiset<Seeding>)
      requires Valid() && mine <= Model().handlers
      modifies this
      ensures Valid() && Continued() && mine <= Model().handlers && own == old(own)
    {
    }

    /** The job lock and its parameters, as one step: fails if a job is active. */
    method StartJob(url: Url, depth: int) returns (started: bool)
      requires Valid()
      modifies this`activeJob, this`maxDepth, this`states, this`events, this`own
      ensures Valid() && Continued()
      ensures started == old(activeJob.None?)
      ensures !started ==> unchanged(this)
      ensures started ==>
        && activeJob == Some(url) && maxDepth == Some(depth)
        && events == old(events) + [Event.StartJob(url, depth)] && own == old(own) + [Event.StartJob(url, depth)]
        && Seeding(url, depth, false) in Model().handlers
    {
      started := activeJob.None?;
      if started {
        activeJob, maxDepth := Some(url), Some(depth);
        Record(Event.StartJob(url, depth));
      }
    }

    /** The seed is given up: the keys of the job are cleared. */
    method AbandonJob(h: Seeding)
      requires Valid() && h in Model().handlers
      modifies this`activeJob, this`maxDepth, this`states, this`events, this`own
      ensures Valid() && Continued() && events == old(events) + [SeedFail(h)] && own == old(own) + [SeedFail(h)]
      ensures activeJob == None && maxDepth == None
    {
      activeJob, maxDepth := None, None;
      Record(SeedFail(h));
    }

    /** Adds the seed to the filter, if Redis does; the handler only logs an error. */
    method AddSeed(h: Seeding, ok: bool)
      requires Valid() && h in Model().handlers && !h.added
      modifies this`urlBloom, this`states, this`events, this`own
      ensures Valid() && Continued() && events == old(events) + [SeedAdd(h, ok)] && own == old(own) + [SeedAdd(h, ok)]
      ensures urlBloom == if ok then old(urlBloom) + {h.url} else old(urlBloom)
      ensures h.(added := true) in Model().handlers
    {
      if ok {
        urlBloom := urlBloom + {h.url};
      }
      Record(SeedAdd(h, ok));
    }

    method PublishSeed(h: Seeding, accepts: bool) returns (ok: bool)
      requires Valid() && h in Model().handlers && h.added
      modifies this`queues, this`states, this`events, this`own
      ensures Valid() && Continued()
      ensures !ok ==> queues == old(queues)
      ensures ok ==> Task(h.url, 0, h.maxDepth) in queues[route(h.url) % 3]
      ensures ok == accepts
      ensures own == old(own) + if ok then [SeedPublish(h)] else []
      ensures if ok then events == old(events) + [SeedPublish(h)]
              else events == old(events) && Model() == old(Model())
    {
      hide IsRun, Init, AllQueued;
      ok := InsertMessage(h.url, 0, h.maxDepth, accepts);
      if ok {
        Record(SeedPublish(h));
      }
    }

    /** The keys are as they were after `from` events, unless somebody has cleared them since. */
    ghost predicate KeysAsAt(from: nat)
      reads this
      requires Valid()
    {
      && from < |states|
      && ((forall m | from <= m < |events| :: !Clears(events[m])) ==>
            activeJob == states[from].active && maxDepth == states[from].maxDepth)
    }

    lemma KeysHeld(from: nat)
      requires Valid() && from < |states| && states[from].active.Some?
      ensures KeysAsAt(from)
    {
      hide Step, Init, AllQueued, Routed;
      if forall m | from <= m < |events| :: !Clears(events[m]) {
        KeysStay(states, events, from, |events|);
      }
    }

    /** The part of the request after the job has been locked: add the seed to the filter,
        ignoring an error, and publish it; give the job up if that is not possible.  `adds` and
        `accepts` say whether Redis takes the seed and the broker its message. */
    method SeedJob(h: Seeding, brokerUp: bool, channelUp: bool, adds: bool, accepts: bool) returns (status: Status)
      requires Valid() && h in Model().handlers && !h.added
      modifies this
      ensures Valid() && Continued() && |events| > |old(events)|
      ensures status == Accepted <==> brokerUp && channelUp && accepts
      ensures status != Accepted ==> status == if brokerUp then InternalError else ServiceUnavailable
      ensures own == old(own) +
        if !brokerUp || !channelUp then [SeedFail(h)]
        else [SeedAdd(h, adds), if accepts then SeedPublish(h.(added := true)) else SeedFail(h.(added := true))]
      ensures Last(events) == Last(own)
      ensures status == Accepted ==> Task(h.url, 0, h.maxDepth) in queues[route(h.url) % 3]
      ensures status != Accepted ==> activeJob == None && maxDepth == None
    {
      hide IsRun, Step, Init, Next, Enabled, AllQueued, Routed;
      if !brokerUp || !channelUp {
        GiveUpSeed(h);
        return if brokerUp then InternalError else ServiceUnavailable;
      }
      status := QueueSeed(h, adds, accepts);
    }

    /** ... and the part of it with the broker up. */
    method QueueSeed(h: Seeding, adds: bool, accepts: bool) returns (status: Status)
      requires Valid() && h in Model().handlers && !h.added
      modifies this
      ensures Valid() && Continued() && |events| > |old(events)|
      ensures status == if accepts then Accepted else InternalError
      ensures own == old(own)
        + [SeedAdd(h, adds), if accepts then SeedPublish(h.(added := true)) else SeedFail(h.(added := true))]
      ensures Last(events) == Last(own)
      ensures if accepts then Task(h.url, 0, h.maxDepth) in queues[route(h.url) % 3]
        else activeJob == None && maxDepth == None
    {
      hide IsRun, Step, Init, Next, Enabled, AllQueued, Routed;
      Others(multiset{h});
      AddSeed(h, adds);
      status := SendLater(h.(added := true), accepts);
    }

    method SendLater(h: Seeding, accepts: bool) returns (status: Status)
      requires Valid() && h in Model().handlers && h.added
      modifies this
      ensures Valid() && Continued() && |events| > |old(events)|
      ensures status == if accepts then Accepted else InternalError
      ensures own == old(own) + [if accepts then SeedPublish(h) else SeedFail(h)] && Last(events) == Last(own)
      ensures if accepts then Task(h.url, 0, h.maxDepth) in queues[route(h.url) % 3]
        else activeJob == None && maxDepth == None
    {
      hide IsRun, Step, Init, Next, Enabled, AllQueued, Routed;
      Others(multiset{h});
      status := SendSeed(h, accepts);
    }

    /** The seed is published, or the job given up. */
    method SendSeed(h: Seeding, accepts: bool) returns (status: Status)
      requires Valid() && h in Model().handlers && h.added
      modifies this
      ensures Valid() && Continued() && |events| > |old(events)|
      ensures status == if accepts then Accepted else InternalError
      ensures own == old(own) + [if accepts then SeedPublish(h) else SeedFail(h)] && Last(events) == Last(own)
      ensures if accepts then Task(h.url, 0, h.maxDepth) in queues[route(h.url) % 3]
        else activeJob == None && maxDepth == None
    {
      hide IsRun, Step, Init, Next, Enabled, AllQueued, Routed;
      var ok := PublishSeed(h, accepts);
      status := Accepted;
      if !ok {
        GiveUpSeed(h);
        status := InternalError;
      }
    }

    method GiveUpSeed(h: Seeding)
      requires Valid() && h in Model().handlers
      modifies this
      ensures Valid() && Continued() && |events| > |old(events)| && Last(events) == SeedFail(h)
      ensures own == old(own) + [SeedFail(h)] && activeJob == None && maxDepth == None
    {
      hide IsRun, Step, Init, Next, Enabled, AllQueued, Routed;
      Others(multiset{h});
      AbandonJob(h);
    }

    /** POST /crawl.  `redisUp` says whether Redis answers whether a job is active, `locks` whether it
        then carries out the start of one; `brokerUp`, `channelUp` and `accepts` say the same of the
        broker, a channel to it and the seed's message, `adds` of the filter. */
    method HandleCrawl(url: Url, depth: int, redisUp: bool, locks: bool, brokerUp: bool, channelUp: bool,
                       adds: bool, accepts: bool) returns (status: Status)
      requires Valid()
      modifies this
      ensures Valid() && Continued()
      ensures status == BadRequest <==> url == ""
      ensures status == TooManyRequests ==> activeJob.Some?
      ensures url != "" && redisUp && old(activeJob.Some?) ==> status == TooManyRequests && events == old(events)
      ensures url != "" && !redisUp ==> status == InternalError && events == old(events)
      // A request that is turned down, or meets an error before it has the lock, does nothing ...
      ensures status in {BadRequest, TooManyRequests} || !redisUp || !locks ==>
        own == old(own) && status in {BadRequest, TooManyRequests, InternalError}
      // ... every other one is accepted exactly if the broker takes its seed, and otherwise given up.
      ensures status !in {BadRequest, TooManyRequests} && redisUp && locks ==>
        && (status == Accepted <==> brokerUp && channelUp && accepts)
        && (status != Accepted ==> status == if brokerUp then InternalError else ServiceUnavailable)
        && (exists k :: LockedAt(k, |old(events)|, url, depth) && KeysAsAt(k))
        && var h := Seeding(url, depth, false);
        && own == old(own) + [Event.StartJob(url, depth)] +
             (if !brokerUp || !channelUp then [SeedFail(h)]
              else [SeedAdd(h, adds), if accepts then SeedPublish(h.(added := true)) else SeedFail(h.(added := true))])
        && |events| > 0 && Last(events) == Last(own)
      ensures status == Accepted ==> Task(url, 0, depth) in queues[route(url) % 3]
      ensures status !in {BadRequest, TooManyRequests, Accepted} && redisUp && locks ==>
        activeJob == None && maxDepth == None
    {
      hide IsRun, Step, Init, Next, Enabled, AllQueued, Routed, LockedAt, KeysAsAt;
      if url == "" {
        return BadRequest;
      }
      if !redisUp {
        return InternalError;
      }
      if activeJob.Some? {
        return TooManyRequests;
      }
      Others(multiset{});
      if !locks {
        return InternalError;
      }
      status := LockAndSeed(url, depth, brokerUp, channelUp, adds, accepts, |old(events)|);
    }

    /** The part of the request after finding no active job. */
    method LockAndSeed(url: Url, depth: int, brokerUp: bool, channelUp: bool, adds: bool, accepts: bool,
                       ghost from: nat) returns (status: Status)
      requires Valid() && from <= |events|
      modifies this
      ensures Valid() && Continued()
      ensures status != BadRequest
      ensures status == TooManyRequests <==> old(activeJob.Some?)
      ensures status == TooManyRequests ==> activeJob.Some? && own == old(own)
      ensures status != TooManyRequests ==>
        && (status == Accepted <==> brokerUp && channelUp && accepts)
        && (status != Accepted ==> status == if brokerUp then InternalError else ServiceUnavailable)
        && (exists k :: LockedAt(k, from, url, depth) && KeysAsAt(k))
        && var h := Seeding(url, depth, false);
        && own == old(own) + [Event.StartJob(url, depth)] +
             (if !brokerUp || !channelUp then [SeedFail(h)]
              else [SeedAdd(h, adds), if accepts then SeedPublish(h.(added := true)) else SeedFail(h.(added := true))])
        && |events| > 0 && Last(events) == Last(own)
      ensures status == Accepted ==> Task(url, 0, depth) in queues[route(url) % 3]
      ensures status !in {TooManyRequests, Accepted} ==> activeJob == None && maxDepth == None
    {
      hide Step, Init, Next, Enabled, AllQueued, Routed, KeysAsAt;
      var started := StartJob(url, depth);
      if !started {
        return TooManyRequests;
      }
      ghost var k := |events|;
      assert states[k] == Model();
      status := SeedJob(Seeding(url, depth, false), brokerUp, channelUp, adds, accepts);
      assert LockedAt(k, from, url, depth);
      KeysHeld(k);
    }

    /** The `k`-th event, after `from` others, gave the lock and the depth to a job. */
    ghost predicate LockedAt(k: nat, from: nat, url: Url, depth: int)
      reads this
    {
      && from < k < |states| && k < |events| && events[k - 1] == Event.StartJob(url, depth)
      && states[k].active == Some(url) && states[k].maxDepth == Some(depth)
    }

    /** The caller itself has done nothing but lose messages. */
    twostate predicate OnlyLost()
      reads this
    {
      old(own) <= own && forall k | |old(own)| <= k < |own| :: own[k].LoseTask? || own[k].LoseResult?
    }

    /** Records the loss of `doomed`. */
    ghost method RecordLoss(doomed: multiset<Task>)
      requires Recorded() && doomed <= Model().ready
      modifies this`states, this`events, this`own
      ensures Recorded() && Continued() && Model() == WithoutTasks(old(Model()), doomed) && OnlyLost()
    {
      hide Step, Init, WithoutTasks;
      ghost var before := |events|;
      states, events := LossRun(states, events, doomed);
      own := own + events[before..];
    }

    ghost method RecordResultLoss(doomed: multiset<UrlData>)
      requires Recorded() && doomed <= Model().results
      modifies this`states, this`events, this`own
      ensures Recorded() && Continued() && Model() == WithoutResults(old(Model()), doomed) && OnlyLost()
    {
      hide Step, Init, WithoutResults;
      ghost var before := |events|;
      states, events := ResultLossRun(states, events, doomed);
      own := own + events[before..];
    }

    /** At some time after the first `from` events queue `q` was purged. */
    ghost predicate Purged(q: nat, from: nat)
      reads this
    {
      PurgedIn(states, route, q, from)
    }

    /** At some time after the first `from` events exactly the results on the queue were lost, and
        nothing has happened since. */
    ghost predicate ResultsPurged(from: nat)
      reads this
      requires Valid()
    {
      && resultQueue == multiset{}
      && exists k :: from <= k < |states| && Model() == WithoutResults(states[k], states[k].results - delivered)
    }

    /** queue.purge on one task queue: exactly its messages are lost. */
    method PurgeQueue(q: nat)
      requires Valid() && q < 3
      modifies this`queues, this`states, this`events, this`own
      ensures Valid() && Continued() && OnlyLost()
      ensures queues == old(queues)[q := multiset{}]
      ensures Model() == WithoutTasks(old(Model()), old(queues[q]))
      ensures Purged(q, |old(events)|)
    {
      hide Step, Init, Next, Enabled, AllQueued, Routed, AreOfQueue, PurgedIn, WithoutTasks;
      ghost var before := states;
      QueueEmptied(queues, route, q);
      LossFields(Model(), queues[q]);
      RecordLoss(queues[q]);
      PurgedNow(before, states, queues[q], route, q);
      queues := queues[q := multiset{}];
    }

    /** queue.purge on the result queue: what was pushed to the clients is not on it any more. */
    method PurgeResults()
      requires Valid()
      modifies this`resultQueue, this`states, this`events, this`own
      ensures Valid() && Continued() && OnlyLost()
      ensures Model() == WithoutResults(old(Model()), old(resultQueue))
      ensures ResultsPurged(|old(events)|)
    {
      hide Step, Init, AllQueued, Routed, WithoutResults;
      assert resultQueue + delivered - resultQueue == multiset{} + delivered;
      assert resultQueue + delivered - delivered == resultQueue;
      ghost var s := Model();
      ResultLossFields(s, resultQueue);
      RecordResultLoss(resultQueue);
      resultQueue := multiset{};
      assert states[|old(events)|] == s;
    }

    /** Purges the task queues in order and then the result queue, while everybody else goes on;
        `working` operations succeed and the next one, if any, fails. */
    method PurgeQueues(working: nat) returns (ok: bool)
      requires Valid()
      modifies this
      ensures Valid() && Continued() && OnlyLost()
      ensures ok == (working >= 4)
      ensures forall q | 0 <= q < 3 && q < working :: Purged(q, |old(events)|)
      ensures ok ==> ResultsPurged(|old(events)|)
    {
      hide Step, Init, Next, Enabled, AllQueued, Routed, PurgedIn, ResultsPurged;
      var q := 0;
      while q < 3
        invariant 0 <= q <= 3 && q <= working
        invariant Valid() && Continued() && OnlyLost()
        invariant forall p | 0 <= p < q :: Purged(p, |old(events)|)
      {
        if working == q {
          return false;
        }
        PurgeNext(q, |old(events)|);
        q := q + 1;
      }
      if working == 3 {
        return false;
      }
      PurgeRest(|old(events)|);
      ok := true;
    }

    /** Others go on, and then one more task queue is purged. */
    method PurgeNext(q: nat, ghost from: nat)
      requires Valid() && q < 3 && from <= |events|
      requires forall p | 0 <= p < q :: Purged(p, from)
      modifies this
      ensures Valid() && Continued() && OnlyLost()
      ensures forall p | 0 <= p <= q :: Purged(p, from)
    {
      hide Step, Init, Next, Enabled, AllQueued, Routed, PurgedIn;
      ghost var before := states;
      forall p | 0 <= p < q ensures PurgedIn(before, route, p, from) {
        assert Purged(p, from);
      }
      Others(multiset{});
      ghost var now := |events|;
      PurgeQueue(q);
      PurgedStays(states, states, route, q, now, from);
      forall p | 0 <= p < q ensures Purged(p, from) {
        PurgedStays(before, states, route, p, from, from);
      }
    }

    /** ... or the result queue. */
    method PurgeRest(ghost from: nat)
      requires Valid() && from <= |events|
      requires forall p | 0 <= p < 3 :: Purged(p, from)
      modifies this
      ensures Valid() && Continued() && OnlyLost()
      ensures forall p | 0 <= p < 3 :: Purged(p, from)
      ensures ResultsPurged(from)
    {
      hide Step, Init, Next, Enabled, AllQueued, Routed, PurgedIn;
      ghost var before := states;
      forall p | 0 <= p < 3 ensures PurgedIn(before, route, p, from) {
        assert Purged(p, from);
      }
      Others(multiset{});
      PurgeResults();
      forall p | 0 <= p < 3 ensures Purged(p, from) {
        PurgedStays(before, states, route, p, from, from);
      }
    }

    /** The keys of the active job go, if there still is one. */
    method ClearKeys()
      requires Valid()
      modifies this`activeJob, this`maxDepth, this`states, this`events, this`own
      ensures Valid() && Continued()
      ensures activeJob == None && maxDepth == None
      ensures var cleanup := if old(activeJob.Some? || maxDepth.Some?) then [Cleanup] else [];
        events == old(events) + cleanup && own == old(own) + cleanup
    {
      hide Step, Init, AllQueued, Routed;
      if activeJob.Some? || maxDepth.Some? {
        activeJob, maxDepth := None, None;
        Record(Cleanup);
      }
    }

    /** After `k` events no key is there, nor is one now unless a job was started since. */
    ghost predicate KeysClearedAt(k: nat)
      reads this
      requires Valid()
    {
      && k < |states| && states[k].active == None && states[k].maxDepth == None
      && ((forall m | k <= m < |events| :: !events[m].StartJob?) ==> activeJob == None && maxDepth == None)
    }

    lemma StaysCleared(k: nat)
      requires Valid() && k < |states| && states[k].active == None && states[k].maxDepth == None
      ensures KeysClearedAt(k)
    {
      hide Step, Init, AllQueued, Routed;
      if forall m | k <= m < |events| :: !events[m].StartJob? {
        KeysGone(states, events, k, |events|);
      }
    }

    /** The caller itself has done nothing but clear the keys and, if it `purges`, lose messages. */
    twostate predicate StopOnly(purges: bool)
      reads this
    {
      && old(own) <= own && (!purges ==> |own| <= |old(own)| + 1)
      && forall k | |old(own)| <= k < |own| ::
           if k == |old(own)| then own[k] == Cleanup || (purges && (own[k].LoseTask? || own[k].LoseResult?))
           else own[k].LoseTask? || own[k].LoseResult?
    }

    /** POST /stop: the keys go first, then the queues, while everybody else goes on. */
    method HandleStop(redisUp: bool, brokerUp: bool, channelUp: bool, working: nat) returns (status: Status)
      requires Valid()
      modifies this
      ensures Valid() && Continued()
      ensures !redisUp ==> status == InternalError && events == old(events)
      ensures redisUp && old(activeJob.None?) ==> status == BadRequest && events == old(events)
      ensures redisUp && old(activeJob.Some?) ==>
        && StopOnly(brokerUp && channelUp)
        && (status == Accepted <==> !brokerUp || (channelUp && working >= 4))
        && (status == Accepted || status == InternalError)
        && exists k :: KeysClearedAt(k) && |old(events)| <= k
             && (brokerUp && channelUp ==> forall q | 0 <= q < 3 && q < working :: Purged(q, k))
             && (brokerUp && status == Accepted ==> ResultsPurged(k))
    {
      hide IsRun, Step, Init, Next, Enabled, AllQueued, Routed, PurgedIn, Purged, ResultsPurged, KeysClearedAt;
      if !redisUp {
        return InternalError;
      }
      if activeJob.None? {
        return BadRequest;
      }
      Others(multiset{});
      ghost var k;
      status, k := StopJob(brokerUp, channelUp, working);
    }

    /** The part of the stop after finding an active job; the keys are gone after `k` events. */
    method StopJob(brokerUp: bool, channelUp: bool, working: nat) returns (status: Status, ghost k: nat)
      requires Valid()
      modifies this
      ensures Valid() && Continued() && StopOnly(brokerUp && channelUp)
      ensures status == (if !brokerUp || (channelUp && working >= 4) then Accepted else InternalError)
      ensures |old(events)| <= k && KeysClearedAt(k)
      ensures brokerUp && channelUp ==> forall q | 0 <= q < 3 && q < working :: Purged(q, k)
      ensures brokerUp && status == Accepted ==> ResultsPurged(k)
    {
      hide Step, Init, Next, Enabled, AllQueued, Routed, PurgedIn, Purged, ResultsPurged, KeysClearedAt;
      ClearKeys();
      k := |events|;
      assert states[k] == Model();
      status := DropMessages(brokerUp, channelUp, working);
      StaysCleared(k);
    }

    /** The part of the stop after the keys: without a broker there is nothing to purge. */
    method DropMessages(brokerUp: bool, channelUp: bool, working: nat) returns (status: Status)
      requires Valid()
      modifies this
      ensures Valid() && Continued() && OnlyLost() && (!brokerUp || !channelUp ==> own == old(own))
      ensures status == (if !brokerUp || (channelUp && working >= 4) then Accepted else InternalError)
      ensures brokerUp && channelUp ==> forall q | 0 <= q < 3 && q < working :: Purged(q, |old(events)|)
      ensures brokerUp && status == Accepted ==> ResultsPurged(|old(events)|)
    {
      hide Step, Init, Next, Enabled, AllQueued, Routed, PurgedIn, Purged, ResultsPurged;
      if !brokerUp {
        return Accepted;
      }
      if !channelUp {
        return InternalError;
      }
      var purged := PurgeQueues(working);
      status := if purged then Accepted else InternalError;
    }

    // ---- The worker

    method AnswerTask(t: Task, next: seq<Url>)
      requires Valid() && t in Model().held
      modifies this`unacked, this`resultQueue, this`states, this`events, this`own
      ensures Valid() && Continued() && events == old(events) + [Emit(t, next)]
      ensures resultQueue == old(resultQueue) + multiset{UrlData(t.url, t.depth, next)}
      ensures unacked == old(unacked) && t in Model().done
    {
      hide IsRun, Init, AllQueued, Routed, Enabled, Next;
      AnswerFields(Model(), t, next);
      assert resultQueue + delivered + multiset{UrlData(t.url, t.depth, next)}
          == resultQueue + multiset{UrlData(t.url, t.depth, next)} + delivered;
      resultQueue := resultQueue + multiset{UrlData(t.url, t.depth, next)};
      Record(Emit(t, next));
    }

    method Acknowledge(t: Task, answered: bool)
      requires Valid() && (if answered then t in Model().done else t in Model().held)
      modifies this`unacked, this`states, this`events, this`own
      ensures Valid() && Continued() && unacked == old(unacked) - multiset{t}
      ensures events == old(events) + [if answered then Ack(t) else CrawlFails(t)]
    {
      hide IsRun, Init, AllQueued, Routed, Enabled, Next;
      ghost var e := if answered then Ack(t) else CrawlFails(t);
      AckFields(Model(), t, e);
      unacked := unacked - multiset{t};
      Record(e);
    }

    /** The part of `ProcessMessage` after decoding. */
    method ProcessTask(t: Task, crawled: Option<seq<Url>>, publishes: bool)
      requires Valid() && t in Model().held
      modifies this`unacked, this`resultQueue, this`states, this`events, this`own
      ensures Valid() && Continued() && unacked == old(unacked) - multiset{t}
      ensures if crawled.Some? && publishes then
          && events == old(events) + [Emit(t, crawled.value)] + [Ack(t)]
          && resultQueue == old(resultQueue) + multiset{UrlData(t.url, t.depth, crawled.value)}
        else
          events == old(events) + [CrawlFails(t)] && resultQueue == old(resultQueue)
    {
      hide IsRun, Step, Init, Next, Enabled, AllQueued;
      var answered := crawled.Some? && publishes;
      if answered {
        AnswerTask(t, crawled.value);
      }
      Acknowledge(t, answered);
    }

    /** Handles one delivery; `crawled` are the links found, if the crawl succeeds, `publishes`
        says whether the result can be published.  The delivery is acknowledged in every case,
        and after its result if there is one.  A malformed body is only acknowledged. */
    method ProcessMessage(delivery: Option<Task>, crawled: Option<seq<Url>>, publishes: bool)
      requires Valid() && (if delivery.Some? then delivery.value in Model().held else malformed > 0)
      modifies this`unacked, this`malformed, this`resultQueue, this`states, this`events, this`own
      ensures Valid() && Continued()
      ensures match delivery
        case None => malformed == old(malformed) - 1 && unchanged(`unacked, `resultQueue, `states, `events, `own)
        case Some(t) =>
          && malformed == old(malformed)
          && unacked == old(unacked) - multiset{t}
          && if crawled.Some? && publishes then
               && events == old(events) + [Emit(t, crawled.value)] + [Ack(t)]
               && resultQueue == old(resultQueue) + multiset{UrlData(t.url, t.depth, crawled.value)}
             else
               events == old(events) + [CrawlFails(t)] && resultQueue == old(resultQueue)
    {
      hide IsRun, Step, Init, Next, Enabled, AllQueued;
      if delivery.Some? {
        ProcessTask(delivery.value, crawled, publishes);
      } else {
        malformed := malformed - 1;
      }
    }
  }
}
