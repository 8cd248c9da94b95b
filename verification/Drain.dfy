/** What can still be published after the job's keys are gone. */
module Drain {
  import opened Models
  import opened Protocol
  import opened Sums
  import opened Closure
  import opened Scenarios
  import opened Schedules

  /** The links a consumer may still publish with the max depth it has already read. */
  ghost function Remaining(c: Consumer): nat {
    match c
    case Idle => 0
    case Received(_) => 0
    case Expanding(_, _, rest) => |rest|
    case Checked(_, _, rest, _) => 1 + |rest|
    case Claimed(_, _, rest, _) => 1 + |rest|
  }

  ghost function RemainingOf(): Consumer -> nat {
    (c: Consumer) => Remaining(c)
  }

  /** All that may still be published: links of expansions under way, and seeds of requests
      that were accepted but not yet published. */
  ghost function ToCome(s: State): nat {
    SumSeq(s.consumers, RemainingOf()) + |s.handlers|
  }

  lemma RemainingMoved(s: State, c: Consumer, act: Act)
    requires CanAct(s, c, act) && s.maxDepth.None?
    ensures Remaining(Moved(s, c, act)) + (if act == Publish(true) then 1 else 0) <= Remaining(c)
  {
  }

  lemma DrainAct(s: State, i: nat, act: Act, s': State)
    requires Acts(s, i, act, s') && s.maxDepth.None?
    ensures s'.maxDepth.None?
    ensures |s'.log.published| + ToCome(s') <= |s.log.published| + ToCome(s)
  {
    var c := s.consumers[i];
    SumSeqUpdate(s.consumers, RemainingOf(), i, Moved(s, c, act));
    RemainingMoved(s, c, act);
    hide Moved, SumSeq, CanAct;
  }

  lemma DrainOther(s: State, e: Event, s': State)
    requires Step(s, e, s') && s.maxDepth.None? && !e.By? && !e.StartJob?
    ensures s'.maxDepth.None?
    ensures |s'.log.published| + ToCome(s') <= |s.log.published| + ToCome(s)
  {
    OtherFields(s, e, s');
    hide SumSeq;
  }

  /** Once the max-depth key is gone and no job starts, no more tasks are published than the
      links of the expansions already under way plus the seeds already accepted - whatever
      stale results arrive and however often tasks are redelivered. */
  lemma {:induction false} StopDrains(ss: seq<State>, es: seq<Event>, j: nat, k: nat)
    requires IsRun(ss, es) && j <= k < |ss|
    requires forall m | j <= m < k :: !es[m].StartJob?
    requires ss[j].maxDepth.None?
    ensures ss[k].maxDepth.None?
    ensures |ss[k].log.published| + ToCome(ss[k]) <= |ss[j].log.published| + ToCome(ss[j])
    decreases k
  {
    if j < k {
      hide Step, ToCome;
      StopDrains(ss, es, j, k - 1);
      assert Step(ss[k - 1], es[k - 1], ss[k]);
      if es[k - 1].By? {
        ByFields(ss[k - 1], es[k - 1], ss[k]);
        hide Acts;
        DrainAct(ss[k - 1], es[k - 1].i, es[k - 1].act, ss[k]);
      } else {
        DrainOther(ss[k - 1], es[k - 1], ss[k]);
      }
    }
  }

  // ---- Exactly when a stopped system publishes nothing more

  ghost predicate MayPublish(filter: set<Url>, c: Consumer) {
    c.Checked? || c.Claimed? || (c.Expanding? && exists v :: v in c.rest && v !in filter)
  }

  /** Some request or some expansion under way has a task left to publish. */
  ghost predicate Unfinished(s: State) {
    || s.handlers != multiset{}
    || exists i :: 0 <= i < |s.consumers| && MayPublish(s.filter, s.consumers[i])
  }

  lemma FinishedMoved(s: State, c: Consumer, act: Act)
    requires CanAct(s, c, act) && s.maxDepth.None? && !MayPublish(s.filter, c)
    ensures !MayPublish(s.filter, Moved(s, c, act)) && !act.Publish? && !act.Add?
  {
  }

  lemma FinishedStep(s: State, e: Event, s': State)
    requires Step(s, e, s') && s.maxDepth.None? && !Unfinished(s) && !e.StartJob?
    ensures s'.maxDepth.None? && !Unfinished(s') && s'.log.published == s.log.published
  {
    hide Next;
    if e.By? {
      ByFields(s, e, s');
      FinishedMoved(s, s.consumers[e.i], e.act);
      hide Step, Moved, MayPublish, CanAct;
    } else {
      FinishedOther(s, e, s');
      hide MayPublish;
    }
  }

  lemma FinishedOther(s: State, e: Event, s': State)
    requires Step(s, e, s') && s.maxDepth.None? && s.handlers == multiset{} && !e.StartJob? && !e.By?
    ensures s'.maxDepth.None? && s'.handlers == multiset{} && s'.log.published == s.log.published
    ensures s'.filter == s.filter && s'.consumers == s.consumers
  {
  }

  lemma {:induction false} FinishedRun(ss: seq<State>, es: seq<Event>, k: nat)
    requires IsRun(ss, es) && k < |ss|
    requires forall e <- es :: !e.StartJob?
    requires ss[0].maxDepth.None? && !Unfinished(ss[0])
    ensures ss[k].maxDepth.None? && !Unfinished(ss[k])
    ensures ss[k].log.published == ss[0].log.published
  {
    if k > 0 {
      hide Step, Unfinished;
      FinishedRun(ss, es, k - 1);
      assert Step(ss[k - 1], es[k - 1], ss[k]) && es[k - 1] in es;
      FinishedStep(ss[k - 1], es[k - 1], ss[k]);
    }
  }

  /** A continuation of `s` in which no job is started. */
  ghost predicate After(s: State, ss: seq<State>, es: seq<Event>) {
    IsRun(ss, es) && ss[0] == s && forall e <- es :: !e.StartJob?
  }

  lemma Continue(s: State, ss: seq<State>, es: seq<Event>, e: Event) returns (ss': seq<State>, es': seq<Event>)
    requires After(s, ss, es) && Enabled(Last(ss), e) && !e.StartJob?
    ensures After(s, ss', es') && Last(ss') == Next(Last(ss), e) && es' == es + [e]
  {
    LongerRun(ss, es, e);
    ss', es' := ss + [Next(Last(ss), e)], es + [e];
  }

  /** The events of `es` that are not in `es0` are steps of consumers or handlers. */
  ghost predicate OnlySchedules(es0: seq<Event>, es: seq<Event>) {
    forall e <- es :: e in es0 || e.By? || e.SeedAdd? || e.SeedPublish?
  }

  /** The URLs that an expansion under way can still publish. */
  ghost function Names(c: Consumer): set<Url> {
    match c
    case Idle => {}
    case Received(_) => {}
    case Expanding(_, _, rest) => set u | u in rest
    case Checked(_, _, rest, url) => (set u | u in rest) + {url}
    case Claimed(_, _, rest, url) => (set u | u in rest) + {url}
  }

  /** A bound on the steps before the next publication. */
  ghost function StepsLeft(c: Consumer): nat {
    match c
    case Idle => 0
    case Received(_) => 0
    case Expanding(_, _, rest) => 2 + |rest|
    case Checked(_, _, _, _) => 1
    case Claimed(_, _, _, _) => 0
  }

  /** The next step towards a publication. */
  ghost function Drive(filter: set<Url>, c: Consumer): Act
    requires MayPublish(filter, c)
  {
    if c.Claimed? then Publish(true)
    else if c.Checked? then Add(true)
    else if c.rest[0] in filter then Check(Present)
    else Check(Absent)
  }

  lemma DriveMoves(s: State, i: nat)
    requires i < |s.consumers| && MayPublish(s.filter, s.consumers[i])
    ensures var c := s.consumers[i];
      var act := Drive(s.filter, c);
      && CanAct(s, c, act)
      && var s' := NextBy(s, i, act);
      && i < |s'.consumers|
      && if c.Claimed? then
           s'.log.published == s.log.published + multiset{NewTask(c)} && NewTask(c).url in Names(c)
         else
           && s'.log.published == s.log.published && MayPublish(s'.filter, s'.consumers[i])
           && Names(s'.consumers[i]) <= Names(c) && StepsLeft(s'.consumers[i]) < StepsLeft(c)
  {
  }

  /** An expansion under way can be driven to its next publication, of task `t`. */
  lemma {:induction false} DriveConsumer(s: State, ss0: seq<State>, es0: seq<Event>, i: nat)
    returns (ss: seq<State>, es: seq<Event>, t: Task)
    requires After(s, ss0, es0)
    requires i < |Last(ss0).consumers| && MayPublish(Last(ss0).filter, Last(ss0).consumers[i])
    ensures After(s, ss, es) && Last(ss).log.published == Last(ss0).log.published + multiset{t}
    ensures t.url in Names(Last(ss0).consumers[i]) && OnlySchedules(es0, es)
    decreases StepsLeft(Last(ss0).consumers[i])
  {
    hide Step, CanAct, NextBy, MayPublish, Names, StepsLeft, Drive;
    var c := Last(ss0).consumers[i];
    DriveMoves(Last(ss0), i);
    ss, es := Continue(s, ss0, es0, By(i, Drive(Last(ss0).filter, c)));
    if c.Claimed? {
      t := NewTask(c);
    } else {
      ss, es, t := DriveConsumer(s, ss, es, i);
    }
  }

  lemma DriveHandler(s: State, h: Seeding) returns (ss: seq<State>, es: seq<Event>)
    requires h in s.handlers
    ensures After(s, ss, es) && Last(ss).log.published == s.log.published + multiset{Task(h.url, 0, h.maxDepth)}
    ensures OnlySchedules([], es)
  {
    ss, es := [s], [];
    var added := h.(added := true);
    if !h.added {
      ss, es := Continue(s, ss, es, SeedAdd(h, true));
    }
    ss, es := Continue(s, ss, es, SeedPublish(added));
  }

  /** Clearing the job's keys stops the publication of tasks at once exactly when no accepted
      seed is unpublished and no expansion under way has a link left that the filter does not
      hold.  Otherwise tasks can still be published, also after the queues were purged. */
  lemma StopIsFinal(s: State)
    requires s.maxDepth.None?
    ensures (forall ss: seq<State>, es: seq<Event> ::
               After(s, ss, es) ==> Last(ss).log.published == s.log.published)
            <==> !Unfinished(s)
  {
    if !Unfinished(s) {
      forall ss: seq<State>, es: seq<Event> | After(s, ss, es)
        ensures Last(ss).log.published == s.log.published
      {
        FinishedRun(ss, es, |es|);
      }
    } else {
      var ss, es;
      if h :| h in s.handlers {
        ss, es := DriveHandler(s, h);
      } else {
        var i :| 0 <= i < |s.consumers| && MayPublish(s.filter, s.consumers[i]);
        var t;
        ss, es, t := DriveConsumer(s, [s], [], i);
      }
      assert After(s, ss, es) && Last(ss).log.published != s.log.published;
    }
  }

  // ---- A stop that does not stop everything

  /** The keys are gone and so is every message. */
  ghost predicate Purged(s: State) {
    && s.active == None && s.maxDepth == None
    && s.ready == s.held == s.done == multiset{} && s.results == multiset{}
  }

  /** A consumer is expanding a page when the job is stopped, and nothing is left to purge. */
  lemma StopDuringExpansion(n: nat) returns (ss: seq<State>, es: seq<Event>)
    requires n >= 1
    ensures |ss| > 0 && IsRun(ss, es) && Init(ss[0], n) && es != [] && Last(es) == Cleanup
    ensures Purged(Last(ss)) && Unfinished(Last(ss))
  {
    var web, r := TriangleWeb(), UrlData("s", 0, ["a", "x"]);
    ss, es := StartCrawl(web, "s", 1, Fresh(n), n);
    ss, es := CrawlPage(web, "s", 1, ss, es, Task("s", 0, 1), 0);
    assert Last(ss).consumers[0] == Expanding(r, 1, ["a", "x"]);
    hide Init, Unfinished, MayPublish;
    LongerRun(ss, es, Cleanup);
    ss, es := ss + [Next(Last(ss), Cleanup)], es + [Cleanup];
    StillExpanding(Last(ss), r);
  }

  lemma StillExpanding(s: State, r: UrlData)
    requires |s.consumers| > 0 && s.consumers[0] == Expanding(r, 1, ["a", "x"]) && s.filter == {"s"}
    ensures Unfinished(s)
  {
    assert "a" in s.consumers[0].rest && "a" !in s.filter;
    assert MayPublish(s.filter, s.consumers[0]);
  }

  /** Some run of a system with any number of consumers publishes tasks after the job was
      stopped and every queue was empty. */
  lemma StopCanBeOverrun(n: nat) returns (ss: seq<State>, es: seq<Event>, ss': seq<State>, es': seq<Event>)
    requires n >= 1
    ensures |ss| > 0 && IsRun(ss, es) && Init(ss[0], n) && es != [] && Last(es) == Cleanup
    ensures Purged(Last(ss)) && After(Last(ss), ss', es')
    ensures Last(ss').log.published > Last(ss).log.published
  {
    hide Step, Init, Unfinished;
    ss, es := StopDuringExpansion(n);
    StopIsFinal(Last(ss));
    ss', es' :| After(Last(ss), ss', es') && Last(ss').log.published != Last(ss).log.published;
    PublishedGrows(ss', es', |es'|);
  }

  lemma PublishedStep(s: State, e: Event, s': State)
    requires Step(s, e, s')
    ensures s.log.published <= s'.log.published
  {
    hide Next;
    if e.By? {
      ByFields(s, e, s');
    } else if Source(e) {
      SourceFields(s, e, s');
    } else {
      QuietFields(s, e, s');
    }
    hide Step;
  }

  lemma {:induction false} PublishedGrows(ss: seq<State>, es: seq<Event>, k: nat)
    requires IsRun(ss, es) && k < |ss|
    ensures ss[0].log.published <= ss[k].log.published
  {
    hide Step;
    if k > 0 {
      PublishedGrows(ss, es, k - 1);
      assert Step(ss[k - 1], es[k - 1], ss[k]);
      PublishedStep(ss[k - 1], es[k - 1], ss[k]);
    }
  }
}
