/** One first-in-first-out task queue, one worker and one result consumer process results in
    order of depth, so their crawl is breadth-first with no further assumption. */
module Fifo {
  import opened Models
  import opened Web
  import opened Protocol
  import opened Conservation
  import opened Provenance
  import opened WorkBound
  import opened Closure
  import opened BreadthFirst

  /** The order of the messages that the protocol state keeps as multisets. */
  datatype Pipe = Pipe(tasks: seq<Task>, worker: Option<Task>, results: seq<UrlData>)

  /** Messages are taken from the front; the worker holds one unacknowledged task at a time. */
  ghost predicate InTurn(p: Pipe, s: State, e: Event) {
    if e.Deliver? then p.tasks != [] && e.t == p.tasks[0] && p.worker.None? && s.done == multiset{}
    else if e.By? && e.act.Consume? then p.results != [] && e.act.r == p.results[0]
    else !e.Requeue? && !e.RequeueDone?
  }

  ghost function PipeNext(p: Pipe, s: State, e: Event): Pipe {
    if e.SeedPublish? then p.(tasks := p.tasks + [Task(e.h.url, 0, e.h.maxDepth)])
    else if e.Deliver? then p.(tasks := if p.tasks == [] then [] else p.tasks[1..], worker := Some(e.t))
    else if e.Emit? then p.(worker := None, results := p.results + [UrlData(e.t.url, e.t.depth, e.next)])
    else if e.By? && e.act.Consume? then p.(results := if p.results == [] then [] else p.results[1..])
    else if e.By? && e.act == Publish(true) && e.i < |s.consumers| && s.consumers[e.i].Claimed? then
      p.(tasks := p.tasks + [NewTask(s.consumers[e.i])])
    else p
  }

  ghost predicate FifoRun(ps: seq<Pipe>, ss: seq<State>, es: seq<Event>) {
    && |ps| == |ss| == |es| + 1
    && ps[0] == Pipe([], None, [])
    && forall k | 0 <= k < |es| :: InTurn(ps[k], ss[k], es[k]) && ps[k + 1] == PipeNext(ps[k], ss[k], es[k])
  }

  ghost function TaskDepths(ts: seq<Task>): seq<int> {
    seq(|ts|, i requires 0 <= i < |ts| => ts[i].depth)
  }

  ghost function ResultDepths(rs: seq<UrlData>): seq<int> {
    seq(|rs|, i requires 0 <= i < |rs| => rs[i].depth)
  }

  /** The depths of everything on its way, nearest to being expanded first. */
  ghost function Line(p: Pipe, c: Consumer): seq<int> {
    (if c.Idle? then [] else [c.r.depth])
    + ResultDepths(p.results)
    + (if p.worker.None? then [] else [p.worker.value.depth])
    + TaskDepths(p.tasks)
  }

  /** At most two consecutive depths are on their way, the smaller ones first. */
  ghost predicate TwoLayers(x: seq<int>) {
    forall a, b | 0 <= a <= b < |x| :: x[a] <= x[b] <= x[a] + 1
  }

  ghost predicate Mirrors(p: Pipe, s: State) {
    && |s.consumers| == 1
    && s.ready == multiset(p.tasks)
    && s.held == (if p.worker.None? then multiset{} else multiset{p.worker.value})
    && s.results == multiset(p.results)
  }

  ghost predicate PipeInv(p: Pipe, s: State) {
    Mirrors(p, s) && TwoLayers(Line(p, s.consumers[0]))
  }

  lemma FrontMessage<T>(q: seq<T>)
    requires q != []
    ensures multiset(q[1..]) == multiset(q) - multiset{q[0]}
  {
    assert q == [q[0]] + q[1..];
  }

  lemma MirrorsAct(p: Pipe, s: State, i: nat, act: Act, s': State)
    requires Acts(s, i, act, s') && InTurn(p, s, By(i, act)) && Mirrors(p, s)
    ensures Mirrors(PipeNext(p, s, By(i, act)), s')
  {
    hide Moved, ByRecord;
    if act.Consume? {
      FrontMessage(p.results);
      assert PipeNext(p, s, By(i, act)) == p.(results := p.results[1..]);
      hide PipeNext;
    } else if act == Publish(true) {
      assert PipeNext(p, s, By(i, act)) == p.(tasks := p.tasks + [NewTask(s.consumers[i])]);
      assert multiset(p.tasks + [NewTask(s.consumers[i])]) == s'.ready;
      hide PipeNext;
    } else {
      assert PipeNext(p, s, By(i, act)) == p;
      hide PipeNext;
    }
    hide CanAct;
  }

  lemma MirrorsDeliver(p: Pipe, s: State, e: Event, s': State)
    requires Step(s, e, s') && InTurn(p, s, e) && Mirrors(p, s) && e.Deliver?
    ensures Mirrors(PipeNext(p, s, e), s')
  {
    FrontMessage(p.tasks);
  }

  lemma MirrorsSeed(p: Pipe, s: State, e: Event, s': State)
    requires Step(s, e, s') && Mirrors(p, s) && e.SeedPublish?
    ensures Mirrors(PipeNext(p, s, e), s')
  {
    assert s'.ready == multiset(p.tasks + [Task(e.h.url, 0, e.h.maxDepth)]);
  }

  lemma MirrorsEmit(p: Pipe, s: State, e: Event, s': State)
    requires Step(s, e, s') && Mirrors(p, s) && e.Emit?
    ensures Mirrors(PipeNext(p, s, e), s')
  {
    assert s'.results == multiset(p.results + [UrlData(e.t.url, e.t.depth, e.next)]);
  }

  /** The steps that move no message. */
  lemma MirrorsKept(p: Pipe, s: State, e: Event, s': State)
    requires Step(s, e, s') && Mirrors(p, s) && (e.StartJob? || e.SeedAdd? || e.Ack?)
    ensures Mirrors(PipeNext(p, s, e), s')
  {
    assert PipeNext(p, s, e) == p;
    assert s'.ready == s.ready && s'.held == s.held && s'.results == s.results;
  }

  lemma MirrorsOther(p: Pipe, s: State, e: Event, s': State)
    requires Step(s, e, s') && Faultless(s, e) && InTurn(p, s, e) && Mirrors(p, s) && !e.By?
    ensures Mirrors(PipeNext(p, s, e), s')
  {
    hide Step, Mirrors, PipeNext;
    if e.Deliver? {
      MirrorsDeliver(p, s, e, s');
    } else if e.SeedPublish? {
      MirrorsSeed(p, s, e, s');
    } else if e.Emit? {
      MirrorsEmit(p, s, e, s');
    } else {
      MirrorsKept(p, s, e, s');
    }
  }

  lemma PushLayer(x: seq<int>)
    requires TwoLayers(x) && x != []
    ensures TwoLayers(x + [x[0] + 1])
  {
  }

  // How the line changes when a message moves: taking a result, delivering a task and
  // answering it keep every depth where it was; a published task goes to the back.

  lemma LineConsume(p: Pipe)
    requires p.results != []
    ensures Line(p.(results := p.results[1..]), Received(p.results[0])) == Line(p, Idle)
  {
    assert ResultDepths(p.results) == [p.results[0].depth] + ResultDepths(p.results[1..]);
  }

  lemma LinePublish(p: Pipe, t: Task, c: Consumer)
    ensures Line(p.(tasks := p.tasks + [t]), c) == Line(p, c) + [t.depth]
  {
    assert TaskDepths(p.tasks + [t]) == TaskDepths(p.tasks) + [t.depth];
  }

  lemma LineDeliver(p: Pipe, c: Consumer)
    requires p.tasks != [] && p.worker.None?
    ensures Line(p.(tasks := p.tasks[1..], worker := Some(p.tasks[0])), c) == Line(p, c)
  {
    assert TaskDepths(p.tasks) == [p.tasks[0].depth] + TaskDepths(p.tasks[1..]);
  }

  lemma LineEmit(p: Pipe, r: UrlData, c: Consumer)
    requires p.worker.Some? && p.worker.value.depth == r.depth
    ensures Line(p.(worker := None, results := p.results + [r]), c) == Line(p, c)
  {
    assert ResultDepths(p.results + [r]) == ResultDepths(p.results) + [r.depth];
  }

  lemma LineLeave(p: Pipe, c: Consumer)
    requires !c.Idle?
    ensures Line(p, c) == [c.r.depth] + Line(p, Idle)
  {
  }

  /** A consumer's own position in the line: it keeps its depth until it becomes idle. */
  lemma LineMoved(p: Pipe, s: State, c: Consumer, act: Act)
    requires CanAct(s, c, act) && TwoLayers(Line(p, c)) && !act.Consume?
    ensures TwoLayers(Line(p, Moved(s, c, act)))
  {
    var c' := Moved(s, c, act);
    LineLeave(p, c);
    if c'.Idle? {
      assert Line(p, c') == Line(p, c)[1..];
    } else {
      LineLeave(p, c');
    }
  }

  lemma LineAct(p: Pipe, s: State, i: nat, act: Act, s': State)
    requires Acts(s, i, act, s') && InTurn(p, s, By(i, act)) && |s.consumers| == 1
    requires TwoLayers(Line(p, s.consumers[0]))
    ensures TwoLayers(Line(PipeNext(p, s, By(i, act)), s'.consumers[0]))
  {
    hide TwoLayers, ByRecord;
    var c := s.consumers[0];
    if act.Consume? {
      LineConsume(p);
    } else {
      LineMoved(p, s, c, act);
      if act == Publish(true) {
        LinePublished(p, NewTask(c), Moved(s, c, act));
      }
    }
    hide Line;
  }

  lemma LinePublished(p: Pipe, t: Task, c: Consumer)
    requires !c.Idle? && t.depth == c.r.depth + 1 && TwoLayers(Line(p, c))
    ensures TwoLayers(Line(p.(tasks := p.tasks + [t]), c))
  {
    LineLeave(p, c);
    LinePublish(p, t, c);
    PushLayer(Line(p, c));
    hide Line, TwoLayers;
  }

  lemma LineSeed(p: Pipe, s: State, t: Task)
    requires Mirrors(p, s) && SeedFirst(s) && Conserved(s) && s.handlers != multiset{}
    ensures TwoLayers(Line(p.(tasks := p.tasks + [t]), s.consumers[0]))
  {
    hide Conserved, SeedFirst;
    NothingBeforeSeed(p, s);
    LinePublish(p, t, s.consumers[0]);
    assert Line(p, s.consumers[0]) == [];
    assert TwoLayers([t.depth]);
  }

  lemma LineOther(p: Pipe, s: State, e: Event, s': State)
    requires Step(s, e, s') && Faultless(s, e) && InTurn(p, s, e) && Mirrors(p, s) && !e.By?
    requires SeedFirst(s) && Conserved(s)
    requires TwoLayers(Line(p, s.consumers[0]))
    ensures s'.consumers == s.consumers && TwoLayers(Line(PipeNext(p, s, e), s'.consumers[0]))
  {
    hide Next, Conserved, SeedFirst, Line, TwoLayers;
    OtherFields(s, e, s');
    if e.Deliver? {
      LineDeliver(p, s.consumers[0]);
    } else if e.Emit? {
      LineEmit(p, UrlData(e.t.url, e.t.depth, e.next), s.consumers[0]);
    } else if e.SeedPublish? {
      LineSeed(p, s, Task(e.h.url, 0, e.h.maxDepth));
    }
  }

  lemma NothingBeforeSeed(p: Pipe, s: State)
    requires Mirrors(p, s) && SeedFirst(s) && Conserved(s) && s.handlers != multiset{}
    ensures p.tasks == [] && p.worker.None? && p.results == [] && s.consumers[0].Idle?
  {
    forall t: Task
      ensures s.ready[t] == s.held[t] == 0
    {
      assert TaskAt(s, t);
    }
    forall r: UrlData
      ensures s.results[r] == 0
    {
      assert ResultAt(s, r);
    }
    assert |multiset(p.tasks)| == |p.tasks| && |multiset(p.results)| == |p.results|;
    assert p.worker.Some? ==> s.held[p.worker.value] == 1;
  }

  lemma StepPipe(p: Pipe, s: State, e: Event, s': State)
    requires Step(s, e, s') && Faultless(s, e) && InTurn(p, s, e) && PipeInv(p, s)
    requires SeedFirst(s) && Conserved(s)
    ensures PipeInv(PipeNext(p, s, e), s')
  {
    assert |s.consumers| == 1;
    hide Step, Faultless, InTurn, Mirrors, SeedFirst, Conserved, TwoLayers, Line, PipeNext;
    if e.By? {
      ByFields(s, e, s');
      hide ByEffect, ByRecord;
      MirrorsAct(p, s, e.i, e.act, s');
      LineAct(p, s, e.i, e.act, s');
    } else {
      MirrorsOther(p, s, e, s');
      LineOther(p, s, e, s');
    }
  }

  lemma {:induction false} RunPipe(web: Links, seed: Url, d: int, ps: seq<Pipe>, ss: seq<State>,
                                   es: seq<Event>, k: nat)
    requires FaultlessRun(web, seed, d, ss, es) && Init(ss[0], 1)
    requires FifoRun(ps, ss, es) && k < |ss|
    ensures PipeInv(ps[k], ss[k])
  {
    if k > 0 {
      hide Step, Faultless, InTurn, PipeInv, PipeNext, Conserved, Closing, JobRun;
      RunPipe(web, seed, d, ps, ss, es, k - 1);
      RunConserved(ss, es, 1, k - 1) by { OneRun(web, seed, d, ss, es); }
      RunClosing(web, seed, d, ss, es, 1, k - 1);
      assert SeedFirst(ss[k - 1]) by { ClosingSeedFirst(web, seed, d, ss[k - 1]); }
      assert Step(ss[k - 1], es[k - 1], ss[k]) by { OneRun(web, seed, d, ss, es); }
      StepPipe(ps[k - 1], ss[k - 1], es[k - 1], ss[k]);
    }
  }

  lemma OneRun(web: Links, seed: Url, d: int, ss: seq<State>, es: seq<Event>)
    requires FaultlessRun(web, seed, d, ss, es)
    ensures IsRun(ss, es)
  {
  }

  lemma ClosingSeedFirst(web: Links, seed: Url, d: int, s: State)
    requires Closing(web, seed, d, s)
    ensures SeedFirst(s)
  {
  }

  /** The result at the front of the queue is never deeper than anything behind it. */
  lemma FrontIsShallowest(p: Pipe, s: State, r: UrlData)
    requires PipeInv(p, s) && SeedFirst(s) && Conserved(s)
    requires s.consumers[0].Idle? && p.results != [] && r == p.results[0]
    ensures NothingBelow(s, r.depth)
  {
    var x := Line(p, s.consumers[0]);
    assert x[0] == r.depth;
    assert ResultAt(s, r) && r in s.results;
    forall t | t in s.ready
      ensures t.depth >= r.depth
    {
      var j :| 0 <= j < |p.tasks| && p.tasks[j] == t;
      assert x[|x| - |p.tasks| + j] == t.depth;
    }
    forall r' | r' in s.results
      ensures r'.depth >= r.depth
    {
      var j :| 0 <= j < |p.results| && p.results[j] == r';
      assert x[j] == r'.depth;
    }
    if p.worker.Some? {
      assert x[|p.results|] == p.worker.value.depth;
    }
  }

  /** With one FIFO task queue, one worker and one consumer, a fault-free crawl with an exact
      filter is a breadth-first search. */
  lemma FifoCrawlIsBreadthFirst(web: Links, seed: Url, d: int, ps: seq<Pipe>, ss: seq<State>,
                                es: seq<Event>)
    requires ExactRun(web, seed, d, ss, es) && Init(ss[0], 1) && FifoRun(ps, ss, es)
    requires Quiescent(Last(ss)) && Last(ss).log.starts > 0
    ensures IsBreadthFirst(web, seed, d, Last(ss))
  {
    hide Step, Init, Faultless, Exact, FromWeb, OneTarget, InTurn, PipeInv, Conserved, Closing, InOrder;
    forall k | 0 <= k < |es|
      ensures InOrder(ss[k], es[k])
    {
      FifoTakesInOrder(web, seed, d, ps, ss, es, k);
    }
    InOrderIsLevelByLevel(web, seed, d, ss, es, 1);
    LevelByLevelIsBreadthFirst(web, seed, d, ss, es, 1);
  }

  lemma FifoTakesInOrder(web: Links, seed: Url, d: int, ps: seq<Pipe>, ss: seq<State>, es: seq<Event>, k: nat)
    requires ExactRun(web, seed, d, ss, es) && Init(ss[0], 1) && FifoRun(ps, ss, es) && k < |es|
    ensures InOrder(ss[k], es[k])
  {
    hide Next, Faultless, Exact, FromWeb, OneTarget, PipeInv, Conserved, JobAlive, SeedFirst, NothingBelow, Covered;
    var s, e := ss[k], es[k];
    RunPipe(web, seed, d, ps, ss, es, k);
    RunConserved(ss, es, 1, k);
    RunClosing(web, seed, d, ss, es, 1, k);
    assert Step(s, e, ss[k + 1]) && InTurn(ps[k], s, e);
    if e.By? && e.act.Consume? {
      ConsumersFixed(ss, es, k);
      FrontIsShallowest(ps[k], s, e.act.r);
    }
  }
}
