/** What one result consumer does with one result, read off from a run in which everybody
    else's steps come in between. */
module Lookups {
  import opened Models
  import opened Protocol

  /** The links consumer `i` looks up in the filter during steps j .. k-1, in order. */
  ghost function LookedUp(ss: seq<State>, es: seq<Event>, i: nat, j: nat, k: nat): seq<Url>
    requires IsRun(ss, es) && k < |ss|
    decreases k
  {
    if k <= j then []
    else
      assert Step(ss[k - 1], es[k - 1], ss[k]);
      var before := LookedUp(ss, es, i, j, k - 1);
      if es[k - 1].By? && es[k - 1].i == i && es[k - 1].act.Check? then
        before + [ss[k - 1].consumers[i].rest[0]]
      else before
  }

  /** From step j on, consumer `i` neither restarts nor takes another result; it reads max depth
      successfully or not as `ok` says, and keeps `limit` links. */
  ghost predicate Uninterrupted(es: seq<Event>, i: nat, j: nat, ok: bool, limit: nat) {
    forall k | j <= k < |es| && es[k].By? && es[k].i == i ::
      && !es[k].act.Crash? && !es[k].act.Consume?
      && (es[k].act.ReadDepth? ==> es[k].act == ReadDepth(ok, limit))
  }

  /** Steps of others do not change that, nor do steps on a link. */
  lemma StillUninterrupted(es: seq<Event>, es': seq<Event>, i: nat, j: nat, ok: bool, limit: nat)
    requires Uninterrupted(es, i, j, ok, limit) && es <= es'
    requires forall k | |es| <= k < |es'| && es'[k].By? && es'[k].i == i ::
      es'[k].act.Check? || es'[k].act.Add? || es'[k].act.Publish? || es'[k].act.Finish?
    ensures Uninterrupted(es', i, j, ok, limit)
  {
  }

  /** The links to look up, given what the key held when it was read. */
  function ToLookUp(r: UrlData, key: Option<int>, ok: bool, limit: nat): seq<Url>
    requires limit <= |r.nextUrls|
  {
    if AfterRead(r, key, ok, limit).Idle? then [] else r.nextUrls[..limit]
  }

  /** The consumer has not read max depth yet. */
  ghost predicate Waiting(ss: seq<State>, es: seq<Event>, i: nat, j: nat, k: nat, r: UrlData)
    requires IsRun(ss, es) && k < |ss|
  {
    i < |ss[k].consumers| && ss[k].consumers[i] == Received(r) && LookedUp(ss, es, i, j, k) == []
  }

  /** The links in front of a consumer that has read max depth. */
  function Rest(c: Consumer): seq<Url> {
    if c.Idle? || c.Received? then [] else c.rest
  }

  /** The consumer has looked up some of `links` and has the rest in front of it. */
  ghost predicate Looking(ss: seq<State>, es: seq<Event>, i: nat, j: nat, k: nat, links: seq<Url>)
    requires IsRun(ss, es) && k < |ss|
  {
    && i < |ss[k].consumers|
    && var c, seen := ss[k].consumers[i], LookedUp(ss, es, i, j, k);
    && !c.Received?
    && seen + Rest(c) == links
  }

  /** How a step changes where consumer `i` stands. */
  lemma StandStep(s: State, e: Event, s': State, i: nat)
    requires Step(s, e, s') && i < |s.consumers|
    ensures i < |s'.consumers|
    ensures s'.consumers[i] ==
            if e.By? && e.i == i then Moved(s, s.consumers[i], e.act) else s.consumers[i]
  {
    hide Next, Moved;
    if e.By? {
      ByFields(s, e, s');
    } else {
      OtherFields(s, e, s');
    }
  }

  /** What the consumer looks up in step k. */
  function LooksUp(c: Consumer, e: Event, i: nat): seq<Url> {
    if e.By? && e.i == i && e.act.Check? && c.Expanding? && c.rest != [] then [c.rest[0]] else []
  }

  lemma LookedUpMore(ss: seq<State>, es: seq<Event>, i: nat, j: nat, k: nat)
    requires IsRun(ss, es) && j <= k < |es| && i < |ss[k].consumers|
    ensures LookedUp(ss, es, i, j, k + 1) == LookedUp(ss, es, i, j, k) + LooksUp(ss[k].consumers[i], es[k], i)
  {
    assert Step(ss[k], es[k], ss[k + 1]);
    if es[k].By? {
      ByFields(ss[k], es[k], ss[k + 1]);
    }
    hide Step, ByEffect, ByRecord, Moved;
  }

  lemma WaitMoved(s: State, r: UrlData, act: Act)
    requires CanAct(s, Received(r), act) && !act.Crash?
    ensures act.ReadDepth? && Moved(s, Received(r), act) == AfterRead(r, s.maxDepth, act.ok, act.limit)
  {
  }

  lemma ReadLooks(r: UrlData, key: Option<int>, ok: bool, limit: nat)
    requires limit <= |r.nextUrls|
    ensures var c := AfterRead(r, key, ok, limit); !c.Received? && Rest(c) == ToLookUp(r, key, ok, limit)
  {
  }

  lemma WaitStep(ss: seq<State>, es: seq<Event>, i: nat, j: nat, k: nat, r: UrlData, ok: bool, limit: nat)
    requires IsRun(ss, es) && j <= k < |es| && Uninterrupted(es, i, j, ok, limit)
    requires Waiting(ss, es, i, j, k, r) && limit <= |r.nextUrls|
    ensures if es[k] == By(i, ReadDepth(ok, limit))
            then Looking(ss, es, i, j, k + 1, ToLookUp(r, ss[k].maxDepth, ok, limit))
            else Waiting(ss, es, i, j, k + 1, r)
  {
    hide Next, Moved, LookedUp, AfterRead;
    assert Step(ss[k], es[k], ss[k + 1]);
    StandStep(ss[k], es[k], ss[k + 1], i);
    LookedUpMore(ss, es, i, j, k);
    if es[k].By? && es[k].i == i {
      assert es[k] == By(i, es[k].act);
      WaitMoved(ss[k], r, es[k].act);
      ReadLooks(r, ss[k].maxDepth, ok, limit);
    }
    hide Step;
  }

  lemma LookMoved(s: State, c: Consumer, act: Act, i: nat, seen: seq<Url>, links: seq<Url>)
    requires CanAct(s, c, act) && !act.Crash? && !act.Consume?
    requires !c.Received? && seen + Rest(c) == links
    ensures var c' := Moved(s, c, act); !c'.Received? && seen + LooksUp(c, By(i, act), i) + Rest(c') == links
  {
    if act.Check? {
      assert seen + c.rest == seen + [c.rest[0]] + c.rest[1..];
    }
  }

  lemma LookStep(ss: seq<State>, es: seq<Event>, i: nat, j: nat, k: nat, links: seq<Url>, ok: bool, limit: nat)
    requires IsRun(ss, es) && j <= k < |es| && Uninterrupted(es, i, j, ok, limit)
    requires Looking(ss, es, i, j, k, links)
    ensures Looking(ss, es, i, j, k + 1, links)
  {
    hide Next, Moved, LookedUp, Rest;
    assert Step(ss[k], es[k], ss[k + 1]);
    StandStep(ss[k], es[k], ss[k + 1], i);
    LookedUpMore(ss, es, i, j, k);
    var c, seen := ss[k].consumers[i], LookedUp(ss, es, i, j, k);
    if es[k].By? && es[k].i == i {
      assert es[k] == By(i, es[k].act);
      LookMoved(ss[k], c, es[k].act, i, seen, links);
    }
    hide Step;
  }

  lemma NothingYet(ss: seq<State>, es: seq<Event>, i: nat, j: nat)
    requires IsRun(ss, es) && j < |ss|
    ensures LookedUp(ss, es, i, j, j) == []
  {
  }

  /** However the steps of others come in between, a consumer that takes a result and becomes
      idle again has looked up exactly the kept links of that result, each once and in order -
      or none, if the key it read did not ask for more depth. */
  lemma {:induction false} LookupsInOrder(ss: seq<State>, es: seq<Event>, i: nat, j: nat, k: nat,
                                          r: UrlData, ok: bool, limit: nat) returns (q: nat)
    requires IsRun(ss, es) && j <= k < |ss| && Uninterrupted(es, i, j, ok, limit)
    requires i < |ss[j].consumers| && ss[j].consumers[i] == Received(r) && limit <= |r.nextUrls|
    ensures Waiting(ss, es, i, j, k, r)
         || (j <= q < k && es[q] == By(i, ReadDepth(ok, limit))
             && Looking(ss, es, i, j, k, ToLookUp(r, ss[q].maxDepth, ok, limit)))
    decreases k
  {
    q := j;
    hide Step, Uninterrupted, Looking, LookedUp, ToLookUp, AfterRead;
    if j < k {
      q := LookupsInOrder(ss, es, i, j, k - 1, r, ok, limit);
      if Waiting(ss, es, i, j, k - 1, r) {
        WaitStep(ss, es, i, j, k - 1, r, ok, limit);
        if es[k - 1] == By(i, ReadDepth(ok, limit)) {
          q := k - 1;
        }
      } else {
        LookStep(ss, es, i, j, k - 1, ToLookUp(r, ss[q].maxDepth, ok, limit), ok, limit);
      }
    } else {
      NothingYet(ss, es, i, j);
    }
  }

  /** Since step j consumer `i` has read max depth once and looked up what that asked for. */
  ghost predicate Served(ss: seq<State>, es: seq<Event>, i: nat, j: nat, r: UrlData, ok: bool, limit: nat)
    requires IsRun(ss, es) && limit <= |r.nextUrls|
  {
    exists q :: j <= q < |es| && es[q] == By(i, ReadDepth(ok, limit))
                && LookedUp(ss, es, i, j, |es|) == ToLookUp(r, ss[q].maxDepth, ok, limit)
  }

  lemma IdleMeansServed(ss: seq<State>, es: seq<Event>, i: nat, j: nat, r: UrlData, ok: bool, limit: nat)
    requires IsRun(ss, es) && j < |ss| && Uninterrupted(es, i, j, ok, limit)
    requires i < |ss[j].consumers| && ss[j].consumers[i] == Received(r) && limit <= |r.nextUrls|
    requires i < |Last(ss).consumers| && Last(ss).consumers[i].Idle?
    ensures Served(ss, es, i, j, r, ok, limit)
  {
    hide Step, Uninterrupted;
    var q := LookupsInOrder(ss, es, i, j, |es|, r, ok, limit);
  }
}
