/** How often one URL can be published by the result consumers.
    Checking the filter and adding to it are two Redis commands, so two consumers can both
    be told "absent" for the same URL.  One consumer cannot be told so again after its own
    successful add, which bounds the duplication under every interleaving. */
module Duplication {
  import opened Models
  import opened Protocol

  function InFlight(c: Consumer, u: Url): nat {
    if c.Claimed? && c.url == u then 1 else 0
  }

  /** What is known about consumer `i` and URL `u`: an "absent" answer cannot follow the
      consumer's own successful add, so publications never get ahead of adds. */
  ghost predicate DupAt(s: State, i: nat, u: Url) {
    if i < |s.consumers| then
      && s.log.expansions[(i, u)] + InFlight(s.consumers[i], u)
         <= s.log.failedAdds[(i, u)] + (if (i, u) in s.log.claims then 1 else 0)
      && ((i, u) in s.log.claims ==> u in s.filter)
      && (s.consumers[i].Checked? && s.consumers[i].url == u ==> (i, u) !in s.log.claims)
    else
      s.log.expansions[(i, u)] == 0
  }

  ghost predicate DupInv(s: State) {
    forall i: nat, u: Url :: DupAt(s, i, u)
  }

  /** What `act` by consumer `j` adds to the records of consumer `i` and URL `u`. */
  ghost predicate Counted(s: State, j: nat, act: Act, s': State, i: nat, u: Url)
    requires j < |s.consumers| && CanAct(s, s.consumers[j], act)
  {
    var c := s.consumers[j];
    && s'.log.expansions[(i, u)] ==
       s.log.expansions[(i, u)] + (if act == Publish(true) && i == j && c.url == u then 1 else 0)
    && s'.log.failedAdds[(i, u)] ==
       s.log.failedAdds[(i, u)] + (if act == Add(false) && i == j && c.url == u then 1 else 0)
    && ((i, u) in s'.log.claims <==>
          (i, u) in s.log.claims || (act == Add(true) && i == j && c.url == u))
  }

  lemma CountAct(s: State, j: nat, act: Act, s': State, i: nat, u: Url)
    requires Acts(s, j, act, s')
    ensures Counted(s, j, act, s', i, u)
  {
    hide ByEffect, Moved;
  }

  lemma DupAct(s: State, j: nat, act: Act, s': State, i: nat, u: Url)
    requires Acts(s, j, act, s') && DupAt(s, i, u)
    ensures DupAt(s', i, u)
  {
    CountAct(s, j, act, s', i, u);
    hide ByRecord;
    if i == j {
      DupMoved(s, j, act, s', u);
    } else {
      hide Moved, CanAct;
    }
  }

  lemma DupMoved(s: State, j: nat, act: Act, s': State, u: Url)
    requires j < |s.consumers| && CanAct(s, s.consumers[j], act) && ByEffect(s, j, act, s')
    requires Counted(s, j, act, s', j, u) && DupAt(s, j, u)
    ensures DupAt(s', j, u)
  {
  }

  lemma DupStep(s: State, e: Event, s': State, i: nat, u: Url)
    requires Step(s, e, s') && DupAt(s, i, u)
    ensures DupAt(s', i, u)
  {
    hide Step;
    if e.By? {
      ByFields(s, e, s');
      hide Acts, DupAt;
      DupAct(s, e.i, e.act, s', i, u);
    } else {
      OtherFields(s, e, s');
    }
  }

  lemma {:induction false} DupRun(ss: seq<State>, es: seq<Event>, n: nat, k: nat)
    requires IsRun(ss, es) && Init(ss[0], n) && k < |ss|
    ensures DupInv(ss[k])
  {
    if k > 0 {
      hide Step, DupAt, Init;
      DupRun(ss, es, n, k - 1);
      assert Step(ss[k - 1], es[k - 1], ss[k]);
      forall i: nat, u: Url
        ensures DupAt(ss[k], i, u)
      {
        assert DupAt(ss[k - 1], i, u);
        DupStep(ss[k - 1], es[k - 1], ss[k], i, u);
      }
    } else {
      hide Step;
    }
  }

  /** The entries of `m` for URL `u`, summed over consumers 0 .. n-1. */
  ghost function PerUrl(m: multiset<(nat, Url)>, u: Url, n: nat): nat {
    if n == 0 then 0 else PerUrl(m, u, n - 1) + m[(n - 1, u)]
  }

  lemma {:induction false} PerUrlBound(s: State, u: Url, n: nat)
    requires DupInv(s) && n <= |s.consumers|
    ensures PerUrl(s.log.expansions, u, n) <= n + PerUrl(s.log.failedAdds, u, n)
  {
    if n > 0 {
      PerUrlBound(s, u, n - 1);
      assert DupAt(s, n - 1, u);
    }
  }

  /** Over the whole life of the scheduler, whatever the interleaving, redelivery, restarts,
      number of jobs and false positives: the consumers publish a URL at most once each, plus
      once for every AddToBloom of that URL whose error was ignored. */
  lemma BoundedDuplication(ss: seq<State>, es: seq<Event>, n: nat, u: Url)
    requires IsRun(ss, es) && Init(ss[0], n)
    ensures PerUrl(Last(ss).log.expansions, u, n)
         <= n + PerUrl(Last(ss).log.failedAdds, u, n)
  {
    DupRun(ss, es, n, |es|);
    ConsumersFixed(ss, es, |es|);
    PerUrlBound(Last(ss), u, n);
  }

  /** No consumer stands between an "absent" answer for `u` and its publication. */
  ghost predicate NotPending(s: State, u: Url) {
    forall i: nat | i < |s.consumers| ::
      s.consumers[i].Checked? || s.consumers[i].Claimed? ==> s.consumers[i].url != u
  }

  ghost predicate Settled(s: State, u: Url) {
    u in s.filter && NotPending(s, u)
  }

  /** Consumer `i` is answered about `u`. */
  ghost predicate Checks(s: State, e: Event, u: Url) {
    && e.By? && e.act.Check? && e.i < |s.consumers|
    && s.consumers[e.i].Expanding? && s.consumers[e.i].rest != [] && s.consumers[e.i].rest[0] == u
  }

  ghost predicate SameExpansions(s: State, s': State, u: Url) {
    forall i: nat :: s'.log.expansions[(i, u)] == s.log.expansions[(i, u)]
  }

  lemma PendingMoved(s: State, c: Consumer, act: Act, u: Url)
    requires CanAct(s, c, act) && (c.Checked? || c.Claimed? ==> c.url != u)
    requires act == Check(Absent) ==> c.rest[0] != u
    ensures var c' := Moved(s, c, act); c'.Checked? || c'.Claimed? ==> c'.url != u
  {
  }

  lemma NotPendingStep(s: State, e: Event, s': State, u: Url)
    requires Step(s, e, s') && NotPending(s, u) && (u in s.filter || !Checks(s, e, u))
    ensures NotPending(s', u) && SameExpansions(s, s', u)
  {
    hide Next;
    if e.By? {
      ByFields(s, e, s');
      PendingMoved(s, s.consumers[e.i], e.act, u);
      hide Step, Moved;
    } else {
      OtherFields(s, e, s');
      hide Step;
    }
  }

  lemma FilterGrows(s: State, e: Event, s': State)
    requires Step(s, e, s')
    ensures s.filter <= s'.filter
  {
    hide Next;
    if e.By? {
      ByFields(s, e, s');
    } else {
      OtherFields(s, e, s');
    }
  }

  /** Once `u` is in the filter and every check of it so far has been settled, no consumer
      ever publishes it again. */
  lemma {:induction false} SettledForever(ss: seq<State>, es: seq<Event>, u: Url, j: nat, k: nat)
    requires IsRun(ss, es) && j <= k < |ss|
    requires Settled(ss[j], u)
    ensures Settled(ss[k], u) && SameExpansions(ss[j], ss[k], u)
    decreases k
  {
    if j < k {
      hide Step, NotPending, SameExpansions;
      SettledForever(ss, es, u, j, k - 1);
      assert Step(ss[k - 1], es[k - 1], ss[k]);
      NotPendingStep(ss[k - 1], es[k - 1], ss[k], u);
      FilterGrows(ss[k - 1], es[k - 1], ss[k]);
      SameExpansionsOn(ss[j], ss[k - 1], ss[k], u);
    } else {
      hide IsRun, NotPending;
    }
  }

  lemma SameExpansionsOn(s: State, s': State, s'': State, u: Url)
    requires SameExpansions(s, s', u) && SameExpansions(s', s'', u)
    ensures SameExpansions(s, s'', u)
  {
  }

  /** As long as no consumer is answered about `u`, none publishes it. */
  lemma {:induction false} UncheckedUnpublished(ss: seq<State>, es: seq<Event>, n: nat, u: Url, j: nat)
    requires IsRun(ss, es) && Init(ss[0], n) && j < |ss|
    requires forall k | 0 <= k < j :: !Checks(ss[k], es[k], u)
    ensures NotPending(ss[j], u) && forall i: nat :: ss[j].log.expansions[(i, u)] == 0
    decreases j
  {
    if j > 0 {
      hide Step, NotPending, Checks, Init;
      UncheckedUnpublished(ss, es, n, u, j - 1);
      assert Step(ss[j - 1], es[j - 1], ss[j]);
      NotPendingStep(ss[j - 1], es[j - 1], ss[j], u);
    } else {
      hide Step, Checks;
    }
  }

  /** A URL that is added to the filter before any consumer asks for it - a seed, say, whose add
      succeeds before any page that links to it is expanded - is never published by a consumer. */
  lemma AddedFirstNeverRepublished(ss: seq<State>, es: seq<Event>, n: nat, u: Url, j: nat, k: nat)
    requires IsRun(ss, es) && Init(ss[0], n) && j <= k < |ss|
    requires u in ss[j].filter && forall m | 0 <= m < j :: !Checks(ss[m], es[m], u)
    ensures forall i: nat :: ss[k].log.expansions[(i, u)] == 0
  {
    hide Step, NotPending, Init;
    UncheckedUnpublished(ss, es, n, u, j);
    SettledForever(ss, es, u, j, k);
  }

  // ---- When every add succeeds

  ghost predicate AddsSucceed(es: seq<Event>) {
    forall e <- es :: e.By? && e.act.Add? ==> e.act.ok
  }

  lemma {:induction false} NoFailedAdds(ss: seq<State>, es: seq<Event>, n: nat, k: nat)
    requires IsRun(ss, es) && Init(ss[0], n) && k < |ss|
    requires AddsSucceed(es)
    ensures ss[k].log.failedAdds == multiset{}
  {
    if k > 0 {
      NoFailedAdds(ss, es, n, k - 1);
      assert Step(ss[k - 1], es[k - 1], ss[k]);
      assert es[k - 1] in es;
    }
  }

  /** No URL was published more than `m` times by the `n` consumers. */
  ghost predicate AtMost(ss: seq<State>, n: nat, m: nat)
    requires |ss| > 0
  {
    forall u: Url :: PerUrl(Last(ss).log.expansions, u, n) <= m
  }

  /** Every consumer publishes every URL at most once. */
  lemma OncePerConsumer(ss: seq<State>, es: seq<Event>, n: nat)
    requires IsRun(ss, es) && Init(ss[0], n) && AddsSucceed(es)
    ensures AtMost(ss, n, n)
  {
    hide Step, Init, AddsSucceed;
    forall u: Url
      ensures PerUrl(Last(ss).log.expansions, u, n) <= n
    {
      BoundedDuplication(ss, es, n, u);
      NoFailedAdds(ss, es, n, |es|);
      PerUrlEmpty(u, n);
    }
  }

  lemma {:induction false} PerUrlEmpty(u: Url, n: nat)
    ensures PerUrl(multiset{}, u, n) == 0
  {
    if n > 0 {
      PerUrlEmpty(u, n - 1);
    }
  }

  lemma {:induction false} PerUrlAtLeast(m: multiset<(nat, Url)>, u: Url, n: nat)
    requires forall i: nat | i < n :: m[(i, u)] >= 1
    ensures PerUrl(m, u, n) >= n
  {
    if n > 0 {
      PerUrlAtLeast(m, u, n - 1);
    }
  }
}
