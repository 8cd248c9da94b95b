/** The politeness manager: one reserved time slot per request to a host, kept in a map that a
    sweeper cleans up.  Times and delays are whole clock ticks. */
module Politeness {

  type Host = string

  /** The slot that a request at time `now` gets when the last slot of its host is in `m`. */
  function Slot(m: map<Host, int>, host: Host, now: int, delay: int): (slot: int)
    ensures slot >= now
    ensures host in m ==> slot >= m[host] + delay
    ensures slot == now || (host in m && slot == m[host] + delay)
  {
    var wait := if host in m && now - m[host] < delay then delay - (now - m[host]) else 0;
    now + wait
  }

  /** What the sweeper leaves: the entries that are at most `maxAge` old. */
  function Swept(m: map<Host, int>, now: int, maxAge: int): map<Host, int> {
    map h | h in m && now - m[h] <= maxAge :: m[h]
  }

  // ---- Runs of the manager

  datatype Op = Enforce(host: Host, now: int, delay: int) | Sweep(now: int)

  /** The map after `ops`; without `evict` the sweeper does nothing. */
  function Cache(ops: seq<Op>, maxAge: int, evict: bool): map<Host, int> {
    if ops == [] then map[]
    else
      var m, op := Cache(ops[..|ops| - 1], maxAge, evict), ops[|ops| - 1];
      match op
      case Enforce(h, now, delay) => m[h := Slot(m, h, now, delay)]
      case Sweep(now) => if evict then Swept(m, now, maxAge) else m
  }

  /** The slots given to host `h`, in the order of its requests. */
  function SlotsOf(ops: seq<Op>, h: Host, maxAge: int, evict: bool): seq<int> {
    if ops == [] then []
    else
      var before, op := ops[..|ops| - 1], ops[|ops| - 1];
      var slots := SlotsOf(before, h, maxAge, evict);
      if op.Enforce? && op.host == h then
        slots + [Slot(Cache(before, maxAge, evict), h, op.now, op.delay)]
      else slots
  }

  /** One more operation at the end of a run. */
  lemma Snoc(ops: seq<Op>, op: Op, h: Host, maxAge: int, evict: bool)
    ensures var m := Cache(ops, maxAge, evict);
            Cache(ops + [op], maxAge, evict) ==
            match op
            case Enforce(g, now, delay) => m[g := Slot(m, g, now, delay)]
            case Sweep(now) => if evict then Swept(m, now, maxAge) else m
    ensures SlotsOf(ops + [op], h, maxAge, evict) == SlotsOf(ops, h, maxAge, evict) +
            if op.Enforce? && op.host == h then [Slot(Cache(ops, maxAge, evict), h, op.now, op.delay)] else []
  {
    assert (ops + [op])[..|ops|] == ops;
  }

  // ---- The program text

  class PolitenessManager {
    var lastScrapeTime: map<Host, int>
    const maxAge: int
    /** Every operation so far, in the order in which they took the lock. */
    ghost var history: seq<Op>

    /** The map is what the run so far, sweeps included, leaves. */
    ghost predicate Valid()
      reads this
    {
      lastScrapeTime == Cache(history, maxAge, true)
    }

    constructor (maxAge: int)
      ensures Valid() && history == [] && this.maxAge == maxAge
    {
      this.maxAge := maxAge;
      lastScrapeTime, history := map[], [];
    }

    /** Reserves a slot and returns how long the caller has to wait for it. */
    method Enforce(host: Host, delay: int, now: int) returns (waitDuration: int)
      requires Valid()
      modifies this
      ensures Valid() && history == old(history) + [Op.Enforce(host, now, delay)]
      ensures waitDuration >= 0
      ensures SlotsOf(history, host, maxAge, true)
              == SlotsOf(old(history), host, maxAge, true) + [now + waitDuration]
      ensures lastScrapeTime == old(lastScrapeTime)[host := now + waitDuration]
    {
      waitDuration := 0;
      if host in lastScrapeTime {
        var elapsed := now - lastScrapeTime[host];
        if elapsed < delay {
          waitDuration := delay - elapsed;
        }
      }
      var targetTime := now;
      if waitDuration > 0 {
        targetTime := now + waitDuration;
      }
      Snoc(history, Op.Enforce(host, now, delay), host, maxAge, true);
      lastScrapeTime := lastScrapeTime[host := targetTime];
      history := history + [Op.Enforce(host, now, delay)];
    }

    /** One tick of the cleaner: visits every host, in any order, and deletes the old entries. */
    method Clean(now: int) returns (evictedCount: nat)
      requires Valid()
      modifies this
      ensures Valid() && history == old(history) + [Sweep(now)]
      ensures lastScrapeTime == Swept(old(lastScrapeTime), now, maxAge)
      ensures forall h :: h in lastScrapeTime <==> h in old(lastScrapeTime) && now - old(lastScrapeTime)[h] <= maxAge
      ensures forall h <- lastScrapeTime :: lastScrapeTime[h] == old(lastScrapeTime)[h]
      ensures evictedCount == |old(lastScrapeTime)| - |lastScrapeTime|
    {
      evictedCount := 0;
      var before := lastScrapeTime;
      var hosts := before.Keys;
      while hosts != {}
        modifies `lastScrapeTime
        invariant hosts <= before.Keys
        invariant forall h :: h in lastScrapeTime <==> h in before && (h in hosts || now - before[h] <= maxAge)
        invariant forall h | h in lastScrapeTime :: lastScrapeTime[h] == before[h]
        invariant evictedCount + |lastScrapeTime| == |before|
        decreases |hosts|
      {
        var host :| host in hosts;
        hosts := hosts - {host};
        if now - lastScrapeTime[host] > maxAge {
          ghost var was := lastScrapeTime;
          lastScrapeTime := lastScrapeTime - {host};
          assert was.Keys == lastScrapeTime.Keys + {host};
          evictedCount := evictedCount + 1;
        }
      }
      Snoc(history, Sweep(now), "", maxAge, true);
      history := history + [Sweep(now)];
    }
  }

  // ---- What is known about a run

  /** The clock does not go backwards. */
  ghost predicate Clocked(ops: seq<Op>) {
    forall i, j | 0 <= i <= j < |ops| :: ops[i].now <= ops[j].now
  }

  ghost predicate DelaysUpTo(ops: seq<Op>, d: int) {
    forall op <- ops :: op.Enforce? ==> op.delay <= d
  }

  ghost predicate DelaysFrom(ops: seq<Op>, d: int) {
    forall op <- ops :: op.Enforce? ==> op.delay >= d
  }

  /** The map knows the last slot of `h`, or that slot is older than `maxAge`. */
  ghost predicate Remembers(m: map<Host, int>, h: Host, slots: seq<int>, clock: int, maxAge: int) {
    if slots == [] then h !in m
    else if h in m then m[h] == slots[|slots| - 1]
    else slots[|slots| - 1] + maxAge < clock
  }

  lemma {:induction false} CacheRemembers(ops: seq<Op>, h: Host, maxAge: int, evict: bool)
    requires ops != [] && Clocked(ops)
    ensures Remembers(Cache(ops, maxAge, evict), h, SlotsOf(ops, h, maxAge, evict), ops[|ops| - 1].now, maxAge)
  {
    if |ops| > 1 {
      CacheRemembers(ops[..|ops| - 1], h, maxAge, evict);
    }
  }

  // ---- The sweeper

  /** Sweeping changes no slot, if delays are at most one tick longer than `maxAge`. */
  lemma {:induction false} SweeperInvisible(ops: seq<Op>, h: Host, maxAge: int)
    requires Clocked(ops) && DelaysUpTo(ops, maxAge + 1)
    ensures SlotsOf(ops, h, maxAge, true) == SlotsOf(ops, h, maxAge, false)
  {
    if ops != [] {
      var before, op := ops[..|ops| - 1], ops[|ops| - 1];
      SweeperInvisible(before, h, maxAge);
      assert op in ops;
      if before != [] {
        CacheRemembers(before, h, maxAge, true);
        CacheRemembers(before, h, maxAge, false);
        NeverForgets(before, h, maxAge);
        assert ops[|before| - 1].now <= op.now;
      }
    }
  }

  lemma {:induction false} NeverForgets(ops: seq<Op>, h: Host, maxAge: int)
    ensures h in Cache(ops, maxAge, false) <==> SlotsOf(ops, h, maxAge, false) != []
  {
    if ops != [] {
      NeverForgets(ops[..|ops| - 1], h, maxAge);
    }
  }

  /** A sweep leaves exactly the entries of the full history that are at most `maxAge` old. */
  lemma SweepKeepsRecent(ops: seq<Op>, maxAge: int)
    requires Clocked(ops) && DelaysUpTo(ops, maxAge + 1)
    requires ops != [] && ops[|ops| - 1].Sweep?
    ensures Cache(ops, maxAge, true) == Swept(Cache(ops, maxAge, false), ops[|ops| - 1].now, maxAge)
  {
    var before, now := ops[..|ops| - 1], ops[|ops| - 1].now;
    forall h: Host
      ensures h in Cache(ops, maxAge, true) <==>
              h in Cache(ops, maxAge, false) && now - Cache(ops, maxAge, false)[h] <= maxAge
      ensures h in Cache(ops, maxAge, true) ==> Cache(ops, maxAge, true)[h] == Cache(ops, maxAge, false)[h]
    {
      if before != [] {
        CacheRemembers(before, h, maxAge, true);
        CacheRemembers(before, h, maxAge, false);
        NeverForgets(before, h, maxAge);
        SweeperInvisible(before, h, maxAge);
        assert ops[|before| - 1].now <= now;
      }
    }
  }

  ghost predicate SameSlots(ops: seq<Op>, maxAge: int) {
    forall h: Host :: SlotsOf(ops, h, maxAge, true) == SlotsOf(ops, h, maxAge, false)
  }

  lemma ForgottenDelay(h: Host, maxAge: int, d: int, evict: bool)
    requires maxAge >= 0 && d > maxAge + 1
    ensures var late := maxAge + 1;
            SlotsOf([Enforce(h, 0, d)] + [Sweep(late)] + [Enforce(h, late, d)], h, maxAge, evict)
            == [0, if evict then late else d]
  {
    var late := maxAge + 1;
    assert [Enforce(h, 0, d)] == [] + [Enforce(h, 0, d)];
    Snoc([], Enforce(h, 0, d), h, maxAge, evict);
    Snoc([Enforce(h, 0, d)], Sweep(late), h, maxAge, evict);
    Snoc([Enforce(h, 0, d)] + [Sweep(late)], Enforce(h, late, d), h, maxAge, evict);
  }

  /** With delays of up to `d` ticks, the sweeper goes unnoticed in every run exactly when
      d <= maxAge + 1.  A longer robots delay is forgotten by the sweeper before it is over. */
  lemma SweeperInvisibleIff(maxAge: int, d: int)
    requires maxAge >= 0
    ensures (forall ops: seq<Op> :: Clocked(ops) && DelaysUpTo(ops, d) ==> SameSlots(ops, maxAge))
            <==> d <= maxAge + 1
  {
    if d <= maxAge + 1 {
      forall ops: seq<Op> | Clocked(ops) && DelaysUpTo(ops, d)
        ensures SameSlots(ops, maxAge)
      {
        forall h: Host
          ensures SlotsOf(ops, h, maxAge, true) == SlotsOf(ops, h, maxAge, false)
        {
          SweeperInvisible(ops, h, maxAge);
        }
      }
    } else {
      var h, late := "h", maxAge + 1;
      var ops := [Enforce(h, 0, d)] + [Sweep(late)] + [Enforce(h, late, d)];
      ForgottenDelay(h, maxAge, d, true);
      ForgottenDelay(h, maxAge, d, false);
      assert SlotsOf(ops, h, maxAge, true)[1] != SlotsOf(ops, h, maxAge, false)[1];
      assert Clocked(ops) && DelaysUpTo(ops, d);
      assert !SameSlots(ops, maxAge);
    }
  }

  // ---- Hosts do not influence each other

  /** The operations that concern host `h`. */
  function Project(ops: seq<Op>, h: Host): seq<Op> {
    if ops == [] then []
    else
      var before, op := Project(ops[..|ops| - 1], h), ops[|ops| - 1];
      if op.Enforce? && op.host != h then before else before + [op]
  }

  /** A host gets the same slots, and has the same entry in the map, whatever other hosts are
      crawled in between. */
  lemma {:induction false} HostIndependence(ops: seq<Op>, h: Host, maxAge: int, evict: bool)
    ensures SlotsOf(Project(ops, h), h, maxAge, evict) == SlotsOf(ops, h, maxAge, evict)
    ensures h in Cache(Project(ops, h), maxAge, evict) <==> h in Cache(ops, maxAge, evict)
    ensures h in Cache(ops, maxAge, evict) ==>
            Cache(Project(ops, h), maxAge, evict)[h] == Cache(ops, maxAge, evict)[h]
  {
    if ops != [] {
      var before, op := ops[..|ops| - 1], ops[|ops| - 1];
      HostIndependence(before, h, maxAge, evict);
      Snoc(Project(before, h), op, h, maxAge, evict);
    }
  }

  // ---- Greedy reservation is optimal

  datatype Request = Request(now: int, delay: int)

  /** The requests for host `h`, in the order in which they took the lock. */
  function Requests(ops: seq<Op>, h: Host): seq<Request> {
    if ops == [] then []
    else
      var before, op := Requests(ops[..|ops| - 1], h), ops[|ops| - 1];
      if op.Enforce? && op.host == h then before + [Request(op.now, op.delay)] else before
  }

  /** A schedule that starts nothing before it was requested and keeps every delay. */
  ghost predicate Feasible(reqs: seq<Request>, x: seq<int>) {
    && |x| == |reqs|
    && (forall k | 0 <= k < |x| :: x[k] >= reqs[k].now)
    && (forall k | 0 < k < |x| :: x[k] >= x[k - 1] + reqs[k].delay)
  }

  /** The sum of the delays of requests k+1 .. n. */
  function DelaySum(reqs: seq<Request>, k: nat, n: nat): int
    requires k <= n < |reqs|
    decreases n
  {
    if n == k then 0 else DelaySum(reqs, k, n - 1) + reqs[n].delay
  }

  /** Slot n is the arrival of request n or of an earlier one plus the delays since. */
  ghost predicate Attained(reqs: seq<Request>, x: seq<int>, n: nat)
    requires n < |x| == |reqs|
  {
    exists k: nat :: k <= n && x[n] == reqs[k].now + DelaySum(reqs, k, n)
  }

  ghost predicate Tight(reqs: seq<Request>, x: seq<int>) {
    && Feasible(reqs, x)
    && forall n | 0 <= n < |x| :: Attained(reqs, x, n)
  }

  lemma {:induction false} SlotsTight(ops: seq<Op>, h: Host, maxAge: int)
    ensures Tight(Requests(ops, h), SlotsOf(ops, h, maxAge, false))
  {
    if ops != [] {
      var before, op := ops[..|ops| - 1], ops[|ops| - 1];
      SlotsTight(before, h, maxAge);
      if op.Enforce? && op.host == h {
        NeverForgets(before, h, maxAge);
        if h in Cache(before, maxAge, false) {
          LastEntry(before, h, maxAge);
        }
        SnocTight(Requests(before, h), SlotsOf(before, h, maxAge, false),
                  Request(op.now, op.delay), Slot(Cache(before, maxAge, false), h, op.now, op.delay));
      }
    }
  }

  lemma {:induction false} LastEntry(ops: seq<Op>, h: Host, maxAge: int)
    requires h in Cache(ops, maxAge, false)
    ensures var x := SlotsOf(ops, h, maxAge, false);
            x != [] && Cache(ops, maxAge, false)[h] == x[|x| - 1]
  {
    var op := ops[|ops| - 1];
    if !(op.Enforce? && op.host == h) {
      LastEntry(ops[..|ops| - 1], h, maxAge);
    }
  }

  lemma {:induction false} DelaySumPrefix(reqs: seq<Request>, r: Request, k: nat, n: nat)
    requires k <= n < |reqs|
    ensures DelaySum(reqs + [r], k, n) == DelaySum(reqs, k, n)
  {
    if k < n {
      DelaySumPrefix(reqs, r, k, n - 1);
    }
  }

  lemma SnocAttained(reqs: seq<Request>, x: seq<int>, r: Request, slot: int, n: nat)
    requires n < |x| == |reqs| && Attained(reqs, x, n)
    ensures Attained(reqs + [r], x + [slot], n)
  {
    var k: nat :| k <= n && x[n] == reqs[k].now + DelaySum(reqs, k, n);
    DelaySumPrefix(reqs, r, k, n);
    assert (reqs + [r])[k] == reqs[k] && (x + [slot])[n] == x[n];
  }

  lemma LastAttained(reqs: seq<Request>, x: seq<int>, r: Request, slot: int)
    requires |x| == |reqs| && (x != [] ==> Attained(reqs, x, |x| - 1))
    requires slot == r.now || (x != [] && slot == x[|x| - 1] + r.delay)
    ensures Attained(reqs + [r], x + [slot], |x|)
  {
    var n := |x|;
    if slot == r.now {
      assert DelaySum(reqs + [r], n, n) == 0;
    } else {
      var k: nat :| k <= n - 1 && x[n - 1] == reqs[k].now + DelaySum(reqs, k, n - 1);
      DelaySumPrefix(reqs, r, k, n - 1);
      assert (reqs + [r])[k] == reqs[k];
      assert DelaySum(reqs + [r], k, n) == DelaySum(reqs, k, n - 1) + r.delay;
    }
  }

  lemma SnocTight(reqs: seq<Request>, x: seq<int>, r: Request, slot: int)
    requires Tight(reqs, x)
    requires slot >= r.now && (x != [] ==> slot >= x[|x| - 1] + r.delay)
    requires slot == r.now || (x != [] && slot == x[|x| - 1] + r.delay)
    ensures Tight(reqs + [r], x + [slot])
  {
    forall n | 0 <= n <= |x|
      ensures Attained(reqs + [r], x + [slot], n)
    {
      if n < |x| {
        SnocAttained(reqs, x, r, slot, n);
      } else {
        LastAttained(reqs, x, r, slot);
      }
    }
    hide Attained;
    assert Feasible(reqs + [r], x + [slot]);
  }

  /** In any feasible schedule, slot n is no earlier than any arrival plus the delays since. */
  lemma {:induction false} ArrivalBound(reqs: seq<Request>, x: seq<int>, k: nat, n: nat)
    requires Feasible(reqs, x) && k <= n < |x|
    ensures x[n] >= reqs[k].now + DelaySum(reqs, k, n)
    decreases n
  {
    if k < n {
      ArrivalBound(reqs, x, k, n - 1);
    }
  }

  /** The manager's slots for a host are the pointwise earliest schedule that respects arrivals
      and delays in lock order, and slot n is the maximum over k <= n of the arrival of request
      k plus the delays of requests k+1 .. n. */
  lemma GreedyIsOptimal(ops: seq<Op>, h: Host, maxAge: int)
    requires Clocked(ops) && DelaysUpTo(ops, maxAge + 1)
    ensures var reqs, x := Requests(ops, h), SlotsOf(ops, h, maxAge, true);
            && Feasible(reqs, x)
            && (forall y, n | Feasible(reqs, y) && 0 <= n < |y| :: x[n] <= y[n])
            && (forall n, k: nat | k <= n < |x| :: x[n] >= reqs[k].now + DelaySum(reqs, k, n))
            && (forall n | 0 <= n < |x| :: Attained(reqs, x, n))
  {
    var reqs, x := Requests(ops, h), SlotsOf(ops, h, maxAge, true);
    SweeperInvisible(ops, h, maxAge);
    SlotsTight(ops, h, maxAge);
    forall n, k: nat | k <= n < |x|
      ensures x[n] >= reqs[k].now + DelaySum(reqs, k, n)
    {
      ArrivalBound(reqs, x, k, n);
    }
    forall y, n | Feasible(reqs, y) && 0 <= n < |y|
      ensures x[n] <= y[n]
    {
      assert Attained(reqs, x, n);
      var k: nat :| k <= n && x[n] == reqs[k].now + DelaySum(reqs, k, n);
      ArrivalBound(reqs, y, k, n);
    }
  }

  // ---- The rate of requests to a host

  function Min(a: int, b: int): int {
    if a <= b then a else b
  }

  ghost predicate Spaced(x: seq<int>, gap: int) {
    forall i | 0 < i < |x| :: x[i] >= x[i - 1] + gap
  }

  /** Whatever the delays, two consecutive slots are apart by the shortest delay asked for or by
      the age at which the sweeper forgets, whichever is less. */
  lemma {:induction false} SlotsSpaced(ops: seq<Op>, h: Host, maxAge: int, d: int)
    requires Clocked(ops) && DelaysFrom(ops, d)
    ensures Spaced(SlotsOf(ops, h, maxAge, true), Min(d, maxAge + 1))
  {
    if ops != [] {
      var before, op := ops[..|ops| - 1], ops[|ops| - 1];
      SlotsSpaced(before, h, maxAge, d);
      assert op in ops;
      if before != [] {
        CacheRemembers(before, h, maxAge, true);
        assert ops[|before| - 1].now <= op.now;
      }
    }
  }

  /** How many entries of `x` lie in the window from `a` to `b`. */
  function InWindow(x: seq<int>, a: int, b: int): nat {
    if x == [] then 0
    else InWindow(x[..|x| - 1], a, b) + if a <= x[|x| - 1] <= b then 1 else 0
  }

  lemma {:induction false} WindowSpan(x: seq<int>, gap: int, a: int, b: int)
    requires Spaced(x, gap) && gap > 0
    requires InWindow(x, a, b) > 0
    ensures x[|x| - 1] >= a + (InWindow(x, a, b) - 1) * gap
    ensures (InWindow(x, a, b) - 1) * gap <= b - a
  {
    var before, n := x[..|x| - 1], InWindow(x, a, b);
    if InWindow(before, a, b) > 0 {
      WindowSpan(before, gap, a, b);
      assert x[|x| - 1] >= before[|before| - 1] + gap;
      assert (n - 1) * gap == (n - 2) * gap + gap;
    }
  }

  /** In any window of length `l`, a host has at most l / min(d, maxAge + 1) + 1 slots, with the
      sweeper running and whatever delays of at least `d` are asked for. */
  lemma RateBound(ops: seq<Op>, h: Host, maxAge: int, d: int, a: int, l: nat)
    requires Clocked(ops) && DelaysFrom(ops, d) && Min(d, maxAge + 1) > 0
    ensures InWindow(SlotsOf(ops, h, maxAge, true), a, a + l) <= l / Min(d, maxAge + 1) + 1
  {
    SlotsSpaced(ops, h, maxAge, d);
    WindowBound(SlotsOf(ops, h, maxAge, true), Min(d, maxAge + 1), a, l);
  }

  lemma WindowBound(x: seq<int>, gap: int, a: int, l: nat)
    requires Spaced(x, gap) && gap > 0
    ensures InWindow(x, a, a + l) <= l / gap + 1
  {
    var n := InWindow(x, a, a + l);
    if n > 0 {
      WindowSpan(x, gap, a, a + l);
      hide *;
      Quotient(n - 1, gap, l);
    }
  }

  lemma Quotient(n: nat, gap: int, l: nat)
    requires gap > 0 && n * gap <= l
    ensures n <= l / gap
  {
    var q := l / gap;
    assert l < (q + 1) * gap;
    Cancel(n, q + 1, gap);
  }

  lemma {:induction false} Cancel(n: nat, m: nat, gap: int)
    requires gap > 0 && n * gap < m * gap
    ensures n < m
  {
    if n > 0 && m > 0 {
      assert (n - 1) * gap == n * gap - gap && (m - 1) * gap == m * gap - gap;
      Cancel(n - 1, m - 1, gap);
    }
  }
}
