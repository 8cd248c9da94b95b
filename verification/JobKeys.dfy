/** The three job keys in Redis, the operations on them, and the watchdog.  The clock counts
    milliseconds; stored times are whole seconds. */
module JobKeys {
  import opened Models

  /** A key's value and the time it was written. */
  datatype Entry<T> = Entry(value: T, at: nat)

  datatype Keys = Keys(
    active: Option<Entry<Url>>,             // crawler:active_job
    maxDepth: Option<Entry<int>>,           // crawler:max_depth
    lastActivity: Option<Entry<nat>>,       // crawler:last_activity_time
    clock: nat)

  const NO_KEYS := Keys(None, None, None, 0)

  /** What a reader finds: a key is gone `ttl` after it was written, or never if `ttl` is 0. */
  function Live<T>(e: Option<Entry<T>>, clock: nat, ttl: nat): Option<T> {
    if e.Some? && (ttl == 0 || clock < e.value.at + ttl) then Some(e.value.value) else None
  }

  function Unix(clock: nat): nat {
    clock / 1000
  }

  /** One Redis command that took effect, or the passing of time. */
  datatype Command =
    | SetNX(url: Url)
    | SetDepth(depth: int)
    | SetActivity
    | DelActive
    | DelDepth
    | DelActivity
    | Pass(ms: nat)

  function Apply(k: Keys, c: Command, ttl: nat): Keys {
    match c
    case SetNX(url) =>
      if Live(k.active, k.clock, ttl).Some? then k else k.(active := Some(Entry(url, k.clock)))
    case SetDepth(depth) => k.(maxDepth := Some(Entry(depth, k.clock)))
    case SetActivity => k.(lastActivity := Some(Entry(Unix(k.clock), k.clock)))
    case DelActive => k.(active := None)
    case DelDepth => k.(maxDepth := None)
    case DelActivity => k.(lastActivity := None)
    case Pass(ms) => k.(clock := k.clock + ms)
  }

  /** The keys after `cs`, whoever issued them. */
  function Replay(k: Keys, cs: seq<Command>, ttl: nat): Keys {
    if cs == [] then k else Apply(Replay(k, cs[..|cs| - 1], ttl), cs[|cs| - 1], ttl)
  }

  lemma {:induction false} ReplayMore(k: Keys, cs: seq<Command>, ds: seq<Command>, ttl: nat)
    ensures Replay(k, cs + ds, ttl) == Replay(Replay(k, cs, ttl), ds, ttl)
  {
    if ds == [] {
      assert cs + ds == cs;
    } else {
      ReplayMore(k, cs, ds[..|ds| - 1], ttl);
      assert (cs + ds)[..|cs + ds| - 1] == cs + ds[..|ds| - 1];
    }
  }

  lemma ReplayOne(k: Keys, cs: seq<Command>, c: Command, ttl: nat)
    ensures Replay(k, cs + [c], ttl) == Apply(Replay(k, cs, ttl), c, ttl)
  {
    assert (cs + [c])[..|cs|] == cs;
  }

  // ---- The operations, each as one step

  /** Where StartJob meets a Redis error, if anywhere. */
  datatype Fault = NoFault | AtLock | AtDepth | AtActivity

  datatype Op =
    | Tick(ms: nat)
    | Start(url: Url, depth: int, fault: Fault)
    | Cleanup
    | Stamp(ok: bool)
      // One watchdog tick: `quiet` if it gets as far as finding all queues empty, `readable` if
      // Redis then answers the read of the last activity.
    | Watch(quiet: bool, readable: bool)

  const CLEANUP := [DelActive, DelDepth, DelActivity]

  /** The watchdog ends the job. */
  predicate Fires(k: Keys, quiet: bool, readable: bool, ttl: nat, idle: int) {
    && quiet
    && Live(k.active, k.clock, ttl).Some?
    && (readable ==>
          match Live(k.lastActivity, k.clock, ttl)
          case None => true
          case Some(last) => Unix(k.clock) - last > idle)
  }

  predicate Starts(k: Keys, op: Op, ttl: nat) {
    op.Start? && op.fault.NoFault? && Live(k.active, k.clock, ttl).None?
  }

  /** The commands that an operation issues when nobody else's come in between. */
  function CommandsOf(k: Keys, op: Op, ttl: nat, idle: int): seq<Command> {
    match op
    case Tick(ms) => [Pass(ms)]
    case Start(url, depth, fault) =>
      if fault.AtLock? then []
      else if Live(k.active, k.clock, ttl).Some? then [SetNX(url)]
      else if fault.AtDepth? then [SetNX(url), DelActive]
      else if fault.AtActivity? then [SetNX(url), SetDepth(depth), DelActive, DelDepth]
      else [SetNX(url), SetDepth(depth), SetActivity]
    case Cleanup => CLEANUP
    case Stamp(ok) => if ok then [SetActivity] else []
    case Watch(quiet, readable) => if Fires(k, quiet, readable, ttl, idle) then CLEANUP else []
  }

  function After(k: Keys, op: Op, ttl: nat, idle: int): Keys {
    Replay(k, CommandsOf(k, op, ttl, idle), ttl)
  }

  function KeysAfter(ops: seq<Op>, ttl: nat, idle: int): Keys {
    if ops == [] then NO_KEYS else After(KeysAfter(ops[..|ops| - 1], ttl, idle), ops[|ops| - 1], ttl, idle)
  }

  /** The whole effect of each operation. */
  lemma AfterFields(k: Keys, op: Op, ttl: nat, idle: int)
    ensures var k' := After(k, op, ttl, idle);
      match op
      case Tick(ms) => k' == k.(clock := k.clock + ms)
      case Start(url, depth, fault) =>
        if fault.AtLock? || Live(k.active, k.clock, ttl).Some? then k' == k
        else if fault.AtDepth? then k' == k.(active := None)
        else if fault.AtActivity? then k' == k.(active := None, maxDepth := None)
        else k' == Keys(Some(Entry(url, k.clock)), Some(Entry(depth, k.clock)),
                        Some(Entry(Unix(k.clock), k.clock)), k.clock)
      case Cleanup => k' == Keys(None, None, None, k.clock)
      case Stamp(ok) => k' == if ok then k.(lastActivity := Some(Entry(Unix(k.clock), k.clock))) else k
      case Watch(quiet, readable) =>
        k' == if Fires(k, quiet, readable, ttl, idle) then Keys(None, None, None, k.clock) else k
  {
    var cs := CommandsOf(k, op, ttl, idle);
    if |cs| > 0 {
      Unfold(k, cs, ttl);
    }
    hide Fires;
  }

  /** At most four commands, played one by one. */
  lemma Unfold(k: Keys, cs: seq<Command>, ttl: nat)
    requires 1 <= |cs| <= 4
    ensures var k1 := Apply(k, cs[0], ttl);
      Replay(k, cs, ttl) ==
      if |cs| == 1 then k1
      else var k2 := Apply(k1, cs[1], ttl);
      if |cs| == 2 then k2
      else var k3 := Apply(k2, cs[2], ttl);
      if |cs| == 3 then k3 else Apply(k3, cs[3], ttl)
  {
    hide Apply;
    assert cs[..1][..0] == [];
    assert Replay(k, cs[..1], ttl) == Apply(k, cs[0], ttl);
    if |cs| > 1 {
      assert cs[..2][..1] == cs[..1];
      if |cs| > 2 {
        assert cs[..3][..2] == cs[..2];
        if |cs| > 3 {
          assert cs[..4][..3] == cs[..3];
        }
      }
    }
    assert cs[..|cs|] == cs;
  }

  // ---- The keys agree

  /** A live lock comes with a live max depth and a live activity time. */
  ghost predicate Agree(k: Keys, ttl: nat) {
    Live(k.active, k.clock, ttl).Some? ==>
      Live(k.maxDepth, k.clock, ttl).Some? && Live(k.lastActivity, k.clock, ttl).Some?
  }

  /** ... because neither was written before the lock. */
  ghost predicate WrittenInOrder(k: Keys) {
    k.active.Some? ==>
      && k.maxDepth.Some? && k.lastActivity.Some?
      && k.active.value.at <= k.maxDepth.value.at
      && k.active.value.at <= k.lastActivity.value.at
  }

  /** The last successful start or stamp. */
  ghost function LastStamp(ops: seq<Op>, ttl: nat, idle: int): nat {
    if ops == [] then 0
    else
      var before, op := ops[..|ops| - 1], ops[|ops| - 1];
      var k := KeysAfter(before, ttl, idle);
      if op == Stamp(true) || Starts(k, op, ttl) then k.clock else LastStamp(before, ttl, idle)
  }

  lemma {:induction false} KeysWrittenInOrder(ops: seq<Op>, ttl: nat, idle: int)
    ensures var k, last := KeysAfter(ops, ttl, idle), LastStamp(ops, ttl, idle);
      && WrittenInOrder(k) && last <= k.clock
      && (k.active.Some? ==> k.active.value.at <= k.clock)
      && (k.lastActivity.Some? ==> k.lastActivity.value == Entry(Unix(last), last))
  {
    if ops != [] {
      var before, op := ops[..|ops| - 1], ops[|ops| - 1];
      KeysWrittenInOrder(before, ttl, idle);
      AfterFields(KeysAfter(before, ttl, idle), op, ttl, idle);
      hide After, Fires, Unix;
    }
  }

  /** Whatever is started, stamped, cleaned up, watched and however much time passes: while the
      lock lives, so do the two other keys. */
  lemma KeysAgree(ops: seq<Op>, ttl: nat, idle: int)
    ensures Agree(KeysAfter(ops, ttl, idle), ttl)
  {
    KeysWrittenInOrder(ops, ttl, idle);
  }

  /** So the watchdog never finds the activity time of an active job missing: it ends a job
      exactly when the queues are empty and Redis fails to answer the read of the activity time
      or more than `idle` whole seconds have begun since the last successful stamp. */
  lemma WatchdogFiresIff(ops: seq<Op>, quiet: bool, readable: bool, ttl: nat, idle: int)
    ensures var k := KeysAfter(ops, ttl, idle);
      Fires(k, quiet, readable, ttl, idle) <==>
      && quiet && Live(k.active, k.clock, ttl).Some?
      && (readable ==> Unix(k.clock) - Unix(LastStamp(ops, ttl, idle)) > idle)
  {
    KeysWrittenInOrder(ops, ttl, idle);
    hide Unix;
  }

  // ---- A job that is kept busy is never ended

  /** Some tick of the watchdog after the first `from` operations found the queues empty too
      long after the last stamp, or could not read when that was. */
  ghost predicate Idled(ops: seq<Op>, from: nat, ttl: nat, idle: int) {
    exists k :: from <= k < |ops| && IdledAt(ops, k, ttl, idle)
  }

  ghost predicate IdledAt(ops: seq<Op>, k: nat, ttl: nat, idle: int)
    requires k < |ops|
  {
    && ops[k].Watch? && ops[k].quiet
    && (ops[k].readable ==>
          Unix(KeysAfter(ops[..k], ttl, idle).clock) - Unix(LastStamp(ops[..k], ttl, idle)) > idle)
  }

  /** From operation `from` on: no cleanup by a handler, and the job's time to live is not over. */
  ghost predicate Undisturbed(ops: seq<Op>, from: nat, ttl: nat, idle: int)
    requires from <= |ops|
  {
    && (forall k | from <= k < |ops| :: ops[k] != Cleanup)
    && (ttl == 0 ||
        KeysAfter(ops, ttl, idle).clock < KeysAfter(ops[..from], ttl, idle).clock + ttl)
  }

  /** No other job is started after the first `from` operations. */
  ghost predicate Exclusive(ops: seq<Op>, from: nat, ttl: nat, idle: int) {
    forall k | from <= k < |ops| :: !Starts(KeysAfter(ops[..k], ttl, idle), ops[k], ttl)
  }

  /** The keys are those of the job for `u` that was started at time `at`. */
  ghost predicate Holds(k: Keys, u: Url, d: int, at: nat) {
    k.active == Some(Entry(u, at)) && k.maxDepth == Some(Entry(d, at))
  }

  lemma {:induction false} ClockGrows(ops: seq<Op>, from: nat, ttl: nat, idle: int)
    requires from <= |ops|
    ensures KeysAfter(ops[..from], ttl, idle).clock <= KeysAfter(ops, ttl, idle).clock
  {
    if from == |ops| {
      assert ops[..from] == ops;
    } else {
      var before := ops[..|ops| - 1];
      ClockGrows(before, from, ttl, idle);
      assert before[..from] == ops[..from];
      AfterFields(KeysAfter(before, ttl, idle), ops[|before|], ttl, idle);
      hide After;
    }
  }

  lemma HoldStep(ops: seq<Op>, op: Op, u: Url, d: int, at: nat, ttl: nat, idle: int)
    requires var k := KeysAfter(ops, ttl, idle);
      && Holds(k, u, d, at) && at <= k.clock
      && (ttl == 0 || k.clock < at + ttl)
      && (op.Watch? ==> !Fires(k, op.quiet, op.readable, ttl, idle))
    requires op != Cleanup
    ensures Holds(After(KeysAfter(ops, ttl, idle), op, ttl, idle), u, d, at)
    ensures !Starts(KeysAfter(ops, ttl, idle), op, ttl)
  {
    AfterFields(KeysAfter(ops, ttl, idle), op, ttl, idle);
    hide After, Fires, KeysAfter, Unix;
  }

  lemma ExclusiveMore(ops: seq<Op>, from: nat, ttl: nat, idle: int)
    requires from < |ops| && Exclusive(ops[..|ops| - 1], from, ttl, idle)
    requires !Starts(KeysAfter(ops[..|ops| - 1], ttl, idle), ops[|ops| - 1], ttl)
    ensures Exclusive(ops, from, ttl, idle)
  {
    hide KeysAfter;
    var before := ops[..|ops| - 1];
    forall j | from <= j < |ops|
      ensures !Starts(KeysAfter(ops[..j], ttl, idle), ops[j], ttl)
    {
      if j < |before| {
        assert before[..j] == ops[..j] && !Starts(KeysAfter(before[..j], ttl, idle), before[j], ttl);
      }
    }
  }

  lemma {:induction false} BusyJobHolds(ops: seq<Op>, from: nat, u: Url, d: int, ttl: nat, idle: int)
    requires from <= |ops| && Undisturbed(ops, from, ttl, idle) && !Idled(ops, from, ttl, idle)
    requires Holds(KeysAfter(ops[..from], ttl, idle), u, d, KeysAfter(ops[..from], ttl, idle).clock)
    ensures Holds(KeysAfter(ops, ttl, idle), u, d, KeysAfter(ops[..from], ttl, idle).clock)
    ensures Exclusive(ops, from, ttl, idle)
  {
    hide After, KeysAfter, Unix, LastStamp, Fires, Exclusive, Idled, Holds, Starts;
    if from == |ops| {
      assert ops[..from] == ops;
      NoneYet(ops, ttl, idle);
    } else {
      var before, op := ops[..|ops| - 1], ops[|ops| - 1];
      assert before[..from] == ops[..from];
      Shorten(ops, from, ttl, idle);
      BusyJobHolds(before, from, u, d, ttl, idle);
      NotFired(ops, from, ttl, idle);
      ClockGrows(before, from, ttl, idle);
      HoldStep(before, op, u, d, KeysAfter(ops[..from], ttl, idle).clock, ttl, idle);
      LastOp(ops, ttl, idle);
      ExclusiveMore(ops, from, ttl, idle);
    }
  }

  lemma LastOp(ops: seq<Op>, ttl: nat, idle: int)
    requires ops != []
    ensures KeysAfter(ops, ttl, idle) == After(KeysAfter(ops[..|ops| - 1], ttl, idle), ops[|ops| - 1], ttl, idle)
  {
    hide After;
  }

  lemma NoneYet(ops: seq<Op>, ttl: nat, idle: int)
    ensures Exclusive(ops, |ops|, ttl, idle)
  {
  }

  lemma NotFired(ops: seq<Op>, from: nat, ttl: nat, idle: int)
    requires from < |ops| && !Idled(ops, from, ttl, idle)
    ensures var op := ops[|ops| - 1];
      op.Watch? ==> !Fires(KeysAfter(ops[..|ops| - 1], ttl, idle), op.quiet, op.readable, ttl, idle)
  {
    hide KeysAfter, Fires, Unix, LastStamp;
    var before, op := ops[..|ops| - 1], ops[|ops| - 1];
    if op.Watch? {
      WatchdogFiresIff(before, op.quiet, op.readable, ttl, idle);
      assert !IdledAt(ops, |before|, ttl, idle);
    }
  }

  /** What is true of a run from `from` on is true of a shorter one. */
  lemma Shorten(ops: seq<Op>, from: nat, ttl: nat, idle: int)
    requires from < |ops| && Undisturbed(ops, from, ttl, idle) && !Idled(ops, from, ttl, idle)
    ensures var before := ops[..|ops| - 1];
      Undisturbed(before, from, ttl, idle) && !Idled(before, from, ttl, idle)
      && KeysAfter(before, ttl, idle).clock <= KeysAfter(ops, ttl, idle).clock
  {
    var before := ops[..|ops| - 1];
    ClockGrows(ops, |before|, ttl, idle);
    assert before[..from] == ops[..from];
    forall k | from <= k < |before|
      ensures !IdledAt(before, k, ttl, idle)
    {
      assert before[..k] == ops[..k] && !IdledAt(ops, k, ttl, idle);
    }
    hide KeysAfter, LastStamp, Unix;
  }

  /** Once the lock is gone it stays so until another job is started. */
  lemma {:induction false} DeadStays(ops: seq<Op>, from: nat, ttl: nat, idle: int)
    requires from <= |ops| && Exclusive(ops, from, ttl, idle)
    requires var k := KeysAfter(ops[..from], ttl, idle); Live(k.active, k.clock, ttl).None?
    ensures var k := KeysAfter(ops, ttl, idle); Live(k.active, k.clock, ttl).None?
  {
    if from == |ops| {
      assert ops[..from] == ops;
    } else {
      var before, op := ops[..|ops| - 1], ops[|ops| - 1];
      assert before[..from] == ops[..from];
      assert !Starts(KeysAfter(ops[..|before|], ttl, idle), ops[|before|], ttl);
      forall j | from <= j < |before|
        ensures !Starts(KeysAfter(before[..j], ttl, idle), before[j], ttl)
      {
        assert before[..j] == ops[..j] && !Starts(KeysAfter(ops[..j], ttl, idle), ops[j], ttl);
      }
      DeadStays(before, from, ttl, idle);
      AfterFields(KeysAfter(before, ttl, idle), op, ttl, idle);
      hide After, Fires, Unix, Exclusive;
    }
  }

  /** A watchdog tick that comes too late ends whatever job is active. */
  lemma LateTick(ops: seq<Op>, k: nat, ttl: nat, idle: int)
    requires k < |ops| && IdledAt(ops, k, ttl, idle)
    ensures var keys := KeysAfter(ops[..k + 1], ttl, idle); Live(keys.active, keys.clock, ttl).None?
  {
    assert ops[..k + 1][..k] == ops[..k];
    WatchdogFiresIff(ops[..k], true, ops[k].readable, ttl, idle);
    AfterFields(KeysAfter(ops[..k], ttl, idle), ops[k], ttl, idle);
    hide After, Fires, Unix, LastStamp;
  }

  lemma LateTickSettles(ops: seq<Op>, from: nat, ttl: nat, idle: int)
    requires from <= |ops| && Undisturbed(ops, from, ttl, idle)
    requires Idled(ops, from, ttl, idle) && Exclusive(ops, from, ttl, idle)
    ensures var k := KeysAfter(ops, ttl, idle); Live(k.active, k.clock, ttl).None?
  {
    hide KeysAfter, IdledAt, Starts;
    var k :| from <= k < |ops| && IdledAt(ops, k, ttl, idle);
    LateTick(ops, k, ttl, idle);
    DeadStays(ops, k + 1, ttl, idle);
  }

  /** A job that operation `from - 1` has started keeps the lock, and keeps it alone, exactly as
      long as no watchdog tick finds the queues empty more than `idle` seconds after the last
      stamp, or without being able to read it - however many starts are attempted meanwhile.
      Then it keeps its max depth too. */
  lemma JobSurvivesIff(ops: seq<Op>, from: nat, ttl: nat, idle: int)
    requires 0 < from <= |ops| && Undisturbed(ops, from, ttl, idle)
    requires Starts(KeysAfter(ops[..from - 1], ttl, idle), ops[from - 1], ttl)
    ensures var k, start := KeysAfter(ops, ttl, idle), ops[from - 1];
      && (Exclusive(ops, from, ttl, idle) && Live(k.active, k.clock, ttl).Some? <==> !Idled(ops, from, ttl, idle))
      && (!Idled(ops, from, ttl, idle) ==>
            Live(k.active, k.clock, ttl) == Some(start.url) && Live(k.maxDepth, k.clock, ttl) == Some(start.depth))
  {
    var start, at := ops[from - 1], KeysAfter(ops[..from], ttl, idle).clock;
    assert ops[..from][..from - 1] == ops[..from - 1];
    AfterFields(KeysAfter(ops[..from - 1], ttl, idle), start, ttl, idle);
    hide KeysAfter, After, Fires, Unix, LastStamp, Exclusive, Starts, IdledAt;
    if Idled(ops, from, ttl, idle) {
      if Exclusive(ops, from, ttl, idle) {
        LateTickSettles(ops, from, ttl, idle);
      }
    } else {
      BusyJobHolds(ops, from, start.url, start.depth, ttl, idle);
    }
  }

  // ---- Single commands, however those of different clients interleave

  ghost predicate Acquires(cs: seq<Command>, i: nat, ttl: nat)
    requires i < |cs|
  {
    cs[i].SetNX? && var k := Replay(NO_KEYS, cs[..i], ttl); Live(k.active, k.clock, ttl).None?
  }

  /** The lock is live before command i and not after it: deleted or expired. */
  ghost predicate Releases(cs: seq<Command>, i: nat, ttl: nat)
    requires i < |cs|
  {
    var k, k' := Replay(NO_KEYS, cs[..i], ttl), Replay(NO_KEYS, cs[..i + 1], ttl);
    Live(k.active, k.clock, ttl).Some? && Live(k'.active, k'.clock, ttl).None?
  }

  ghost function Acquired(cs: seq<Command>, ttl: nat): nat {
    if cs == [] then 0
    else Acquired(cs[..|cs| - 1], ttl) + if Acquires(cs, |cs| - 1, ttl) then 1 else 0
  }

  ghost function Released(cs: seq<Command>, ttl: nat): nat {
    if cs == [] then 0
    else Released(cs[..|cs| - 1], ttl) + if Releases(cs, |cs| - 1, ttl) then 1 else 0
  }

  /** Successful SETNX commands minus effective releases is 1 while the lock lives and else 0. */
  lemma {:induction false} LockBalance(cs: seq<Command>, ttl: nat)
    ensures var k := Replay(NO_KEYS, cs, ttl);
      Acquired(cs, ttl) == Released(cs, ttl) + if Live(k.active, k.clock, ttl).Some? then 1 else 0
  {
    if cs != [] {
      LockBalance(cs[..|cs| - 1], ttl);
      assert cs[..|cs|] == cs;
    }
  }

  /** Two requests both get the lock only if it was released in between. */
  lemma LockIsExclusive(cs: seq<Command>, i: nat, j: nat, ttl: nat)
    requires i < j < |cs| && Acquires(cs, i, ttl) && Acquires(cs, j, ttl)
    ensures exists m :: i < m < j && Releases(cs, m, ttl)
  {
    assert cs[..i + 1][..i] == cs[..i];
    HeldUntilReleased(cs, i + 1, j, ttl);
  }

  lemma {:induction false} HeldUntilReleased(cs: seq<Command>, i: nat, j: nat, ttl: nat)
    requires i <= j <= |cs|
    requires var k := Replay(NO_KEYS, cs[..i], ttl); Live(k.active, k.clock, ttl).Some?
    ensures (exists m :: i <= m < j && Releases(cs, m, ttl))
         || var k := Replay(NO_KEYS, cs[..j], ttl); Live(k.active, k.clock, ttl).Some?
    decreases j
  {
    if i < j {
      HeldUntilReleased(cs, i, j - 1, ttl);
      if !exists m :: i <= m < j - 1 && Releases(cs, m, ttl) {
        assert Releases(cs, j - 1, ttl)
            || var k := Replay(NO_KEYS, cs[..j], ttl); Live(k.active, k.clock, ttl).Some?;
      }
    }
  }

  // ---- A cleanup and a start that overlap

  datatype Key = Lock | Depth | Activity

  predicate Writes(c: Command, key: Key) {
    match key
    case Lock => c.SetNX? || c.DelActive?
    case Depth => c.SetDepth? || c.DelDepth?
    case Activity => c.SetActivity? || c.DelActivity?
  }

  predicate Present(k: Keys, key: Key, ttl: nat) {
    match key
    case Lock => Live(k.active, k.clock, ttl).Some?
    case Depth => Live(k.maxDepth, k.clock, ttl).Some?
    case Activity => Live(k.lastActivity, k.clock, ttl).Some?
  }

  /** Within one instant, a key is there iff the last command that writes it sets it. */
  lemma {:induction false} LastWriter(k: Keys, cs: seq<Command>, p: nat, key: Key, ttl: nat)
    requires p < |cs| && Writes(cs[p], key)
    requires forall q | p < q < |cs| :: !Writes(cs[q], key)
    requires forall q | 0 <= q < |cs| :: !cs[q].Pass?
    ensures Present(Replay(k, cs, ttl), key, ttl) <==> cs[p].SetNX? || cs[p].SetDepth? || cs[p].SetActivity?
  {
    if p < |cs| - 1 {
      LastWriter(k, cs[..|cs| - 1], p, key, ttl);
      assert !Writes(cs[|cs| - 1], key) && !cs[|cs| - 1].Pass?;
    }
  }

  /** Some interleaving of a whole start, whose commands are at s[0] < s[1] < s[2], with a whole
      cleanup, whose commands are at d[0] < d[1] < d[2]. */
  ghost predicate Overlap(cs: seq<Command>, url: Url, depth: int, s: seq<nat>, d: seq<nat>) {
    && |s| == |d| == 3 && |cs| == 6
    && s[0] < s[1] < s[2] < 6 && d[0] < d[1] < d[2] < 6
    && (forall i | 0 <= i < 6 :: i in s || i in d)
    && cs[s[0]] == SetNX(url) && cs[s[1]] == SetDepth(depth) && cs[s[2]] == SetActivity
    && cs[d[0]] == DelActive && cs[d[1]] == DelDepth && cs[d[2]] == DelActivity
  }

  /** StartJob and ForceCleanupJob are several commands each.  When a start gets the lock that a
      cleanup by somebody else has just deleted, the keys agree afterwards exactly if the cleanup
      deletes each of the two other keys before the start sets it.  Otherwise the new job is
      left with a lock but without max depth or without activity time. */
  lemma OverlapAgreesIff(k: Keys, cs: seq<Command>, url: Url, depth: int, s: seq<nat>, d: seq<nat>, ttl: nat)
    requires Overlap(cs, url, depth, s, d) && d[0] < s[0]
    ensures Live(Replay(k, cs, ttl).active, k.clock, ttl).Some?
    ensures Agree(Replay(k, cs, ttl), ttl) <==> d[1] < s[1] && d[2] < s[2]
  {
    LastWriter(k, cs, s[0], Lock, ttl);
    LastWriter(k, cs, if d[1] < s[1] then s[1] else d[1], Depth, ttl);
    LastWriter(k, cs, if d[2] < s[2] then s[2] else d[2], Activity, ttl);
    SameInstant(k, cs, ttl);
  }

  lemma {:induction false} SameInstant(k: Keys, cs: seq<Command>, ttl: nat)
    requires forall q | 0 <= q < |cs| :: !cs[q].Pass?
    ensures Replay(k, cs, ttl).clock == k.clock
  {
    if cs != [] {
      SameInstant(k, cs[..|cs| - 1], ttl);
    }
  }

  /** Such an interleaving exists: a new job can be left with its lock but without max depth. */
  lemma OverlapCanBreak(k: Keys, url: Url, depth: int, ttl: nat)
    ensures exists cs, s, d ::
      && Overlap(cs, url, depth, s, d) && d[0] < s[0]
      && Present(Replay(k, cs, ttl), Lock, ttl) && !Present(Replay(k, cs, ttl), Depth, ttl)
  {
    var cs := [DelActive, SetNX(url), SetDepth(depth), SetActivity, DelDepth, DelActivity];
    assert Overlap(cs, url, depth, [1, 2, 3], [0, 4, 5]);
    LastWriter(k, cs, 1, Lock, ttl);
    LastWriter(k, cs, 4, Depth, ttl);
    hide Replay, Present;
  }

  // ---- What the keys answer, read off from the commands alone

  function Elapsed(cs: seq<Command>): nat {
    if cs == [] then 0
    else Elapsed(cs[..|cs| - 1]) + if cs[|cs| - 1].Pass? then cs[|cs| - 1].ms else 0
  }

  /** Command p is the last that writes `key`, and its time to live is not over. */
  ghost predicate Lasts(cs: seq<Command>, p: nat, key: Key, ttl: nat)
    requires p < |cs|
  {
    && Writes(cs[p], key)
    && (forall q | p < q < |cs| :: !Writes(cs[q], key))
    && (ttl == 0 || Elapsed(cs[p + 1..]) < ttl)
  }

  lemma {:induction false} ClockElapsed(k: Keys, cs: seq<Command>, p: nat, ttl: nat)
    requires p <= |cs|
    ensures Replay(k, cs, ttl).clock == Replay(k, cs[..p], ttl).clock + Elapsed(cs[p..])
  {
    if p == |cs| {
      assert cs[..p] == cs;
    } else {
      var before := cs[..|cs| - 1];
      ClockElapsed(k, before, p, ttl);
      assert before[..p] == cs[..p] && cs[p..][..|cs| - p - 1] == before[p..];
      hide Replay;
    }
  }

  /** Command `c` gives max depth or the activity time a new value. */
  predicate Sets(c: Command, key: Key) {
    (key.Depth? && c.SetDepth?) || (key.Activity? && c.SetActivity?)
  }

  function WrittenAt(k: Keys, key: Key): Option<nat> {
    match key
    case Lock => if k.active.None? then None else Some(k.active.value.at)
    case Depth => if k.maxDepth.None? then None else Some(k.maxDepth.value.at)
    case Activity => if k.lastActivity.None? then None else Some(k.lastActivity.value.at)
  }

  /** The entry that command p wrote is still there. */
  lemma {:induction false} WriteStays(cs: seq<Command>, p: nat, key: Key, ttl: nat)
    requires p < |cs| && Sets(cs[p], key) && forall q | p < q < |cs| :: !Writes(cs[q], key)
    ensures var k := Replay(NO_KEYS, cs, ttl);
      && WrittenAt(k, key) == Some(Replay(NO_KEYS, cs[..p], ttl).clock)
      && (key.Depth? ==> k.maxDepth.value.value == cs[p].depth)
  {
    var before := cs[..|cs| - 1];
    if p < |before| {
      WriteStays(before, p, key, ttl);
      assert before[..p] == cs[..p] && !Writes(cs[|before|], key);
    }
  }

  lemma {:induction false} WriteCame(cs: seq<Command>, key: Key, ttl: nat) returns (p: nat)
    requires !key.Lock? && WrittenAt(Replay(NO_KEYS, cs, ttl), key).Some?
    ensures p < |cs| && Sets(cs[p], key) && forall q | p < q < |cs| :: !Writes(cs[q], key)
  {
    p := |cs| - 1;
    if !Sets(cs[p], key) {
      p := WriteCame(cs[..|cs| - 1], key, ttl);
    }
  }

  /** Max depth reads as `d` exactly if the last command that writes it set it to `d` and less
      than the time to live has passed since. */
  lemma DepthAnswer(cs: seq<Command>, d: int, ttl: nat)
    ensures var k := Replay(NO_KEYS, cs, ttl);
      Live(k.maxDepth, k.clock, ttl) == Some(d) <==>
      exists p :: 0 <= p < |cs| && cs[p] == SetDepth(d) && Lasts(cs, p, Depth, ttl)
  {
    hide Replay, Elapsed;
    var k := Replay(NO_KEYS, cs, ttl);
    if Live(k.maxDepth, k.clock, ttl).Some? {
      var p := WriteCame(cs, Depth, ttl);
      WriteStays(cs, p, Depth, ttl);
      WrittenAgo(cs, p, ttl);
      assert Lasts(cs, p, Depth, ttl);
    }
    if p :| 0 <= p < |cs| && cs[p] == SetDepth(d) && Lasts(cs, p, Depth, ttl) {
      WriteStays(cs, p, Depth, ttl);
      WrittenAgo(cs, p, ttl);
    }
  }

  /** How old the entry of command p is at the end. */
  lemma WrittenAgo(cs: seq<Command>, p: nat, ttl: nat)
    requires p < |cs| && !cs[p].Pass?
    ensures Replay(NO_KEYS, cs, ttl).clock == Replay(NO_KEYS, cs[..p], ttl).clock + Elapsed(cs[p + 1..])
  {
    ClockElapsed(NO_KEYS, cs, p + 1, ttl);
    assert cs[..p + 1][..p] == cs[..p];
    hide Elapsed;
  }

  /** Command p has taken the lock, it was not deleted since, and its time to live is not over. */
  ghost predicate Locks(cs: seq<Command>, p: nat, ttl: nat)
    requires p < |cs|
  {
    && Acquires(cs, p, ttl)
    && (forall q | p < q < |cs| :: !cs[q].DelActive?)
    && (ttl == 0 || Elapsed(cs[p + 1..]) < ttl)
  }

  lemma ElapsedLess(cs: seq<Command>, p: nat)
    requires p < |cs| - 1
    ensures cs[..|cs| - 1][p + 1..] == cs[p + 1..][..|cs| - p - 2]
    ensures Elapsed(cs[..|cs| - 1][p + 1..]) <= Elapsed(cs[p + 1..])
  {
  }

  lemma {:induction false} LockStays(cs: seq<Command>, p: nat, ttl: nat)
    requires p < |cs| && Locks(cs, p, ttl)
    ensures Replay(NO_KEYS, cs, ttl).active == Some(Entry(cs[p].url, Replay(NO_KEYS, cs[..p], ttl).clock))
  {
    var before := cs[..|cs| - 1];
    if p < |before| {
      ElapsedLess(cs, p);
      assert before[..p] == cs[..p] && !cs[|before|].DelActive?;
      LockStays(before, p, ttl);
      WrittenAgo(before, p, ttl);
      hide Elapsed;
    } else {
      hide Elapsed;
    }
  }

  lemma {:induction false} LockCame(cs: seq<Command>, ttl: nat) returns (p: nat)
    requires Replay(NO_KEYS, cs, ttl).active.Some?
    ensures p < |cs| && Acquires(cs, p, ttl) && forall q | p < q < |cs| :: !cs[q].DelActive?
    ensures Replay(NO_KEYS, cs, ttl).active == Some(Entry(cs[p].url, Replay(NO_KEYS, cs[..p], ttl).clock))
  {
    p := |cs| - 1;
    if !Acquires(cs, p, ttl) {
      LockWasThere(cs, ttl);
      hide Replay;
      p := LockCame(cs[..|cs| - 1], ttl);
      assert cs[..|cs| - 1][..p] == cs[..p];
    }
  }

  lemma LockWasThere(cs: seq<Command>, ttl: nat)
    requires Replay(NO_KEYS, cs, ttl).active.Some? && !Acquires(cs, |cs| - 1, ttl)
    ensures !cs[|cs| - 1].DelActive?
    ensures Replay(NO_KEYS, cs[..|cs| - 1], ttl).active == Replay(NO_KEYS, cs, ttl).active
  {
  }

  /** The lock is held exactly if some SETNX took it, nobody deleted it since, and less than the
      time to live has passed. */
  lemma LockAnswer(cs: seq<Command>, ttl: nat)
    ensures var k := Replay(NO_KEYS, cs, ttl);
      Live(k.active, k.clock, ttl).Some? <==> exists p :: 0 <= p < |cs| && Locks(cs, p, ttl)
  {
    hide Replay, Elapsed;
    var k := Replay(NO_KEYS, cs, ttl);
    if Live(k.active, k.clock, ttl).Some? {
      var p := LockCame(cs, ttl);
      WrittenAgo(cs, p, ttl);
      assert Locks(cs, p, ttl);
    }
    if p :| 0 <= p < |cs| && Locks(cs, p, ttl) {
      LockStays(cs, p, ttl);
      WrittenAgo(cs, p, ttl);
    }
  }

  /** The last command that writes `key` sets it, and its time to live is not over. */
  ghost predicate Remains(cs: seq<Command>, key: Key, ttl: nat) {
    exists p :: 0 <= p < |cs| && Sets(cs[p], key) && Lasts(cs, p, key, ttl)
  }

  lemma RemainsIff(cs: seq<Command>, key: Key, ttl: nat)
    requires !key.Lock?
    ensures Present(Replay(NO_KEYS, cs, ttl), key, ttl) <==> Remains(cs, key, ttl)
  {
    hide Replay, Elapsed;
    if WrittenAt(Replay(NO_KEYS, cs, ttl), key).Some? {
      var p := WriteCame(cs, key, ttl);
      WriteStays(cs, p, key, ttl);
      WrittenAgo(cs, p, ttl);
      assert Present(Replay(NO_KEYS, cs, ttl), key, ttl) ==> Lasts(cs, p, key, ttl);
    }
    if p :| 0 <= p < |cs| && Sets(cs[p], key) && Lasts(cs, p, key, ttl) {
      WriteStays(cs, p, key, ttl);
      WrittenAgo(cs, p, ttl);
    }
  }

  /** Whatever commands have taken effect, of any number of starts, cleanups and stamps and in any
      order: the keys agree exactly if, should somebody hold the lock, the last command that wrote
      max depth and the last that wrote the activity time both set it and have not expired. */
  lemma AgreeIff(cs: seq<Command>, ttl: nat)
    ensures Agree(Replay(NO_KEYS, cs, ttl), ttl) <==>
      ((exists p :: 0 <= p < |cs| && Locks(cs, p, ttl)) ==> Remains(cs, Depth, ttl) && Remains(cs, Activity, ttl))
  {
    hide Replay, Locks, Remains;
    LockAnswer(cs, ttl);
    RemainsIff(cs, Depth, ttl);
    RemainsIff(cs, Activity, ttl);
  }

  // ---- The program text

  datatype StartResult = Started | Busy | Failed

  predicate Quiet(brokerUp: bool, counts: seq<Option<nat>>) {
    brokerUp && forall i | 0 <= i < |counts| :: counts[i] == Some(0)
  }

  /** The keys as the scheduler's functions use them.  Arguments say which services answer. */
  class JobStore {
    const ttl: nat
    var active: Option<Entry<Url>>
    var maxDepth: Option<Entry<int>>
    var lastActivity: Option<Entry<nat>>
    var clock: nat
    /** Every command so far that took effect. */
    ghost var issued: seq<Command>

    ghost function Current(): Keys
      reads this
    {
      Keys(active, maxDepth, lastActivity, clock)
    }

    ghost predicate Valid()
      reads this
    {
      Current() == Replay(NO_KEYS, issued, ttl)
    }

    /** Exactly the commands of `op` have been issued. */
    twostate predicate Performed(op: Op, idle: int)
      reads this
    {
      && issued == old(issued) + CommandsOf(old(Current()), op, ttl, idle)
      && Current() == After(old(Current()), op, ttl, idle)
    }

    constructor (ttl: nat)
      ensures Valid() && Current() == NO_KEYS && this.ttl == ttl
    {
      this.ttl := ttl;
      active, maxDepth, lastActivity, clock, issued := None, None, None, 0, [];
    }

    /** Sends one command. */
    method Issue(c: Command)
      requires Valid()
      modifies this
      ensures Valid() && issued == old(issued) + [c] && Current() == Apply(old(Current()), c, ttl)
    {
      match c {
        case SetNX(url) =>
          if Live(active, clock, ttl).None? {
            active := Some(Entry(url, clock));
          }
        case SetDepth(depth) => maxDepth := Some(Entry(depth, clock));
        case SetActivity => lastActivity := Some(Entry(Unix(clock), clock));
        case DelActive => active := None;
        case DelDepth => maxDepth := None;
        case DelActivity => lastActivity := None;
        case Pass(ms) => clock := clock + ms;
      }
      assert Current() == Apply(old(Current()), c, ttl);
      ReplayOne(NO_KEYS, issued, c, ttl);
      hide Replay, Apply;
      issued := issued + [c];
    }

    /** Issuing the commands of `op` from here leads to the keys after `op`. */
    lemma Foresee(op: Op, idle: int)
      requires Valid()
      ensures Replay(NO_KEYS, issued + CommandsOf(Current(), op, ttl, idle), ttl) == After(Current(), op, ttl, idle)
    {
      ReplayMore(NO_KEYS, issued, CommandsOf(Current(), op, ttl, idle), ttl);
    }

    /** Whether the lock is held, if Redis answers. */
    method IsJobActive(answers: bool) returns (held: Option<bool>)
      requires Valid()
      ensures held.Some? <==> answers
      ensures answers ==> (held.value <==> exists p :: 0 <= p < |issued| && Locks(issued, p, ttl))
    {
      LockAnswer(issued, ttl);
      held := if answers then Some(Live(active, clock, ttl).Some?) else None;
    }

    /** Locks the job and sets its keys; rolls back what was set when a command fails. */
    method StartJob(url: Url, depth: int, fault: Fault) returns (result: StartResult)
      requires Valid()
      modifies this
      ensures Valid() && Performed(Start(url, depth, fault), 0)
      ensures result.Started? <==> Starts(old(Current()), Start(url, depth, fault), ttl)
      // It starts if the lock is free and no command fails, is refused if the lock is taken ...
      ensures result == if fault.AtLock? then Failed
                        else if old(Live(active, clock, ttl)).Some? then Busy
                        else if fault.NoFault? then Started else Failed
      // ... and undoes what it has done when a later command fails.
      ensures issued == old(issued) +
        if result.Started? then [SetNX(url), SetDepth(depth), SetActivity]
        else if fault.AtLock? then []
        else if result.Busy? then [SetNX(url)]
        else if fault.AtDepth? then [SetNX(url), DelActive]
        else [SetNX(url), SetDepth(depth), DelActive, DelDepth]
      ensures result.Started? ==>
        && Live(active, clock, ttl) == Some(url) && Live(maxDepth, clock, ttl) == Some(depth)
        && Live(lastActivity, clock, ttl) == Some(Unix(clock))
      ensures result.Busy? ==> Current() == old(Current()) && Live(active, clock, ttl).Some?
      ensures result.Failed? && !fault.AtLock? ==> active == None
    {
      hide Replay, Apply;
      Foresee(Start(url, depth, fault), 0);
      AfterFields(Current(), Start(url, depth, fault), ttl, 0);
      if fault.AtLock? {
        return Failed;
      }
      var success := Live(active, clock, ttl).None?;
      Issue(SetNX(url));
      if !success {
        return Busy;
      }
      if fault.AtDepth? {
        Issue(DelActive);
        assert issued == old(issued) + [SetNX(url), DelActive];
        return Failed;
      }
      Issue(SetDepth(depth));
      if fault.AtActivity? {
        Issue(DelActive);
        Issue(DelDepth);
        assert issued == old(issued) + [SetNX(url), SetDepth(depth), DelActive, DelDepth];
        return Failed;
      }
      Issue(SetActivity);
      assert issued == old(issued) + [SetNX(url), SetDepth(depth), SetActivity];
      result := Started;
    }

    /** The max depth of the job, if Redis answers and there is one. */
    method GetMaxDepth(answers: bool) returns (depth: Option<int>)
      requires Valid()
      ensures depth.Some? ==> answers
      ensures answers ==> forall d :: depth == Some(d) <==>
        exists p :: 0 <= p < |issued| && issued[p] == SetDepth(d) && Lasts(issued, p, Depth, ttl)
    {
      forall d: int
        ensures Live(maxDepth, clock, ttl) == Some(d) <==>
                exists p :: 0 <= p < |issued| && issued[p] == SetDepth(d) && Lasts(issued, p, Depth, ttl)
      {
        DepthAnswer(issued, d, ttl);
      }
      hide Replay, Lasts;
      depth := if answers then Live(maxDepth, clock, ttl) else None;
    }

    method ForceCleanupJob()
      requires Valid()
      modifies this
      ensures Valid() && Performed(Cleanup, 0)
      ensures active == None && maxDepth == None && lastActivity == None && clock == old(clock)
      ensures issued == old(issued) + [DelActive, DelDepth, DelActivity]
    {
      hide Replay, Apply;
      Foresee(Cleanup, 0);
      AfterFields(Current(), Cleanup, ttl, 0);
      Issue(DelActive);
      Issue(DelDepth);
      Issue(DelActivity);
      assert issued == old(issued) + CLEANUP;
    }

    /** The stamp with which the scheduler begins to process every result; an error is only
        logged. */
    method StampActivity(ok: bool)
      requires Valid()
      modifies this
      ensures Valid() && Performed(Stamp(ok), 0)
      ensures ok ==> Live(lastActivity, clock, ttl) == Some(Unix(clock))
      ensures active == old(active) && maxDepth == old(maxDepth) && clock == old(clock)
    {
      hide Replay;
      Foresee(Stamp(ok), 0);
      AfterFields(Current(), Stamp(ok), ttl, 0);
      if ok {
        Issue(SetActivity);
      } else {
        assert issued == old(issued) + [];
      }
    }

    /** One tick of the watchdog.  `counts` are the message counts of the task queues and of the
        result queue, None where the inspection fails. */
    method CheckJobStatus(answers: bool, brokerUp: bool, counts: seq<Option<nat>>, readable: bool, idle: int)
      requires Valid()
      modifies this
      ensures Valid() && Performed(Watch(answers && Quiet(brokerUp, counts), readable), idle)
      // Nothing happens unless Redis and the broker answer and every queue is empty.
      ensures (!answers || !brokerUp || exists q :: 0 <= q < |counts| && counts[q] != Some(0)) ==>
        issued == old(issued)
      // If they are, the active job is ended exactly if its activity time is late or cannot be had.
      ensures answers && brokerUp && (forall q | 0 <= q < |counts| :: counts[q] == Some(0)) ==>
        var last := old(Live(lastActivity, clock, ttl));
        issued == old(issued) +
          if old(Live(active, clock, ttl)).Some? && (!readable || last.None? || old(clock) / 1000 - last.value > idle)
          then [DelActive, DelDepth, DelActivity] else []
    {
      hide Fires, Replay;
      ghost var op := Watch(answers && Quiet(brokerUp, counts), readable);
      AfterFields(Current(), op, ttl, idle);
      var jobActive := IsJobActive(answers);
      assert jobActive == Some(true) <==> answers && Live(active, clock, ttl).Some? by {
        LockAnswer(issued, ttl);
      }
      hide Locks;
      if jobActive != Some(true) || !brokerUp {
        NotQuiet(Current(), op, ttl, idle);
        return;
      }
      var q := 0;
      while q < |counts|
        invariant 0 <= q <= |counts|
        invariant forall p | 0 <= p < q :: counts[p] == Some(0)
      {
        if counts[q].None? || counts[q].value > 0 {
          NotQuiet(Current(), op, ttl, idle);
          return;
        }
        q := q + 1;
      }
      var last := if readable then Live(lastActivity, clock, ttl) else None;
      Firing(Current(), readable, ttl, idle);
      if last.None? || Unix(clock) - last.value > idle {
        ForceCleanupJob();
      }
    }
  }

  lemma NotQuiet(k: Keys, op: Op, ttl: nat, idle: int)
    requires op.Watch? && (!op.quiet || Live(k.active, k.clock, ttl).None?)
    ensures CommandsOf(k, op, ttl, idle) == [] && After(k, op, ttl, idle) == k
  {
  }

  lemma Firing(k: Keys, readable: bool, ttl: nat, idle: int)
    requires Live(k.active, k.clock, ttl).Some?
    ensures Fires(k, true, readable, ttl, idle) <==>
      var last := if readable then Live(k.lastActivity, k.clock, ttl) else None;
      last.None? || Unix(k.clock) - last.value > idle
  {
  }
}
