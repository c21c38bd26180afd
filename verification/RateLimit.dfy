/** The login rate limiter of packages/security/src/rate-limit.ts and the order in which the
    login route of apps/host/src/routes/auth.ts uses it.

    The first half is the limiter's effect on one key, as functions of the key's slot and the
    time. The class `AuthRateLimiter` keeps the slots of all keys and is proved to apply those
    functions to the key it is called with and to nothing else. The second half is about whole
    runs: how many failures a key can collect, and why pruning in between is never noticed. */
module RateLimit {
  import opened Options
  import opened Counting

  datatype Config = Config(maxAttempts: nat, windowMs: nat, lockoutMs: nat) {
    predicate Valid() {
      maxAttempts >= 1 && windowMs >= 1 && lockoutMs >= 1
    }

    // The span over which the number of failures is bounded.
    function Span(): nat {
      if windowMs < lockoutMs then windowMs else lockoutMs
    }
  }

  const DEFAULT_MAX_ATTEMPTS: nat := 5
  const DEFAULT_WINDOW_MS: nat := 60_000
  const DEFAULT_LOCKOUT_MS: nat := 300_000

  // A setting that is absent, or any number of the source's language.
  datatype Setting = Absent | Finite(value: real) | Infinite(positive: bool) | NaN

  // Math.max(1, Math.floor(setting ?? default)), if that is a whole number: NaN stays NaN, and
  // the positive infinity stays infinite.
  function AtLeastOne(setting: Setting, default: nat): Option<nat> {
    match setting
    case Absent => Some(if default < 1 then 1 else default)
    case Finite(value) => Some(if value.Floor < 1 then 1 else value.Floor)
    case Infinite(positive) => if positive then None else Some(1)
    case NaN => None
  }

  predicate Bounding(setting: Setting) {
    !setting.NaN? && setting != Infinite(true)
  }

  // Every limit is a whole number of at least 1, exactly if no setting is NaN or infinitely large.
  // The rest of the model is about such limiters only.
  function MakeConfig(maxAttempts: Setting, windowMs: Setting, lockoutMs: Setting): (c: Option<Config>)
    ensures c.Some? <==> Bounding(maxAttempts) && Bounding(windowMs) && Bounding(lockoutMs)
    ensures c.Some? ==> c.value.Valid()
  {
    var (attempts, window, lockout) := (AtLeastOne(maxAttempts, DEFAULT_MAX_ATTEMPTS),
                                        AtLeastOne(windowMs, DEFAULT_WINDOW_MS),
                                        AtLeastOne(lockoutMs, DEFAULT_LOCKOUT_MS));
    if attempts.None? || window.None? || lockout.None? then None
    else Some(Config(attempts.value, window.value, lockout.value))
  }

  // Each setting is rounded down, but to no less than 1; without settings there are five attempts a
  // minute and a lock of five minutes.
  lemma SettingsMean(value: real, default: nat)
    ensures var limit := AtLeastOne(Finite(value), default);
            && limit.Some? && limit.value >= 1 && value < (limit.value + 1) as real
            && if value < 1.0 then limit.value == 1 else limit.value as real <= value
    ensures MakeConfig(Absent, Absent, Absent) == Some(Config(5, 60_000, 300_000))
    ensures MakeConfig(Finite(value), Finite(5.0), Finite(7.0)).value.maxAttempts ==
            AtLeastOne(Finite(value), default).value
    ensures MakeConfig(Finite(3.0), Finite(value), Finite(7.0)).value.windowMs ==
            AtLeastOne(Finite(value), default).value
    ensures MakeConfig(Finite(3.0), Finite(5.0), Finite(value)).value.lockoutMs ==
            AtLeastOne(Finite(value), default).value
  {
  }

  // Timestamps are what the clock returned, milliseconds since the epoch. A lock whose
  // time is 0 counts as no lock, because the source tests it for truthiness.
  datatype Entry = Entry(attempts: seq<int>, lockedUntil: Option<int>)
  type Slot = Option<Entry>

  predicate HasLock(e: Entry) {
    e.lockedUntil.Some? && e.lockedUntil.value != 0
  }

  predicate LockActive(e: Entry, now: int) {
    HasLock(e) && now < e.lockedUntil.value
  }

  predicate LockStale(e: Entry, now: int) {
    HasLock(e) && now >= e.lockedUntil.value
  }

  datatype CheckResult = CheckResult(allowed: bool, remaining: nat, retryAfterMs: int)

  // ----- the effect of one operation on one slot

  function Slide(attempts: seq<int>, cutoff: int): seq<int> {
    if attempts == [] then []
    else (if attempts[0] > cutoff then [attempts[0]] else []) + Slide(attempts[1..], cutoff)
  }

  function CheckSlot(c: Config, slot: Slot, now: int): (Slot, CheckResult) {
    if slot.None? then (None, CheckResult(true, c.maxAttempts, 0))
    else if LockActive(slot.value, now) then
      (slot, CheckResult(false, 0, slot.value.lockedUntil.value - now))
    else
      var unlocked := if LockStale(slot.value, now) then Entry([], None) else slot.value;
      var slid := unlocked.(attempts := Slide(unlocked.attempts, now - c.windowMs));
      var remaining := if |slid.attempts| < c.maxAttempts then c.maxAttempts - |slid.attempts| else 0;
      (Some(slid), CheckResult(remaining > 0, remaining, 0))
  }

  function RecordSlot(c: Config, slot: Slot, now: int): Slot {
    var entry := if slot.None? then Entry([], None) else slot.value;
    if LockActive(entry, now) then Some(entry)
    else
      var attempts := Slide(entry.attempts, now - c.windowMs) + [now];
      Some(Entry(attempts, if |attempts| >= c.maxAttempts then Some(now + c.lockoutMs) else entry.lockedUntil))
  }

  function PruneSlot(c: Config, slot: Slot, now: int): Slot {
    if slot.None? || LockActive(slot.value, now) then slot
    else
      var slid := slot.value.(attempts := Slide(slot.value.attempts, now - c.windowMs));
      if slid.attempts == [] then None else Some(slid)
  }

  // ----- addresses and keys

  // Address normalisation and the loopback test belong to unseen address libraries.
  datatype Addressing = Addressing(exemptLoopback: bool, normalizeIp: string -> string, isLoopback: string -> bool) {
    function KeyFor(ip: string, scope: string): string {
      scope + ":" + normalizeIp(ip)
    }

    predicate Exempt(ip: string) {
      exemptLoopback && isLoopback(normalizeIp(ip))
    }

    // `check` and `recordFailure` hand an already normalised address to `keyFor`.
    function CountedKey(ip: string, scope: string): string {
      KeyFor(normalizeIp(ip), scope)
    }
  }

  type Entries = map<string, Entry>

  function SlotIn(entries: Entries, key: string): Slot {
    if key in entries then Some(entries[key]) else None
  }

  function Put(entries: Entries, key: string, slot: Slot): Entries {
    if slot.Some? then entries[key := slot.value] else entries - {key}
  }

  // One login request on all keys: what it leaves, and how the check answers.
  function LoginEntries(a: Addressing, c: Config, entries: Entries, q: Request): (Entries, CheckResult) {
    if a.Exempt(q.ip) then
      (if q.outcome.Accepted? then entries - {a.KeyFor(q.ip, q.scope)} else entries,
       CheckResult(true, c.maxAttempts, 0))
    else
      var key := a.CountedKey(q.ip, q.scope);
      var (checked, answer) := CheckSlot(c, SlotIn(entries, key), q.checkAt);
      if !answer.allowed || q.outcome.MissingCredentials? then (Put(entries, key, checked), answer)
      else if q.outcome.Rejected? then (Put(entries, key, RecordSlot(c, checked, q.actAt)), answer)
      else (Put(entries, key, checked) - {a.KeyFor(q.ip, q.scope)}, answer)
  }

  lemma SlotsAfter(entries: Entries, key: string, slot: Slot)
    ensures forall k :: SlotIn(Put(entries, key, slot), k) == if k == key then slot else SlotIn(entries, k)
    ensures forall k :: SlotIn(entries - {key}, k) == if k == key then None else SlotIn(entries, k)
  {
    forall k
      ensures SlotIn(Put(entries, key, slot), k) == if k == key then slot else SlotIn(entries, k)
      ensures SlotIn(entries - {key}, k) == if k == key then None else SlotIn(entries, k)
    {
    }
  }

  function PruneEntries(c: Config, entries: Entries, now: int): Entries {
    map key | key in entries && PruneSlot(c, Some(entries[key]), now).Some? ::
      PruneSlot(c, Some(entries[key]), now).value
  }

  lemma PrunedSlots(c: Config, entries: Entries, now: int)
    ensures forall key :: SlotIn(PruneEntries(c, entries, now), key) == PruneSlot(c, SlotIn(entries, key), now)
  {
    hide Slide;
    forall key
      ensures SlotIn(PruneEntries(c, entries, now), key) == PruneSlot(c, SlotIn(entries, key), now)
    {
    }
  }

  lemma SameEntries(a: Entries, b: Entries)
    requires forall key :: SlotIn(a, key) == SlotIn(b, key)
    ensures a == b
  {
    forall key
      ensures key in a <==> key in b
      ensures key in a && key in b ==> a[key] == b[key]
    {
      assert SlotIn(a, key) == SlotIn(b, key);
    }
  }

  // The clock is read once by the check and once more by whatever follows it.
  datatype Request = Request(ip: string, scope: string, checkAt: int, actAt: int, outcome: Outcome)

  // ----- the limiter object

  class AuthRateLimiter {
    const config: Config
    const addressing: Addressing
    var entries: map<string, Entry>

    constructor (config: Config, addressing: Addressing)
      ensures this.config == config && this.addressing == addressing && entries == map[]
    {
      this.config := config;
      this.addressing := addressing;
      entries := map[];
    }

    function SlotOf(key: string): Slot
      reads this
    {
      SlotIn(entries, key)
    }

    function KeyFor(ip: string, scope: string): string {
      addressing.KeyFor(ip, scope)
    }

    predicate Exempt(ip: string) {
      addressing.Exempt(ip)
    }

    function CountedKey(ip: string, scope: string): string {
      addressing.CountedKey(ip, scope)
    }

    method SlideWindow(key: string, now: int)
      requires key in entries
      modifies this
      ensures var was := old(entries)[key];
              entries == old(entries)[key := was.(attempts := Slide(was.attempts, now - config.windowMs))]
    {
      var kept := Filter(entries[key].attempts, now - config.windowMs);
      entries := entries[key := entries[key].(attempts := kept)];
    }

    static method Filter(attempts: seq<int>, cutoff: int) returns (kept: seq<int>)
      ensures kept == Slide(attempts, cutoff)
    {
      kept := [];
      for i := 0 to |attempts|
        invariant Slide(attempts, cutoff) == kept + Slide(attempts[i..], cutoff)
      {
        assert attempts[i..][1..] == attempts[i + 1..];
        if attempts[i] > cutoff {
          kept := kept + [attempts[i]];
        }
      }
    }

    method Check(ip: string, scope: string, now: int) returns (result: CheckResult)
      modifies this
      ensures Exempt(ip) ==> entries == old(entries) && result == CheckResult(true, config.maxAttempts, 0)
      ensures !Exempt(ip) ==>
                (SlotOf(CountedKey(ip, scope)), result) == CheckSlot(config, old(SlotOf(CountedKey(ip, scope))), now)
      ensures forall key :: key != CountedKey(ip, scope) ==> SlotOf(key) == old(SlotOf(key))
    {
      if Exempt(ip) {
        return CheckResult(true, config.maxAttempts, 0);
      }
      var key := CountedKey(ip, scope);
      if key !in entries {
        return CheckResult(true, config.maxAttempts, 0);
      }
      if LockActive(entries[key], now) {
        return CheckResult(false, 0, entries[key].lockedUntil.value - now);
      }
      if LockStale(entries[key], now) {
        entries := entries[key := Entry([], None)];
      }
      SlideWindow(key, now);
      var used := |entries[key].attempts|;
      var remaining := if used < config.maxAttempts then config.maxAttempts - used else 0;
      result := CheckResult(remaining > 0, remaining, 0);
    }

    method RecordFailure(ip: string, scope: string, now: int)
      modifies this
      ensures Exempt(ip) ==> entries == old(entries)
      ensures !Exempt(ip) ==>
                SlotOf(CountedKey(ip, scope)) == RecordSlot(config, old(SlotOf(CountedKey(ip, scope))), now)
      ensures forall key :: key != CountedKey(ip, scope) ==> SlotOf(key) == old(SlotOf(key))
    {
      if Exempt(ip) {
        return;
      }
      var key := CountedKey(ip, scope);
      if key !in entries {
        entries := entries[key := Entry([], None)];
      }
      if LockActive(entries[key], now) {
        return;
      }
      Push(key, now);
    }

    method Push(key: string, now: int)
      requires key in entries && !LockActive(entries[key], now)
      modifies this
      ensures entries == old(entries)[key := RecordSlot(config, Some(old(entries)[key]), now).value]
    {
      hide Slide;
      SlideWindow(key, now);
      var attempts := entries[key].attempts + [now];
      entries := entries[key := entries[key].(attempts := attempts)];
      if |attempts| >= config.maxAttempts {
        entries := entries[key := entries[key].(lockedUntil := Some(now + config.lockoutMs))];
      }
    }

    // `reset` normalises the address once only.
    method Reset(ip: string, scope: string)
      modifies this
      ensures entries == old(entries) - {KeyFor(ip, scope)}
    {
      entries := entries - {KeyFor(ip, scope)};
    }

    method Prune(now: int)
      modifies this
      ensures forall key :: SlotOf(key) == PruneSlot(config, old(SlotOf(key)), now)
      ensures entries == PruneEntries(config, old(entries), now)
    {
      var todo := entries.Keys;
      ghost var before := entries;
      hide Slide, PruneEntries;
      while todo != {}
        invariant todo <= entries.Keys
        invariant forall key :: key in todo ==> SlotOf(key) == old(SlotOf(key))
        invariant forall key :: key !in todo ==> SlotOf(key) == PruneSlot(config, old(SlotOf(key)), now)
        decreases todo
      {
        var key :| key in todo;
        todo := todo - {key};
        if !LockActive(entries[key], now) {
          SlideWindow(key, now);
          if entries[key].attempts == [] {
            entries := entries - {key};
          }
        }
      }
      PrunedSlots(config, before, now);
      forall k
        ensures SlotIn(entries, k) == SlotIn(PruneEntries(config, before, now), k)
      {
        assert SlotIn(entries, k) == SlotOf(k) && old(SlotOf(k)) == SlotIn(before, k);
      }
      SameEntries(entries, PruneEntries(config, before, now));
    }

    // One login request, in the route's order.
    method Login(q: Request) returns (result: CheckResult)
      modifies this
      ensures (entries, result) == LoginEntries(addressing, config, old(entries), q)
    {
      hide CheckSlot, RecordSlot, Put, SlotIn;
      ghost var (before, key) := (entries, CountedKey(q.ip, q.scope));
      ghost var checked := CheckSlot(config, SlotIn(before, key), q.checkAt).0;
      result := Check(q.ip, q.scope, q.checkAt);
      if !Exempt(q.ip) {
        SlotsAfter(before, key, checked);
        forall k
          ensures SlotIn(entries, k) == SlotIn(Put(before, key, checked), k)
        {
          assert SlotIn(entries, k) == SlotOf(k) && old(SlotOf(k)) == SlotIn(before, k);
        }
        SameEntries(entries, Put(before, key, checked));
      }
      if !result.allowed {
        return;
      }
      match q.outcome
      case MissingCredentials =>
      case Rejected =>
        RecordFailure(q.ip, q.scope, q.actAt);
        if !Exempt(q.ip) {
          SlotsAfter(before, key, RecordSlot(config, checked, q.actAt));
          SlotsAfter(before, key, checked);
          forall k
            ensures SlotIn(entries, k) == SlotIn(Put(before, key, RecordSlot(config, checked, q.actAt)), k)
          {
            assert SlotIn(entries, k) == SlotOf(k);
          }
          SameEntries(entries, Put(before, key, RecordSlot(config, checked, q.actAt)));
        }
      case Accepted =>
        Reset(q.ip, q.scope);
    }
  }

  // What the route found after the check let the request through. `Rejected` covers an
  // over-long field, an unknown user and a wrong password.
  datatype Outcome = MissingCredentials | Rejected | Accepted

  function AttemptSlot(c: Config, slot: Slot, checkAt: int, actAt: int, outcome: Outcome): Slot {
    var (checked, result) := CheckSlot(c, slot, checkAt);
    if !result.allowed then checked
    else match outcome
      case MissingCredentials => checked
      case Rejected => RecordSlot(c, checked, actAt)
      case Accepted => None
  }

  // ----- runs of one key

  datatype KeyOp =
    | Attempt(checkAt: int, actAt: int, outcome: Outcome)
    | PruneAt(at: int)

  // The slot, the failures recorded since the last reset (oldest first), and what every
  // check of the run answered.
  datatype Run = Run(slot: Slot, failures: seq<int>, answers: seq<CheckResult>)

  const EMPTY_RUN := Run(None, [], [])

  function StepRun(c: Config, r: Run, op: KeyOp): Run {
    match op
    case PruneAt(at) => r.(slot := PruneSlot(c, r.slot, at))
    case Attempt(checkAt, actAt, outcome) =>
      var (checked, result) := CheckSlot(c, r.slot, checkAt);
      var failures :=
        if !result.allowed || outcome.MissingCredentials? then r.failures
        else if outcome.Accepted? then []
        else if checked.Some? && LockActive(checked.value, actAt) then r.failures
        else r.failures + [actAt];
      Run(AttemptSlot(c, r.slot, checkAt, actAt, outcome), failures, r.answers + [result])
  }

  function RunAll(c: Config, r: Run, ops: seq<KeyOp>): Run
    decreases |ops|
  {
    if ops == [] then r else RunAll(c, StepRun(c, r, ops[0]), ops[1..])
  }

  function Begins(op: KeyOp): int {
    if op.PruneAt? then op.at else op.checkAt
  }

  function Ends(op: KeyOp): int {
    if op.PruneAt? then op.at else op.actAt
  }

  // The clock never goes back, and it reads at least 0.
  ghost predicate Timed(clock: int, ops: seq<KeyOp>)
    decreases |ops|
  {
    ops == [] || (0 <= clock <= Begins(ops[0]) <= Ends(ops[0]) && Timed(Ends(ops[0]), ops[1..]))
  }

  ghost predicate Spaced(c: Config, failures: seq<int>) {
    && (forall i, j :: 0 <= i < j < |failures| ==> failures[i] <= failures[j])
    && (forall i, j :: 0 <= i && i + c.maxAttempts <= j < |failures| ==> failures[j] - failures[i] >= c.Span())
  }

  // What every run keeps: the slot holds the newest failures, every failure it no longer
  // holds is at least a span old, a full slot is locked, and a lock outlasts every failure.
  ghost predicate Tracks(c: Config, slot: Slot, failures: seq<int>, clock: int) {
    var attempts := if slot.Some? then slot.value.attempts else [];
    var dropped := |failures| - |attempts|;
    && 0 <= dropped
    && attempts == failures[dropped..]
    && Spaced(c, failures)
    && (forall i :: 0 <= i < |failures| ==> failures[i] <= clock)
    && (forall i :: 0 <= i < dropped ==> failures[i] + c.Span() <= clock)
    && (slot.Some? && slot.value.lockedUntil.Some? ==>
          var until := slot.value.lockedUntil.value;
          && 0 < until <= clock + c.lockoutMs
          && (forall i :: 0 <= i < |failures| ==> failures[i] + c.lockoutMs <= until))
    && (|attempts| >= c.maxAttempts && slot.Some? ==> slot.value.lockedUntil.Some?)
  }

  // Sliding a sorted list drops a prefix of old times.
  lemma {:induction false} SlideIsSuffix(attempts: seq<int>, cutoff: int)
    requires forall i, j :: 0 <= i < j < |attempts| ==> attempts[i] <= attempts[j]
    ensures var k := |attempts| - |Slide(attempts, cutoff)|;
            && 0 <= k && Slide(attempts, cutoff) == attempts[k..]
            && (forall i :: 0 <= i < k ==> attempts[i] <= cutoff)
            && (forall i :: k <= i < |attempts| ==> attempts[i] > cutoff)
  {
    if attempts != [] {
      SlideIsSuffix(attempts[1..], cutoff);
      assert forall i :: 1 <= i < |attempts| ==> attempts[i] == attempts[1..][i - 1];
    }
  }

  // Forgetting failures that are a span old keeps the relation.
  lemma ForgetTracks(c: Config, entry: Entry, failures: seq<int>, clock: int, now: int, k: nat)
    requires c.Valid() && Tracks(c, Some(entry), failures, clock) && clock <= now && k <= |entry.attempts|
    requires forall i :: 0 <= i < k ==> entry.attempts[i] + c.Span() <= now
    ensures Tracks(c, Some(entry.(attempts := entry.attempts[k..])), failures, now)
  {
    var dropped := |failures| - |entry.attempts|;
    assert entry.attempts[k..] == failures[dropped + k..];
    forall i | 0 <= i < dropped + k
      ensures failures[i] + c.Span() <= now
    {
      if i >= dropped { assert failures[i] == entry.attempts[i - dropped]; }
    }
  }

  lemma SlideTracks(c: Config, entry: Entry, failures: seq<int>, clock: int, now: int)
    requires c.Valid() && Tracks(c, Some(entry), failures, clock) && clock <= now
    ensures var slid := Slide(entry.attempts, now - c.windowMs);
            && |slid| <= |entry.attempts|
            && Tracks(c, Some(entry.(attempts := slid)), failures, now)
  {
    hide Slide;
    AttemptsSorted(c, entry, failures, clock);
    SlideIsSuffix(entry.attempts, now - c.windowMs);
    ForgetTracks(c, entry, failures, clock, now, |entry.attempts| - |Slide(entry.attempts, now - c.windowMs)|);
  }

  lemma AttemptsSorted(c: Config, entry: Entry, failures: seq<int>, clock: int)
    requires Tracks(c, Some(entry), failures, clock)
    ensures forall i, j :: 0 <= i < j < |entry.attempts| ==> entry.attempts[i] <= entry.attempts[j]
  {
  }

  lemma ExpiredLockTracks(c: Config, entry: Entry, failures: seq<int>, clock: int, now: int)
    requires c.Valid() && Tracks(c, Some(entry), failures, clock) && clock <= now && LockStale(entry, now)
    ensures Tracks(c, Some(Entry([], None)), failures, now)
  {
  }

  // What one check answers in a state a run can reach: it denies exactly while a lock is
  // active, and then the wait it reports is positive and at most the lockout.
  lemma CheckAnswer(c: Config, slot: Slot, failures: seq<int>, clock: int, now: int)
    requires c.Valid() && Tracks(c, slot, failures, clock) && clock <= now
    ensures var (checked, result) := CheckSlot(c, slot, now);
            && (result.allowed <==> !(slot.Some? && LockActive(slot.value, now)))
            && (!result.allowed ==> 0 < result.retryAfterMs <= c.lockoutMs && result.remaining == 0)
            && (result.allowed ==> result.retryAfterMs == 0 && 0 < result.remaining <= c.maxAttempts)
            && Tracks(c, checked, failures, now)
            && (result.allowed && checked.Some? ==>
                  checked.value.lockedUntil.None? && |checked.value.attempts| < c.maxAttempts)
  {
    hide Slide, Tracks;
    LaterTracks(c, slot, failures, clock, now);
    if slot.Some? {
      LockFacts(c, slot.value, failures, clock);
      if !LockActive(slot.value, now) {
        var unlocked := if LockStale(slot.value, now) then Entry([], None) else slot.value;
        if LockStale(slot.value, now) {
          ExpiredLockTracks(c, slot.value, failures, clock, now);
        }
        SlideTracks(c, unlocked, failures, now, now);
        LockFacts(c, unlocked.(attempts := Slide(unlocked.attempts, now - c.windowMs)), failures, now);
      }
    }
  }

  lemma LockFacts(c: Config, entry: Entry, failures: seq<int>, clock: int)
    requires Tracks(c, Some(entry), failures, clock)
    ensures entry.lockedUntil.Some? ==> 0 < entry.lockedUntil.value <= clock + c.lockoutMs
    ensures |entry.attempts| >= c.maxAttempts ==> entry.lockedUntil.Some?
  {
  }

  lemma NoEntryTracks(c: Config, failures: seq<int>, clock: int)
    requires c.Valid() && Tracks(c, None, failures, clock)
    ensures Tracks(c, Some(Entry([], None)), failures, clock)
  {
  }

  lemma PushTracks(c: Config, attempts: seq<int>, failures: seq<int>, now: int)
    requires c.Valid() && Tracks(c, Some(Entry(attempts, None)), failures, now) && 0 <= now
    ensures var lock := if |attempts| + 1 >= c.maxAttempts then Some(now + c.lockoutMs) else None;
            Tracks(c, Some(Entry(attempts + [now], lock)), failures + [now], now)
  {
    var dropped := |failures| - |attempts|;
    assert (failures + [now])[dropped..] == attempts + [now];
    PushSpaced(c, failures, now);
  }

  lemma PushSpaced(c: Config, failures: seq<int>, now: int)
    requires Spaced(c, failures) && c.Valid()
    requires forall i :: 0 <= i < |failures| ==> failures[i] <= now
    requires forall i :: 0 <= i <= |failures| - c.maxAttempts ==> i < |failures| && failures[i] + c.Span() <= now
    ensures Spaced(c, failures + [now])
  {
  }

  lemma {:induction false} RecordTracks(c: Config, slot: Slot, failures: seq<int>, clock: int, now: int)
    requires c.Valid() && Tracks(c, slot, failures, clock) && 0 <= clock <= now
    requires slot.Some? ==> slot.value.lockedUntil.None?
    ensures Tracks(c, RecordSlot(c, slot, now), failures + [now], now)
  {
    hide Slide, Tracks;
    var entry := if slot.None? then Entry([], None) else slot.value;
    if slot.None? { NoEntryTracks(c, failures, clock); }
    SlideTracks(c, entry, failures, clock, now);
    PushTracks(c, Slide(entry.attempts, now - c.windowMs), failures, now);
  }

  lemma PruneTracks(c: Config, slot: Slot, failures: seq<int>, clock: int, now: int)
    requires c.Valid() && Tracks(c, slot, failures, clock) && clock <= now
    ensures Tracks(c, PruneSlot(c, slot, now), failures, now)
  {
    hide Slide;
    if slot.Some? && !LockActive(slot.value, now) {
      SlideTracks(c, slot.value, failures, clock, now);
    }
  }

  lemma StepTracks(c: Config, r: Run, op: KeyOp, clock: int)
    requires c.Valid() && Tracks(c, r.slot, r.failures, clock) && 0 <= clock <= Begins(op) <= Ends(op)
    ensures Tracks(c, StepRun(c, r, op).slot, StepRun(c, r, op).failures, Ends(op))
  {
    hide Slide, Tracks, CheckSlot, RecordSlot, PruneSlot;
    match op
    case PruneAt(at) => PruneTracks(c, r.slot, r.failures, clock, at);
    case Attempt(checkAt, actAt, outcome) =>
      CheckAnswer(c, r.slot, r.failures, clock, checkAt);
      NothingTracks(c, actAt);
      var (checked, result) := CheckSlot(c, r.slot, checkAt);
      if result.allowed && outcome.Rejected? {
        RecordTracks(c, checked, r.failures, checkAt, actAt);
      } else {
        LaterTracks(c, checked, r.failures, checkAt, actAt);
      }
  }

  lemma NothingTracks(c: Config, clock: int)
    requires c.Valid()
    ensures Tracks(c, None, [], clock)
  {
  }

  lemma LaterTracks(c: Config, slot: Slot, failures: seq<int>, clock: int, now: int)
    requires Tracks(c, slot, failures, clock) && clock <= now
    ensures Tracks(c, slot, failures, now)
  {
  }

  // The clock after a run.
  function Finish(clock: int, ops: seq<KeyOp>): int
    decreases |ops|
  {
    if ops == [] then clock else Finish(Ends(ops[0]), ops[1..])
  }

  lemma {:induction false} RunTracks(c: Config, r: Run, ops: seq<KeyOp>, clock: int)
    requires c.Valid() && Tracks(c, r.slot, r.failures, clock) && Timed(clock, ops)
    ensures Tracks(c, RunAll(c, r, ops).slot, RunAll(c, r, ops).failures, Finish(clock, ops))
    decreases |ops|
  {
    hide Tracks;
    if ops != [] {
      StepTracks(c, r, ops[0], clock);
      RunTracks(c, StepRun(c, r, ops[0]), ops[1..], Ends(ops[0]));
    }
  }

  function InWindow(failures: seq<int>, from: int, length: int): set<int> {
    set i | 0 <= i < |failures| && from <= failures[i] < from + length
  }

  lemma SpacedWindow(c: Config, failures: seq<int>, from: int)
    requires c.Valid() && Spaced(c, failures)
    ensures |InWindow(failures, from, c.Span())| <= c.maxAttempts
  {
    var inside := InWindow(failures, from, c.Span());
    if inside != {} {
      var first := FirstInside(failures, from, c.Span());
      SubsetSize(inside, Range(first, c.maxAttempts));
    }
  }

  lemma FirstInside(failures: seq<int>, from: int, length: int) returns (first: int)
    requires InWindow(failures, from, length) != {}
    ensures first in InWindow(failures, from, length)
    ensures forall i :: i in InWindow(failures, from, length) ==> first <= i
  {
    first :| first in InWindow(failures, from, length);
    while exists i :: i in InWindow(failures, from, length) && i < first
      invariant first in InWindow(failures, from, length)
      decreases first
    {
      var i :| i in InWindow(failures, from, length) && i < first;
      first := i;
    }
  }

  // Used as the login route uses it, with a clock that does not go back, the limiter never
  // records more than maxAttempts failures of one key, between resets, in any half-open
  // interval as long as the shorter of window and lockout.
  lemma FailureBound(c: Config, ops: seq<KeyOp>, from: int)
    requires c.Valid() && Timed(0, ops)
    ensures |InWindow(RunAll(c, EMPTY_RUN, ops).failures, from, c.Span())| <= c.maxAttempts
  {
    RunTracks(c, EMPTY_RUN, ops, 0);
    SpacedWindow(c, RunAll(c, EMPTY_RUN, ops).failures, from);
  }

  // ... and after any such run a check denies exactly while a lock is active, and then names
  // a wait that is positive and no longer than the lockout.
  lemma DeniesExactlyWhileLocked(c: Config, ops: seq<KeyOp>, now: int)
    requires c.Valid() && Timed(0, ops) && Finish(0, ops) <= now
    ensures var slot := RunAll(c, EMPTY_RUN, ops).slot;
            var answer := CheckSlot(c, slot, now).1;
            && (answer.allowed <==> !(slot.Some? && LockActive(slot.value, now)))
            && (!answer.allowed ==> 0 < answer.retryAfterMs <= c.lockoutMs)
  {
    hide Slide, Tracks, RunAll, CheckSlot, Timed, Finish;
    NothingTracks(c, 0);
    RunTracks(c, EMPTY_RUN, ops, 0);
    CheckAnswer(c, RunAll(c, EMPTY_RUN, ops).slot, RunAll(c, EMPTY_RUN, ops).failures, Finish(0, ops), now);
  }

  // ----- pruning is never noticed

  lemma {:induction false} SlideTwice(attempts: seq<int>, first: int, second: int)
    requires first <= second
    ensures Slide(Slide(attempts, first), second) == Slide(attempts, second)
  {
    if attempts != [] {
      SlideTwice(attempts[1..], first, second);
      var rest := Slide(attempts[1..], first);
      if attempts[0] > first {
        assert ([attempts[0]] + rest)[1..] == rest;
      } else {
        assert [] + rest == rest;
        assert [] + Slide(attempts[1..], second) == Slide(attempts[1..], second);
      }
    }
  }

  lemma SlideEmpty(cutoff: int)
    ensures Slide([], cutoff) == []
  {
  }

  lemma {:induction false} SlideAppend(attempts: seq<int>, time: int, cutoff: int)
    requires time > cutoff
    ensures Slide(attempts + [time], cutoff) == Slide(attempts, cutoff) + [time]
  {
    if attempts == [] {
      assert [] + [time] == [time];
    } else {
      assert (attempts + [time])[1..] == attempts[1..] + [time];
      SlideAppend(attempts[1..], time, cutoff);
    }
  }

  // All of a slot that a later operation can still see: nothing at all once the entry is
  // unlocked and every failure has slid out of the window.
  function Effective(c: Config, slot: Slot, now: int): Slot {
    if slot.None? || LockActive(slot.value, now) then slot
    else
      var slid := Slide(slot.value.attempts, now - c.windowMs);
      if slid == [] then None
      else Some(Entry(slid, if HasLock(slot.value) then slot.value.lockedUntil else None))
  }

  lemma EffectiveTwice(c: Config, slot: Slot, first: int, second: int)
    requires first <= second
    ensures Effective(c, Effective(c, slot, first), second) == Effective(c, slot, second)
  {
    hide Slide;
    if slot.Some? {
      SlideTwice(slot.value.attempts, first - c.windowMs, second - c.windowMs);
      SlideEmpty(second - c.windowMs);
    }
  }

  lemma PruneKeepsEffect(c: Config, slot: Slot, now: int)
    ensures Effective(c, PruneSlot(c, slot, now), now) == Effective(c, slot, now)
  {
    hide Slide;
    if slot.Some? {
      SlideTwice(slot.value.attempts, now - c.windowMs, now - c.windowMs);
    }
  }

  lemma CheckByEffect(c: Config, slot: Slot, now: int)
    requires c.Valid()
    ensures var (checked, result) := CheckSlot(c, slot, now);
            var (checked', result') := CheckSlot(c, Effective(c, slot, now), now);
            && result == result'
            && Effective(c, checked, now) == Effective(c, checked', now)
            && (result.allowed && checked.Some? ==> !HasLock(checked.value))
            && (result.allowed && checked'.Some? ==> !HasLock(checked'.value))
  {
    hide Slide;
    if slot.Some? {
      SlideTwice(slot.value.attempts, now - c.windowMs, now - c.windowMs);
      SlideEmpty(now - c.windowMs);
    }
  }

  lemma RecordByEffect(c: Config, a: Slot, b: Slot, now: int)
    requires c.Valid() && Effective(c, a, now) == Effective(c, b, now)
    requires (a.Some? ==> !HasLock(a.value)) && (b.Some? ==> !HasLock(b.value))
    ensures Effective(c, RecordSlot(c, a, now), now) == Effective(c, RecordSlot(c, b, now), now)
  {
    hide Slide;
    SlideEmpty(now - c.windowMs);
    SlideAppend(if a.Some? then Slide(a.value.attempts, now - c.windowMs) else [], now, now - c.windowMs);
  }

  // Recording a failure without a check in front sees an earlier prune exactly when an
  // expired lock is left on an entry whose failures have all slid out, unless one failure
  // locks anyway. The check before every recording is what rules that state out.
  lemma RecordAloneSeesPrune(c: Config, slot: Slot, now: int)
    requires c.Valid()
    ensures var (pruned, plain) := (RecordSlot(c, PruneSlot(c, slot, now), now), RecordSlot(c, slot, now));
            Effective(c, pruned, now) != Effective(c, plain, now) <==>
            slot.Some? && LockStale(slot.value, now) && c.maxAttempts > 1
            && Slide(slot.value.attempts, now - c.windowMs) == []
  {
    hide Slide;
    SlideEmpty(now - c.windowMs);
    SlideAppend([], now, now - c.windowMs);
    if slot.Some? {
      var slid := Slide(slot.value.attempts, now - c.windowMs);
      SlideTwice(slot.value.attempts, now - c.windowMs, now - c.windowMs);
      SlideAppend(slid, now, now - c.windowMs);
    }
  }

  // The same state is where the bound would be lost out of the route's order: a failure
  // recorded on an expired lock without a check in front is wiped by the next check, unless
  // it completes a new lock.
  lemma UncheckedRecordForgotten(c: Config, entry: Entry, now: int, later: int)
    requires c.Valid() && LockStale(entry, now) && 0 <= now <= later < now + c.lockoutMs
    ensures var (checked, answer) := CheckSlot(c, RecordSlot(c, Some(entry), now), later);
            && (answer.allowed && checked == Some(Entry([], None)) <==>
                |Slide(entry.attempts, now - c.windowMs)| + 1 < c.maxAttempts)
  {
    hide Slide;
    SlideEmpty(later - c.windowMs);
  }

  lemma AttemptByEffect(c: Config, a: Run, b: Run, op: KeyOp, clock: int)
    requires c.Valid() && op.Attempt? && clock <= op.checkAt <= op.actAt
    requires Effective(c, a.slot, clock) == Effective(c, b.slot, clock)
    requires a.failures == b.failures && a.answers == b.answers
    ensures var (a', b') := (StepRun(c, a, op), StepRun(c, b, op));
            && a'.failures == b'.failures && a'.answers == b'.answers
            && Effective(c, a'.slot, op.actAt) == Effective(c, b'.slot, op.actAt)
  {
    hide Slide, Effective;
    EffectiveTwice(c, a.slot, clock, op.checkAt);
    EffectiveTwice(c, b.slot, clock, op.checkAt);
    CheckByEffect(c, a.slot, op.checkAt);
    CheckByEffect(c, b.slot, op.checkAt);
    var (a1, result) := CheckSlot(c, a.slot, op.checkAt);
    var b1 := CheckSlot(c, b.slot, op.checkAt).0;
    EffectiveTwice(c, a1, op.checkAt, op.actAt);
    EffectiveTwice(c, b1, op.checkAt, op.actAt);
    if result.allowed && op.outcome.Rejected? {
      RecordByEffect(c, a1, b1, op.actAt);
    }
  }

  function WithoutPrunes(ops: seq<KeyOp>): seq<KeyOp> {
    if ops == [] then []
    else (if ops[0].PruneAt? then [] else [ops[0]]) + WithoutPrunes(ops[1..])
  }

  lemma {:induction false} PruningUnnoticedFrom(c: Config, a: Run, b: Run, ops: seq<KeyOp>, clock: int)
    requires c.Valid() && Timed(clock, ops)
    requires Effective(c, a.slot, clock) == Effective(c, b.slot, clock)
    requires a.failures == b.failures && a.answers == b.answers
    ensures var (a', b') := (RunAll(c, a, ops), RunAll(c, b, WithoutPrunes(ops)));
            && a'.failures == b'.failures && a'.answers == b'.answers
    decreases |ops|
  {
    hide Slide, Effective, CheckSlot;
    if ops != [] {
      var op := ops[0];
      if op.PruneAt? {
        PruneKeepsEffect(c, a.slot, op.at);
        EffectiveTwice(c, a.slot, clock, op.at);
        EffectiveTwice(c, b.slot, clock, op.at);
        assert WithoutPrunes(ops) == WithoutPrunes(ops[1..]);
        PruningUnnoticedFrom(c, StepRun(c, a, op), b, ops[1..], op.at);
      } else {
        AttemptByEffect(c, a, b, op, clock);
        assert WithoutPrunes(ops)[1..] == WithoutPrunes(ops[1..]);
        PruningUnnoticedFrom(c, StepRun(c, a, op), StepRun(c, b, op), ops[1..], op.actAt);
      }
    }
  }

  // Background pruning, however often it runs between login attempts, changes no answer of
  // a check and no recorded failure.
  lemma PruningUnnoticed(c: Config, ops: seq<KeyOp>)
    requires c.Valid() && Timed(0, ops)
    ensures RunAll(c, EMPTY_RUN, ops).answers == RunAll(c, EMPTY_RUN, WithoutPrunes(ops)).answers
    ensures RunAll(c, EMPTY_RUN, ops).failures == RunAll(c, EMPTY_RUN, WithoutPrunes(ops)).failures
  {
    PruningUnnoticedFrom(c, EMPTY_RUN, EMPTY_RUN, ops, 0);
  }
}
