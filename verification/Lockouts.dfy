/** The login limiter seen from outside: which requests it turns away, and how long they are to
    wait, told from the requests so far and how they were answered. */
module Lockouts {
  import opened Options
  import opened Counting
  import opened RateLimit
  import opened LoginRuns

  // ----- which failures lock

  // The failures of the interval [from, to) of a key's list that are newer than the cutoff.
  function Newer(failures: seq<int>, from: int, to: int, cutoff: int): set<int> {
    set i | from <= i < to && 0 <= i < |failures| && failures[i] > cutoff
  }

  // A failure locks if it and the others since the previous lock fill the window that ends with it.
  predicate Locks(c: Config, failures: seq<int>, j: nat)
    requires j < |failures|
    decreases j, 1
  {
    |Newer(failures, SinceLock(c, failures, j), j + 1, failures[j] - c.windowMs)| >= c.maxAttempts
  }

  // The first of the failures since the last one before `j` that locks.
  function SinceLock(c: Config, failures: seq<int>, j: nat): (first: nat)
    requires j <= |failures|
    ensures first <= j
    decreases j, 0
  {
    if j == 0 then 0 else if Locks(c, failures, j - 1) then j else SinceLock(c, failures, j - 1)
  }

  lemma {:induction false} LocksMore(c: Config, failures: seq<int>, time: int, j: nat)
    requires j <= |failures|
    ensures SinceLock(c, failures + [time], j) == SinceLock(c, failures, j)
    ensures j < |failures| ==> (Locks(c, failures + [time], j) <==> Locks(c, failures, j))
    decreases j
  {
    var more := failures + [time];
    if j > 0 { LocksMore(c, failures, time, j - 1); }
    if j < |failures| {
      var first := SinceLock(c, failures, j);
      assert Newer(more, first, j + 1, more[j] - c.windowMs) == Newer(failures, first, j + 1, failures[j] - c.windowMs);
    }
  }

  // ----- what the slot of a key knows of its failures

  function Open(slot: Slot): seq<int> {
    if slot.Some? && !HasLock(slot.value) then slot.value.attempts else []
  }

  ghost predicate Sorted(failures: seq<int>, clock: int) {
    && (forall i, j :: 0 <= i < j < |failures| ==> failures[i] <= failures[j])
    && (forall i :: 0 <= i < |failures| ==> failures[i] <= clock)
  }

  // An unlocked slot holds the failures since the last lock, but for some that have left the window.
  ghost predicate Holds(c: Config, slot: Slot, failures: seq<int>, clock: int) {
    var (first, dropped) := (SinceLock(c, failures, |failures|), |failures| - |Open(slot)|);
    && first <= dropped
    && Open(slot) == failures[dropped..]
    && (forall i :: first <= i < dropped ==> failures[i] <= clock - c.windowMs)
  }

  predicate LockedBy(c: Config, slot: Slot, failures: seq<int>, j: int) {
    && 0 <= j == |failures| - 1 && slot.Some? && HasLock(slot.value)
    && slot.value.lockedUntil == Some(failures[j] + c.lockoutMs)
  }

  // A lock is that of the newest failure; all other locks are over.
  ghost predicate Guards(c: Config, slot: Slot, failures: seq<int>, clock: int) {
    && (slot.Some? && HasLock(slot.value) ==>
          failures != [] && Locks(c, failures, |failures| - 1) && LockedBy(c, slot, failures, |failures| - 1))
    && (forall j :: 0 <= j < |failures| && Locks(c, failures, j) ==>
          failures[j] + c.lockoutMs <= clock || LockedBy(c, slot, failures, j))
  }

  ghost predicate Mirrors(c: Config, slot: Slot, failures: seq<int>, clock: int) {
    Sorted(failures, clock) && Holds(c, slot, failures, clock) && Guards(c, slot, failures, clock)
  }

  lemma NothingMirrors(c: Config, clock: int)
    ensures Mirrors(c, None, [], clock)
  {
  }

  lemma LaterMirrors(c: Config, slot: Slot, failures: seq<int>, clock: int, now: int)
    requires Mirrors(c, slot, failures, clock) && clock <= now
    ensures Mirrors(c, slot, failures, now)
  {
    hide Locks, SinceLock;
  }

  // Sliding a suffix of the failures whose others are old leaves the newer ones.
  lemma SlideSuffix(failures: seq<int>, first: nat, dropped: nat, cutoff: int)
    requires first <= dropped <= |failures|
    requires forall i, j :: 0 <= i < j < |failures| ==> failures[i] <= failures[j]
    requires forall i :: first <= i < dropped ==> failures[i] <= cutoff
    ensures var k := |failures| - |Slide(failures[dropped..], cutoff)|;
            && first <= k && Slide(failures[dropped..], cutoff) == failures[k..]
            && (forall i :: first <= i < k ==> failures[i] <= cutoff)
            && (forall i :: k <= i < |failures| ==> failures[i] > cutoff)
  {
    hide Slide;
    var open := failures[dropped..];
    SlideIsSuffix(open, cutoff);
    var k := |failures| - |Slide(open, cutoff)|;
    assert forall i :: dropped <= i < |failures| ==> failures[i] == open[i - dropped];
    assert open[k - dropped..] == failures[k..];
  }

  lemma NewerSize(failures: seq<int>, first: nat, k: nat, cutoff: int)
    requires first <= k <= |failures|
    requires forall i :: first <= i < k ==> failures[i] <= cutoff
    requires forall i :: k <= i < |failures| ==> failures[i] > cutoff
    ensures |Newer(failures, first, |failures|, cutoff)| == |failures| - k
  {
    assert Newer(failures, first, |failures|, cutoff) == Range(k, |failures| - k);
  }

  lemma SlideIsNewer(c: Config, slot: Slot, failures: seq<int>, clock: int, cutoff: int)
    requires Mirrors(c, slot, failures, clock) && clock - c.windowMs <= cutoff
    ensures var (first, k) := (SinceLock(c, failures, |failures|), |failures| - |Slide(Open(slot), cutoff)|);
            && first <= k && Slide(Open(slot), cutoff) == failures[k..]
            && (forall i :: first <= i < k ==> failures[i] <= cutoff)
            && (forall i :: k <= i < |failures| ==> failures[i] > cutoff)
            && |Newer(failures, first, |failures|, cutoff)| == |Slide(Open(slot), cutoff)|
  {
    hide Locks, SinceLock, Slide, Guards, Newer;
    var (first, dropped) := (SinceLock(c, failures, |failures|), |failures| - |Open(slot)|);
    SlideSuffix(failures, first, dropped, cutoff);
    NewerSize(failures, first, |failures| - |Slide(Open(slot), cutoff)|, cutoff);
  }

  // Sliding an open slot, and giving up an expired lock, keep what it knows.
  lemma SlidMirrors(c: Config, entry: Entry, failures: seq<int>, clock: int, now: int)
    requires Mirrors(c, Some(entry), failures, clock) && clock <= now && !HasLock(entry)
    ensures Mirrors(c, Some(entry.(attempts := Slide(entry.attempts, now - c.windowMs))), failures, now)
    ensures Slide(entry.attempts, now - c.windowMs) == [] ==> Mirrors(c, None, failures, now)
  {
    hide Slide, Holds;
    var slid := Some(entry.(attempts := Slide(entry.attempts, now - c.windowMs)));
    SlidHolds(c, entry, failures, clock, now);
    OpenGuards(c, Some(entry), slid, failures, clock, now);
    OpenGuards(c, Some(entry), None, failures, clock, now);
  }

  lemma SlidHolds(c: Config, entry: Entry, failures: seq<int>, clock: int, now: int)
    requires Mirrors(c, Some(entry), failures, clock) && clock <= now && !HasLock(entry)
    ensures Holds(c, Some(entry.(attempts := Slide(entry.attempts, now - c.windowMs))), failures, now)
    ensures Slide(entry.attempts, now - c.windowMs) == [] ==> Holds(c, None, failures, now)
  {
    hide Locks, SinceLock, Slide, Mirrors;
    SlideIsNewer(c, Some(entry), failures, clock, now - c.windowMs);
  }

  lemma OpenGuards(c: Config, slot: Slot, next: Slot, failures: seq<int>, clock: int, now: int)
    requires Guards(c, slot, failures, clock) && clock <= now
    requires (slot.Some? ==> !HasLock(slot.value)) && (next.Some? ==> !HasLock(next.value))
    ensures Guards(c, next, failures, now)
  {
    hide Locks;
  }

  lemma ExpiredMirrors(c: Config, entry: Entry, failures: seq<int>, clock: int, now: int)
    requires Mirrors(c, Some(entry), failures, clock) && clock <= now && LockStale(entry, now)
    ensures forall attempts :: Mirrors(c, Some(Entry(attempts, entry.lockedUntil)), failures, now)
    ensures Mirrors(c, Some(Entry([], None)), failures, now) && Mirrors(c, None, failures, now)
  {
    hide Locks, SinceLock;
  }

  lemma PruneMirrors(c: Config, slot: Slot, failures: seq<int>, clock: int, now: int)
    requires Mirrors(c, slot, failures, clock) && clock <= now
    ensures Mirrors(c, PruneSlot(c, slot, now), failures, now)
  {
    hide Mirrors, Slide;
    LaterMirrors(c, slot, failures, clock, now);
    if slot.Some? && !LockActive(slot.value, now) {
      if LockStale(slot.value, now) {
        ExpiredMirrors(c, slot.value, failures, clock, now);
      } else {
        SlidMirrors(c, slot.value, failures, clock, now);
      }
    }
  }

  // ----- what a check answers

  // The failure `j` has locked its key, and the lock is not over.
  predicate LockedOut(c: Config, failures: seq<int>, j: int, now: int) {
    0 <= j < |failures| && failures[j] <= now < failures[j] + c.lockoutMs && Locks(c, failures, j)
  }

  ghost predicate AnsweredFrom(c: Config, failures: seq<int>, now: int, answer: CheckResult) {
    && (!answer.allowed <==> exists j :: LockedOut(c, failures, j, now))
    && (forall j :: LockedOut(c, failures, j, now) ==> answer == CheckResult(false, 0, failures[j] + c.lockoutMs - now))
    && (answer.allowed ==>
          var recent := Newer(failures, SinceLock(c, failures, |failures|), |failures|, now - c.windowMs);
          |recent| < c.maxAttempts && answer == CheckResult(true, c.maxAttempts - |recent|, 0))
  }

  lemma CheckMirrors(c: Config, slot: Slot, failures: seq<int>, clock: int, now: int)
    requires c.Valid() && Mirrors(c, slot, failures, clock) && Tracks(c, slot, failures, clock) && clock <= now
    ensures Mirrors(c, CheckSlot(c, slot, now).0, failures, now)
    ensures AnsweredFrom(c, failures, now, CheckSlot(c, slot, now).1)
  {
    hide Mirrors, Tracks, Slide, AnsweredFrom;
    CheckAnswer(c, slot, failures, clock, now);
    LaterMirrors(c, slot, failures, clock, now);
    SlideEmpty(now - c.windowMs);
    if slot.Some? && LockActive(slot.value, now) {
      ActiveAnswer(c, slot, failures, clock, now);
    } else {
      if slot.Some? && LockStale(slot.value, now) {
        ExpiredMirrors(c, slot.value, failures, clock, now);
        SlidMirrors(c, Entry([], None), failures, now, now);
        OpenAnswer(c, Some(Entry([], None)), failures, now);
      } else {
        if slot.Some? { SlidMirrors(c, slot.value, failures, clock, now); }
        OpenAnswer(c, slot, failures, now);
      }
    }
  }

  lemma ActiveAnswer(c: Config, slot: Slot, failures: seq<int>, clock: int, now: int)
    requires Mirrors(c, slot, failures, clock) && clock <= now && slot.Some? && LockActive(slot.value, now)
    ensures AnsweredFrom(c, failures, now, CheckResult(false, 0, slot.value.lockedUntil.value - now))
  {
    hide Locks, SinceLock, Holds;
    assert LockedOut(c, failures, |failures| - 1, now);
  }

  lemma OpenAnswer(c: Config, slot: Slot, failures: seq<int>, now: int)
    requires Mirrors(c, slot, failures, now) && (slot.Some? ==> !HasLock(slot.value))
    requires c.maxAttempts > |Slide(Open(slot), now - c.windowMs)|
    ensures AnsweredFrom(c, failures, now, CheckResult(true, c.maxAttempts - |Slide(Open(slot), now - c.windowMs)|, 0))
  {
    hide Locks, SinceLock, Slide;
    SlideIsNewer(c, slot, failures, now, now - c.windowMs);
  }

  // ----- what a recorded failure does

  lemma RecordMirrors(c: Config, slot: Slot, failures: seq<int>, clock: int, now: int)
    requires c.Valid() && Mirrors(c, slot, failures, clock) && 0 <= clock <= now
    requires slot.Some? ==> slot.value.lockedUntil.None?
    ensures Mirrors(c, RecordSlot(c, slot, now), failures + [now], now)
  {
    hide Mirrors, Slide;
    NewerCount(c, slot, failures, clock, now);
    LaterMirrors(c, slot, failures, clock, now);
    PushMirrors(c, slot, failures, now);
    assert Open(slot) == if slot.Some? then slot.value.attempts else [];
  }

  lemma NewerCount(c: Config, slot: Slot, failures: seq<int>, clock: int, now: int)
    requires Mirrors(c, slot, failures, clock) && clock <= now
    ensures |Newer(failures, SinceLock(c, failures, |failures|), |failures|, now - c.windowMs)| ==
            |Slide(Open(slot), now - c.windowMs)|
  {
    hide Slide, Locks, SinceLock;
    SlideIsNewer(c, slot, failures, clock, now - c.windowMs);
  }

  lemma NewerMore(failures: seq<int>, first: nat, now: int, cutoff: int)
    requires first <= |failures| && cutoff < now
    ensures |Newer(failures + [now], first, |failures| + 1, cutoff)| == |Newer(failures, first, |failures|, cutoff)| + 1
  {
    assert Newer(failures + [now], first, |failures| + 1, cutoff) ==
           Newer(failures, first, |failures|, cutoff) + {|failures|};
  }

  // The new failure locks exactly if the slid slot is full with it.
  lemma PushLocks(c: Config, slot: Slot, failures: seq<int>, now: int)
    requires c.Valid() && Mirrors(c, slot, failures, now)
    ensures Locks(c, failures + [now], |failures|) <==> |Slide(Open(slot), now - c.windowMs)| + 1 >= c.maxAttempts
  {
    hide Slide, SinceLock, Mirrors, Newer;
    NewerCount(c, slot, failures, now, now);
    LocksMore(c, failures, now, |failures|);
    NewerMore(failures, SinceLock(c, failures, |failures|), now, now - c.windowMs);
  }

  lemma PushMirrors(c: Config, slot: Slot, failures: seq<int>, now: int)
    requires c.Valid() && Mirrors(c, slot, failures, now) && 0 <= now && (slot.Some? ==> !HasLock(slot.value))
    ensures var attempts := Slide(Open(slot), now - c.windowMs) + [now];
            var lock := if |attempts| >= c.maxAttempts then Some(now + c.lockoutMs) else None;
            Mirrors(c, Some(Entry(attempts, lock)), failures + [now], now)
  {
    var attempts := Slide(Open(slot), now - c.windowMs) + [now];
    var lock := if |attempts| >= c.maxAttempts then Some(now + c.lockoutMs) else None;
    PushLocks(c, slot, failures, now);
    PushHolds(c, slot, failures, now, lock);
    PushGuards(c, slot, failures, now, attempts, lock);
  }

  lemma PushHolds(c: Config, slot: Slot, failures: seq<int>, now: int, lock: Option<int>)
    requires c.Valid() && Mirrors(c, slot, failures, now) && 0 <= now
    requires Locks(c, failures + [now], |failures|) <==> lock.Some?
    requires lock.Some? ==> lock.value == now + c.lockoutMs
    ensures Holds(c, Some(Entry(Slide(Open(slot), now - c.windowMs) + [now], lock)), failures + [now], now)
  {
    hide Slide, Locks, SinceLock, Mirrors;
    var (more, first) := (failures + [now], SinceLock(c, failures, |failures|));
    SlideIsNewer(c, slot, failures, now, now - c.windowMs);
    SinceMore(c, failures, now);
    var k := |failures| - |Slide(Open(slot), now - c.windowMs)|;
    assert more[k..] == failures[k..] + [now];
    assert forall i :: first <= i < k ==> more[i] <= now - c.windowMs;
  }

  lemma SinceMore(c: Config, failures: seq<int>, now: int)
    ensures SinceLock(c, failures + [now], |failures| + 1) ==
            if Locks(c, failures + [now], |failures|) then |failures| + 1 else SinceLock(c, failures, |failures|)
  {
    hide Locks;
    LocksMore(c, failures, now, |failures|);
  }

  lemma PushGuards(c: Config, slot: Slot, failures: seq<int>, now: int, attempts: seq<int>, lock: Option<int>)
    requires c.Valid() && Mirrors(c, slot, failures, now) && 0 <= now && (slot.Some? ==> !HasLock(slot.value))
    requires Locks(c, failures + [now], |failures|) <==> lock.Some?
    requires lock.Some? ==> lock.value == now + c.lockoutMs
    ensures Guards(c, Some(Entry(attempts, lock)), failures + [now], now)
  {
    hide Slide, Locks, SinceLock;
    var more := failures + [now];
    forall j | 0 <= j < |more| && Locks(c, more, j)
      ensures more[j] + c.lockoutMs <= now || LockedBy(c, Some(Entry(attempts, lock)), more, j)
    {
      if j < |failures| { LocksMore(c, failures, now, j); }
    }
  }

  // ----- one step of the run of one key

  lemma StepMirrors(c: Config, r: Run, op: KeyOp, clock: int)
    requires c.Valid() && 0 <= clock <= Begins(op) <= Ends(op)
    requires Mirrors(c, r.slot, r.failures, clock) && Tracks(c, r.slot, r.failures, clock)
    ensures Mirrors(c, StepRun(c, r, op).slot, StepRun(c, r, op).failures, Ends(op))
  {
    hide Slide, Tracks, Mirrors, CheckSlot, RecordSlot, PruneSlot;
    match op
    case PruneAt(at) => PruneMirrors(c, r.slot, r.failures, clock, at);
    case Attempt(checkAt, actAt, outcome) =>
      CheckAnswer(c, r.slot, r.failures, clock, checkAt);
      CheckMirrors(c, r.slot, r.failures, clock, checkAt);
      NothingMirrors(c, actAt);
      var (checked, result) := CheckSlot(c, r.slot, checkAt);
      if result.allowed && outcome.Rejected? {
        RecordMirrors(c, checked, r.failures, checkAt, actAt);
      } else {
        LaterMirrors(c, checked, r.failures, checkAt, actAt);
      }
  }

  // ----- all keys

  ghost predicate AllMirrored(c: Config, net: Net, clock: int) {
    && AllTracked(c, net, clock)
    && forall key :: Mirrors(c, SlotIn(net.entries, key), Failures(net.notes, key), clock)
  }

  lemma NothingMirrored(c: Config)
    requires c.Valid()
    ensures AllMirrored(c, EMPTY, 0)
  {
    hide Mirrors, AllTracked;
    NothingTracked(c);
    NothingMirrors(c, 0);
  }

  lemma KeyMirrored(a: Addressing, c: Config, net: Net, op: Op, clock: int, key: string)
    requires c.Valid() && 0 <= clock <= BeginsAt(op) <= EndsAt(op)
    requires Tracks(c, SlotIn(net.entries, key), Failures(net.notes, key), clock)
    requires Mirrors(c, SlotIn(net.entries, key), Failures(net.notes, key), clock)
    ensures var after := StepNet(a, c, net, op);
            Mirrors(c, SlotIn(after.entries, key), Failures(after.notes, key), EndsAt(op))
  {
    hide Tracks, Mirrors, StepNet, StepRun, SlotIn, Failures, LoginEntries, Clears, Counts;
    match op
    case PruneAll(at) =>
      PruneOfKey(a, c, net, at, key);
      StepMirrors(c, OfKey(net, key), KeyOp.PruneAt(at), clock);
    case LoginAt(q) =>
      LoginOfKey(a, c, net, q, key);
      NothingMirrors(c, q.actAt);
      LaterMirrors(c, SlotIn(net.entries, key), Failures(net.notes, key), clock, q.actAt);
      StepMirrors(c, OfKey(net, key), Attempt(q.checkAt, q.actAt, OwnOutcome(q.outcome)), clock);
  }

  lemma StepMirrored(a: Addressing, c: Config, net: Net, op: Op, clock: int)
    requires c.Valid() && AllMirrored(c, net, clock) && 0 <= clock <= BeginsAt(op) <= EndsAt(op)
    ensures AllMirrored(c, StepNet(a, c, net, op), EndsAt(op))
  {
    hide Tracks, Mirrors, StepNet, SlotIn, Failures;
    StepTracked(a, c, net, op, clock);
    var after := StepNet(a, c, net, op);
    forall key
      ensures Mirrors(c, SlotIn(after.entries, key), Failures(after.notes, key), EndsAt(op))
    {
      assert Tracks(c, SlotIn(net.entries, key), Failures(net.notes, key), clock);
      KeyMirrored(a, c, net, op, clock, key);
    }
  }

  // What a request adds to the notes, told from its answer: nothing if it is turned away.
  function NoteOf(a: Addressing, q: Request, answer: CheckResult): seq<Note> {
    var normal := a.normalizeIp(q.ip);
    var exempt := a.exemptLoopback && a.isLoopback(normal);
    if !answer.allowed then []
    else match q.outcome
      case Accepted => [Cleared(q.scope + ":" + normal)]
      case Rejected => if exempt then [] else [Failed(q.scope + ":" + a.normalizeIp(normal), q.actAt)]
      case MissingCredentials => []
  }

  // What a run notes, told from its requests and their answers.
  function Told(a: Addressing, ops: seq<Op>, answers: seq<CheckResult>): seq<Note>
    decreases |ops|
  {
    if ops == [] then []
    else
      var (init, last) := (ops[..|ops| - 1], ops[|ops| - 1]);
      if last.PruneAll? || answers == [] then Told(a, init, answers)
      else Told(a, init, answers[..|answers| - 1]) + NoteOf(a, last.request, answers[|answers| - 1])
  }

  // What the check answers to a request, told from the failures recorded for its key.
  ghost predicate AnswersFrom(a: Addressing, c: Config, notes: seq<Note>, q: Request, answer: CheckResult) {
    var normal := a.normalizeIp(q.ip);
    if a.exemptLoopback && a.isLoopback(normal) then answer == CheckResult(true, c.maxAttempts, 0)
    else AnsweredFrom(c, Failures(notes, q.scope + ":" + a.normalizeIp(normal)), q.checkAt, answer)
  }

  lemma OneAnswer(a: Addressing, c: Config, net: Net, q: Request, clock: int)
    requires c.Valid() && AllMirrored(c, net, clock) && 0 <= clock <= q.checkAt
    ensures var answer := LoginEntries(a, c, net.entries, q).1;
            && AnswersFrom(a, c, net.notes, q, answer)
            && NotesOf(a, c, net.entries, q) == NoteOf(a, q, answer)
  {
    hide Mirrors, Tracks, Failures, CheckSlot, RecordSlot, SlotIn, AnsweredFrom;
    var key := a.CountedKey(q.ip, q.scope);
    var (slot, failures) := (SlotIn(net.entries, key), Failures(net.notes, key));
    assert Mirrors(c, slot, failures, clock) && Tracks(c, slot, failures, clock);
    CheckMirrors(c, slot, failures, clock, q.checkAt);
    CheckAnswer(c, slot, failures, clock, q.checkAt);
  }

  lemma {:induction false} RunMore(a: Addressing, c: Config, net: Net, ops: seq<Op>, op: Op, clock: int)
    ensures RunNet(a, c, net, ops + [op]) == StepNet(a, c, RunNet(a, c, net, ops), op)
    ensures InTime(clock, ops + [op]) <==>
            InTime(clock, ops) && 0 <= clock && ClockAfter(clock, ops) <= BeginsAt(op) <= EndsAt(op)
    ensures ClockAfter(clock, ops + [op]) == EndsAt(op)
    decreases |ops|
  {
    hide StepNet;
    if ops == [] {
      assert [op][1..] == [];
    } else {
      assert (ops + [op])[1..] == ops[1..] + [op];
      RunMore(a, c, StepNet(a, c, net, ops[0]), ops[1..], op, EndsAt(ops[0]));
    }
  }

  lemma {:induction false} ClockIsSet(clock: int, ops: seq<Op>)
    requires 0 <= clock && InTime(clock, ops)
    ensures 0 <= ClockAfter(clock, ops)
    decreases |ops|
  {
    if ops != [] { ClockIsSet(EndsAt(ops[0]), ops[1..]); }
  }

  // The notes of a run are those its requests and their answers tell.
  lemma {:induction false} RunMirrored(a: Addressing, c: Config, ops: seq<Op>)
    requires c.Valid() && InTime(0, ops)
    ensures var net := RunNet(a, c, EMPTY, ops);
            && AllMirrored(c, net, ClockAfter(0, ops))
            && net.notes == Told(a, ops, net.answers)
    decreases |ops|
  {
    hide AllMirrored, StepNet, NotesOf, NoteOf, LoginEntries;
    if ops == [] {
      NothingMirrored(c);
    } else {
      var (init, last) := (ops[..|ops| - 1], ops[|ops| - 1]);
      assert ops == init + [last];
      RunMore(a, c, EMPTY, init, last, 0);
      RunMirrored(a, c, init);
      ClockIsSet(0, init);
      var before := RunNet(a, c, EMPTY, init);
      StepMirrored(a, c, before, last, ClockAfter(0, init));
      if last.LoginAt? { LoginNotes(a, c, before, last.request, ClockAfter(0, init)); }
      StepAnswers(a, c, before, last);
    }
  }

  lemma LoginNotes(a: Addressing, c: Config, net: Net, q: Request, clock: int)
    requires c.Valid() && AllMirrored(c, net, clock) && 0 <= clock <= q.checkAt
    ensures var answer := LoginEntries(a, c, net.entries, q).1;
            StepNet(a, c, net, LoginAt(q)).notes == net.notes + NoteOf(a, q, answer)
  {
    hide AllMirrored, NotesOf, NoteOf, LoginEntries, AnswersFrom;
    OneAnswer(a, c, net, q, clock);
  }

  lemma StepAnswers(a: Addressing, c: Config, net: Net, op: Op)
    ensures var after := StepNet(a, c, net, op);
            if op.PruneAll? then after.answers == net.answers && after.notes == net.notes
            else after.answers == net.answers + [LoginEntries(a, c, net.entries, op.request).1]
  {
    hide LoginEntries, NotesOf;
  }

  // After any run, with the failures of its counted key that the requests and answers so far tell: a
  // request is turned away if and only if one of them has locked the key and the lock is not over. It
  // is then told exactly the rest of the lock; otherwise, how many failures are left to the window.
  lemma AnsweredExactly(a: Addressing, c: Config, ops: seq<Op>, q: Request)
    requires c.Valid() && InTime(0, ops) && ClockAfter(0, ops) <= q.checkAt
    ensures var net := RunNet(a, c, EMPTY, ops);
            AnswersFrom(a, c, Told(a, ops, net.answers), q, LoginEntries(a, c, net.entries, q).1)
  {
    hide AllMirrored, RunNet, LoginEntries, AnswersFrom, NotesOf, NoteOf, Told;
    RunMirrored(a, c, ops);
    ClockIsSet(0, ops);
    OneAnswer(a, c, RunNet(a, c, EMPTY, ops), q, ClockAfter(0, ops));
  }

  // ----- the failures of a key, by their places in the notes

  predicate Uncleared(notes: seq<Note>, key: string, n: int) {
    && 0 <= n < |notes| && notes[n].Failed? && notes[n].key == key
    && forall m :: n < m < |notes| ==> notes[m] != Cleared(key)
  }

  // They are those that no clearing of their key follows, in the order of the notes.
  lemma {:induction false} FailuresMean(notes: seq<Note>, key: string) returns (at: seq<int>)
    ensures forall n :: n in at <==> Uncleared(notes, key, n)
    ensures forall i, j :: 0 <= i < j < |at| ==> at[i] < at[j]
    ensures |at| == |Failures(notes, key)|
    ensures forall i :: 0 <= i < |at| ==> 0 <= at[i] < |notes| && notes[at[i]] == Failed(key, Failures(notes, key)[i])
    decreases |notes|
  {
    if notes == [] {
      at := [];
    } else {
      var (init, last) := (notes[..|notes| - 1], notes[|notes| - 1]);
      var before := FailuresMean(init, key);
      assert forall n :: 0 <= n < |init| ==> notes[n] == init[n];
      if last.key != key {
        at := before;
      } else if last.Cleared? {
        at := [];
      } else {
        at := before + [|init|];
      }
    }
  }
}
