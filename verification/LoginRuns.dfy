/** Runs of the login route and of background pruning over all keys of the limiter. The address of
    a request is normalised once for its reset and twice for its check and its failures, so a
    successful login may clear another key than the one its failures were counted under. */
module LoginRuns {
  import opened Options
  import opened RateLimit

  datatype Op = LoginAt(request: Request) | PruneAll(at: int)

  // What is recorded and cleared, oldest first.
  datatype Note = Failed(key: string, at: int) | Cleared(key: string)

  datatype Net = Net(entries: Entries, notes: seq<Note>, answers: seq<CheckResult>)

  const EMPTY := Net(map[], [], [])

  // What a request adds to the notes.
  function NotesOf(a: Addressing, c: Config, entries: Entries, q: Request): seq<Note> {
    var key := a.CountedKey(q.ip, q.scope);
    var (checked, answer) := CheckSlot(c, SlotIn(entries, key), q.checkAt);
    if q.outcome.Accepted? && (a.Exempt(q.ip) || answer.allowed) then [Cleared(a.KeyFor(q.ip, q.scope))]
    else if q.outcome.Rejected? && !a.Exempt(q.ip) && answer.allowed
            && !(checked.Some? && LockActive(checked.value, q.actAt)) then [Failed(key, q.actAt)]
    else []
  }

  function StepNet(a: Addressing, c: Config, net: Net, op: Op): Net {
    match op
    case PruneAll(at) => net.(entries := PruneEntries(c, net.entries, at))
    case LoginAt(q) =>
      var (entries, answer) := LoginEntries(a, c, net.entries, q);
      Net(entries, net.notes + NotesOf(a, c, net.entries, q), net.answers + [answer])
  }

  function RunNet(a: Addressing, c: Config, net: Net, ops: seq<Op>): Net
    decreases |ops|
  {
    if ops == [] then net else RunNet(a, c, StepNet(a, c, net, ops[0]), ops[1..])
  }

  function BeginsAt(op: Op): int {
    if op.PruneAll? then op.at else op.request.checkAt
  }

  function EndsAt(op: Op): int {
    if op.PruneAll? then op.at else op.request.actAt
  }

  // The clock never goes back, and it reads at least 0.
  ghost predicate InTime(clock: int, ops: seq<Op>)
    decreases |ops|
  {
    ops == [] || (0 <= clock <= BeginsAt(ops[0]) <= EndsAt(ops[0]) && InTime(EndsAt(ops[0]), ops[1..]))
  }

  function ClockAfter(clock: int, ops: seq<Op>): int
    decreases |ops|
  {
    if ops == [] then clock else ClockAfter(EndsAt(ops[0]), ops[1..])
  }

  // The failures recorded for a key since it was last cleared, oldest first.
  function Failures(notes: seq<Note>, key: string): seq<int> {
    if notes == [] then []
    else
      var (rest, last) := (Failures(notes[..|notes| - 1], key), notes[|notes| - 1]);
      if last.key != key then rest else if last.Cleared? then [] else rest + [last.at]
  }

  lemma FailuresMore(notes: seq<Note>, note: Note, key: string)
    ensures Failures(notes + [note], key) ==
            if note.key != key then Failures(notes, key)
            else if note.Cleared? then [] else Failures(notes, key) + [note.at]
  {
    assert (notes + [note])[..|notes|] == notes;
  }

  // ----- one key of a run

  function OfKey(net: Net, key: string): Run {
    Run(SlotIn(net.entries, key), Failures(net.notes, key), [])
  }

  // A login that clears another key leaves its own as a request without credentials does.
  function OwnOutcome(outcome: Outcome): Outcome {
    if outcome.Accepted? then MissingCredentials else outcome
  }

  predicate Clears(a: Addressing, q: Request, answer: CheckResult, key: string) {
    q.outcome.Accepted? && answer.allowed && key == a.KeyFor(q.ip, q.scope)
  }

  predicate Counts(a: Addressing, q: Request, key: string) {
    !a.Exempt(q.ip) && key == a.CountedKey(q.ip, q.scope)
  }

  lemma LoginOfKey(a: Addressing, c: Config, net: Net, q: Request, key: string)
    ensures var (before, after) := (OfKey(net, key), OfKey(StepNet(a, c, net, LoginAt(q)), key));
            if Clears(a, q, LoginEntries(a, c, net.entries, q).1, key) then after == EMPTY_RUN
            else if Counts(a, q, key)
            then after == StepRun(c, before, Attempt(q.checkAt, q.actAt, OwnOutcome(q.outcome))).(answers := [])
            else after == before
  {
    hide CheckSlot, RecordSlot, Put, SlotIn, Failures;
    var counted := a.CountedKey(q.ip, q.scope);
    var checked := CheckSlot(c, SlotIn(net.entries, counted), q.checkAt).0;
    SlotsAfter(net.entries, counted, checked);
    SlotsAfter(net.entries, counted, RecordSlot(c, checked, q.actAt));
    SlotsAfter(Put(net.entries, counted, checked), a.KeyFor(q.ip, q.scope), None);
    SlotsAfter(net.entries, a.KeyFor(q.ip, q.scope), None);
    FailuresMore(net.notes, Cleared(a.KeyFor(q.ip, q.scope)), key);
    FailuresMore(net.notes, Failed(counted, q.actAt), key);
    assert net.notes + [] == net.notes;
  }

  lemma PruneOfKey(a: Addressing, c: Config, net: Net, at: int, key: string)
    ensures OfKey(StepNet(a, c, net, PruneAll(at)), key) == StepRun(c, OfKey(net, key), KeyOp.PruneAt(at))
  {
    hide Slide, Failures;
  }

  // ----- what every run keeps, for every key

  ghost predicate AllTracked(c: Config, net: Net, clock: int) {
    forall key :: Tracks(c, SlotIn(net.entries, key), Failures(net.notes, key), clock)
  }

  lemma KeyTracked(a: Addressing, c: Config, net: Net, op: Op, clock: int, key: string)
    requires c.Valid() && 0 <= clock <= BeginsAt(op) <= EndsAt(op)
    requires Tracks(c, SlotIn(net.entries, key), Failures(net.notes, key), clock)
    ensures var after := StepNet(a, c, net, op);
            Tracks(c, SlotIn(after.entries, key), Failures(after.notes, key), EndsAt(op))
  {
    hide Tracks, StepNet, StepRun, SlotIn, Failures, LoginEntries, Clears, Counts;
    match op
    case PruneAll(at) =>
      PruneOfKey(a, c, net, at, key);
      StepTracks(c, OfKey(net, key), KeyOp.PruneAt(at), clock);
    case LoginAt(q) =>
      LoginOfKey(a, c, net, q, key);
      NothingTracks(c, q.actAt);
      LaterTracks(c, SlotIn(net.entries, key), Failures(net.notes, key), clock, q.actAt);
      StepTracks(c, OfKey(net, key), Attempt(q.checkAt, q.actAt, OwnOutcome(q.outcome)), clock);
  }

  lemma StepTracked(a: Addressing, c: Config, net: Net, op: Op, clock: int)
    requires c.Valid() && AllTracked(c, net, clock) && 0 <= clock <= BeginsAt(op) <= EndsAt(op)
    ensures AllTracked(c, StepNet(a, c, net, op), EndsAt(op))
  {
    hide Tracks, StepNet, SlotIn, Failures;
    var after := StepNet(a, c, net, op);
    forall key
      ensures Tracks(c, SlotIn(after.entries, key), Failures(after.notes, key), EndsAt(op))
    {
      KeyTracked(a, c, net, op, clock, key);
    }
  }

  lemma {:induction false} RunTracked(a: Addressing, c: Config, net: Net, ops: seq<Op>, clock: int)
    requires c.Valid() && AllTracked(c, net, clock) && InTime(clock, ops)
    ensures AllTracked(c, RunNet(a, c, net, ops), ClockAfter(clock, ops))
    decreases |ops|
  {
    hide AllTracked, StepNet;
    if ops != [] {
      StepTracked(a, c, net, ops[0], clock);
      RunTracked(a, c, StepNet(a, c, net, ops[0]), ops[1..], EndsAt(ops[0]));
    }
  }

  lemma NothingTracked(c: Config)
    requires c.Valid()
    ensures AllTracked(c, EMPTY, 0)
  {
    hide Tracks;
    forall key
      ensures Tracks(c, SlotIn(EMPTY.entries, key), Failures(EMPTY.notes, key), 0)
    {
      NothingTracks(c, 0);
    }
  }

  // Whatever addresses log in, and whatever normalising them does: of the failures recorded for a
  // key since it was last cleared, by a login of that key or of another one, at most maxAttempts
  // lie in any half-open interval as long as the shorter of window and lockout.
  lemma FailureBoundOfKeys(a: Addressing, c: Config, ops: seq<Op>, key: string, from: int)
    requires c.Valid() && InTime(0, ops)
    ensures |InWindow(Failures(RunNet(a, c, EMPTY, ops).notes, key), from, c.Span())| <= c.maxAttempts
  {
    hide RunNet, InWindow, Failures;
    NothingTracked(c);
    RunTracked(a, c, EMPTY, ops, 0);
    SpacedWindow(c, Failures(RunNet(a, c, EMPTY, ops).notes, key), from);
  }

  // After any such run a request is denied exactly while the lock of its counted key is active,
  // and then named a wait that is positive and at most the lockout.
  lemma DeniesExactly(a: Addressing, c: Config, ops: seq<Op>, q: Request)
    requires c.Valid() && InTime(0, ops) && ClockAfter(0, ops) <= q.checkAt
    ensures var (entries, key) := (RunNet(a, c, EMPTY, ops).entries, a.CountedKey(q.ip, q.scope));
            var answer := LoginEntries(a, c, entries, q).1;
            && (answer.allowed <==> a.Exempt(q.ip) || !(key in entries && LockActive(entries[key], q.checkAt)))
            && (!answer.allowed ==> 0 < answer.retryAfterMs <= c.lockoutMs)
  {
    hide RunNet, Tracks, Failures, CheckSlot, RecordSlot;
    NothingTracked(c);
    RunTracked(a, c, EMPTY, ops, 0);
    var (net, key) := (RunNet(a, c, EMPTY, ops), a.CountedKey(q.ip, q.scope));
    CheckAnswer(c, SlotIn(net.entries, key), Failures(net.notes, key), ClockAfter(0, ops), q.checkAt);
  }

  // ----- pruning is never noticed

  // Two limiters that no later request can tell apart.
  ghost predicate Alike(c: Config, m: Net, n: Net, clock: int) {
    && m.notes == n.notes && m.answers == n.answers
    && forall key :: Effective(c, SlotIn(m.entries, key), clock) == Effective(c, SlotIn(n.entries, key), clock)
  }

  lemma PrunedAlike(a: Addressing, c: Config, m: Net, n: Net, at: int, clock: int)
    requires Alike(c, m, n, clock) && clock <= at
    ensures Alike(c, StepNet(a, c, m, PruneAll(at)), n, at)
  {
    hide Slide, Effective, PruneSlot;
    var pruned := StepNet(a, c, m, PruneAll(at));
    forall key
      ensures Effective(c, SlotIn(pruned.entries, key), at) == Effective(c, SlotIn(n.entries, key), at)
    {
      PruneOfKey(a, c, m, at, key);
      PruneKeepsEffect(c, SlotIn(m.entries, key), at);
      EffectiveTwice(c, SlotIn(m.entries, key), clock, at);
      EffectiveTwice(c, SlotIn(n.entries, key), clock, at);
    }
  }

  lemma SameAnswer(a: Addressing, c: Config, m: Net, n: Net, q: Request, clock: int)
    requires c.Valid() && Alike(c, m, n, clock) && clock <= q.checkAt <= q.actAt
    ensures LoginEntries(a, c, m.entries, q).1 == LoginEntries(a, c, n.entries, q).1
    ensures NotesOf(a, c, m.entries, q) == NotesOf(a, c, n.entries, q)
  {
    hide CheckSlot, RecordSlot, Effective, SlotIn;
    var key := a.CountedKey(q.ip, q.scope);
    var (x, y) := (SlotIn(m.entries, key), SlotIn(n.entries, key));
    EffectiveTwice(c, x, clock, q.checkAt);
    EffectiveTwice(c, y, clock, q.checkAt);
    CheckByEffect(c, x, q.checkAt);
    CheckByEffect(c, y, q.checkAt);
  }

  lemma LoggedInAlike(a: Addressing, c: Config, m: Net, n: Net, q: Request, clock: int)
    requires c.Valid() && Alike(c, m, n, clock) && clock <= q.checkAt <= q.actAt
    ensures Alike(c, StepNet(a, c, m, LoginAt(q)), StepNet(a, c, n, LoginAt(q)), q.actAt)
  {
    SameAnswer(a, c, m, n, q, clock);
    var (m', n') := (StepNet(a, c, m, LoginAt(q)), StepNet(a, c, n, LoginAt(q)));
    assert m'.notes == n'.notes && m'.answers == n'.answers;
    hide StepNet, StepRun, SlotIn, Failures, LoginEntries, Effective, NotesOf;
    forall key
      ensures Effective(c, SlotIn(m'.entries, key), q.actAt) == Effective(c, SlotIn(n'.entries, key), q.actAt)
    {
      LoginOfKey(a, c, m, q, key);
      LoginOfKey(a, c, n, q, key);
      EffectiveTwice(c, SlotIn(m.entries, key), clock, q.actAt);
      EffectiveTwice(c, SlotIn(n.entries, key), clock, q.actAt);
      AttemptByEffect(c, OfKey(m, key), OfKey(n, key), Attempt(q.checkAt, q.actAt, OwnOutcome(q.outcome)), clock);
    }
  }

  function NoPrunes(ops: seq<Op>): seq<Op> {
    if ops == [] then [] else (if ops[0].PruneAll? then [] else [ops[0]]) + NoPrunes(ops[1..])
  }

  lemma {:induction false} PruningUnnoticedFrom(a: Addressing, c: Config, m: Net, n: Net, ops: seq<Op>, clock: int)
    requires c.Valid() && InTime(clock, ops) && Alike(c, m, n, clock)
    ensures var (m', n') := (RunNet(a, c, m, ops), RunNet(a, c, n, NoPrunes(ops)));
            m'.notes == n'.notes && m'.answers == n'.answers
    decreases |ops|
  {
    if ops != [] {
      hide StepNet;
      if ops[0].PruneAll? {
        PrunedAlike(a, c, m, n, ops[0].at, clock);
        assert NoPrunes(ops) == NoPrunes(ops[1..]);
        PruningUnnoticedFrom(a, c, StepNet(a, c, m, ops[0]), n, ops[1..], ops[0].at);
      } else {
        LoggedInAlike(a, c, m, n, ops[0].request, clock);
        assert NoPrunes(ops)[1..] == NoPrunes(ops[1..]);
        PruningUnnoticedFrom(a, c, StepNet(a, c, m, ops[0]), StepNet(a, c, n, ops[0]), ops[1..], EndsAt(ops[0]));
      }
    }
  }

  // However often all keys are pruned between requests: no answer and no recorded failure of any
  // key changes.
  lemma PruningUnnoticedOfKeys(a: Addressing, c: Config, ops: seq<Op>)
    requires c.Valid() && InTime(0, ops)
    ensures RunNet(a, c, EMPTY, ops).answers == RunNet(a, c, EMPTY, NoPrunes(ops)).answers
    ensures RunNet(a, c, EMPTY, ops).notes == RunNet(a, c, EMPTY, NoPrunes(ops)).notes
  {
    hide RunNet, NoPrunes, Effective;
    PruningUnnoticedFrom(a, c, EMPTY, EMPTY, ops, 0);
  }
}
