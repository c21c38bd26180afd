/** Recording what is typed into a mirrored terminal: `stripTerminalInputControls` and
    `recordTerminalInputLines` of apps/host/src/services/native-terminal-input-history.ts.

    Text is a sequence of UTF-16 code units, as the source's strings are. */
module TerminalInput {
  type Unit = u: int | 0 <= u < 0x10000
  type Units = seq<Unit>

  const ESC: Unit := 0x1B
  const BRACKET: Unit := 0x5B
  const MAX_BUFFER := 1000

  // ----- control sequences: /\x1b\[[0-?]*[ -/]*[@-~]/g

  // How many units in [lo, hi] a text starts with.
  function RunLength(s: Units, lo: int, hi: int): (n: nat)
    ensures n <= |s| && (forall i :: 0 <= i < n ==> lo <= s[i] <= hi) && (n < |s| ==> !(lo <= s[n] <= hi))
  {
    if s != [] && lo <= s[0] <= hi then 1 + RunLength(s[1..], lo, hi) else 0
  }

  predicate StartsControl(s: Units) {
    |s| >= 2 && s[0] == ESC && s[1] == BRACKET
  }

  // Where the parameter and intermediate bytes end.
  function BodyEnd(s: Units): (n: nat)
    requires StartsControl(s)
    ensures 2 <= n <= |s|
  {
    var parameters := 2 + RunLength(s[2..], 0x30, 0x3F);
    parameters + RunLength(s[parameters..], 0x20, 0x2F)
  }

  predicate IsFinal(u: Unit) {
    0x40 <= u <= 0x7E
  }

  // The length of the control sequence a text starts with, 0 if there is none. The three
  // classes are disjoint, so the greedy match is the only one.
  function ControlLength(s: Units): (n: nat)
    ensures n <= |s|
  {
    if StartsControl(s) && BodyEnd(s) < |s| && IsFinal(s[BodyEnd(s)]) then BodyEnd(s) + 1 else 0
  }

  function Strip(s: Units): Units
    decreases |s|
  {
    if s == [] then []
    else if ControlLength(s) > 0 then Strip(s[ControlLength(s)..])
    else [s[0]] + Strip(s[1..])
  }

  // ----- recording

  predicate IsSpaceUnit(u: Unit) {
    u in {9, 10, 11, 12, 13, 32, 0xA0, 0x1680, 0x2028, 0x2029, 0x202F, 0x205F, 0x3000, 0xFEFF} || 0x2000 <= u <= 0x200A
  }

  function TrimEnd(s: Units): Units {
    if s != [] && IsSpaceUnit(s[|s| - 1]) then TrimEnd(s[..|s| - 1]) else s
  }

  function Trim(s: Units): Units
    decreases |s|
  {
    if s != [] && IsSpaceUnit(s[0]) then Trim(s[1..]) else TrimEnd(s)
  }

  // The buffer, and the lines completed so far.
  datatype Recorded = Recorded(buffer: Units, lines: seq<Units>)

  function Last(s: Units, n: nat): Units {
    if |s| <= n then s else s[|s| - n..]
  }

  function Take(r: Recorded, u: Unit): Recorded {
    if u == 0x0D || u == 0x0A then
      Recorded([], if Trim(r.buffer) != [] then r.lines + [Trim(r.buffer)] else r.lines)
    else if u == 0x08 || u == 0x7F then
      r.(buffer := if r.buffer == [] then [] else r.buffer[..|r.buffer| - 1])
    else if u == 0x03 || u == 0x15 then r.(buffer := [])
    else if u >= 0x20 then r.(buffer := Last(r.buffer + [u], MAX_BUFFER))
    else r
  }

  function TakeAll(r: Recorded, units: Units): Recorded
    decreases |units|
  {
    if units == [] then r else Take(TakeAll(r, units[..|units| - 1]), units[|units| - 1])
  }

  function Feed(buffer: Units, data: Units): Recorded {
    TakeAll(Recorded(buffer, []), Strip(data))
  }

  // One piece after the other.
  function FeedTwo(buffer: Units, a: Units, b: Units): Recorded {
    var first := Feed(buffer, a);
    var second := Feed(first.buffer, b);
    Recorded(second.buffer, first.lines + second.lines)
  }

  class MirrorSession {
    var inputBuffer: Units

    constructor ()
      ensures inputBuffer == []
    {
      inputBuffer := [];
    }

    method RecordTerminalInputLines(data: Units) returns (lines: seq<Units>)
      modifies this
      ensures Recorded(inputBuffer, lines) == Feed(old(inputBuffer), data)
      ensures |old(inputBuffer)| <= MAX_BUFFER ==> |inputBuffer| <= MAX_BUFFER
    {
      hide Strip, Trim;
      lines := [];
      var units := Strip(data);
      for i := 0 to |units|
        invariant Recorded(inputBuffer, lines) == TakeAll(Recorded(old(inputBuffer), []), units[..i])
      {
        assert units[..i + 1][..i] == units[..i];
        var u := units[i];
        if u == 0x0D || u == 0x0A {
          var line := Trim(inputBuffer);
          inputBuffer := [];
          if line != [] {
            lines := lines + [line];
          }
        } else if u == 0x08 || u == 0x7F {
          if inputBuffer != [] {
            inputBuffer := inputBuffer[..|inputBuffer| - 1];
          }
        } else if u == 0x03 || u == 0x15 {
          inputBuffer := [];
        } else if u >= 0x20 {
          inputBuffer := Last(inputBuffer + [u], MAX_BUFFER);
        }
      }
      assert units[..|units|] == units;
      if |old(inputBuffer)| <= MAX_BUFFER {
        BufferBounded(Recorded(old(inputBuffer), []), units);
      }
    }
  }

  // ----- pieces of a control sequence

  // A proper prefix of a control sequence.
  predicate Open(s: Units) {
    s == [ESC] || (StartsControl(s) && BodyEnd(s) == |s|)
  }

  // The text ends inside an unfinished control sequence.
  predicate Unfinished(a: Units) {
    exists i :: 0 <= i < |a| && Open(a[i..])
  }

  lemma {:induction false} RunConcat(s: Units, t: Units, lo: int, hi: int)
    ensures RunLength(s + t, lo, hi) ==
            if RunLength(s, lo, hi) < |s| then RunLength(s, lo, hi) else |s| + RunLength(t, lo, hi)
  {
    if s == [] {
      assert s + t == t;
    } else {
      RunConcat(s[1..], t, lo, hi);
      assert (s + t)[1..] == s[1..] + t;
    }
  }

  // The body of a control sequence is unaffected by what comes later, unless it reaches the end.
  lemma BodyConcat(s: Units, t: Units)
    requires StartsControl(s)
    ensures StartsControl(s + t)
    ensures BodyEnd(s) < |s| ==> BodyEnd(s + t) == BodyEnd(s)
    ensures BodyEnd(s) == |s| && t != [] && !(0x20 <= t[0] <= 0x3F) ==> BodyEnd(s + t) == |s|
  {
    hide RunLength;
    var p := 2 + RunLength(s[2..], 0x30, 0x3F);
    assert (s + t)[2..] == s[2..] + t;
    RunConcat(s[2..], t, 0x30, 0x3F);
    if p < |s| {
      assert (s + t)[p..] == s[p..] + t;
      RunConcat(s[p..], t, 0x20, 0x2F);
      NoRun(t, 0x20, 0x2F);
    } else {
      NoRun(t, 0x30, 0x3F);
      assert (s + t)[|s|..] == t;
      NoRun(t, 0x20, 0x2F);
    }
  }

  lemma NoRun(t: Units, lo: int, hi: int)
    ensures t != [] && !(lo <= t[0] <= hi) ==> RunLength(t, lo, hi) == 0
  {
  }

  lemma ControlConcat(s: Units, t: Units)
    requires s != []
    ensures ControlLength(s) > 0 || !Open(s) || (t != [] && t[0] == ESC) ==> ControlLength(s + t) == ControlLength(s)
  {
    hide BodyEnd;
    if |s| == 1 {
    } else if StartsControl(s) {
      BodyConcat(s, t);
    }
  }

  // If no control sequence of the first part needs the second, the parts are stripped separately.
  lemma {:induction false} StripConcat(a: Units, b: Units)
    requires forall i :: 0 <= i < |a| ==> ControlLength(a[i..] + b) == ControlLength(a[i..])
    ensures Strip(a + b) == Strip(a) + Strip(b)
    decreases |a|
  {
    hide ControlLength;
    if a == [] {
      assert a + b == b;
    } else {
      assert a[0..] == a;
      var n := if ControlLength(a) > 0 then ControlLength(a) else 1;
      assert (a + b)[n..] == a[n..] + b;
      forall i | 0 <= i < |a[n..]|
        ensures ControlLength(a[n..][i..] + b) == ControlLength(a[n..][i..])
      {
        assert a[n..][i..] == a[n + i..];
      }
      StripConcat(a[n..], b);
    }
  }

  lemma StripFinished(a: Units, b: Units)
    requires !Unfinished(a)
    ensures Strip(a + b) == Strip(a) + Strip(b)
  {
    hide ControlLength, Open, Strip;
    forall i | 0 <= i < |a|
      ensures ControlLength(a[i..] + b) == ControlLength(a[i..])
    {
      ControlConcat(a[i..], b);
    }
    StripConcat(a, b);
  }

  lemma {:induction false} StripBeforeEsc(a: Units, b: Units)
    requires b != [] && b[0] == ESC
    ensures Strip(a + b) == Strip(a) + Strip(b)
  {
    hide ControlLength, Open, Strip;
    forall i | 0 <= i < |a|
      ensures ControlLength(a[i..] + b) == ControlLength(a[i..])
    {
      ControlConcat(a[i..], b);
    }
    StripConcat(a, b);
  }

  // ----- recording in pieces

  lemma {:induction false} TakeConcat(r: Recorded, a: Units, b: Units)
    ensures TakeAll(r, a + b) == TakeAll(TakeAll(r, a), b)
    decreases |b|
  {
    hide Take;
    if b == [] {
      assert a + b == a;
    } else {
      TakeConcat(r, a, b[..|b| - 1]);
      assert (a + b)[..|a + b| - 1] == a + b[..|b| - 1];
    }
  }

  lemma {:induction false} EarlierLines(buffer: Units, lines: seq<Units>, units: Units)
    ensures var alone := TakeAll(Recorded(buffer, []), units);
            TakeAll(Recorded(buffer, lines), units) == Recorded(alone.buffer, lines + alone.lines)
    decreases |units|
  {
    hide Trim, Last;
    if units != [] {
      EarlierLines(buffer, lines, units[..|units| - 1]);
    }
  }

  lemma {:induction false} FeedByStrip(buffer: Units, a: Units, b: Units)
    ensures FeedTwo(buffer, a, b) == TakeAll(Recorded(buffer, []), Strip(a) + Strip(b))
  {
    hide TakeAll, Strip;
    TakeConcat(Recorded(buffer, []), Strip(a), Strip(b));
    var first := Feed(buffer, a);
    EarlierLines(first.buffer, first.lines, Strip(b));
  }

  lemma {:induction false} BufferBounded(r: Recorded, units: Units)
    requires |r.buffer| <= MAX_BUFFER
    ensures |TakeAll(r, units).buffer| <= MAX_BUFFER
    decreases |units|
  {
    hide Trim;
    if units != [] {
      BufferBounded(r, units[..|units| - 1]);
    }
  }

  // ----- an unfinished sequence does make a difference

  predicate NoEsc(s: Units) {
    forall i :: 0 <= i < |s| ==> s[i] != ESC
  }

  lemma {:induction false} StripPlain(s: Units)
    requires NoEsc(s)
    ensures Strip(s) == s
  {
    hide BodyEnd;
    if s != [] {
      StripPlain(s[1..]);
      assert s == [s[0]] + s[1..];
    }
  }

  // What completes an open sequence with the given final byte.
  function Rest(t: Units, final: Unit): Units {
    if t == [ESC] then [BRACKET, final] else [final]
  }

  lemma OpenBody(t: Units)
    requires Open(t)
    ensures NoEsc(t[1..]) && Strip(t) == t
  {
    if t == [ESC] {
      assert ControlLength(t) == 0 && t[1..] == [];
    } else {
      hide RunLength;
      var p := 2 + RunLength(t[2..], 0x30, 0x3F);
      forall i | 1 <= i < |t|
        ensures t[i] != ESC
      {
        if 2 <= i < p {
          assert t[i] == t[2..][i - 2];
        } else if p <= i {
          assert t[i] == t[p..][i - p];
        }
      }
      assert ControlLength(t) == 0;
      StripPlain(t[1..]);
    }
    assert t == [t[0]] + t[1..];
    StripPlain(t[1..]);
  }

  lemma {:induction false} OpenCompleted(t: Units, final: Unit)
    requires Open(t) && IsFinal(final)
    ensures Strip(t + Rest(t, final)) == []
  {
    hide RunLength;
    var whole := t + Rest(t, final);
    if t == [ESC] {
      assert whole == [ESC, BRACKET, final];
      BodyConcat([ESC, BRACKET], [final]);
      BareBody();
      assert [ESC, BRACKET] + [final] == whole;
    } else {
      BodyConcat(t, [final]);
    }
    assert ControlLength(whole) == |whole|;
    assert whole[|whole|..] == [];
  }

  lemma BareBody()
    ensures BodyEnd([ESC, BRACKET]) == 2
  {
    assert [ESC, BRACKET][2..] == [];
  }

  lemma {:induction false} UnfinishedDiffers(a: Units, i: int, final: Unit)
    requires 0 <= i < |a| && Open(a[i..]) && IsFinal(final)
    ensures Strip(a + Rest(a[i..], final)) == Strip(a[..i])
    ensures Strip(a) + Strip(Rest(a[i..], final)) == Strip(a[..i]) + a[i..] + Rest(a[i..], final)
  {
    hide Strip, BodyEnd;
    var (x, t, b) := (a[..i], a[i..], Rest(a[i..], final));
    assert a == x + t && a + b == x + (t + b);
    StripBeforeEsc(x, t + b);
    StripBeforeEsc(x, t);
    OpenCompleted(t, final);
    OpenBody(t);
    StripPlain(b);
    assert Strip(x) + [] == Strip(x);
  }

  // A printable unit ends up at the end of the buffer.
  lemma PrintableLast(r: Recorded, units: Units, final: Unit)
    requires IsFinal(final)
    ensures var buffer := TakeAll(r, units + [final]).buffer;
            buffer != [] && buffer[|buffer| - 1] == final
  {
    assert (units + [final])[..|units|] == units;
  }

  lemma UnfinishedShows(a: Units)
    requires Unfinished(a)
    ensures exists b :: FeedTwo([], a, b) != Feed([], a + b)
  {
    hide Strip, TakeAll, BodyEnd;
    var i :| 0 <= i < |a| && Open(a[i..]);
    var before := TakeAll(Recorded([], []), Strip(a[..i])).buffer;
    var final: Unit := if before != [] && before[|before| - 1] == 0x41 then 0x42 else 0x41;
    var b := Rest(a[i..], final);
    UnfinishedDiffers(a, i, final);
    FeedByStrip([], a, b);
    var typed := Strip(a[..i]) + a[i..] + b;
    assert typed == typed[..|typed| - 1] + [final];
    PrintableLast(Recorded([], []), typed[..|typed| - 1], final);
    assert FeedTwo([], a, b).buffer != Feed([], a + b).buffer;
  }

  // ----- the promises

  // Stripping a text in two pieces strips the whole, whatever follows, exactly if the first
  // piece does not end inside an unfinished control sequence.
  lemma {:induction false} StripInPieces(a: Units)
    ensures (forall b :: Strip(a + b) == Strip(a) + Strip(b)) <==> !Unfinished(a)
  {
    hide Strip, BodyEnd;
    if Unfinished(a) {
      var i :| 0 <= i < |a| && Open(a[i..]);
      var b := Rest(a[i..], 0x41);
      UnfinishedDiffers(a, i, 0x41);
      assert Strip(a + b) != Strip(a) + Strip(b);
    } else {
      forall b
        ensures Strip(a + b) == Strip(a) + Strip(b)
      {
        StripFinished(a, b);
      }
    }
  }

  // Feeding the terminal's input in two pieces gives the lines and the buffer of feeding it
  // whole, from any buffer and whatever follows, exactly under the same condition.
  lemma FeedInPieces(a: Units)
    ensures (forall buffer, b :: FeedTwo(buffer, a, b) == Feed(buffer, a + b)) <==> !Unfinished(a)
  {
    hide Strip, TakeAll, Feed, FeedTwo;
    if Unfinished(a) {
      UnfinishedShows(a);
    } else {
      forall buffer, b
        ensures FeedTwo(buffer, a, b) == Feed(buffer, a + b)
      {
        FeedFinished(buffer, a, b);
      }
    }
  }

  lemma FeedFinished(buffer: Units, a: Units, b: Units)
    requires !Unfinished(a)
    ensures FeedTwo(buffer, a, b) == Feed(buffer, a + b)
  {
    hide Strip, TakeAll, FeedTwo;
    StripFinished(a, b);
    FeedByStrip(buffer, a, b);
  }
}
