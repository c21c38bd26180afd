/** What is recorded of typed input, told key by key: text, corrections, discarded and completed
    lines, and which control sequences leave no trace. Units are given by their numbers. */
module TypedLines {
  import opened TerminalInput

  // ----- control sequences

  // ESC, an opening bracket, parameter bytes, intermediate bytes and one final byte.
  predicate IsControl(t: Units) {
    && |t| >= 3 && t[0] == 0x1B && t[1] == 0x5B && 0x40 <= t[|t| - 1] <= 0x7E
    && exists p :: 2 <= p < |t| && Classes(t, p)
  }

  // The parameters end and the intermediates begin at `p`.
  predicate Classes(t: Units, p: int) {
    && (forall i :: 2 <= i < p && i < |t| ==> 0x30 <= t[i] <= 0x3F)
    && (forall i :: p <= i < |t| - 1 && 0 <= i ==> 0x20 <= t[i] <= 0x2F)
  }

  lemma BodyClasses(s: Units) returns (p: int)
    requires StartsControl(s)
    ensures var n := BodyEnd(s);
            && 2 <= p <= n && (forall i :: 2 <= i < p ==> 0x30 <= s[i] <= 0x3F)
            && (forall i :: p <= i < n ==> 0x20 <= s[i] <= 0x2F)
            && (n < |s| ==> !(0x20 <= s[n] <= 0x2F) && (p == n ==> !(0x30 <= s[n] <= 0x3F)))
            && (p < |s| ==> !(0x30 <= s[p] <= 0x3F))
  {
    hide RunLength;
    p := 2 + RunLength(s[2..], 0x30, 0x3F);
    assert forall i :: 2 <= i < |s| ==> s[i] == s[2..][i - 2];
    assert forall i :: p <= i < |s| ==> s[i] == s[p..][i - p];
  }

  lemma ControlIs(s: Units, n: int)
    requires 0 < n <= |s|
    ensures IsControl(s[..n]) <==> ControlLength(s) == n
  {
    hide BodyEnd;
    var t := s[..n];
    if StartsControl(s) {
      var p := BodyClasses(s);
      if ControlLength(s) == n {
        assert Classes(t, p);
      }
      if IsControl(t) {
        var q :| 2 <= q < |t| && Classes(t, q);
        SameEnd(s, n, p, q);
      }
    }
  }

  // The classes are disjoint, so there is only one way to read a sequence.
  lemma SameEnd(s: Units, n: int, p: int, q: int)
    requires StartsControl(s) && 3 <= n <= |s| && 0x40 <= s[n - 1] <= 0x7E && 2 <= q < n && Classes(s[..n], q)
    requires 2 <= p <= BodyEnd(s) && (forall i :: 2 <= i < p ==> 0x30 <= s[i] <= 0x3F)
    requires forall i :: p <= i < BodyEnd(s) ==> 0x20 <= s[i] <= 0x2F
    requires BodyEnd(s) < |s| ==> !(0x20 <= s[BodyEnd(s)] <= 0x2F)
    requires p < |s| ==> !(0x30 <= s[p] <= 0x3F)
    ensures BodyEnd(s) == n - 1
  {
    hide BodyEnd;
    var t := s[..n];
    assert forall i :: 0 <= i < n ==> t[i] == s[i];
    assert forall i :: 2 <= i < q ==> 0x30 <= s[i] <= 0x3F;
    assert forall i :: q <= i < n - 1 ==> 0x20 <= s[i] <= 0x2F;
  }

  // Stripping removes every control sequence it comes upon, whole, and keeps every other unit.
  lemma StripMeans(s: Units)
    ensures Strip([]) == []
    ensures forall n :: 0 < n <= |s| && IsControl(s[..n]) ==> Strip(s) == Strip(s[n..])
    ensures s != [] && (forall n :: 0 < n <= |s| ==> !IsControl(s[..n])) ==> Strip(s) == [s[0]] + Strip(s[1..])
  {
    hide IsControl, ControlLength;
    forall n | 0 < n <= |s|
      ensures IsControl(s[..n]) <==> ControlLength(s) == n
    {
      ControlIs(s, n);
    }
  }

  // ----- lines

  predicate IsPrintable(u: Unit) {
    u >= 0x20 && u != 0x7F
  }

  predicate IsEnter(u: Unit) {
    u == 13 || u == 10
  }

  predicate IsErase(u: Unit) {
    u == 8 || u == 127
  }

  predicate IsDiscard(u: Unit) {
    u == 3 || u == 21
  }

  // The last thousand units.
  function Tail(s: Units): Units {
    if |s| <= 1000 then s else s[|s| - 1000..]
  }

  // The text without white space at its ends.
  ghost predicate IsTrimmed(s: Units, t: Units, i: int, j: int) {
    && 0 <= i <= j <= |s| && t == s[i..j]
    && (forall k :: 0 <= k < i || j <= k < |s| ==> IsSpaceUnit(s[k]))
    && (i < j ==> !IsSpaceUnit(s[i]) && !IsSpaceUnit(s[j - 1]))
  }

  lemma {:induction false} TrimEndMeans(s: Units) returns (j: int)
    ensures 0 <= j <= |s| && TerminalInput.TrimEnd(s) == s[..j]
    ensures forall k :: j <= k < |s| ==> IsSpaceUnit(s[k])
    ensures j > 0 ==> !IsSpaceUnit(s[j - 1])
  {
    hide IsSpaceUnit;
    j := |s|;
    if s != [] && IsSpaceUnit(s[|s| - 1]) { j := TrimEndMeans(s[..|s| - 1]); }
  }

  lemma {:induction false} TrimMeans(s: Units) returns (i: int, j: int)
    ensures IsTrimmed(s, Trim(s), i, j)
    decreases |s|
  {
    hide IsSpaceUnit, TerminalInput.TrimEnd;
    if s != [] && IsSpaceUnit(s[0]) {
      i, j := TrimMeans(s[1..]);
      assert s[1..][i..j] == s[i + 1..j + 1] && forall k :: 1 <= k < |s| ==> s[k] == s[1..][k - 1];
      i, j := i + 1, j + 1;
    } else {
      i := 0;
      j := TrimEndMeans(s);
    }
  }

  lemma TakeOne(r: Recorded, u: Unit)
    ensures TakeAll(r, [u]) == Take(r, u)
  {
    assert [u][..0] == [] && TakeAll(r, []) == r;
  }

  // Text is kept as typed, of which the last thousand units.
  lemma {:induction false} TextTyped(r: Recorded, text: Units)
    requires |r.buffer| <= 1000 && forall i :: 0 <= i < |text| ==> IsPrintable(text[i])
    ensures TakeAll(r, text) == Recorded(Tail(r.buffer + text), r.lines)
  {
    if text == [] {
      assert r.buffer + [] == r.buffer;
    } else {
      var (init, last) := (text[..|text| - 1], text[|text| - 1]);
      TextTyped(r, init);
      assert r.buffer + text == (r.buffer + init) + [last];
    }
  }

  // A line is completed by a carriage return or a newline, and recorded if it is not blank: without
  // white space at its ends, and of a long one the last thousand units.
  lemma LineTyped(r: Recorded, text: Units, enter: Unit) returns (line: Units, i: int, j: int)
    requires |r.buffer| <= 1000 && IsEnter(enter) && forall k :: 0 <= k < |text| ==> IsPrintable(text[k])
    ensures IsTrimmed(Tail(r.buffer + text), line, i, j)
    ensures TakeAll(r, text + [enter]) == Recorded([], if line == [] then r.lines else r.lines + [line])
  {
    hide Trim, IsTrimmed;
    TakeConcat(r, text, [enter]);
    TextTyped(r, text);
    TakeOne(Recorded(Tail(r.buffer + text), r.lines), enter);
    line := Trim(Tail(r.buffer + text));
    i, j := TrimMeans(Tail(r.buffer + text));
  }

  lemma OneErased(r: Recorded, u: Unit, erase: Unit)
    requires |r.buffer| < 1000 && IsPrintable(u) && IsErase(erase)
    ensures TakeAll(r, [u, erase]) == r
  {
    assert [u, erase][..1] == [u];
    TakeOne(r, u);
    assert (r.buffer + [u])[..|r.buffer|] == r.buffer;
  }

  lemma NothingErased(r: Recorded, erase: Unit)
    requires r.buffer == [] && IsErase(erase)
    ensures TakeAll(r, [erase]) == r
  {
    TakeOne(r, erase);
  }

  // Each erasure takes back the last unit typed, as long as the line is not too long; there is nothing
  // to take back of an empty line.
  lemma {:induction false} TextErased(r: Recorded, text: Units, erasures: Units)
    requires |r.buffer| + |text| <= 1000 && |erasures| == |text|
    requires forall i :: 0 <= i < |text| ==> IsPrintable(text[i]) && IsErase(erasures[i])
    ensures TakeAll(r, text + erasures) == r
    ensures r.buffer == [] ==> forall u :: IsErase(u) ==> TakeAll(r, [u]) == r
    decreases |text|
  {
    hide IsPrintable, IsErase, TakeAll;
    forall u | IsErase(u) && r.buffer == []
      ensures TakeAll(r, [u]) == r
    {
      NothingErased(r, u);
    }
    if text == [] {
      assert text + erasures == [];
      NothingTaken(r);
    } else {
      var (init, last) := (text[..|text| - 1], text[|text| - 1]);
      var (pair, rest) := ([last, erasures[0]], erasures[1..]);
      assert text + erasures == init + (pair + rest);
      TakeConcat(r, init, pair + rest);
      TextTyped(r, init);
      assert Tail(r.buffer + init) == r.buffer + init;
      var before := TakeAll(r, init);
      OneErased(before, last, erasures[0]);
      TakeConcat(before, pair, rest);
      TextErased(r, init, rest);
      TakeConcat(r, init, rest);
    }
  }

  lemma NothingTaken(r: Recorded)
    ensures TakeAll(r, []) == r
  {
  }

  // The interrupt and the kill character discard what has been typed of a line, whatever it was.
  lemma {:induction false} LineDiscarded(r: Recorded, typed: Units, u: Unit)
    requires IsDiscard(u) && forall i :: 0 <= i < |typed| ==> !IsEnter(typed[i])
    ensures TakeAll(r, typed + [u]) == Recorded([], r.lines)
  {
    TakeConcat(r, typed, [u]);
    TakeOne(TakeAll(r, typed), u);
    NoLineCompleted(r, typed);
  }

  lemma {:induction false} NoLineCompleted(r: Recorded, typed: Units)
    requires forall i :: 0 <= i < |typed| ==> !IsEnter(typed[i])
    ensures TakeAll(r, typed).lines == r.lines
  {
    if typed != [] { NoLineCompleted(r, typed[..|typed| - 1]); }
  }

  // The units that matter.
  predicate IsHeard(u: Unit) {
    IsPrintable(u) || IsEnter(u) || IsErase(u) || IsDiscard(u)
  }

  function Heard(units: Units): Units {
    if units == [] then []
    else Heard(units[..|units| - 1]) + if IsHeard(units[|units| - 1]) then [units[|units| - 1]] else []
  }

  // All other control characters are as if they had not been typed.
  lemma {:induction false} OthersIgnored(r: Recorded, units: Units)
    ensures TakeAll(r, Heard(units)) == TakeAll(r, units)
  {
    if units != [] {
      var (init, last) := (units[..|units| - 1], units[|units| - 1]);
      OthersIgnored(r, init);
      if IsHeard(last) {
        TakeConcat(r, Heard(init), [last]);
        TakeOne(TakeAll(r, init), last);
      } else {
        assert Heard(units) == Heard(init);
      }
    }
  }
}
