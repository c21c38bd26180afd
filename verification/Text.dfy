/** Strings as the source's languages see them: white space, trimming, splitting and joining. */
module Text {
  // White space for String.prototype.trim and for \s in a regular expression.
  predicate IsSpace(c: char) {
    || c in {'\t', '\n', '\U{0B}', '\U{0C}', '\r', ' ', '\U{A0}', '\U{1680}', '\U{2028}', '\U{2029}',
             '\U{202F}', '\U{205F}', '\U{3000}', '\U{FEFF}'}
    || '\U{2000}' <= c <= '\U{200A}'
  }

  function TrimStart(s: string): string {
    if s != "" && IsSpace(s[0]) then TrimStart(s[1..]) else s
  }

  function TrimEnd(s: string): string {
    if s != "" && IsSpace(s[|s| - 1]) then TrimEnd(s[..|s| - 1]) else s
  }

  function Trim(s: string): string {
    TrimStart(TrimEnd(s))
  }

  lemma {:induction false} TrimStartEnds(s: string)
    ensures TrimStart(s) != "" ==>
              !IsSpace(TrimStart(s)[0]) && s != "" && TrimStart(s)[|TrimStart(s)| - 1] == s[|s| - 1]
  {
    hide IsSpace;
    if s != "" && IsSpace(s[0]) {
      TrimStartEnds(s[1..]);
    }
  }

  lemma {:induction false} TrimEndEnds(s: string)
    ensures TrimEnd(s) != "" ==> !IsSpace(TrimEnd(s)[|TrimEnd(s)| - 1])
  {
    hide IsSpace;
    if s != "" && IsSpace(s[|s| - 1]) {
      TrimEndEnds(s[..|s| - 1]);
    }
  }

  lemma {:induction false} TrimTwice(s: string)
    ensures Trim(Trim(s)) == Trim(s)
  {
    hide IsSpace;
    TrimEndEnds(s);
    TrimStartEnds(TrimEnd(s));
  }

  // Trimming cuts away white space at both ends, and all of it.
  lemma TrimMeans(s: string) returns (i: nat, j: nat)
    ensures i <= j <= |s| && Trim(s) == s[i..j]
    ensures forall k :: 0 <= k < i || j <= k < |s| ==> IsSpace(s[k])
    ensures i < j ==> !IsSpace(s[i]) && !IsSpace(s[j - 1])
  {
    hide IsSpace, TrimStart, TrimEnd;
    j := TrimEndPart(s);
    i := TrimStartPart(s[..j]);
    assert s[..j][i..] == s[i..j];
    forall k | 0 <= k < i
      ensures IsSpace(s[k])
    {
      assert s[k] == s[..j][k];
    }
    assert i < j ==> s[..j][i] == s[i];
  }

  lemma {:induction false} TrimStartPart(s: string) returns (i: nat)
    ensures i <= |s| && TrimStart(s) == s[i..]
    ensures forall k :: 0 <= k < i ==> IsSpace(s[k])
    ensures i < |s| ==> !IsSpace(s[i])
  {
    hide IsSpace;
    i := 0;
    if s != "" && IsSpace(s[0]) {
      i := TrimStartPart(s[1..]);
      assert s[1..][i..] == s[i + 1..] && forall k :: 1 <= k < i + 1 ==> s[k] == s[1..][k - 1];
      i := i + 1;
    }
  }

  lemma {:induction false} TrimEndPart(s: string) returns (j: nat)
    ensures j <= |s| && TrimEnd(s) == s[..j]
    ensures forall k :: j <= k < |s| ==> IsSpace(s[k])
    ensures j > 0 ==> !IsSpace(s[j - 1])
  {
    hide IsSpace;
    j := |s|;
    if s != "" && IsSpace(s[|s| - 1]) {
      j := TrimEndPart(s[..|s| - 1]);
    }
  }

  lemma TrimsToNothing(s: string)
    ensures Trim(s) == "" <==> forall k :: 0 <= k < |s| ==> IsSpace(s[k])
  {
    hide IsSpace, Trim;
    var i, j := TrimMeans(s);
  }

  // s.split(sep): always at least one part.
  function Split(s: string, sep: char): (parts: seq<string>)
    ensures |parts| >= 1
  {
    if s == "" then [""]
    else
      var rest := Split(s[1..], sep);
      if s[0] == sep then [""] + rest else [[s[0]] + rest[0]] + rest[1..]
  }

  // parts.join(sep)
  function Join(parts: seq<string>, sep: char): string {
    if parts == [] then "" else if |parts| == 1 then parts[0] else parts[0] + [sep] + Join(parts[1..], sep)
  }

  lemma SplitCons(c: char, rest: string, sep: char)
    ensures var parts := Split(rest, sep);
            Split([c] + rest, sep) == if c == sep then [""] + parts else [[c] + parts[0]] + parts[1..]
  {
    assert ([c] + rest)[1..] == rest;
  }

  // Cutting a text anywhere cuts one of its parts in two.
  lemma {:induction false} SplitConcat(a: string, b: string, sep: char)
    ensures var pa := Split(a, sep);
            Split(a + b, sep) == pa[..|pa| - 1] + Split(pa[|pa| - 1] + b, sep)
  {
    if a == "" {
      assert a + b == b && "" + b == b;
      assert [""][..0] + Split(b, sep) == Split(b, sep);
    } else {
      var (c, rest) := (a[0], a[1..]);
      SplitConcat(rest, b, sep);
      assert a + b == [c] + (rest + b);
      SplitCons(c, rest + b, sep);
      SplitConcatStep(c, Split(rest, sep), b, sep);
    }
  }

  lemma SplitConcatStep(c: char, parts: seq<string>, b: string, sep: char)
    requires |parts| >= 1
    ensures var whole := parts[..|parts| - 1] + Split(parts[|parts| - 1] + b, sep);
            var more := if c == sep then [""] + parts else [[c] + parts[0]] + parts[1..];
            more[..|more| - 1] + Split(more[|more| - 1] + b, sep) ==
            if c == sep then [""] + whole else [[c] + whole[0]] + whole[1..]
  {
    if c != sep && |parts| == 1 {
      assert [c] + parts[0] + b == [c] + (parts[0] + b);
      SplitCons(c, parts[0] + b, sep);
    }
  }

  lemma {:induction false} SplitNoSep(s: string, sep: char)
    ensures forall i :: 0 <= i < |Split(s, sep)| ==> sep !in Split(s, sep)[i]
  {
    if s != "" {
      SplitNoSep(s[1..], sep);
    }
  }

  // The parts and the separators between them are the text.
  lemma {:induction false} JoinSplit(s: string, sep: char)
    ensures Join(Split(s, sep), sep) == s
  {
    if s != "" {
      var rest := Split(s[1..], sep);
      JoinSplit(s[1..], sep);
      if s[0] == sep {
        assert ([""] + rest)[1..] == rest;
      } else {
        assert ([[s[0]] + rest[0]] + rest[1..])[1..] == rest[1..];
      }
    }
  }

  lemma {:induction false} SplitOne(s: string, sep: char)
    requires sep !in s
    ensures Split(s, sep) == [s]
  {
    if s != "" {
      SplitOne(s[1..], sep);
      assert [s[0]] + s[1..] == s;
    }
  }
}
