/** Writing one key of an environment file: the whole new text, told from the old one. */
module EnvOneKey {
  import opened Options
  import opened Text
  import opened EnvFile
  import opened EnvRewriting

  // An update of one key; None takes it out.
  function One(key: string, value: Option<string>): Updates {
    Updates([key], map[key := value])
  }

  predicate HoldsNot(lines: seq<string>, key: string) {
    forall i :: 0 <= i < |lines| ==> Key(lines[i]) != Some(key)
  }

  predicate NoCR(lines: seq<string>) {
    forall i :: 0 <= i < |lines| ==> '\r' !in lines[i]
  }

  lemma LinesAreParts(raw: string)
    requires '\r' !in raw
    ensures Lines(raw) == if raw == "" then [] else Split(raw, '\n')
  {
    hide Split, DropCRs, NoCR;
    PartsHaveNoCR(raw);
    AllButLast(Split(raw, '\n'));
  }

  lemma AllButLast(lines: seq<string>)
    requires NoCR(lines) && lines != []
    ensures DropCRs(lines[..|lines| - 1]) + [lines[|lines| - 1]] == lines
  {
    hide DropCR;
    forall i | 0 <= i < |lines| - 1
      ensures DropCR(lines[i]) == lines[i]
    {
      NothingDropped(lines[i]);
    }
  }

  lemma {:induction false} PartsHaveNoCR(s: string)
    requires '\r' !in s
    ensures NoCR(Split(s, '\n'))
  {
    if s != "" { PartsHaveNoCR(s[1..]); }
  }

  lemma {:induction false} NotHeld(lines: seq<string>, key: string, value: Option<string>)
    requires HoldsNot(lines, key)
    ensures Rewritten(lines, One(key, value)) == lines && Seen(lines, One(key, value)) == {}
  {
    hide Key;
    if lines != [] {
      var (init, last) := (lines[..|lines| - 1], lines[|lines| - 1]);
      assert lines == init + [last];
      NotHeld(init, key, value);
    }
  }

  lemma NewPair(key: string, value: string)
    requires IsKey(key)
    ensures Appended([key], One(key, Some(value))) == [Pair(key, value)]
  {
    hide Pair, PairLines;
    OnePairLine(key, value);
    assert [key][..0] == [];
    assert Appended([], One(key, Some(value))) == [];
  }

  lemma OneMissing(key: string)
    ensures Missing([key], {}) == [key] && Missing([key], {key}) == []
  {
    assert [key][..0] == [];
  }

  lemma EndsInPair(text: string, key: string, value: string)
    requires IsKey(key)
    ensures StripNewlines(text + Pair(key, value)) == text + Pair(key, value)
  {
    hide Pair;
    OnePairLine(key, value);
    var whole := text + Pair(key, value);
    assert whole[|whole| - 1] == Pair(key, value)[|Pair(key, value)| - 1];
  }

  lemma AddedLines(raw: string, key: string, value: string)
    requires IsKey(key) && HoldsNot(Lines(raw), key)
    ensures var (lines, pair) := (Lines(raw), Pair(key, value));
            NewLines(raw, One(key, Some(value))) ==
            if raw == "" then [COMMENT, pair]
            else if lines[|lines| - 1] == "" then lines + [pair] else lines + [""] + [pair]
  {
    hide Key, Pair, Lines, Rewritten, Seen, Missing, Appended;
    var lines := Lines(raw);
    NotHeld(lines, key, Some(value));
    OneMissing(key);
    NewPair(key, value);
    LinesExist(raw);
  }

  lemma LinesExist(raw: string)
    ensures Lines(raw) == [] <==> raw == ""
  {
  }

  // A key that no line holds is written at the end: in a new file behind the comment, and otherwise
  // behind the old text and a blank line.
  lemma OneKeyAdded(raw: string, key: string, value: string)
    requires IsKey(key) && '\r' !in raw && HoldsNot(Lines(raw), key)
    ensures var before := if raw == "" then "# Remote Agent Console configuration\n"
                          else if raw[|raw| - 1] == '\n' then raw + "\n" else raw + "\n\n";
            NewText(raw, One(key, Some(value))) == before + key + "=" + Quote(value) + "\n"
  {
    hide Key, Pair, Lines, Split, StripNewlines, NewLines, Join, Quote, HoldsNot, IsKey;
    var (u, lines, pair) := (One(key, Some(value)), Lines(raw), Pair(key, value));
    AddedLines(raw, key, value);
    PairIs(key, value);
    if raw == "" {
      JoinTwo(COMMENT, pair);
      EndsInPair(COMMENT + "\n", key, value);
    } else {
      AddedText(raw, pair);
      EndsInPair(raw + "\n", key, value);
      EndsInPair(raw + "\n\n", key, value);
    }
  }

  lemma AddedText(raw: string, pair: string)
    requires '\r' !in raw && raw != ""
    ensures var lines := Lines(raw);
            && lines != []
            && (lines[|lines| - 1] == "" <==> raw[|raw| - 1] == '\n')
            && Join(lines + [pair], '\n') == raw + "\n" + pair
            && Join(lines + [""] + [pair], '\n') == raw + "\n\n" + pair
  {
    hide Split, Join, Lines;
    var lines := Lines(raw);
    LinesAreParts(raw);
    JoinSplit(raw, '\n');
    LastPart(raw);
    JoinMore(lines, pair);
    JoinMore(lines, "");
    JoinMore(lines + [""], pair);
    assert raw + "\n" + "" + "\n" + pair == raw + "\n\n" + pair;
  }

  lemma PairIs(key: string, value: string)
    ensures forall text: string :: text + Pair(key, value) + "\n" == text + key + "=" + Quote(value) + "\n"
  {
    hide Quote;
  }

  lemma JoinTwo(a: string, b: string)
    ensures Join([a, b], '\n') == a + "\n" + b
  {
    JoinOne(a);
    assert [a] + [b] == [a, b];
    JoinMore([a], b);
  }

  // The last part is empty exactly if the text ends in a newline.
  lemma {:induction false} LastPart(s: string)
    requires s != ""
    ensures var parts := Split(s, '\n'); parts[|parts| - 1] == "" <==> s[|s| - 1] == '\n'
  {
    var (init, last) := (s[..|s| - 1], s[|s| - 1]);
    assert s == init + [last];
    SplitConcat(init, [last], '\n');
    SplitNoSep(init, '\n');
    var end := Split(init, '\n')[|Split(init, '\n')| - 1];
    if last == '\n' {
      SplitMoreAt(end);
    } else {
      SplitOne(end + [last], '\n');
    }
  }

  lemma SplitMoreAt(end: string)
    requires '\n' !in end
    ensures Split(end + ['\n'], '\n') == [end, ""]
  {
    SplitTwo(end, "");
    assert end + ("\n" + "") == end + ['\n'];
  }

  // A line that holds the key is replaced where it stands, or taken out if the key is set to null; the
  // other lines stay.
  lemma OneKeyReplaced(raw: string, before: seq<string>, old': string, after: seq<string>, key: string,
                       value: Option<string>)
    requires Lines(raw) == before + [old'] + after && Key(old') == Some(key)
    requires HoldsNot(before, key) && HoldsNot(after, key)
    ensures var line := if value.Some? then [key + "=" + Quote(value.value)] else [];
            NewText(raw, One(key, value)) == StripNewlines(Join(before + line + after, '\n')) + "\n"
  {
    hide Key, Lines, Split, StripNewlines, Rewritten, Seen, Missing, Join, Quote, HoldsNot;
    var (u, lines) := (One(key, value), Lines(raw));
    NotHeld(before, key, value);
    NotHeld(after, key, value);
    RewrittenConcat(before + [old'], after, u);
    RewrittenConcat(before, [old'], u);
    RewrittenOne(old', u);
    OneMissing(key);
    assert lines[|before|] == old';
    SeenIs(lines, u, key);
    OnlyOneSeen(lines, key, value);
    assert Seen(lines, u) == {key};
  }

  lemma {:induction false} OnlyOneSeen(lines: seq<string>, key: string, value: Option<string>)
    ensures Seen(lines, One(key, value)) <= {key}
  {
    hide Key;
    if lines != [] { OnlyOneSeen(lines[..|lines| - 1], key, value); }
  }
}
