/** What `writeEnvFile` of apps/host/src/services/env-file.ts promises about the new text, for
    every old text and every map of updates.

    The updates may hold keys that the file's own matcher never finds, such as lower-case ones.
    They are appended at every write, and their lines may even read as lines of other keys. */
module EnvRewriting {
  import opened Options
  import opened Text
  import opened EnvFile

  // ----- kinds of lines

  predicate EndsInCR(line: string) {
    line != "" && line[|line| - 1] == '\r'
  }

  lemma NothingDropped(line: string)
    ensures !EndsInCR(line) ==> DropCR(line) == line
  {
  }

  lemma OnePairLine(key: string, value: string)
    requires IsKey(key)
    ensures PairLines(key, value) == [Pair(key, value)]
    ensures '\n' !in Pair(key, value) && !EndsInCR(Pair(key, value)) && Pair(key, value) != ""
  {
    hide Quote, Split;
    QuoteOneLine(value);
    SplitOne(Pair(key, value), '\n');
  }

  // A line that is one of the pairs an update asks for.
  predicate Wanted(line: string, u: Updates) {
    && Concerned(line, u) && u.values[Key(line).value].Some?
    && line == Pair(Key(line).value, u.values[Key(line).value].value)
  }

  predicate Valued(key: string, u: Updates) {
    key in u.values && u.values[key].Some?
  }

  predicate Fresh(line: string, u: Updates) {
    Wanted(line, u) && '\n' !in line && !EndsInCR(line) && line != ""
  }

  lemma {:induction false} PairFresh(key: string, u: Updates)
    requires IsKey(key) && Valued(key, u)
    ensures Fresh(Pair(key, u.values[key].value), u) && Key(Pair(key, u.values[key].value)) == Some(key)
  {
    hide Pair, Key, EndsInCR;
    KeyOfPair(key, u.values[key].value);
    OnePairLine(key, u.values[key].value);
  }

  // A line the updates leave alone.
  predicate FromOld(line: string, raw: string, u: Updates) {
    line in Lines(raw) && !Concerned(line, u)
  }

  // A line written for a key that the matcher never finds.
  predicate ForeignTo(line: string, key: string, u: Updates) {
    Valued(key, u) && !IsKey(key) && line in PairLines(key, u.values[key].value)
  }

  ghost predicate Foreign(line: string, u: Updates) {
    exists key :: ForeignTo(line, key, u)
  }

  lemma CommentHasNoKey()
    ensures Key(COMMENT).None?
  {
    hide KeyLength;
    assert COMMENT[0] == '#';
    assert TrimStart(COMMENT) == COMMENT;
  }

  lemma CommentIsLine()
    ensures '\n' !in COMMENT && !EndsInCR(COMMENT)
  {
    assert COMMENT[|COMMENT| - 1] == 'n';
  }

  lemma {:induction false} NoKey(line: string)
    ensures line == "" || line == COMMENT ==> Key(line).None? && '\n' !in line && !EndsInCR(line)
  {
    if line == COMMENT {
      hide Key, EndsInCR;
      CommentHasNoKey();
      CommentIsLine();
    }
  }

  lemma {:induction false} RewrittenLines(lines: seq<string>, u: Updates)
    ensures forall line :: line in Rewritten(lines, u) ==> Fresh(line, u) || (line in lines && !Concerned(line, u))
    ensures forall line :: line in lines && !Concerned(line, u) ==> line in Rewritten(lines, u)
  {
    hide Key, Pair, Fresh;
    if lines != [] {
      var (init, last) := (lines[..|lines| - 1], lines[|lines| - 1]);
      assert lines == init + [last];
      RewrittenLines(init, u);
      if Concerned(last, u) && u.values[Key(last).value].Some? {
        KeyIsKey(last);
        PairFresh(Key(last).value, u);
      }
    }
  }

  lemma {:induction false} AppendedLines(keys: seq<string>, u: Updates)
    requires forall key :: key in keys ==> key in u.values
    ensures forall line :: line in Appended(keys, u) ==> Fresh(line, u) || Foreign(line, u)
    ensures forall key, line :: key in keys && Valued(key, u) && line in PairLines(key, u.values[key].value) ==>
              line in Appended(keys, u)
  {
    hide Pair, Fresh, IsKey, PairLines;
    if keys != [] {
      var (init, last) := (keys[..|keys| - 1], keys[|keys| - 1]);
      assert keys == init + [last];
      AppendedLines(init, u);
      if Valued(last, u) {
        var added := PairLines(last, u.values[last].value);
        forall line | line in added
          ensures Fresh(line, u) || Foreign(line, u)
        {
          AddedLine(last, line, u);
        }
      }
    }
  }

  lemma AddedLine(key: string, line: string, u: Updates)
    requires Valued(key, u) && line in PairLines(key, u.values[key].value)
    ensures Fresh(line, u) || Foreign(line, u)
  {
    hide Pair, Fresh, PairLines;
    if IsKey(key) {
      OnePairLine(key, u.values[key].value);
      PairFresh(key, u);
    } else {
      assert ForeignTo(line, key, u);
    }
  }

  function MissingFrom(raw: string, u: Updates): seq<string> {
    Missing(u.order, Seen(Lines(raw), u))
  }

  // Every line of the new text is a wanted pair, a line of the old text that no update
  // concerns, a line of an unmatchable key, or what separates old and new.
  lemma {:induction false} NewLinesAre(raw: string, u: Updates)
    requires IsMap(u)
    ensures forall line :: line in NewLines(raw, u) ==>
              Fresh(line, u) || FromOld(line, raw, u) || Foreign(line, u) || line == "" || line == COMMENT
    ensures forall line :: FromOld(line, raw, u) ==> line in NewLines(raw, u)
  {
    hide Key, Fresh, Foreign, Lines, Rewritten, Appended, Seen, Concerned;
    RewrittenLines(Lines(raw), u);
    AppendedLines(MissingFrom(raw, u), u);
  }

  lemma ForeignOneLine(line: string, u: Updates)
    requires Foreign(line, u)
    ensures '\n' !in line
  {
    hide Split, Pair, IsKey;
    var key :| ForeignTo(line, key, u);
    SplitNoSep(Pair(key, u.values[key].value), '\n');
  }

  lemma {:induction false} NewLinesOneLine(raw: string, u: Updates)
    requires IsMap(u)
    ensures NoNewlines(NewLines(raw, u))
  {
    hide Key, Lines, NewLines, Wanted, Concerned, Foreign;
    NewLinesAre(raw, u);
    LinesNoNewlines(raw);
    NoKey("");
    NoKey(COMMENT);
    forall i | 0 <= i < |NewLines(raw, u)|
      ensures '\n' !in NewLines(raw, u)[i]
    {
      var line := NewLines(raw, u)[i];
      assert line in NewLines(raw, u);
      if Foreign(line, u) {
        ForeignOneLine(line, u);
      }
    }
  }

  lemma LinesOfText(lines: seq<string>)
    requires lines != [] && NoNewlines(lines)
    ensures Lines(Join(lines, '\n') + "\n") == DropCRs(lines) + [""]
  {
    hide Split;
    SplitJoin(lines);
    var text := Join(lines, '\n') + "\n";
    assert text + "" == text;
    SplitMore(Join(lines, '\n'), "");
    assert (lines + [""])[..|lines|] == lines;
  }

  // Reading the new text gives back its lines, without carriage returns at their ends.
  lemma {:induction false} LinesOfNewText(raw: string, u: Updates)
    requires IsMap(u)
    ensures var lines := CutBlank(NewLines(raw, u));
            && lines != [] && NoNewlines(lines)
            && NewText(raw, u) == Join(lines, '\n') + "\n"
            && Lines(NewText(raw, u)) == DropCRs(lines) + [""]
  {
    hide NewLines, Lines, CutBlank, StripNewlines, Join, DropCRs;
    NewLinesOneLine(raw, u);
    StripJoin(NewLines(raw, u));
    CutBlankKeeps(NewLines(raw, u));
    LinesOfText(CutBlank(NewLines(raw, u)));
  }

  lemma {:induction false} NewTextLine(raw: string, u: Updates, i: int)
    requires IsMap(u)
    ensures 0 <= i < |Lines(NewText(raw, u))| ==>
              var line := Lines(NewText(raw, u))[i];
              line == "" || exists old' :: old' in NewLines(raw, u) && line == DropCR(old')
  {
    hide NewLines, Lines, CutBlank, DropCR, NewText;
    LinesOfNewText(raw, u);
    CutBlankKeeps(NewLines(raw, u));
    var lines := CutBlank(NewLines(raw, u));
    if 0 <= i < |lines| {
      if NewLines(raw, u) == [] {
        CutBlankNothing();
        NothingDropped("");
        assert DropCRs(lines)[i] == DropCR(lines[i]);
      } else {
        assert lines[i] == NewLines(raw, u)[i];
        assert lines[i] in NewLines(raw, u);
      }
    }
  }

  lemma CutBlankNothing()
    ensures CutBlank([]) == [""]
  {
  }

  lemma LineSurvives(raw: string, u: Updates, line: string)
    requires IsMap(u) && line in NewLines(raw, u) && line != ""
    ensures DropCR(line) in Lines(NewText(raw, u))
  {
    hide NewLines, Lines, CutBlank, NewText, DropCR;
    LinesOfNewText(raw, u);
    CutBlankKeeps(NewLines(raw, u));
    var i :| 0 <= i < |NewLines(raw, u)| && NewLines(raw, u)[i] == line;
    assert i < |CutBlank(NewLines(raw, u))|;
    assert CutBlank(NewLines(raw, u))[i] == line;
    assert (DropCRs(CutBlank(NewLines(raw, u))) + [""])[i] == DropCR(line);
  }

  // ----- updated keys

  // No line of an unmatchable key reads as a line of another updated key with another value.
  ghost predicate ForeignHarmless(u: Updates) {
    forall line :: Foreign(line, u) && Concerned(DropCR(line), u) ==> Wanted(DropCR(line), u)
  }

  // Every line with an updated key carries the new value, and a key set to null has no line,
  // exactly if the lines of unmatchable keys do not get in the way.
  lemma {:induction false} UpdatedLines(raw: string, u: Updates)
    requires IsMap(u)
    ensures (forall line :: line in Lines(NewText(raw, u)) && Concerned(line, u) ==> Wanted(line, u)) <==>
            ForeignHarmless(u)
  {
    hide Concerned, Wanted, Lines, NewLines, NewText, DropCR, Foreign;
    if ForeignHarmless(u) {
      forall line | line in Lines(NewText(raw, u)) && Concerned(line, u)
        ensures Wanted(line, u)
      {
        var i :| 0 <= i < |Lines(NewText(raw, u))| && Lines(NewText(raw, u))[i] == line;
        UpdatedLine(raw, u, i);
      }
    }
    forall line | Foreign(line, u) && Concerned(DropCR(line), u)
      ensures DropCR(line) in Lines(NewText(raw, u))
    {
      ForeignSurvives(raw, u, line);
    }
  }

  lemma {:induction false} UpdatedLine(raw: string, u: Updates, i: int)
    requires IsMap(u) && ForeignHarmless(u)
    ensures 0 <= i < |Lines(NewText(raw, u))| && Concerned(Lines(NewText(raw, u))[i], u) ==>
              Wanted(Lines(NewText(raw, u))[i], u)
  {
    hide Key, Lines, NewLines, NewText, DropCR, EndsInCR, Foreign, Pair;
    if 0 <= i < |Lines(NewText(raw, u))| && Concerned(Lines(NewText(raw, u))[i], u) {
      NewTextLine(raw, u, i);
      NoKey("");
      NoKey(COMMENT);
      var old' :| old' in NewLines(raw, u) && Lines(NewText(raw, u))[i] == DropCR(old');
      KeyDropCR(old');
      NewLinesAre(raw, u);
      NothingDropped(old');
    }
  }

  lemma {:induction false} ForeignSurvives(raw: string, u: Updates, line: string)
    requires IsMap(u) && Foreign(line, u) && Concerned(DropCR(line), u)
    ensures DropCR(line) in Lines(NewText(raw, u))
  {
    hide Key, Lines, NewText, DropCR, EndsInCR, Rewritten, Appended, PairLines, IsKey;
    var key :| ForeignTo(line, key, u);
    NeverSeen(Lines(raw), u, key);
    AppendedLines(MissingFrom(raw, u), u);
    assert line in NewLines(raw, u);
    NoKey("");
    NothingDropped("");
    LineSurvives(raw, u, line);
  }

  // The matcher finds only keys.
  lemma {:induction false} NeverSeen(lines: seq<string>, u: Updates, key: string)
    requires !IsKey(key)
    ensures key !in Seen(lines, u)
  {
    hide Key, IsKey;
    SeenIs(lines, u, key);
    forall i | 0 <= i < |lines|
      ensures Key(lines[i]) != Some(key)
    {
      KeyIsKey(lines[i]);
    }
  }

  // Every matchable key with a value has its line.
  lemma {:induction false} UpdatedKeyOccurs(raw: string, u: Updates, key: string)
    requires IsMap(u) && IsKey(key) && Valued(key, u)
    ensures Pair(key, u.values[key].value) in Lines(NewText(raw, u))
  {
    hide Key, Lines, NewText, Pair, CutBlank, EndsInCR, IsKey, Rewritten, Appended;
    var line := Pair(key, u.values[key].value);
    PairFresh(key, u);
    OnePairLine(key, u.values[key].value);
    if key in Seen(Lines(raw), u) {
      SeenIsRewritten(Lines(raw), u, key);
    } else {
      assert key in MissingFrom(raw, u);
      AppendedLines(MissingFrom(raw, u), u);
    }
    assert line in NewLines(raw, u);
    LineSurvives(raw, u, line);
    NothingDropped(line);
  }

  lemma {:induction false} SeenIsRewritten(lines: seq<string>, u: Updates, key: string)
    requires Valued(key, u)
    ensures key in Seen(lines, u) ==> Pair(key, u.values[key].value) in Rewritten(lines, u)
  {
    hide Key, Pair;
    if lines != [] {
      SeenIsRewritten(lines[..|lines| - 1], u, key);
    }
  }

  // ----- the other lines

  function Others(lines: seq<string>, u: Updates): seq<string> {
    if lines == [] then []
    else Others(lines[..|lines| - 1], u) + (if Concerned(lines[|lines| - 1], u) then [] else [lines[|lines| - 1]])
  }

  lemma OthersMore(lines: seq<string>, line: string, u: Updates)
    ensures Others(lines + [line], u) == Others(lines, u) + (if Concerned(line, u) then [] else [line])
  {
    assert (lines + [line])[..|lines|] == lines;
  }

  lemma {:induction false} OthersConcat(a: seq<string>, b: seq<string>, u: Updates)
    ensures Others(a + b, u) == Others(a, u) + Others(b, u)
  {
    hide Concerned, Others;
    if b == [] {
      assert a + b == a;
      NoOthers([], u);
      assert Others(a, u) + [] == Others(a, u);
    } else {
      var (init, last) := (b[..|b| - 1], b[|b| - 1]);
      OthersConcat(a, init, u);
      assert a + b == a + init + [last] && b == init + [last];
      OthersMore(a + init, last, u);
      OthersMore(init, last, u);
    }
  }

  lemma {:induction false} NoOthers(lines: seq<string>, u: Updates)
    requires forall line :: line in lines ==> Concerned(line, u)
    ensures Others(lines, u) == []
  {
    hide Concerned;
    if lines != [] {
      NoOthers(lines[..|lines| - 1], u);
      assert lines[|lines| - 1] in lines;
    }
  }

  lemma {:induction false} OnlyOthers(lines: seq<string>, u: Updates)
    requires forall line :: line in lines ==> !Concerned(line, u)
    ensures Others(lines, u) == lines
  {
    hide Concerned;
    if lines != [] {
      OnlyOthers(lines[..|lines| - 1], u);
      assert lines[|lines| - 1] in lines;
    }
  }

  lemma {:induction false} OthersRewritten(lines: seq<string>, u: Updates)
    ensures Others(Rewritten(lines, u), u) == Others(lines, u)
  {
    hide Key, Pair, Wanted, Others;
    if lines == [] {
      NoOthers([], u);
    } else {
      var (init, last) := (lines[..|lines| - 1], lines[|lines| - 1]);
      OthersRewritten(init, u);
      assert lines == init + [last];
      OthersMore(init, last, u);
      if !Concerned(last, u) {
        OthersMore(Rewritten(init, u), last, u);
      } else if u.values[Key(last).value].Some? {
        var line := Pair(Key(last).value, u.values[Key(last).value].value);
        KeyIsKey(last);
        PairFresh(Key(last).value, u);
        WantedIsConcerned(line, u);
        OthersMore(Rewritten(init, u), line, u);
      }
      assert Rewritten(init, u) + [] == Rewritten(init, u) && Others(init, u) + [] == Others(init, u);
    }
  }

  lemma WantedIsConcerned(line: string, u: Updates)
    ensures Wanted(line, u) ==> Concerned(line, u)
  {
  }

  // What a write adds that is no line of an updated key.
  function Added(raw: string, u: Updates): seq<string>
    requires IsMap(u)
  {
    var missing := MissingFrom(raw, u);
    if missing == [] then [] else Separator(raw, Rewritten(Lines(raw), u)) + Others(Appended(missing, u), u)
  }

  lemma OthersNewLines(raw: string, u: Updates)
    requires IsMap(u)
    ensures Others(NewLines(raw, u), u) == Others(Lines(raw), u) + Added(raw, u)
  {
    hide Key, Lines, Others, Rewritten, Appended, Missing, Seen, Separator;
    var (kept, missing) := (Rewritten(Lines(raw), u), MissingFrom(raw, u));
    OthersRewritten(Lines(raw), u);
    if missing == [] {
      assert Others(Lines(raw), u) + [] == Others(Lines(raw), u);
    } else {
      var (separator, appended) := (Separator(raw, kept), Appended(missing, u));
      OthersConcat(kept + separator, appended, u);
      OthersConcat(kept, separator, u);
      SeparatorOthers(raw, kept, u);
    }
  }

  lemma SeparatorOthers(raw: string, kept: seq<string>, u: Updates)
    ensures Others(Separator(raw, kept), u) == Separator(raw, kept)
  {
    hide Key, EndsInCR;
    NoKey("");
    NoKey(COMMENT);
    var separator := Separator(raw, kept);
    forall line | line in separator
      ensures !Concerned(line, u)
    {
      assert line == "" || line == COMMENT;
    }
    OnlyOthers(separator, u);
  }

  lemma {:induction false} OthersDropCR(lines: seq<string>, u: Updates)
    ensures Others(DropCRs(lines), u) == DropCRs(Others(lines, u))
  {
    hide Key, DropCR, Others;
    if lines == [] {
      NoOthers([], u);
    } else {
      var (init, last) := (lines[..|lines| - 1], lines[|lines| - 1]);
      OthersDropCR(init, u);
      assert lines == init + [last] && DropCRs(lines) == DropCRs(init) + [DropCR(last)];
      OthersMore(init, last, u);
      OthersMore(DropCRs(init), DropCR(last), u);
      KeyDropCR(last);
      assert DropCRs(Others(init, u) + [last]) == DropCRs(Others(init, u)) + [DropCR(last)];
      assert Others(init, u) + [] == Others(init, u) && DropCRs(Others(init, u)) + [] == DropCRs(Others(init, u));
    }
  }

  predicate AllBlank(lines: seq<string>) {
    forall i :: 0 <= i < |lines| ==> lines[i] == ""
  }

  lemma {:induction false} CutBlankConcat(lines: seq<string>, blank: seq<string>)
    requires AllBlank(blank)
    ensures CutBlank(lines + blank) == CutBlank(lines)
  {
    if blank == [] {
      assert lines + blank == lines;
    } else {
      CutBlankConcat(lines, blank[..|blank| - 1]);
      assert (lines + blank)[..|lines + blank| - 1] == lines + blank[..|blank| - 1];
      if |lines + blank| == 1 {
        assert lines + blank == [""];
      }
    }
  }

  lemma BlankOthers(blank: seq<string>, u: Updates)
    requires AllBlank(blank)
    ensures Others(blank, u) == blank
  {
    hide Key, Others, EndsInCR;
    NoKey("");
    OnlyOthers(blank, u);
  }

  // Cutting blank lines off first or last is the same, up to blank lines at the end.
  lemma CutOthers(lines: seq<string>, u: Updates)
    ensures CutBlank(Others(DropCRs(CutBlank(lines)) + [""], u)) == CutBlank(DropCRs(Others(lines, u)))
  {
    hide Key, CutBlank, Others, DropCRs;
    var cut := CutBlank(lines);
    CutBlankKeeps(lines);
    OthersConcat(DropCRs(cut), [""], u);
    BlankOthers([""], u);
    CutBlankConcat(Others(DropCRs(cut), u), [""]);
    OthersDropCR(cut, u);
    if lines == [] {
      NothingToCut(u);
    } else {
      var blank := lines[|cut|..];
      assert lines == cut + blank && AllBlank(blank);
      OthersConcat(cut, blank, u);
      BlankOthers(blank, u);
      DropCRsBlank(Others(cut, u), blank);
      CutBlankConcat(DropCRs(Others(cut, u)), blank);
    }
  }

  lemma NothingToCut(u: Updates)
    ensures CutBlank(DropCRs(Others(CutBlank([]), u))) == CutBlank(DropCRs(Others([], u)))
  {
    BlankOthers([""], u);
    assert DropCRs([""]) == [""] && DropCRs([]) == [];
  }

  lemma DropCRsBlank(lines: seq<string>, blank: seq<string>)
    requires AllBlank(blank)
    ensures DropCRs(lines + blank) == DropCRs(lines) + blank
  {
  }

  // Every key with a value is one the matcher can find.
  ghost predicate ValuedKeysMatch(u: Updates) {
    forall key :: Valued(key, u) ==> IsKey(key)
  }

  lemma NothingForeign(u: Updates)
    requires ValuedKeysMatch(u)
    ensures forall line :: !Foreign(line, u)
  {
    hide IsKey, PairLines;
  }

  // The lines no update concerns survive in their order, up to carriage returns at their ends
  // and blank lines at the end of the text. What is added to them is a blank line or the
  // comment of a new file, and lines of unmatchable keys.
  lemma {:induction false} OtherLinesSurvive(raw: string, u: Updates)
    requires IsMap(u)
    ensures CutBlank(Others(Lines(NewText(raw, u)), u)) == CutBlank(DropCRs(Others(Lines(raw), u) + Added(raw, u)))
    ensures ValuedKeysMatch(u) && raw != "" ==>
              CutBlank(Others(Lines(NewText(raw, u)), u)) == CutBlank(DropCRs(Others(Lines(raw), u)))
  {
    hide NewLines, Lines, CutBlank, NewText, Others, DropCRs, Added, IsKey;
    LinesOfNewText(raw, u);
    CutOthers(NewLines(raw, u), u);
    OthersNewLines(raw, u);
    if ValuedKeysMatch(u) && raw != "" {
      AddedBlank(raw, u);
      DropCRsBlank(Others(Lines(raw), u), Added(raw, u));
      CutBlankConcat(DropCRs(Others(Lines(raw), u)), Added(raw, u));
    }
  }

  lemma {:induction false} AddedBlank(raw: string, u: Updates)
    requires IsMap(u) && ValuedKeysMatch(u) && raw != ""
    ensures AllBlank(Added(raw, u))
  {
    hide Key, Lines, Others, Rewritten, Appended, Missing, Seen, IsKey, Foreign, Pair;
    var missing := MissingFrom(raw, u);
    AppendedLines(missing, u);
    NothingForeign(u);
    forall line | line in Appended(missing, u)
      ensures Concerned(line, u)
    {
      WantedIsConcerned(line, u);
    }
    NoOthers(Appended(missing, u), u);
  }

  // ----- writing twice, with matchable keys

  lemma {:induction false} NothingToRewrite(lines: seq<string>, u: Updates)
    requires forall line :: line in lines && Concerned(line, u) ==> Wanted(line, u)
    ensures Rewritten(lines, u) == lines
  {
    hide Key, Pair;
    if lines != [] {
      var (init, last) := (lines[..|lines| - 1], lines[|lines| - 1]);
      assert lines == init + [last];
      NothingToRewrite(init, u);
      assert Concerned(last, u) ==> Wanted(last, u);
    }
  }

  lemma {:induction false} NothingToAdd(keys: seq<string>, u: Updates)
    requires forall key :: key in keys ==> key in u.values && u.values[key].None?
    ensures Appended(keys, u) == []
  {
    if keys != [] {
      assert keys[|keys| - 1] in keys;
      NothingToAdd(keys[..|keys| - 1], u);
    }
  }

  // The second time the lines stay as they are read.
  lemma {:induction false} SecondNewLines(raw: string, u: Updates)
    requires IsMap(u) && ValuedKeysMatch(u)
    ensures NewLines(NewText(raw, u), u) == Lines(NewText(raw, u))
  {
    hide Key, Lines, NewText, Rewritten, Appended, Seen, Missing, Wanted, Concerned, Pair, CutBlank, DropCRs, IsKey;
    var text := NewText(raw, u);
    var lines := Lines(text);
    NothingForeign(u);
    UpdatedLines(raw, u);
    NothingToRewrite(lines, u);
    var missing := MissingFrom(text, u);
    forall key | key in missing
      ensures u.values[key].None?
    {
      if u.values[key].Some? {
        UpdatedKeyOccurs(raw, u, key);
        OccursSo(lines, u, key);
      }
    }
    NothingToAdd(missing, u);
    LinesOfNewText(raw, u);
    assert lines[|lines| - 1] == "" && text != "";
    assert lines + [] + [] == lines;
  }

  lemma {:induction false} OccursSo(lines: seq<string>, u: Updates, key: string)
    requires IsKey(key) && Valued(key, u) && Pair(key, u.values[key].value) in lines
    ensures key in Seen(lines, u)
  {
    hide Key, Pair, IsKey;
    SeenIs(lines, u, key);
    KeyOfPair(key, u.values[key].value);
  }

  lemma {:induction false} JoinInjective(a: seq<string>, b: seq<string>)
    requires a != [] && b != [] && NoNewlines(a) && NoNewlines(b) && Join(a, '\n') == Join(b, '\n')
    ensures a == b
  {
    hide Split, Join;
    SplitJoin(a);
    SplitJoin(b);
  }

  predicate NoStrayCR(lines: seq<string>) {
    forall i :: 0 <= i < |lines| ==> !EndsInCR(lines[i])
  }

  lemma CutOfDropped(lines: seq<string>)
    requires lines != [] && CutBlank(lines) == lines
    ensures CutBlank(DropCRs(lines)) == lines <==> NoStrayCR(lines)
  {
    hide CutBlank;
    CutBlankKeeps(DropCRs(lines));
    if NoStrayCR(lines) {
      assert DropCRs(lines) == lines;
    } else {
      var i :| 0 <= i < |lines| && EndsInCR(lines[i]);
      assert |DropCRs(lines)[i]| < |lines[i]|;
    }
  }

  // What is left of the condition when stated of the input.
  lemma {:induction false} StrayCRsAreOld(raw: string, u: Updates)
    requires IsMap(u) && ValuedKeysMatch(u)
    ensures NoStrayCR(CutBlank(NewLines(raw, u))) <==> forall line :: FromOld(line, raw, u) ==> !EndsInCR(line)
  {
    hide Key, Lines, NewLines, Wanted, Concerned, CutBlank, IsKey, Foreign;
    var lines := NewLines(raw, u);
    CutBlankKeeps(lines);
    NothingForeign(u);
    NewLinesAre(raw, u);
    NoKey("");
    NoKey(COMMENT);
    if NoStrayCR(CutBlank(lines)) {
      forall line | FromOld(line, raw, u)
        ensures !EndsInCR(line)
      {
        var i :| 0 <= i < |lines| && lines[i] == line;
        if i < |CutBlank(lines)| {
          assert CutBlank(lines)[i] == line;
        }
      }
    } else if lines == [] {
      CutBlankNothing();
    } else {
      var i :| 0 <= i < |CutBlank(lines)| && EndsInCR(CutBlank(lines)[i]);
      assert lines[i] == CutBlank(lines)[i] && lines[i] in lines;
    }
  }

  lemma SameText(a: seq<string>, b: seq<string>)
    requires a != [] && b != [] && NoNewlines(a) && NoNewlines(b)
    ensures Join(a, '\n') + "\n" == Join(b, '\n') + "\n" <==> a == b
  {
    hide Join;
    if Join(a, '\n') + "\n" == Join(b, '\n') + "\n" {
      assert (Join(a, '\n') + "\n")[..|Join(a, '\n')|] == Join(a, '\n');
      assert (Join(b, '\n') + "\n")[..|Join(b, '\n')|] == Join(b, '\n');
      JoinInjective(a, b);
    }
  }

  lemma WritingTwiceMatchable(raw: string, u: Updates)
    requires IsMap(u) && ValuedKeysMatch(u)
    ensures NewText(NewText(raw, u), u) == NewText(raw, u) <==>
            forall line :: FromOld(line, raw, u) ==> !EndsInCR(line)
  {
    hide Key, Lines, NewLines, NewText, FromOld, CutBlank, DropCRs, NoStrayCR, ValuedKeysMatch, Join;
    var (once, lines) := (NewText(raw, u), CutBlank(NewLines(raw, u)));
    LinesOfNewText(raw, u);
    LinesOfNewText(once, u);
    SecondNewLines(raw, u);
    CutBlankConcat(DropCRs(lines), [""]);
    var again := CutBlank(DropCRs(lines));
    CutBlankKeeps(NewLines(raw, u));
    CutOfDropped(lines);
    StrayCRsAreOld(raw, u);
    SameText(again, lines);
  }

  // ----- writing twice, with an unmatchable key that has a value

  lemma {:induction false} RewrittenConcat(a: seq<string>, b: seq<string>, u: Updates)
    ensures Rewritten(a + b, u) == Rewritten(a, u) + Rewritten(b, u)
  {
    hide Rewrite;
    if b == [] {
      assert a + b == a && Rewritten(a, u) + [] == Rewritten(a, u);
    } else {
      var (init, last) := (b[..|b| - 1], b[|b| - 1]);
      RewrittenConcat(a, init, u);
      assert (a + b)[..|a + b| - 1] == a + init;
      assert Rewritten(a, u) + Rewritten(init, u) + Rewrite(last, u) ==
             Rewritten(a, u) + (Rewritten(init, u) + Rewrite(last, u));
    }
  }

  // Lines that no update deletes are rewritten one for one.
  predicate Kept(line: string, u: Updates) {
    Concerned(line, u) ==> Wanted(line, u)
  }

  lemma {:induction false} KeptLength(lines: seq<string>, u: Updates)
    requires forall line :: line in lines ==> Kept(line, u)
    ensures |Rewritten(DropCRs(lines), u)| == |lines|
  {
    hide Key, Pair, DropCR;
    if lines == [] {
      assert DropCRs(lines) == [];
    } else {
      var (init, last) := (lines[..|lines| - 1], lines[|lines| - 1]);
      assert lines == init + [last] && DropCRs(lines) == DropCRs(init) + [DropCR(last)];
      KeptLength(init, u);
      KeyDropCR(last);
      assert last in lines;
      RewrittenConcat(DropCRs(init), [DropCR(last)], u);
      RewrittenOne(DropCR(last), u);
    }
  }

  lemma RewrittenOne(line: string, u: Updates)
    ensures Rewritten([line], u) == Rewrite(line, u)
  {
    hide Rewrite;
    assert [line][..0] == [] && [] + Rewrite(line, u) == Rewrite(line, u);
  }

  lemma {:induction false} KeptRewritten(lines: seq<string>, u: Updates, line: string)
    requires line in Rewritten(lines, u)
    ensures Kept(line, u)
  {
    hide Key, Pair, Fresh;
    RewrittenLines(lines, u);
    FreshIsKept(line, u);
  }

  lemma FreshIsKept(line: string, u: Updates)
    ensures Fresh(line, u) ==> Kept(line, u)
  {
  }

  // Of the lines appended for a list of keys, those of matchable keys are kept at the next
  // write, and those of unmatchable ones are appended again.
  lemma {:induction false} AppendedAgain(keys: seq<string>, u: Updates, seen: set<string>, seen': set<string>)
    requires forall key :: key in keys ==> key in u.values
    requires forall key :: !IsKey(key) ==> key !in seen && key !in seen'
    ensures |Rewritten(DropCRs(Appended(Missing(keys, seen), u)), u)| + |Appended(Missing(keys, seen'), u)|
            >= |Appended(Missing(keys, seen), u)|
  {
    hide Rewritten, IsKey, DropCRs, PairLines, Appended, Missing;
    if keys == [] {
      NothingMissing(u, seen);
    } else {
      var (init, key) := (keys[..|keys| - 1], keys[|keys| - 1]);
      assert keys == init + [key] && key in keys;
      AppendedAgain(init, u, seen, seen');
      MissingMore(init, key, seen);
      MissingMore(init, key, seen');
      AppendedOne(Missing(init, seen'), key, u);
      if key !in seen {
        AppendedOne(Missing(init, seen), key, u);
        if Valued(key, u) {
          AgainStep(Appended(Missing(init, seen), u), key, u);
        } else {
          assert Appended(Missing(init, seen), u) + [] == Appended(Missing(init, seen), u);
        }
      }
    }
  }

  lemma NothingMissing(u: Updates, seen: set<string>)
    ensures Missing([], seen) == [] && Appended([], u) == []
  {
  }

  lemma AgainStep(before: seq<string>, key: string, u: Updates)
    requires Valued(key, u)
    ensures var added := PairLines(key, u.values[key].value);
            |Rewritten(DropCRs(before + added), u)| >=
            |Rewritten(DropCRs(before), u)| + (if IsKey(key) then |added| else 0)
  {
    hide Rewritten, IsKey, DropCRs, PairLines;
    var added := PairLines(key, u.values[key].value);
    DropCRsConcat(before, added);
    RewrittenConcat(DropCRs(before), DropCRs(added), u);
    if IsKey(key) {
      MatchableKept(key, u);
    }
  }

  lemma MissingMore(keys: seq<string>, key: string, seen: set<string>)
    ensures Missing(keys + [key], seen) == if key in seen then Missing(keys, seen) else Missing(keys, seen) + [key]
  {
    assert (keys + [key])[..|keys|] == keys;
    assert Missing(keys, seen) + [] == Missing(keys, seen);
  }

  lemma AppendedOne(keys: seq<string>, key: string, u: Updates)
    requires (forall k :: k in keys ==> k in u.values) && key in u.values
    ensures Appended(keys + [key], u) ==
            Appended(keys, u) + (if u.values[key].Some? then PairLines(key, u.values[key].value) else [])
  {
    hide PairLines;
    assert (keys + [key])[..|keys|] == keys;
  }

  lemma DropCRsConcat(a: seq<string>, b: seq<string>)
    ensures DropCRs(a + b) == DropCRs(a) + DropCRs(b)
  {
  }

  lemma MatchableKept(key: string, u: Updates)
    requires IsKey(key) && Valued(key, u)
    ensures |Rewritten(DropCRs(PairLines(key, u.values[key].value)), u)| == |PairLines(key, u.values[key].value)|
  {
    hide Key, Pair, PairLines, IsKey, Fresh, Kept, Rewritten, DropCRs, EndsInCR;
    OnePairLine(key, u.values[key].value);
    PairFresh(key, u);
    FreshIsKept(Pair(key, u.values[key].value), u);
    KeptLength(PairLines(key, u.values[key].value), u);
  }

  lemma {:induction false} LastMissing(keys: seq<string>, u: Updates, key: string)
    requires (forall k :: k in keys ==> k in u.values) && key in keys && Valued(key, u)
    ensures Appended(keys, u) != [] && Appended(keys, u)[|Appended(keys, u)| - 1] != ""
  {
    hide Pair;
    var (init, last) := (keys[..|keys| - 1], keys[|keys| - 1]);
    assert keys == init + [last];
    if Valued(last, u) {
      LastPairLine(last, u.values[last].value);
    } else {
      LastMissing(init, u, key);
    }
  }

  // The equals sign is on the last line of a pair.
  lemma LastPairLine(key: string, value: string)
    ensures PairLines(key, value) != [] && PairLines(key, value)[|PairLines(key, value)| - 1] != ""
  {
    hide Split, Quote;
    var parts := Split(key, '\n');
    var (init, end) := (parts[..|parts| - 1], parts[|parts| - 1]);
    var tail := "=" + Quote(value);
    assert Pair(key, value) == key + tail;
    SplitConcat(key, tail, '\n');
    QuoteOneLine(value);
    SplitNoSep(key, '\n');
    SplitOne(end + tail, '\n');
  }

  lemma RewrittenBlank(lines: seq<string>, u: Updates)
    ensures |Rewritten(lines + [""], u)| == |Rewritten(lines, u)| + 1
    ensures Rewritten(lines + [""], u)[|Rewritten(lines, u)|] == ""
  {
    hide Key, EndsInCR;
    NoKey("");
    assert (lines + [""])[..|lines|] == lines;
  }

  // What a write puts before the appended lines.
  function Head(raw: string, u: Updates): seq<string> {
    var kept := Rewritten(Lines(raw), u);
    kept + Separator(raw, kept)
  }

  // Every line before the appended ones is there to stay.
  lemma {:induction false} HeadKept(raw: string, u: Updates)
    requires IsMap(u)
    ensures forall line :: line in Head(raw, u) ==> Kept(line, u)
  {
    hide Key, Lines, Rewritten, Kept, EndsInCR;
    var kept := Rewritten(Lines(raw), u);
    forall line | line in Head(raw, u)
      ensures Kept(line, u)
    {
      if line in kept {
        KeptRewritten(Lines(raw), u, line);
      } else {
        NoKey("");
        NoKey(COMMENT);
        assert line == "" || line == COMMENT;
        KeylessKept(line, u);
      }
    }
  }

  lemma KeylessKept(line: string, u: Updates)
    requires Key(line).None?
    ensures Kept(line, u)
  {
    hide Key;
  }

  lemma OnlyMatchableSeen(lines: seq<string>, u: Updates)
    ensures forall key :: !IsKey(key) ==> key !in Seen(lines, u)
  {
    hide IsKey, Seen;
    forall key | !IsKey(key)
      ensures key !in Seen(lines, u)
    {
      NeverSeen(lines, u, key);
    }
  }

  lemma WithUnmatchable(raw: string, u: Updates, key: string)
    requires IsMap(u) && Valued(key, u) && !IsKey(key)
    ensures NewLines(raw, u) == Head(raw, u) + Appended(MissingFrom(raw, u), u)
    ensures CutBlank(NewLines(raw, u)) == NewLines(raw, u)
  {
    hide Key, Lines, Rewritten, Appended, Missing, Seen, IsKey, Separator, CutBlank;
    OnlyMatchableSeen(Lines(raw), u);
    assert key in MissingFrom(raw, u);
    LastMissing(MissingFrom(raw, u), u, key);
    NonBlankEnd(Head(raw, u), Appended(MissingFrom(raw, u), u));
  }

  // What the next write makes of the lines before the appended ones and of the appended ones.
  lemma {:induction false} SecondKept(raw: string, u: Updates, key: string)
    requires IsMap(u) && Valued(key, u) && !IsKey(key)
    ensures |Rewritten(Lines(NewText(raw, u)), u)| ==
            |Head(raw, u)| + |Rewritten(DropCRs(Appended(MissingFrom(raw, u), u)), u)| + 1
  {
    hide Lines, Rewritten, Appended, NewLines, Missing, Seen, IsKey, DropCRs, NewText, CutBlank, Kept, Head;
    var (head, appended) := (Head(raw, u), Appended(MissingFrom(raw, u), u));
    WithUnmatchable(raw, u, key);
    LinesOfNewText(raw, u);
    RewrittenBlank(DropCRs(head + appended), u);
    DropCRsConcat(head, appended);
    RewrittenConcat(DropCRs(head), DropCRs(appended), u);
    HeadKept(raw, u);
    KeptLength(head, u);
  }

  // With an unmatchable key that has a value each write leaves more lines than the one before.
  lemma {:induction false} GrowsEachTime(raw: string, u: Updates, key: string)
    requires IsMap(u) && Valued(key, u) && !IsKey(key)
    ensures |NewLines(NewText(raw, u), u)| > |NewLines(raw, u)|
    ensures CutBlank(NewLines(raw, u)) == NewLines(raw, u)
  {
    hide Lines, Rewritten, Appended, Missing, NewLines, Seen, IsKey, Separator, DropCRs, NewText, CutBlank;
    WithUnmatchable(raw, u, key);
    WithUnmatchable(NewText(raw, u), u, key);
    SecondKept(raw, u, key);
    OnlyMatchableSeen(Lines(raw), u);
    OnlyMatchableSeen(Lines(NewText(raw, u)), u);
    AppendedAgain(u.order, u, Seen(Lines(raw), u), Seen(Lines(NewText(raw, u)), u));
  }

  lemma NonBlankEnd(head: seq<string>, tail: seq<string>)
    requires tail != [] && tail[|tail| - 1] != ""
    ensures CutBlank(head + tail) == head + tail
  {
  }

  // ----- writing twice

  // Writing the same updates again changes nothing, exactly if no key that the matcher cannot
  // find has a value and no line that the updates leave alone ends in a carriage return of its own.
  lemma {:induction false} WritingTwice(raw: string, u: Updates)
    requires IsMap(u)
    ensures NewText(NewText(raw, u), u) == NewText(raw, u) <==>
            ValuedKeysMatch(u) && forall line :: FromOld(line, raw, u) ==> !EndsInCR(line)
  {
    hide Lines, NewLines, NewText, FromOld, CutBlank, DropCRs, IsKey, Join;
    if ValuedKeysMatch(u) {
      WritingTwiceMatchable(raw, u);
    } else {
      var key :| Valued(key, u) && !IsKey(key);
      var once := NewText(raw, u);
      GrowsEachTime(raw, u, key);
      GrowsEachTime(once, u, key);
      LinesOfNewText(raw, u);
      LinesOfNewText(once, u);
      SameText(NewLines(once, u), NewLines(raw, u));
    }
  }
}
