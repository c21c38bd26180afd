/** `splitNativeArgs` of packages/executors/src/native-command.ts: a command line is split into
    arguments at white space, with quotes and backslash escapes. */
module NativeArgs {
  import opened Options
  import opened Text

  // The local variables of the loop.
  datatype Scan = Scan(args: seq<string>, current: string, quote: Option<char>, escaping: bool)

  function Push(args: seq<string>, current: string): seq<string> {
    if current == "" then args else args + [current]
  }

  function Next(s: Scan, c: char): Scan {
    if s.escaping then s.(current := s.current + [c], escaping := false)
    else if c == '\\' then s.(escaping := true)
    else if s.quote.Some? then if c == s.quote.value then s.(quote := None) else s.(current := s.current + [c])
    else if c == '"' || c == '\'' then s.(quote := Some(c))
    else if IsSpace(c) then s.(args := Push(s.args, s.current), current := "")
    else s.(current := s.current + [c])
  }

  function ScanAll(s: Scan, text: string): Scan
    decreases |text|
  {
    if text == "" then s else ScanAll(Next(s, text[0]), text[1..])
  }

  function Finish(s: Scan): seq<string> {
    Push(s.args, if s.escaping then s.current + "\\" else s.current)
  }

  const EMPTY := Scan([], "", None, false)

  function SplitArgs(input: string): seq<string> {
    Finish(ScanAll(EMPTY, Trim(input)))
  }

  lemma {:induction false} ScanConcat(s: Scan, a: string, b: string)
    ensures ScanAll(s, a + b) == ScanAll(ScanAll(s, a), b)
    decreases |a|
  {
    if a == "" {
      assert a + b == b;
    } else {
      ScanConcat(Next(s, a[0]), a[1..], b);
      assert (a + b)[1..] == a[1..] + b;
    }
  }

  lemma ScanOne(s: Scan, c: char)
    ensures ScanAll(s, [c]) == Next(s, c)
  {
    assert [c][1..] == "";
  }

  method SplitNativeArgs(input: string) returns (args: seq<string>)
    ensures args == SplitArgs(input)
    ensures "" !in args
  {
    hide Trim, ScanAll, IsSpace;
    args := [];
    var current := "";
    var quote: Option<char> := None;
    var escaping := false;
    var text := Trim(input);
    NothingScanned();
    for i := 0 to |text|
      invariant ScanAll(EMPTY, text[..i]) == Scan(args, current, quote, escaping)
      invariant "" !in args
    {
      var c := text[i];
      assert text[..i + 1] == text[..i] + [c];
      ScanConcat(EMPTY, text[..i], [c]);
      ScanOne(Scan(args, current, quote, escaping), c);
      if escaping {
        current := current + [c];
        escaping := false;
      } else if c == '\\' {
        escaping := true;
      } else if quote.Some? {
        if c == quote.value {
          quote := None;
        } else {
          current := current + [c];
        }
      } else if c == '"' || c == '\'' {
        quote := Some(c);
      } else if IsSpace(c) {
        if current != "" {
          args := args + [current];
          current := "";
        }
      } else {
        current := current + [c];
      }
    }
    assert text[..|text|] == text;
    if escaping {
      current := current + "\\";
    }
    if current != "" {
      args := args + [current];
    }
  }

  lemma NothingScanned()
    ensures ScanAll(EMPTY, "") == EMPTY
  {
  }

  // ----- quoting

  function EscapeChar(c: char): string {
    if c == '"' || c == '\\' then ['\\', c] else [c]
  }

  function EscapeArg(arg: string): string {
    if arg == "" then "" else EscapeChar(arg[0]) + EscapeArg(arg[1..])
  }

  function QuoteArg(arg: string): string {
    "\"" + EscapeArg(arg) + "\""
  }

  function QuoteAll(args: seq<string>): seq<string> {
    seq(|args|, i requires 0 <= i < |args| => QuoteArg(args[i]))
  }

  function NonEmpty(args: seq<string>): seq<string> {
    if args == [] then [] else (if args[0] == "" then [] else [args[0]]) + NonEmpty(args[1..])
  }

  // Inside double quotes an escaped text is taken literally.
  lemma {:induction false} ScanEscaped(s: Scan, arg: string)
    requires s.quote == Some('"') && !s.escaping
    ensures ScanAll(s, EscapeArg(arg)) == s.(current := s.current + arg)
    decreases |arg|
  {
    if arg == "" {
      assert s.current + "" == s.current;
    } else {
      var c := arg[0];
      ScanConcat(s, EscapeChar(c), EscapeArg(arg[1..]));
      ScanEscapedChar(s, c);
      ScanEscaped(s.(current := s.current + [c]), arg[1..]);
      assert s.current + arg == s.current + [c] + arg[1..];
    }
  }

  lemma ScanEscapedChar(s: Scan, c: char)
    requires s.quote == Some('"') && !s.escaping
    ensures ScanAll(s, EscapeChar(c)) == s.(current := s.current + [c])
  {
    if c == '"' || c == '\\' {
      assert ['\\', c] == ['\\'] + [c];
      ScanConcat(s, ['\\'], [c]);
      ScanOne(s, '\\');
      ScanOne(s.(escaping := true), c);
    } else {
      ScanOne(s, c);
    }
  }

  lemma ScanQuoted(s: Scan, arg: string)
    requires s.quote.None? && !s.escaping
    ensures ScanAll(s, QuoteArg(arg)) == s.(current := s.current + arg)
  {
    hide ScanAll, EscapeArg;
    var open := s.(quote := Some('"'));
    assert QuoteArg(arg) == ['"'] + (EscapeArg(arg) + ['"']);
    ScanConcat(s, ['"'], EscapeArg(arg) + ['"']);
    ScanOne(s, '"');
    ScanConcat(open, EscapeArg(arg), ['"']);
    ScanEscaped(open, arg);
    ScanOne(open.(current := s.current + arg), '"');
  }

  // Words that each scan to one argument, joined by spaces.
  lemma {:induction false} ScanJoined(done: seq<string>, words: seq<string>, args: seq<string>)
    requires |words| == |args|
    requires forall i :: 0 <= i < |words| ==> WordFor(words[i], args[i])
    ensures Finish(ScanAll(Scan(done, "", None, false), Join(words, ' '))) == done + NonEmpty(args)
    decreases |words|
  {
    hide WordFor;
    var start := Scan(done, "", None, false);
    if words == [] {
      assert done + [] == done;
    } else {
      PushFirst(done, args);
      ScanWord(done, words[0], args[0]);
      if |words| == 1 {
        assert NonEmpty(args[1..]) == [];
      } else {
        JoinFirst(words);
        ScanJoined(Push(done, args[0]), words[1..], args[1..]);
        hide Join, Push, NonEmpty, Finish;
        ScanNextWord(done, words[0], args[0], Join(words[1..], ' '));
      }
    }
  }

  lemma PushFirst(done: seq<string>, args: seq<string>)
    requires args != []
    ensures done + NonEmpty(args) == Push(done, args[0]) + NonEmpty(args[1..])
  {
    var rest := NonEmpty(args[1..]);
    if args[0] == "" {
      assert NonEmpty(args) == [] + rest == rest;
    } else {
      assert NonEmpty(args) == [args[0]] + rest;
      assert done + ([args[0]] + rest) == done + [args[0]] + rest;
    }
  }

  lemma JoinFirst(words: seq<string>)
    requires |words| > 1
    ensures Join(words, ' ') == words[0] + ([' '] + Join(words[1..], ' '))
  {
    hide Join;
    JoinCons(words);
  }

  lemma JoinCons(words: seq<string>)
    requires |words| > 1
    ensures Join(words, ' ') == words[0] + [' '] + Join(words[1..], ' ')
  {
  }

  lemma ScanNextWord(done: seq<string>, word: string, arg: string, rest: string)
    requires WordFor(word, arg)
    ensures ScanAll(Scan(done, "", None, false), word + ([' '] + rest)) ==
            ScanAll(Scan(Push(done, arg), "", None, false), rest)
  {
    hide ScanAll, WordFor, Push;
    ScanWord(done, word, arg);
    ScanConcat(Scan(done, "", None, false), word, [' '] + rest);
    ScanConcat(Scan(done, arg, None, false), [' '], rest);
    ScanOne(Scan(done, arg, None, false), ' ');
  }

  // Scanning the word, wherever an argument may start, reads the argument and nothing else.
  ghost predicate WordFor(word: string, arg: string) {
    forall done :: ScanAll(Scan(done, "", None, false), word) == Scan(done, arg, None, false)
  }

  lemma ScanWord(done: seq<string>, word: string, arg: string)
    requires WordFor(word, arg)
    ensures ScanAll(Scan(done, "", None, false), word) == Scan(done, arg, None, false)
  {
  }

  // Splitting undoes quoting, except that empty arguments are lost.
  lemma SplitUndoesQuoting(args: seq<string>)
    ensures SplitArgs(Join(QuoteAll(args), ' ')) == NonEmpty(args)
    ensures SplitArgs(Join(QuoteAll(args), ' ')) == args <==> "" !in args
  {
    hide ScanAll, Join, Finish, QuoteArg, Trim, WordFor, NonEmpty;
    var words := QuoteAll(args);
    forall i | 0 <= i < |words|
      ensures WordFor(words[i], args[i])
    {
      QuotedWord(args[i]);
    }
    ScanJoined([], words, args);
    assert [] + NonEmpty(args) == NonEmpty(args);
    forall i | 0 <= i < |words|
      ensures words[i] != "" && !IsSpace(words[i][0]) && !IsSpace(words[i][|words[i]| - 1])
    {
      QuoteEnds(args[i]);
    }
    TrimJoined(words);
    NonEmptyIs(args);
  }

  lemma QuoteEnds(arg: string)
    ensures QuoteArg(arg) != "" && QuoteArg(arg)[0] == '"' && QuoteArg(arg)[|QuoteArg(arg)| - 1] == '"'
    ensures !IsSpace('"')
  {
  }

  lemma QuotedWord(arg: string)
    ensures WordFor(QuoteArg(arg), arg)
  {
    hide ScanAll, QuoteArg;
    forall done
      ensures ScanAll(Scan(done, "", None, false), QuoteArg(arg)) == Scan(done, arg, None, false)
    {
      ScanQuoted(Scan(done, "", None, false), arg);
      assert "" + arg == arg;
    }
  }

  lemma {:induction false} NonEmptyIs(args: seq<string>)
    ensures NonEmpty(args) == args <==> "" !in args
    ensures |NonEmpty(args)| <= |args|
  {
    if args != [] {
      NonEmptyIs(args[1..]);
      assert args == [args[0]] + args[1..];
    }
  }

  // Words without white space at their ends stay as they are when their line is trimmed.
  lemma TrimJoined(words: seq<string>)
    requires forall i :: 0 <= i < |words| ==>
             words[i] != "" && !IsSpace(words[i][0]) && !IsSpace(words[i][|words[i]| - 1])
    ensures Trim(Join(words, ' ')) == Join(words, ' ')
  {
    hide IsSpace;
    if words != [] {
      JoinEnds(words);
    }
  }

  lemma {:induction false} JoinEnds(words: seq<string>)
    requires words != [] && forall i :: 0 <= i < |words| ==> words[i] != ""
    ensures var line := Join(words, ' ');
            var last := words[|words| - 1];
            line != "" && line[0] == words[0][0] && line[|line| - 1] == last[|last| - 1]
  {
    if |words| > 1 {
      JoinEnds(words[1..]);
    }
  }

  // ----- arguments that need no quotes

  predicate IsPlain(c: char) {
    c != '\\' && c != '"' && c != '\'' && !IsSpace(c)
  }

  lemma {:induction false} ScanPlain(s: Scan, word: string)
    requires s.quote.None? && !s.escaping
    requires forall i :: 0 <= i < |word| ==> IsPlain(word[i])
    ensures ScanAll(s, word) == s.(current := s.current + word)
    decreases |word|
  {
    hide IsSpace;
    if word == "" {
      assert s.current + "" == s.current;
    } else {
      ScanPlain(s.(current := s.current + [word[0]]), word[1..]);
      assert s.current + word == s.current + [word[0]] + word[1..];
    }
  }

  lemma PlainWord(word: string)
    requires forall i :: 0 <= i < |word| ==> IsPlain(word[i])
    ensures WordFor(word, word)
  {
    hide ScanAll, IsSpace;
    forall done
      ensures ScanAll(Scan(done, "", None, false), word) == Scan(done, word, None, false)
    {
      ScanPlain(Scan(done, "", None, false), word);
      assert "" + word == word;
    }
  }

  // For non-empty arguments without white space, quotes and backslashes joining is enough.
  lemma SplitUndoesJoining(args: seq<string>)
    requires forall k :: 0 <= k < |args| ==> args[k] != "" && forall i :: 0 <= i < |args[k]| ==> IsPlain(args[k][i])
    ensures SplitArgs(Join(args, ' ')) == args
  {
    hide ScanAll, Join, Finish, Trim, WordFor, NonEmpty, IsSpace;
    forall i | 0 <= i < |args|
      ensures WordFor(args[i], args[i])
    {
      PlainWord(args[i]);
    }
    ScanJoined([], args, args);
    assert [] + NonEmpty(args) == NonEmpty(args);
    TrimJoined(args);
    NonEmptyIs(args);
  }

  // What `assertSimpleName` lets pass.
  predicate IsSimpleName(name: string) {
    name != "" && forall i :: 0 <= i < |name| ==> IsNameChar(name[i])
  }

  predicate IsNameChar(c: char) {
    || 'A' <= c <= 'Z' || 'a' <= c <= 'z' || '0' <= c <= '9'
    || c == '_' || c == '.' || c == ':' || c == '@' || c == '/' || c == '-'
  }

  lemma {:induction false} SplitUndoesJoiningNames(names: seq<string>)
    requires forall k :: 0 <= k < |names| ==> IsSimpleName(names[k])
    ensures SplitArgs(Join(names, ' ')) == names
  {
    hide SplitArgs, Join;
    forall k, i | 0 <= k < |names| && 0 <= i < |names[k]|
      ensures IsPlain(names[k][i])
    {
      assert IsNameChar(names[k][i]);
    }
    SplitUndoesJoining(names);
  }

  // ----- any line, piece by piece

  // A character for itself, or one after a backslash.
  datatype Part = Literal(c: char) | Escape(c: char)

  // A part outside quotes, or quotes of either kind with parts between them.
  datatype Piece = Bare(part: Part) | Within(mark: char, parts: seq<Part>)

  function PartText(p: Part): string {
    if p.Escape? then ['\\', p.c] else [p.c]
  }

  function PartsText(parts: seq<Part>): string {
    if parts == [] then "" else PartText(parts[0]) + PartsText(parts[1..])
  }

  function PartsMeaning(parts: seq<Part>): string {
    seq(|parts|, i requires 0 <= i < |parts| => parts[i].c)
  }

  function PieceText(p: Piece): string {
    match p
    case Bare(part) => PartText(part)
    case Within(mark, parts) => [mark] + PartsText(parts) + [mark]
  }

  function PieceMeaning(p: Piece): string {
    match p
    case Bare(part) => [part.c]
    case Within(_, parts) => PartsMeaning(parts)
  }

  // Between quotes only the mark and the backslash are special; outside, also white space.
  predicate Inside(mark: char, p: Part) {
    p.Literal? ==> p.c != mark && p.c != '\\'
  }

  predicate WellFormed(p: Piece) {
    match p
    case Bare(part) => part.Literal? ==> IsPlain(part.c)
    case Within(mark, parts) => mark in {'"', '\''} && forall i :: 0 <= i < |parts| ==> Inside(mark, parts[i])
  }

  function WordText(word: seq<Piece>): string {
    if word == [] then "" else PieceText(word[0]) + WordText(word[1..])
  }

  function WordMeaning(word: seq<Piece>): string {
    if word == [] then "" else PieceMeaning(word[0]) + WordMeaning(word[1..])
  }

  // How a line may break off: not at all, or within quotes, or after a backslash.
  datatype Tail = Tail(open: Option<Piece>, backslash: bool) {
    predicate Valid() {
      open.Some? ==> open.value.Within? && WellFormed(open.value)
    }

    function Text(): string {
      (if open.Some? && open.value.Within? then [open.value.mark] + PartsText(open.value.parts) else "")
      + if backslash then "\\" else ""
    }

    function Meaning(): string {
      (if open.Some? then PieceMeaning(open.value) else "") + if backslash then "\\" else ""
    }
  }

  // The words with white space between them.
  function LineOf(words: seq<string>, gaps: seq<string>): string
    requires |words| == |gaps| + 1
    decreases |words|
  {
    if |words| == 1 then words[0] else words[0] + gaps[0] + LineOf(words[1..], gaps[1..])
  }

  predicate IsGap(gap: string) {
    gap != "" && forall i :: 0 <= i < |gap| ==> IsSpace(gap[i])
  }

  lemma ScanPart(s: Scan, p: Part)
    requires !s.escaping && if s.quote.Some? then Inside(s.quote.value, p) else p.Literal? ==> IsPlain(p.c)
    ensures ScanAll(s, PartText(p)) == s.(current := s.current + [p.c])
  {
    if p.Escape? {
      assert PartText(p) == ['\\'] + [p.c];
      ScanConcat(s, ['\\'], [p.c]);
      ScanOne(s, '\\');
      ScanOne(s.(escaping := true), p.c);
    } else {
      ScanOne(s, p.c);
    }
  }

  lemma {:induction false} ScanParts(s: Scan, parts: seq<Part>)
    requires !s.escaping && s.quote.Some? && forall i :: 0 <= i < |parts| ==> Inside(s.quote.value, parts[i])
    ensures ScanAll(s, PartsText(parts)) == s.(current := s.current + PartsMeaning(parts))
    decreases |parts|
  {
    hide ScanAll, Inside, PartText;
    if parts == [] {
      NothingScannedFrom(s);
      assert s.current + PartsMeaning(parts) == s.current;
    } else {
      var one := s.(current := s.current + [parts[0].c]);
      ScanPart(s, parts[0]);
      ScanConcat(s, PartText(parts[0]), PartsText(parts[1..]));
      ScanParts(one, parts[1..]);
      assert PartsMeaning(parts) == [parts[0].c] + PartsMeaning(parts[1..]);
      assert s.current + PartsMeaning(parts) == s.current + [parts[0].c] + PartsMeaning(parts[1..]);
    }
  }

  lemma NothingScannedFrom(s: Scan)
    ensures ScanAll(s, "") == s
  {
  }

  // Up to the closing mark.
  lemma ScanOpen(s: Scan, p: Piece)
    requires s.quote.None? && !s.escaping && p.Within? && WellFormed(p)
    ensures ScanAll(s, [p.mark] + PartsText(p.parts)) ==
            s.(current := s.current + PieceMeaning(p), quote := Some(p.mark))
  {
    hide ScanAll, PartsText, Inside, PartsMeaning;
    ScanConcat(s, [p.mark], PartsText(p.parts));
    ScanOne(s, p.mark);
    ScanParts(s.(quote := Some(p.mark)), p.parts);
  }

  lemma ScanPiece(s: Scan, p: Piece)
    requires s.quote.None? && !s.escaping && WellFormed(p)
    ensures ScanAll(s, PieceText(p)) == s.(current := s.current + PieceMeaning(p))
  {
    hide ScanAll, PartsText, PartText, Inside, PartsMeaning, IsPlain;
    match p
    case Bare(part) => ScanPart(s, part);
    case Within(mark, parts) =>
      ScanOpen(s, p);
      ScanConcat(s, [mark] + PartsText(parts), [mark]);
      ScanOne(s.(current := s.current + PieceMeaning(p), quote := Some(mark)), mark);
  }

  lemma {:induction false} ScanPieces(s: Scan, word: seq<Piece>)
    requires s.quote.None? && !s.escaping && forall i :: 0 <= i < |word| ==> WellFormed(word[i])
    ensures ScanAll(s, WordText(word)) == s.(current := s.current + WordMeaning(word))
    decreases |word|
  {
    hide ScanAll, PieceText, PieceMeaning, WellFormed;
    if word == [] {
      NothingScannedFrom(s);
      assert s.current + "" == s.current;
    } else {
      ScanPiece(s, word[0]);
      ScanConcat(s, PieceText(word[0]), WordText(word[1..]));
      ScanPieces(s.(current := s.current + PieceMeaning(word[0])), word[1..]);
      assert s.current + WordMeaning(word) == s.current + PieceMeaning(word[0]) + WordMeaning(word[1..]);
    }
  }

  lemma {:induction false} ScanGap(s: Scan, gap: string)
    requires s.quote.None? && !s.escaping && IsGap(gap)
    ensures ScanAll(s, gap) == Scan(Push(s.args, s.current), "", None, false)
    decreases |gap|
  {
    var next := Scan(Push(s.args, s.current), "", None, false);
    SpaceIsPlain(gap[0]);
    assert Next(s, gap[0]) == next;
    hide IsSpace;
    if |gap| > 1 {
      ScanGap(next, gap[1..]);
    } else {
      NothingScannedFrom(next);
      assert gap[1..] == "";
    }
  }

  lemma SpaceIsPlain(c: char)
    requires IsSpace(c)
    ensures c != '\\' && c != '"' && c != '\''
  {
  }

  lemma {:induction false} ScanLine(done: seq<string>, words: seq<string>, gaps: seq<string>, args: seq<string>)
    requires |words| == |args| == |gaps| + 1
    requires forall i :: 0 <= i < |words| ==> WordFor(words[i], args[i])
    requires forall i :: 0 <= i < |gaps| ==> IsGap(gaps[i])
    ensures ScanAll(Scan(done, "", None, false), LineOf(words, gaps)) ==
            Scan(done + NonEmpty(args[..|args| - 1]), args[|args| - 1], None, false)
    decreases |words|
  {
    hide WordFor, ScanAll, IsGap;
    var start := Scan(done, "", None, false);
    ScanWord(done, words[0], args[0]);
    if |words| == 1 {
      assert NonEmpty(args[..0]) == [] && done + [] == done;
    } else {
      var (rest, init) := (LineOf(words[1..], gaps[1..]), args[..|args| - 1]);
      assert LineOf(words, gaps) == words[0] + (gaps[0] + rest);
      ScanConcat(start, words[0], gaps[0] + rest);
      ScanConcat(Scan(done, args[0], None, false), gaps[0], rest);
      ScanGap(Scan(done, args[0], None, false), gaps[0]);
      ScanLine(Push(done, args[0]), words[1..], gaps[1..], args[1..]);
      assert args[1..][..|args| - 2] == init[1..];
      PushFirst(done, init);
    }
  }

  // What is left open at the end belongs to the last argument; a last backslash stands for itself.
  lemma ScanTail(s: Scan, tail: Tail)
    requires s.quote.None? && !s.escaping && tail.Valid()
    ensures Finish(ScanAll(s, tail.Text())) == Push(s.args, s.current + tail.Meaning())
  {
    hide ScanAll, PartsText, PieceMeaning, WellFormed, Push;
    var front := if tail.open.Some? then [tail.open.value.mark] + PartsText(tail.open.value.parts) else "";
    var behind := if tail.backslash then "\\" else "";
    assert tail.Text() == front + behind;
    ScanConcat(s, front, behind);
    if tail.open.Some? { ScanOpen(s, tail.open.value); } else { NothingScannedFrom(s); }
    var mid := ScanAll(s, front);
    NothingScannedFrom(mid);
    ScanOne(mid, '\\');
    assert s.current + tail.Meaning() ==
           s.current + (if tail.open.Some? then PieceMeaning(tail.open.value) else "") + behind;
    assert mid.current + "" == mid.current && s.current + "" == s.current;
  }

  // Every line of words of such pieces, with any white space between them and at both ends, and with
  // any end: it is split into what its words mean, without the empty ones.
  lemma SplitMeans(input: string, words: seq<seq<Piece>>, gaps: seq<string>, tail: Tail)
    requires |words| == |gaps| + 1 && tail.Valid() && forall i :: 0 <= i < |gaps| ==> IsGap(gaps[i])
    requires forall i, j :: 0 <= i < |words| && 0 <= j < |words[i]| ==> WellFormed(words[i][j])
    requires Trim(input) == LineOf(seq(|words|, i requires 0 <= i < |words| => WordText(words[i])), gaps) + tail.Text()
    ensures var args := seq(|words|, i requires 0 <= i < |words| => WordMeaning(words[i]));
            var last := |words| - 1;
            SplitArgs(input) == NonEmpty(args[..last]) + NonEmpty([args[last] + tail.Meaning()])
  {
    hide Trim, WordText, WordMeaning, ScanAll, WellFormed, IsGap, WordFor, LineOf, Finish;
    var texts := seq(|words|, i requires 0 <= i < |words| => WordText(words[i]));
    var args := seq(|words|, i requires 0 <= i < |words| => WordMeaning(words[i]));
    forall i | 0 <= i < |words|
      ensures WordFor(texts[i], args[i])
    {
      PiecesWord(words[i]);
    }
    ScanLine([], texts, gaps, args);
    ScanConcat(EMPTY, LineOf(texts, gaps), tail.Text());
    var (init, last) := (NonEmpty(args[..|args| - 1]), args[|args| - 1]);
    assert [] + init == init;
    ScanTail(Scan(init, last, None, false), tail);
    OneArgument(init, last + tail.Meaning());
  }

  lemma OneArgument(args: seq<string>, arg: string)
    ensures Push(args, arg) == args + NonEmpty([arg])
  {
    assert [arg][1..] == [] && args + [] == args;
    assert NonEmpty([arg]) == (if arg == "" then [] else [arg]) + [];
  }

  lemma PiecesWord(word: seq<Piece>)
    requires forall i :: 0 <= i < |word| ==> WellFormed(word[i])
    ensures WordFor(WordText(word), WordMeaning(word))
  {
    hide ScanAll, WordText, WordMeaning, WellFormed;
    forall done
      ensures ScanAll(Scan(done, "", None, false), WordText(word)) == Scan(done, WordMeaning(word), None, false)
    {
      ScanPieces(Scan(done, "", None, false), word);
      assert "" + WordMeaning(word) == WordMeaning(word);
    }
  }
}
