/** `writeEnvFile`, `parseEnvLine` and `quoteEnvValue` of apps/host/src/services/env-file.ts:
    rewriting the text of an environment file line by line. */
module EnvFile {
  import opened Options
  import opened Text

  // ----- the key of a line: /^\s*([A-Z][A-Z0-9_]*)\s*=/

  predicate IsUpper(c: char) {
    'A' <= c <= 'Z'
  }

  predicate IsKeyChar(c: char) {
    IsUpper(c) || '0' <= c <= '9' || c == '_'
  }

  // How many key characters a text starts with.
  function KeyLength(s: string): (n: nat)
    ensures n <= |s| && (forall i :: 0 <= i < n ==> IsKeyChar(s[i])) && (n < |s| ==> !IsKeyChar(s[n]))
  {
    if s != "" && IsKeyChar(s[0]) then 1 + KeyLength(s[1..]) else 0
  }

  function Key(line: string): Option<string> {
    var s := TrimStart(line);
    if s == "" || !IsUpper(s[0]) then None
    else
      var (name, rest) := (s[..KeyLength(s)], TrimStart(s[KeyLength(s)..]));
      if rest != "" && rest[0] == '=' then Some(name) else None
  }

  predicate IsKey(key: string) {
    key != "" && IsUpper(key[0]) && forall i :: 0 <= i < |key| ==> IsKeyChar(key[i])
  }

  // White space, a key, white space and an equals sign, from here to there.
  ghost predicate KeyAt(line: string, i: int, j: int, k: int) {
    && 0 <= i < j <= k < |line| && 'A' <= line[i] <= 'Z' && line[k] == '='
    && (forall m :: 0 <= m < i || j <= m < k ==> IsSpace(line[m]))
    && forall m :: i <= m < j ==> 'A' <= line[m] <= 'Z' || '0' <= line[m] <= '9' || line[m] == '_'
  }

  lemma KeyFound(line: string) returns (i: int, j: int, k: int)
    requires Key(line).Some?
    ensures KeyAt(line, i, j, k)
  {
    hide IsSpace;
    i := TrimStartPart(line);
    var s := line[i..];
    j := i + KeyLength(s);
    var rest := s[KeyLength(s)..];
    var n := TrimStartPart(rest);
    k := j + n;
    assert forall m :: 0 <= m < |s| ==> s[m] == line[i + m];
    assert forall m :: 0 <= m < |rest| ==> rest[m] == line[j + m];
    forall m | j <= m < k
      ensures IsSpace(line[m])
    {
      assert rest[m - j] == line[m];
    }
    forall m | i <= m < j
      ensures IsKeyChar(line[m])
    {
      assert s[m - i] == line[m];
    }
    assert rest[n..][0] == rest[n] == line[k];
  }

  lemma KeyRead(line: string, i: int, j: int, k: int)
    requires KeyAt(line, i, j, k)
    ensures Key(line) == Some(line[i..j])
  {
    hide IsSpace, KeyLength, TrimStart;
    KeyCharsAreNoSpaces();
    TrimStartTo(line, i);
    var (s, rest) := (line[i..], line[j..]);
    KeyLengthAt(line, i, j, k);
    TrimRest(line, j, k);
    assert s[..j - i] == line[i..j] && s[j - i..] == rest;
  }

  lemma KeyLengthAt(line: string, i: int, j: int, k: int)
    requires KeyAt(line, i, j, k)
    ensures KeyLength(line[i..]) == j - i && line[i..][0] == line[i]
  {
    KeyCharsAreNoSpaces();
    hide IsSpace, KeyLength;
    var s := line[i..];
    assert forall m :: 0 <= m < |s| ==> s[m] == line[i + m];
    KeyLengthTo(s, j - i);
  }

  lemma TrimRest(line: string, j: int, k: int)
    requires 0 <= j <= k < |line| && line[k] == '=' && forall m :: j <= m < k ==> IsSpace(line[m])
    ensures TrimStart(line[j..]) != "" && TrimStart(line[j..])[0] == '='
  {
    KeyCharsAreNoSpaces();
    hide IsSpace;
    var rest := line[j..];
    assert forall m :: 0 <= m < |rest| ==> rest[m] == line[j + m];
    TrimStartTo(rest, k - j);
  }

  lemma KeyCharsAreNoSpaces()
    ensures forall c :: IsKeyChar(c) || c == '=' ==> !IsSpace(c)
    ensures !IsKeyChar('=') && forall c :: IsSpace(c) ==> !IsKeyChar(c)
  {
  }

  lemma {:induction false} TrimStartTo(s: string, n: nat)
    requires n < |s| && !IsSpace(s[n]) && forall m :: 0 <= m < n ==> IsSpace(s[m])
    ensures TrimStart(s) == s[n..]
  {
    hide IsSpace;
    if n > 0 {
      TrimStartTo(s[1..], n - 1);
      assert s[1..][n - 1..] == s[n..];
    }
  }

  lemma {:induction false} KeyLengthTo(s: string, n: nat)
    requires n < |s| && !IsKeyChar(s[n]) && forall m :: 0 <= m < n ==> IsKeyChar(s[m])
    ensures KeyLength(s) == n
  {
    if n > 0 { KeyLengthTo(s[1..], n - 1); }
  }

  // The key of a line is what stands there before the equals sign, if it stands there.
  lemma KeyMeans(line: string, key: string)
    ensures Key(line) == Some(key) <==> exists i, j, k :: KeyAt(line, i, j, k) && key == line[i..j]
  {
    hide Key, IsSpace;
    if Key(line).Some? {
      var i, j, k := KeyFound(line);
      KeyRead(line, i, j, k);
    }
    if i, j, k :| KeyAt(line, i, j, k) && key == line[i..j] {
      KeyRead(line, i, j, k);
    }
  }

  // ----- values

  predicate IsPlain(c: char) {
    || 'A' <= c <= 'Z' || 'a' <= c <= 'z' || '0' <= c <= '9'
    || c == '_' || c == '.' || c == '/' || c == ':' || c == '@' || c == ',' || c == '+' || c == '-'
  }

  function HexDigit(n: nat): char
    requires n < 16
  {
    if n < 10 then '0' + n as char else 'a' + (n - 10) as char
  }

  // JSON.stringify, character by character.
  function Escape(c: char): string {
    if c == '"' then "\\\""
    else if c == '\\' then "\\\\"
    else if c == '\n' then "\\n"
    else if c == '\r' then "\\r"
    else if c == '\t' then "\\t"
    else if c == '\U{8}' then "\\b"
    else if c == '\U{C}' then "\\f"
    else if c < ' ' then "\\u00" + [HexDigit(c as int / 16), HexDigit(c as int % 16)]
    else [c]
  }

  function EscapeAll(s: string): string {
    if s == "" then "" else EscapeAll(s[..|s| - 1]) + Escape(s[|s| - 1])
  }

  function Quote(value: string): string {
    if value == "" then ""
    else if forall i :: 0 <= i < |value| ==> IsPlain(value[i]) then value
    else "\"" + EscapeAll(value) + "\""
  }

  predicate OneLine(s: string) {
    forall i :: 0 <= i < |s| ==> s[i] != '\n' && s[i] != '\r'
  }

  lemma EscapeOneLine(c: char)
    ensures OneLine(Escape(c))
  {
  }

  lemma {:induction false} EscapeAllOneLine(s: string)
    ensures OneLine(EscapeAll(s))
  {
    hide Escape;
    if s != "" {
      EscapeAllOneLine(s[..|s| - 1]);
      EscapeOneLine(s[|s| - 1]);
    }
  }

  // Whatever the value, what is written for it fits on one line.
  lemma QuoteOneLine(value: string)
    ensures OneLine(Quote(value))
  {
    EscapeAllOneLine(value);
  }

  // ----- reading a value back

  function HexValue(c: char): Option<nat> {
    if '0' <= c <= '9' then Some(c as int - '0' as int)
    else if 'a' <= c <= 'f' then Some(c as int - 'a' as int + 10)
    else if 'A' <= c <= 'F' then Some(c as int - 'A' as int + 10)
    else None
  }

  // The character of four hexadecimal digits, if it is one.
  function CodePoint(digits: string): Option<char>
    requires |digits| == 4
  {
    var (a, b, c, d) := (HexValue(digits[0]), HexValue(digits[1]), HexValue(digits[2]), HexValue(digits[3]));
    if a.None? || b.None? || c.None? || d.None? then None
    else
      var code := 4096 * a.value + 256 * b.value + 16 * c.value + d.value;
      if 0xD800 <= code < 0xE000 then None else Some(code as char)
  }

  // The characters of a JSON string, section 7 of RFC 8259, without its quotation marks.
  function Unescape(s: string): Option<string> {
    if s == "" then Some("")
    else if s[0] == '"' || s[0] < ' ' then None
    else if s[0] != '\\' then Before(s[0], Unescape(s[1..]))
    else if |s| < 2 then None
    else match s[1]
      case '"' => Before('"', Unescape(s[2..]))
      case '\\' => Before('\\', Unescape(s[2..]))
      case '/' => Before('/', Unescape(s[2..]))
      case 'b' => Before('\U{8}', Unescape(s[2..]))
      case 'f' => Before('\U{C}', Unescape(s[2..]))
      case 'n' => Before('\n', Unescape(s[2..]))
      case 'r' => Before('\r', Unescape(s[2..]))
      case 't' => Before('\t', Unescape(s[2..]))
      case 'u' =>
        if |s| < 6 || CodePoint(s[2..6]).None? then None
        else Before(CodePoint(s[2..6]).value, Unescape(s[6..]))
      case _ => None
  }

  function Before(c: char, rest: Option<string>): Option<string> {
    if rest.Some? then Some([c] + rest.value) else None
  }

  // A value in quotation marks is a JSON string; any other stands for itself.
  function ReadValue(text: string): Option<string> {
    if text == "" || text[0] != '"' then Some(text)
    else if |text| >= 2 && text[|text| - 1] == '"' then Unescape(text[1..|text| - 1])
    else None
  }

  lemma ReadEscape(c: char, rest: string)
    ensures Unescape(Escape(c) + rest) == Before(c, Unescape(rest))
  {
    var text := Escape(c) + rest;
    hide CodePoint, HexDigit;
    if text[0] != '\\' {
      hide Escape;
      assert text[1..] == rest;
    } else if text[1] != 'u' {
      assert text[2..] == rest;
    } else {
      var (high, low) := (c as int / 16, c as int % 16);
      assert text == "\\u00" + [HexDigit(high), HexDigit(low)] + rest;
      ReadControl(c);
      hide Escape;
      assert text[6..] == rest && text[2..6] == ['0', '0', HexDigit(high), HexDigit(low)];
    }
  }

  lemma ReadControl(c: char)
    requires c < ' '
    ensures CodePoint(['0', '0', HexDigit(c as int / 16), HexDigit(c as int % 16)]) == Some(c)
  {
    var (high, low) := (c as int / 16, c as int % 16);
    ReadHexDigit(0);
    ReadHexDigit(high);
    ReadHexDigit(low);
    hide HexDigit, HexValue;
    assert 16 * high + low == c as int;
  }

  lemma ReadHexDigit(n: nat)
    requires n < 16
    ensures HexValue(HexDigit(n)) == Some(n) && HexDigit(0) == '0'
  {
  }

  lemma {:induction false} ReadEscapes(s: string, rest: string)
    ensures Unescape(EscapeAll(s) + rest) == if Unescape(rest).Some? then Some(s + Unescape(rest).value) else None
  {
    hide Escape, Unescape;
    if s == "" {
      assert EscapeAll(s) + rest == rest;
      assert Unescape(rest).Some? ==> s + Unescape(rest).value == Unescape(rest).value;
    } else {
      var (init, last) := (s[..|s| - 1], s[|s| - 1]);
      assert EscapeAll(s) + rest == EscapeAll(init) + (Escape(last) + rest);
      ReadEscape(last, rest);
      ReadEscapes(init, Escape(last) + rest);
      if Unescape(rest).Some? {
        assert s + Unescape(rest).value == init + ([last] + Unescape(rest).value);
      }
    }
  }

  // What is written for a value is read back as the value; it stands without quotation marks exactly
  // if it has none but plain characters.
  lemma ReadUndoesQuote(value: string)
    ensures ReadValue(Quote(value)) == Some(value)
    ensures Quote(value) == value <==>
            forall i :: 0 <= i < |value| ==>
              var c := value[i];
              'A' <= c <= 'Z' || 'a' <= c <= 'z' || '0' <= c <= '9' || c in "_./:@,+-"
  {
    hide EscapeAll, Unescape;
    if value != "" && !(forall i :: 0 <= i < |value| ==> IsPlain(value[i])) {
      var inner := EscapeAll(value);
      assert Quote(value)[1..|Quote(value)| - 1] == inner;
      assert inner + "" == inner && value + "" == value;
      NothingToRead();
      ReadEscapes(value, "");
      EscapedNotShorter(value);
    }
  }

  lemma NothingToRead()
    ensures Unescape("") == Some("")
  {
  }

  lemma {:induction false} EscapedNotShorter(s: string)
    ensures |EscapeAll(s)| >= |s|
  {
    hide Escape;
    if s != "" {
      EscapedNotShorter(s[..|s| - 1]);
      assert |Escape(s[|s| - 1])| >= 1 by { EscapeLength(s[|s| - 1]); }
    }
  }

  lemma EscapeLength(c: char)
    ensures |Escape(c)| >= 1
  {
  }

  // ----- lines

  function DropCR(line: string): string {
    if line != "" && line[|line| - 1] == '\r' then line[..|line| - 1] else line
  }

  // raw.split(/\r?\n/), or no line at all: the last part is not followed by a newline.
  function Lines(raw: string): seq<string> {
    var parts := Split(raw, '\n');
    if raw == "" then [] else DropCRs(parts[..|parts| - 1]) + [parts[|parts| - 1]]
  }

  function DropCRs(lines: seq<string>): seq<string> {
    seq(|lines|, i requires 0 <= i < |lines| => DropCR(lines[i]))
  }

  // text.replace(/\n+$/, '')
  function StripNewlines(text: string): string {
    if text != "" && text[|text| - 1] == '\n' then StripNewlines(text[..|text| - 1]) else text
  }

  // ----- rewriting

  // A JavaScript Map: keys in insertion order, None for null.
  datatype Updates = Updates(order: seq<string>, values: map<string, Option<string>>)

  ghost predicate IsMap(u: Updates) {
    && (forall key :: key in u.order <==> key in u.values)
    && (forall i, j :: 0 <= i < j < |u.order| ==> u.order[i] != u.order[j])
  }

  function Pair(key: string, value: string): string {
    key + "=" + Quote(value)
  }

  predicate Concerned(line: string, u: Updates) {
    Key(line).Some? && Key(line).value in u.values
  }

  function Rewrite(line: string, u: Updates): seq<string> {
    if !Concerned(line, u) then [line]
    else if u.values[Key(line).value].None? then []
    else [Pair(Key(line).value, u.values[Key(line).value].value)]
  }

  function Rewritten(lines: seq<string>, u: Updates): seq<string> {
    if lines == [] then [] else Rewritten(lines[..|lines| - 1], u) + Rewrite(lines[|lines| - 1], u)
  }

  // The updated keys that the lines hold.
  function Seen(lines: seq<string>, u: Updates): set<string> {
    if lines == [] then {}
    else
      var (rest, last) := (Seen(lines[..|lines| - 1], u), lines[|lines| - 1]);
      if Concerned(last, u) then rest + {Key(last).value} else rest
  }

  lemma {:induction false} SeenIs(lines: seq<string>, u: Updates, key: string)
    ensures key in Seen(lines, u) <==> key in u.values && exists i :: 0 <= i < |lines| && Key(lines[i]) == Some(key)
  {
    hide Key;
    if lines != [] {
      var (init, last) := (lines[..|lines| - 1], lines[|lines| - 1]);
      assert lines == init + [last];
      SeenIs(init, u, key);
    }
  }

  function Missing(order: seq<string>, seen: set<string>): (keys: seq<string>)
    ensures forall key :: key in keys <==> key in order && key !in seen
  {
    if order == [] then []
    else Missing(order[..|order| - 1], seen) + (if order[|order| - 1] in seen then [] else [order[|order| - 1]])
  }

  // The lines of a written pair: one, unless the key has line breaks of its own.
  function PairLines(key: string, value: string): seq<string> {
    Split(Pair(key, value), '\n')
  }

  function Appended(keys: seq<string>, u: Updates): seq<string>
    requires forall key :: key in keys ==> key in u.values
  {
    if keys == [] then []
    else
      var value := u.values[keys[|keys| - 1]];
      Appended(keys[..|keys| - 1], u) + (if value.Some? then PairLines(keys[|keys| - 1], value.value) else [])
  }

  const COMMENT := "# Remote Agent Console configuration"

  // The lines of the new text, before blank ones are cut off its end.
  function NewLines(raw: string, u: Updates): seq<string>
    requires IsMap(u)
  {
    var kept := Rewritten(Lines(raw), u);
    var missing := Missing(u.order, Seen(Lines(raw), u));
    if missing == [] then kept
    else kept + Separator(raw, kept) + Appended(missing, u)
  }

  function Separator(raw: string, kept: seq<string>): seq<string> {
    (if kept != [] && kept[|kept| - 1] != "" then [""] else []) + (if raw == "" then [COMMENT] else [])
  }

  function NewText(raw: string, u: Updates): string
    requires IsMap(u)
  {
    StripNewlines(Join(NewLines(raw, u), '\n')) + "\n"
  }

  method WriteEnvFile(raw: string, u: Updates) returns (text: string)
    requires IsMap(u)
    ensures text == NewText(raw, u)
  {
    hide Rewritten, Seen, Missing, Appended, StripNewlines, Join;
    var nextLines, seen := RewriteLines(Lines(raw), u);
    var missing := MissingEntries(u.order, seen);
    if |missing| > 0 {
      ghost var kept := nextLines;
      if |nextLines| > 0 && nextLines[|nextLines| - 1] != "" {
        nextLines := nextLines + [""];
      }
      if raw == "" {
        nextLines := nextLines + [COMMENT];
      }
      assert nextLines == kept + Separator(raw, kept);
      nextLines := AppendPairs(nextLines, missing, u);
    }
    text := StripNewlines(Join(nextLines, '\n')) + "\n";
  }

  method RewriteLines(lines: seq<string>, u: Updates) returns (nextLines: seq<string>, seen: set<string>)
    ensures nextLines == Rewritten(lines, u) && seen == Seen(lines, u)
  {
    hide Key, Quote;
    nextLines, seen := [], {};
    for i := 0 to |lines|
      invariant seen == Seen(lines[..i], u) && nextLines == Rewritten(lines[..i], u)
    {
      assert lines[..i + 1][..i] == lines[..i];
      var key := Key(lines[i]);
      if key.None? || key.value !in u.values {
        nextLines := nextLines + [lines[i]];
      } else {
        seen := seen + {key.value};
        var value := u.values[key.value];
        if value.Some? {
          nextLines := nextLines + [key.value + "=" + Quote(value.value)];
        }
      }
    }
    assert lines[..|lines|] == lines;
  }

  method AppendPairs(lines: seq<string>, missing: seq<string>, u: Updates) returns (nextLines: seq<string>)
    requires forall key :: key in missing ==> key in u.values
    ensures Join(nextLines, '\n') == Join(lines + Appended(missing, u), '\n')
  {
    hide Pair, Join, PairLines;
    nextLines := lines;
    assert lines + Appended(missing[..0], u) == lines;
    for i := 0 to |missing|
      invariant Join(nextLines, '\n') == Join(lines + Appended(missing[..i], u), '\n')
      invariant nextLines == [] <==> lines + Appended(missing[..i], u) == []
    {
      assert missing[..i + 1][..i] == missing[..i];
      assert missing[i] in missing;
      var value := u.values[missing[i]];
      if value.Some? {
        var pair := Pair(missing[i], value.value);
        PushedPair(nextLines, lines + Appended(missing[..i], u), missing[i], value.value);
        assert lines + Appended(missing[..i], u) + PairLines(missing[i], value.value) ==
               lines + Appended(missing[..i + 1], u);
        nextLines := nextLines + [pair];
      } else {
        assert Appended(missing[..i], u) + [] == Appended(missing[..i], u);
      }
    }
    assert missing[..|missing|] == missing;
  }

  method MissingEntries(order: seq<string>, seen: set<string>) returns (missing: seq<string>)
    ensures missing == Missing(order, seen)
  {
    missing := [];
    for i := 0 to |order|
      invariant missing == Missing(order[..i], seen)
    {
      assert order[..i + 1][..i] == order[..i];
      if order[i] !in seen {
        missing := missing + [order[i]];
      }
    }
    assert order[..|order|] == order;
  }

  // ----- what a key is

  lemma {:induction false} KeyLengthOf(key: string, rest: string)
    requires forall i :: 0 <= i < |key| ==> IsKeyChar(key[i])
    requires rest != "" ==> !IsKeyChar(rest[0])
    ensures KeyLength(key + rest) == |key|
  {
    if key == "" {
      assert key + rest == rest;
    } else {
      KeyLengthOf(key[1..], rest);
      assert (key + rest)[1..] == key[1..] + rest;
    }
  }

  // A written pair is read back with its key.
  lemma KeyOfPair(key: string, value: string)
    requires IsKey(key)
    ensures Key(Pair(key, value)) == Some(key)
  {
    hide Quote, Key, IsKey;
    assert Pair(key, value) == key + ("=" + Quote(value));
    KeyBefore(key, "=" + Quote(value));
  }

  lemma KeyBefore(key: string, rest: string)
    requires IsKey(key) && rest != "" && rest[0] == '='
    ensures Key(key + rest) == Some(key)
  {
    hide KeyLength;
    KeyLengthOf(key, rest);
    assert (key + rest)[..|key|] == key && (key + rest)[|key|..] == rest;
    assert TrimStart(key + rest) == key + rest && TrimStart(rest) == rest;
  }

  lemma {:induction false} TrimStartConcat(s: string, t: string)
    ensures TrimStart(s + t) == if TrimStart(s) != "" then TrimStart(s) + t else TrimStart(t)
  {
    if s == "" {
      assert s + t == t;
    } else {
      TrimStartConcat(s[1..], t);
      assert (s + t)[1..] == s[1..] + t;
    }
  }

  lemma KeyIsKey(line: string)
    ensures Key(line).Some? ==> IsKey(Key(line).value)
  {
    hide TrimStart;
    var s := TrimStart(line);
    if s != "" && IsUpper(s[0]) {
      assert KeyLength(s) > 0;
    }
  }

  // A carriage return at the end of a line is white space behind its key.
  lemma KeyWithoutCR(line: string)
    ensures Key(line + "\r") == Key(line)
  {
    assert TrimStart("\r") == "" by { assert "\r"[1..] == ""; }
    TrimStartConcat(line, "\r");
    var s := TrimStart(line);
    if s != "" && IsUpper(s[0]) {
      var n := KeyLength(s);
      KeyLengthCR(s);
      assert (s + "\r")[..n] == s[..n] && (s + "\r")[n..] == s[n..] + "\r";
      TrimStartConcat(s[n..], "\r");
    }
  }

  lemma {:induction false} KeyLengthCR(s: string)
    ensures KeyLength(s + "\r") == KeyLength(s)
  {
    if s == "" {
      assert s + "\r" == "\r";
    } else {
      KeyLengthCR(s[1..]);
      assert (s + "\r")[1..] == s[1..] + "\r";
    }
  }

  lemma KeyDropCR(line: string)
    ensures Key(DropCR(line)) == Key(line)
  {
    if DropCR(line) != line {
      KeyWithoutCR(DropCR(line));
      assert DropCR(line) + "\r" == line;
    }
  }

  // ----- from lines to text and back

  predicate NoNewlines(lines: seq<string>) {
    forall i :: 0 <= i < |lines| ==> '\n' !in lines[i]
  }

  // Blank lines at the end are cut off, all but one.
  function CutBlank(lines: seq<string>): seq<string> {
    if |lines| > 1 && lines[|lines| - 1] == "" then CutBlank(lines[..|lines| - 1])
    else if lines == [] then [""]
    else lines
  }

  lemma {:induction false} JoinMore(lines: seq<string>, last: string)
    requires lines != []
    ensures Join(lines + [last], '\n') == Join(lines, '\n') + "\n" + last
  {
    if |lines| == 1 {
      assert lines + [last] == [lines[0], last] && [lines[0], last][1..] == [last];
    } else {
      JoinMore(lines[1..], last);
      assert (lines + [last])[1..] == lines[1..] + [last];
    }
  }

  lemma {:induction false} JoinConcat(a: seq<string>, b: seq<string>)
    requires a != [] && b != []
    ensures Join(a + b, '\n') == Join(a, '\n') + "\n" + Join(b, '\n')
  {
    hide Join;
    var (init, last) := (b[..|b| - 1], b[|b| - 1]);
    assert a + b == a + init + [last];
    JoinMore(a + init, last);
    if init == [] {
      assert a + init == a && b == [last];
      JoinOne(last);
    } else {
      JoinConcat(a, init);
      JoinMore(init, last);
      assert b == init + [last];
    }
  }

  lemma JoinOne(line: string)
    ensures Join([line], '\n') == line
  {
  }

  lemma PushedPair(pushed: seq<string>, lines: seq<string>, key: string, value: string)
    requires Join(pushed, '\n') == Join(lines, '\n') && (pushed == [] <==> lines == [])
    ensures Join(pushed + [Pair(key, value)], '\n') == Join(lines + PairLines(key, value), '\n')
    ensures PairLines(key, value) != []
  {
    hide Join, Pair, Split;
    JoinSplit(Pair(key, value), '\n');
    if lines == [] {
      assert pushed + [Pair(key, value)] == [Pair(key, value)] &&
             lines + PairLines(key, value) == PairLines(key, value);
      JoinOne(Pair(key, value));
    } else {
      JoinMore(pushed, Pair(key, value));
      JoinConcat(lines, PairLines(key, value));
    }
  }

  lemma {:induction false} SplitJoin(lines: seq<string>)
    requires lines != [] && NoNewlines(lines)
    ensures Split(Join(lines, '\n'), '\n') == lines
  {
    var (init, last) := (lines[..|lines| - 1], lines[|lines| - 1]);
    assert lines == init + [last];
    if init == [] {
      SplitOne(last, '\n');
    } else {
      SplitJoin(init);
      JoinMore(init, last);
      SplitMore(Join(init, '\n'), last);
    }
  }

  lemma SplitMore(text: string, last: string)
    requires '\n' !in last
    ensures Split(text + "\n" + last, '\n') == Split(text, '\n') + [last]
  {
    hide Split;
    var parts := Split(text, '\n');
    var (init, end) := (parts[..|parts| - 1], parts[|parts| - 1]);
    assert text + "\n" + last == text + ("\n" + last);
    SplitConcat(text, "\n" + last, '\n');
    SplitNoSep(text, '\n');
    SplitTwo(end, last);
    assert parts == init + [end];
  }

  lemma {:induction false} SplitTwo(end: string, last: string)
    requires '\n' !in end && '\n' !in last
    ensures Split(end + ("\n" + last), '\n') == [end, last]
  {
    hide Split;
    if end == "" {
      SplitOne(last, '\n');
      assert "" + ("\n" + last) == ['\n'] + last;
      SplitCons('\n', last, '\n');
    } else {
      SplitTwo(end[1..], last);
      assert end + ("\n" + last) == [end[0]] + (end[1..] + ("\n" + last));
      SplitCons(end[0], end[1..] + ("\n" + last), '\n');
      assert [end[0]] + end[1..] == end;
    }
  }

  lemma {:induction false} StripJoin(lines: seq<string>)
    requires NoNewlines(lines)
    ensures StripNewlines(Join(lines, '\n')) == Join(CutBlank(lines), '\n')
  {
    if |lines| > 1 {
      var (init, last) := (lines[..|lines| - 1], lines[|lines| - 1]);
      assert lines == init + [last];
      JoinMore(init, last);
      var text := Join(init, '\n') + "\n" + last;
      if last == "" {
        StripJoin(init);
        assert text == Join(init, '\n') + "\n" && text[..|text| - 1] == Join(init, '\n');
      } else {
        assert text[|text| - 1] == last[|last| - 1];
      }
    } else if |lines| == 1 && lines[0] != "" {
      assert Join(lines, '\n') == lines[0];
    }
  }

  lemma {:induction false} CutBlankKeeps(lines: seq<string>)
    ensures CutBlank(lines) != [] && (NoNewlines(lines) ==> NoNewlines(CutBlank(lines)))
    ensures lines != [] ==> |CutBlank(lines)| <= |lines| && CutBlank(lines) == lines[..|CutBlank(lines)|]
    ensures forall i :: |CutBlank(lines)| <= i < |lines| ==> lines[i] == ""
    ensures CutBlank(CutBlank(lines)) == CutBlank(lines)
  {
    if |lines| > 1 && lines[|lines| - 1] == "" {
      CutBlankKeeps(lines[..|lines| - 1]);
    }
  }

  lemma LinesNoNewlines(raw: string)
    ensures NoNewlines(Lines(raw))
  {
    hide Split;
    SplitNoSep(raw, '\n');
  }
}
