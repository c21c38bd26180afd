/** The line buffer in front of the Codex event handler: `flushBufferedLines` of
    packages/executors/src/codex-event-parser.ts and the stdout and close handlers of
    packages/executors/src/codex-executor.ts. */
module LineBuffer {
  import opened Text

  // buffer.replace(/\r\n/g, '\n')
  function Normalize(s: string): string {
    if |s| < 2 then s
    else if s[0] == '\r' && s[1] == '\n' then ['\n'] + Normalize(s[2..])
    else [s[0]] + Normalize(s[1..])
  }

  // The trimmed lines that are not blank, in order.
  function NonBlank(lines: seq<string>): seq<string> {
    if lines == [] then []
    else (if Trim(lines[0]) != "" then [Trim(lines[0])] else []) + NonBlank(lines[1..])
  }

  function Init(lines: seq<string>): seq<string>
    requires lines != []
  {
    lines[..|lines| - 1]
  }

  function Last(lines: seq<string>): string
    requires lines != []
  {
    lines[|lines| - 1]
  }

  method FlushBufferedLines(buffer: string) returns (emitted: seq<string>, remainder: string)
    ensures emitted == NonBlank(Init(Split(buffer, '\n')))
    ensures remainder == Last(Split(buffer, '\n'))
  {
    hide Split, Normalize, Trim, NonBlank;
    var lines := Split(Normalize(buffer), '\n');
    remainder := Last(lines);
    lines := Init(lines);
    emitted := EmitAll(lines);
    NormalizeKeepsLines(buffer);
    SameNonBlank(Init(Split(buffer, '\n')), lines);
  }

  method EmitAll(lines: seq<string>) returns (emitted: seq<string>)
    ensures emitted == NonBlank(lines)
  {
    hide Trim;
    emitted := [];
    assert lines[0..] == lines && [] + NonBlank(lines) == NonBlank(lines);
    for i := 0 to |lines|
      invariant emitted + NonBlank(lines[i..]) == NonBlank(lines)
    {
      assert lines[i..][1..] == lines[i + 1..];
      var (trimmed, rest) := (Trim(lines[i]), NonBlank(lines[i + 1..]));
      if trimmed != "" {
        assert emitted + ([trimmed] + rest) == emitted + [trimmed] + rest;
        emitted := emitted + [trimmed];
      } else {
        assert [] + rest == rest;
      }
    }
    assert lines[|lines|..] == [] && emitted + [] == emitted;
  }

  // Equal up to one carriage return at the end.
  predicate UpToCr(line: string, normalized: string) {
    line == normalized || line == normalized + "\r"
  }

  // Line for line the same, the last one exactly.
  predicate SameLines(lines: seq<string>, normalized: seq<string>) {
    && |lines| == |normalized| > 0
    && Last(lines) == Last(normalized)
    && forall i :: 0 <= i < |lines| ==> UpToCr(lines[i], normalized[i])
  }

  lemma {:induction false} NormalizeKeepsLines(s: string)
    ensures SameLines(Split(s, '\n'), Split(Normalize(s), '\n'))
  {
    hide Split, SameLines;
    if |s| < 2 {
      AlwaysSameLines(Split(s, '\n'));
    } else if s[0] == '\r' && s[1] == '\n' {
      NormalizeKeepsLines(s[2..]);
      var lines := Split(s[2..], '\n');
      assert s == ['\r'] + (['\n'] + s[2..]);
      SplitCons('\r', ['\n'] + s[2..], '\n');
      SplitCons('\n', s[2..], '\n');
      SplitCons('\n', Normalize(s[2..]), '\n');
      assert ([""] + lines)[1..] == lines;
      assert ['\r'] + "" == "\r" == "" + "\r";
      SameLinesCons("\r", "", lines, Split(Normalize(s[2..]), '\n'));
    } else {
      NormalizeKeepsLines(s[1..]);
      var (lines, normalized) := (Split(s[1..], '\n'), Split(Normalize(s[1..]), '\n'));
      assert s == [s[0]] + s[1..];
      SplitCons(s[0], s[1..], '\n');
      SplitCons(s[0], Normalize(s[1..]), '\n');
      if s[0] == '\n' {
        SameLinesCons("", "", lines, normalized);
      } else {
        SameLinesPrefix(s[0], lines, normalized);
      }
    }
  }

  lemma AlwaysSameLines(lines: seq<string>)
    requires lines != []
    ensures SameLines(lines, lines)
  {
  }

  lemma SameLinesCons(line: string, normal: string, lines: seq<string>, normalized: seq<string>)
    requires UpToCr(line, normal) && SameLines(lines, normalized)
    ensures SameLines([line] + lines, [normal] + normalized)
  {
  }

  lemma SameLinesPrefix(c: char, lines: seq<string>, normalized: seq<string>)
    requires SameLines(lines, normalized)
    ensures SameLines([[c] + lines[0]] + lines[1..], [[c] + normalized[0]] + normalized[1..])
  {
    PrefixKeepsCr(c, lines[0], normalized[0]);
  }

  lemma PrefixKeepsCr(c: char, line: string, normalized: string)
    requires UpToCr(line, normalized)
    ensures UpToCr([c] + line, [c] + normalized)
  {
    assert [c] + (normalized + "\r") == ([c] + normalized) + "\r";
  }

  lemma {:induction false} SameNonBlank(lines: seq<string>, normalized: seq<string>)
    requires |lines| == |normalized|
    requires forall i :: 0 <= i < |lines| ==> UpToCr(lines[i], normalized[i])
    ensures NonBlank(lines) == NonBlank(normalized)
  {
    if lines != [] {
      SameNonBlank(lines[1..], normalized[1..]);
      assert (normalized[0] + "\r")[..|normalized[0]|] == normalized[0];
      assert UpToCr(lines[0], normalized[0]);
    }
  }

  lemma {:induction false} NonBlankConcat(a: seq<string>, b: seq<string>)
    ensures NonBlank(a + b) == NonBlank(a) + NonBlank(b)
  {
    if a == [] {
      assert a + b == b;
    } else {
      assert (a + b)[1..] == a[1..] + b;
      NonBlankConcat(a[1..], b);
    }
  }

  // The executor's state for one child process. `handled` is what the event handler was given,
  // `seen` everything the child has written.
  class CodexStdout {
    var stdoutBuffer: string
    var handled: seq<string>
    ghost var seen: string

    constructor ()
      ensures Valid() && seen == "" && handled == []
    {
      stdoutBuffer := "";
      handled := [];
      seen := "";
    }

    // While the child runs: all complete lines are handled and the buffer is the last one.
    ghost predicate Valid()
      reads this
    {
      && handled == NonBlank(Init(Split(seen, '\n')))
      && stdoutBuffer == Last(Split(seen, '\n'))
    }

    method OnData(chunk: string)
      requires Valid()
      modifies this
      ensures Valid() && seen == old(seen) + chunk
    {
      hide Split, NonBlank;
      var emitted, remainder := FlushBufferedLines(stdoutBuffer + chunk);
      ghost var (whole, cut) := (Split(seen + chunk, '\n'), Split(stdoutBuffer + chunk, '\n'));
      SplitConcat(seen, chunk, '\n');
      NonBlankConcat(Init(Split(seen, '\n')), Init(cut));
      assert Init(whole) == Init(Split(seen, '\n')) + Init(cut);
      stdoutBuffer := remainder;
      handled := handled + emitted;
      seen := seen + chunk;
    }

    method OnClose()
      requires Valid()
      modifies this
      ensures handled == NonBlank(Split(old(seen), '\n'))
    {
      hide Split, NonBlank, Trim, Normalize;
      LastLine(seen);
      var trimmed := Trim(stdoutBuffer);
      if trimmed != "" {
        var lines := Split(Normalize(trimmed), '\n');
        for i := 0 to |lines|
          invariant handled == old(handled) + lines[..i]
        {
          if lines[i] != "" {
            handled := handled + [lines[i]];
          }
        }
      }
    }
  }

  // What the close handler makes of the last, unterminated line.
  lemma LastLine(s: string)
    ensures var last := Trim(Last(Split(s, '\n')));
            && (last != "" ==> Split(Normalize(last), '\n') == [last])
            && NonBlank(Split(s, '\n')) == NonBlank(Init(Split(s, '\n'))) + (if last != "" then [last] else [])
  {
    hide Split, Trim, Normalize;
    var parts := Split(s, '\n');
    NonBlankConcat(Init(parts), [Last(parts)]);
    assert Init(parts) + [Last(parts)] == parts;
    SplitNoSep(s, '\n');
    TrimKeepsOut(Last(parts), '\n');
    NormalizeNoNewline(Trim(Last(parts)));
    SplitOne(Trim(Last(parts)), '\n');
  }

  lemma {:induction false} NormalizeNoNewline(s: string)
    requires '\n' !in s
    ensures Normalize(s) == s
  {
    if |s| >= 2 {
      NormalizeNoNewline(s[1..]);
    }
  }

  lemma {:induction false} TrimStartKeepsOut(s: string, c: char)
    requires c !in s
    ensures c !in TrimStart(s)
  {
    if s != "" && IsSpace(s[0]) {
      TrimStartKeepsOut(s[1..], c);
    }
  }

  lemma {:induction false} TrimEndKeepsOut(s: string, c: char)
    requires c !in s
    ensures c !in TrimEnd(s)
  {
    if s != "" && IsSpace(s[|s| - 1]) {
      TrimEndKeepsOut(s[..|s| - 1], c);
    }
  }

  lemma TrimKeepsOut(s: string, c: char)
    requires c !in s
    ensures c !in Trim(s)
  {
    TrimEndKeepsOut(s, c);
    TrimStartKeepsOut(TrimEnd(s), c);
  }

  // ----- any way of cutting the output gives the same lines

  function Concat(chunks: seq<string>): string {
    if chunks == [] then "" else chunks[0] + Concat(chunks[1..])
  }

  // What the handler is given when the child writes these chunks and closes.
  method RunChild(chunks: seq<string>) returns (handled: seq<string>)
    ensures handled == NonBlank(Split(Concat(chunks), '\n'))
  {
    var stdout := new CodexStdout();
    assert "" + Concat(chunks) == Concat(chunks) && chunks[0..] == chunks;
    for i := 0 to |chunks|
      invariant stdout.Valid() && stdout.seen + Concat(chunks[i..]) == Concat(chunks)
      invariant fresh(stdout)
    {
      ghost var seen := stdout.seen;
      assert chunks[i..][1..] == chunks[i + 1..];
      stdout.OnData(chunks[i]);
      assert seen + (chunks[i] + Concat(chunks[i + 1..])) == (seen + chunks[i]) + Concat(chunks[i + 1..]);
    }
    assert stdout.seen + "" == stdout.seen;
    stdout.OnClose();
    handled := stdout.handled;
  }
}
