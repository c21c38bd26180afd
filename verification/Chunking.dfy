/** `iter_chunks` of apps/ai-service/app/rag.py: overlapping windows over the text of each file,
    and the batches of `index_chunks`. */
module Chunking {
  import opened Options

  // Python's white space.
  predicate IsSpace(c: char) {
    || '\t' <= c <= '\r' || '\U{1C}' <= c <= ' '
    || c in {'\U{85}', '\U{A0}', '\U{1680}', '\U{2028}', '\U{2029}', '\U{202F}', '\U{205F}', '\U{3000}'}
    || '\U{2000}' <= c <= '\U{200A}'
  }

  // How much white space a text starts with.
  function Lead(s: string): (n: nat)
    ensures n <= |s| && (forall i :: 0 <= i < n ==> IsSpace(s[i])) && (n < |s| ==> !IsSpace(s[n]))
  {
    if s != "" && IsSpace(s[0]) then 1 + Lead(s[1..]) else 0
  }

  // Where the white space a text ends with begins.
  function Tail(s: string): (n: nat)
    ensures n <= |s| && (forall i :: n <= i < |s| ==> IsSpace(s[i])) && (n > 0 ==> !IsSpace(s[n - 1]))
  {
    if s != "" && IsSpace(s[|s| - 1]) then Tail(s[..|s| - 1]) else |s|
  }

  // str.strip
  function Strip(s: string): string {
    if Lead(s) == |s| then "" else s[Lead(s)..Tail(s)]
  }

  lemma StripBounds(s: string)
    ensures Lead(s) < |s| ==> Lead(s) < Tail(s) && Strip(s) == s[Lead(s)..Tail(s)] && Strip(s) != ""
  {
  }

  datatype Chunk = Chunk(file: string, symbol: Option<string>, content: string, startLine: nat, ordinal: nat)

  function Newlines(s: string): nat {
    if s == "" then 0 else Newlines(s[..|s| - 1]) + (if s[|s| - 1] == '\n' then 1 else 0)
  }

  function Min(a: int, b: int): int {
    if a < b then a else b
  }

  function Max(a: int, b: int): int {
    if a < b then b else a
  }

  function Stride(chunkSize: int, overlap: int): (step: nat)
    ensures step >= 1
  {
    Max(1, chunkSize - overlap)
  }

  // Where the slice text[cursor:cursor + chunkSize] ends: Python counts a negative end from
  // the end of the text, and a slice that ends before it starts is empty.
  function End(text: string, cursor: nat, chunkSize: int): (end: nat)
    requires cursor <= |text|
    ensures cursor <= end <= |text|
  {
    var end := cursor + chunkSize;
    var counted := if end < 0 then Max(0, end + |text|) else Min(end, |text|);
    Max(cursor, counted)
  }

  function Window(text: string, cursor: nat, chunkSize: int): string
    requires cursor <= |text|
  {
    text[cursor..End(text, cursor, chunkSize)]
  }

  predicate Between(lo: int, i: int, hi: int) {
    lo <= i < hi
  }

  // A window holds the places from its cursor on that lie before the end, which is counted from the
  // end of the text if it is negative.
  lemma WindowMeans(text: string, cursor: nat, chunkSize: int)
    requires cursor <= |text|
    ensures var end := End(text, cursor, chunkSize);
            && Window(text, cursor, chunkSize) == text[cursor..end]
            && forall i :: Between(cursor, i, end) <==>
                 cursor <= i < |text| && i < cursor + chunkSize + if cursor + chunkSize < 0 then |text| else 0
  {
  }

  // The cursors whose windows give a chunk, from a cursor on.
  function Cursors(text: string, cursor: nat, chunkSize: int, step: nat): (r: seq<nat>)
    requires step >= 1
    ensures forall i :: 0 <= i < |r| ==> cursor <= r[i] < |text| && Strip(Window(text, r[i], chunkSize)) != ""
    decreases |text| - cursor
  {
    if cursor >= |text| then []
    else
      var rest := Cursors(text, cursor + step, chunkSize, step);
      if Strip(Window(text, cursor, chunkSize)) == "" then rest else [cursor] + rest
  }

  function ChunkAt(file: string, text: string, cursor: nat, chunkSize: int, ordinal: nat,
                   symbol: string -> Option<string>): Chunk
    requires cursor <= |text|
  {
    var content := Strip(Window(text, cursor, chunkSize));
    Chunk(file, symbol(content), content, Newlines(text[..cursor]) + 1, ordinal)
  }

  predicate Within(cursors: seq<nat>, text: string) {
    forall i :: 0 <= i < |cursors| ==> cursors[i] < |text|
  }

  function ChunksAt(file: string, text: string, cursors: seq<nat>, chunkSize: int,
                    symbol: string -> Option<string>): (r: seq<Chunk>)
    requires Within(cursors, text)
    ensures |r| == |cursors|
  {
    if cursors == [] then []
    else
      var (init, last) := (cursors[..|cursors| - 1], cursors[|cursors| - 1]);
      ChunksAt(file, text, init, chunkSize, symbol) + [ChunkAt(file, text, last, chunkSize, |init|, symbol)]
  }

  // The chunks of one file.
  function FileChunks(file: string, text: string, chunkSize: int, step: nat,
                      symbol: string -> Option<string>): seq<Chunk>
    requires step >= 1
  {
    ChunksAt(file, text, Cursors(text, 0, chunkSize, step), chunkSize, symbol)
  }

  // A file that cannot be read has no text.
  datatype File = File(name: string, text: Option<string>)

  function Chunks(files: seq<File>, chunkSize: int, step: nat, symbol: string -> Option<string>): seq<Chunk>
    requires step >= 1
  {
    if files == [] then []
    else
      var (rest, f) := (Chunks(files[..|files| - 1], chunkSize, step, symbol), files[|files| - 1]);
      if f.text.None? then rest else rest + FileChunks(f.name, f.text.value, chunkSize, step, symbol)
  }

  // ----- the loops

  method IterChunks(files: seq<File>, chunkSize: int, overlap: int, symbol: string -> Option<string>)
    returns (chunks: seq<Chunk>)
    ensures chunks == Chunks(files, chunkSize, Stride(chunkSize, overlap), symbol)
  {
    hide FileChunks, Lead, Tail;
    chunks := [];
    for i := 0 to |files|
      invariant chunks == Chunks(files[..i], chunkSize, Stride(chunkSize, overlap), symbol)
    {
      assert files[..i + 1][..i] == files[..i];
      var text := files[i].text;
      if text.Some? {
        if text.value == "" || Strip(text.value) == "" {
          BlankText(files[i].name, text.value, chunkSize, Stride(chunkSize, overlap), symbol);
        } else {
          var more := ChunkText(files[i].name, text.value, chunkSize, overlap, symbol);
          chunks := chunks + more;
        }
      }
    }
    assert files[..|files|] == files;
  }

  method ChunkText(file: string, text: string, chunkSize: int, overlap: int, symbol: string -> Option<string>)
    returns (chunks: seq<Chunk>)
    ensures chunks == FileChunks(file, text, chunkSize, Stride(chunkSize, overlap), symbol)
  {
    hide Strip, Newlines, Cursors, ChunksAt, Within;
    chunks := [];
    var step := Stride(chunkSize, overlap);
    var ordinal := 0;
    var cursor := 0;
    ghost var done: seq<nat> := [];
    NoChunks(file, text, chunkSize, symbol);
    while cursor < |text|
      invariant 0 <= cursor && 0 <= ordinal == |done|
      invariant done + Cursors(text, cursor, chunkSize, step) == Cursors(text, 0, chunkSize, step)
      invariant Within(done, text)
      invariant chunks == ChunksAt(file, text, done, chunkSize, symbol)
    {
      var content := Strip(Window(text, cursor, chunkSize));
      CursorsFrom(text, cursor, chunkSize, step);
      if content != "" {
        var startLine := Newlines(text[..cursor]) + 1;
        chunks := chunks + [Chunk(file, symbol(content), content, startLine, ordinal)];
        ordinal := ordinal + 1;
        ChunksAtMore(file, text, done, cursor, chunkSize, symbol);
        done := done + [cursor];
      }
      cursor := cursor + step;
    }
    CursorsFrom(text, cursor, chunkSize, step);
    assert done + [] == done;
  }

  lemma CursorsFrom(text: string, cursor: nat, chunkSize: int, step: nat)
    requires step >= 1
    ensures Cursors(text, cursor, chunkSize, step) ==
            if cursor >= |text| then []
            else if Strip(Window(text, cursor, chunkSize)) == "" then Cursors(text, cursor + step, chunkSize, step)
            else [cursor] + Cursors(text, cursor + step, chunkSize, step)
  {
    hide Strip;
  }

  lemma NoChunks(file: string, text: string, chunkSize: int, symbol: string -> Option<string>)
    ensures Within([], text)
    ensures ChunksAt(file, text, [], chunkSize, symbol) == []
  {
  }

  lemma ChunksAtMore(file: string, text: string, cursors: seq<nat>, cursor: nat, chunkSize: int,
                     symbol: string -> Option<string>)
    requires Within(cursors, text) && cursor < |text|
    ensures Within(cursors + [cursor], text)
    ensures ChunksAt(file, text, cursors + [cursor], chunkSize, symbol) ==
            ChunksAt(file, text, cursors, chunkSize, symbol) +
              [ChunkAt(file, text, cursor, chunkSize, |cursors|, symbol)]
  {
    hide ChunkAt;
    assert (cursors + [cursor])[..|cursors|] == cursors;
  }

  predicate AllSpace(s: string) {
    forall i :: 0 <= i < |s| ==> IsSpace(s[i])
  }

  lemma StripBlank(s: string)
    ensures Strip(s) == "" <==> AllSpace(s)
  {
    hide IsSpace;
    if Lead(s) < |s| {
      StripBounds(s);
      assert !IsSpace(s[Lead(s)]);
    }
  }

  // Leaving blank files out saves nothing but time: they have no chunk anyway.
  lemma BlankText(file: string, text: string, chunkSize: int, step: nat, symbol: string -> Option<string>)
    requires step >= 1 && Strip(text) == ""
    ensures FileChunks(file, text, chunkSize, step, symbol) == []
  {
    hide Strip, IsSpace, ChunksAt;
    StripBlank(text);
    NoCursors(text, 0, chunkSize, step);
    NoChunks(file, text, chunkSize, symbol);
  }

  lemma {:induction false} NoCursors(text: string, cursor: nat, chunkSize: int, step: nat)
    requires step >= 1 && AllSpace(text)
    ensures Cursors(text, cursor, chunkSize, step) == []
    decreases |text| - cursor
  {
    hide Strip, IsSpace;
    if cursor < |text| {
      StripBlank(Window(text, cursor, chunkSize));
      NoCursors(text, cursor + step, chunkSize, step);
    }
  }

  // ----- what the chunks are worth

  lemma {:induction false} ChunksAre(file: string, text: string, cursors: seq<nat>, chunkSize: int,
                                     symbol: string -> Option<string>, k: int)
    requires Within(cursors, text) && 0 <= k < |cursors|
    ensures cursors[k] in cursors
    ensures ChunksAt(file, text, cursors, chunkSize, symbol)[k] == ChunkAt(file, text, cursors[k], chunkSize, k, symbol)
  {
    hide ChunkAt;
    if k < |cursors| - 1 {
      var init := cursors[..|cursors| - 1];
      ChunksAre(file, text, init, chunkSize, symbol, k);
    }
  }

  // The pieces from which the windows are widened are the text cut up.
  function Slices(text: string, cursor: nat, step: nat): seq<string>
    requires step >= 1
    decreases |text| - cursor
  {
    if cursor >= |text| then [] else [text[cursor..Min(cursor + step, |text|)]] + Slices(text, cursor + step, step)
  }

  function Concat(parts: seq<string>): string {
    if parts == [] then "" else parts[0] + Concat(parts[1..])
  }

  lemma {:induction false} SlicesConcat(text: string, cursor: nat, step: nat)
    requires step >= 1 && cursor <= |text|
    ensures Concat(Slices(text, cursor, step)) == text[cursor..]
    decreases |text| - cursor
  {
    if cursor < |text| {
      var next := cursor + step;
      if next <= |text| {
        SlicesConcat(text, next, step);
        assert text[cursor..] == text[cursor..next] + text[next..];
      } else {
        assert Slices(text, next, step) == [];
        assert text[cursor..|text|] == text[cursor..];
      }
    }
  }

  // The last cursor not after a position.
  function CursorOf(p: nat, step: nat): (c: nat)
    requires step >= 1
    ensures c <= p < c + step && exists k: nat :: c == k * step
  {
    assert p / step * step == p - p % step;
    p / step * step
  }

  lemma {:induction false} CursorKept(text: string, cursor: nat, chunkSize: int, step: nat, k: nat)
    requires step >= 1 && cursor + k * step < |text|
    requires Strip(Window(text, cursor + k * step, chunkSize)) != ""
    ensures cursor + k * step in Cursors(text, cursor, chunkSize, step)
    decreases k
  {
    hide Strip;
    assert k * step >= 0;
    if k > 0 {
      assert cursor + step + (k - 1) * step == cursor + k * step;
      CursorKept(text, cursor + step, chunkSize, step, k - 1);
    }
  }

  // Where the content of a cursor's chunk starts in the text.
  function Offset(text: string, cursor: nat, chunkSize: int): nat
    requires cursor <= |text|
  {
    cursor + Lead(Window(text, cursor, chunkSize))
  }

  predicate CoversAt(text: string, chunkSize: int, step: nat, k: int, p: int)
    requires step >= 1
  {
    var cursors := Cursors(text, 0, chunkSize, step);
    && 0 <= k < |cursors|
    && var from := Offset(text, cursors[k], chunkSize);
       from <= p < from + |Strip(Window(text, cursors[k], chunkSize))|
  }

  // Some chunk contains the character at this position.
  ghost predicate Covered(text: string, chunkSize: int, step: nat, p: int)
    requires step >= 1
  {
    exists k :: CoversAt(text, chunkSize, step, k, p)
  }

  // A chunk's content is the text from its offset on; its ordinal is its position; its line is
  // that of the window, which is the line of its first character exactly if no newline was
  // stripped in front of it.
  lemma {:induction false} ChunkIs(file: string, text: string, chunkSize: int, step: nat,
                                   symbol: string -> Option<string>, k: int)
    requires step >= 1 && 0 <= k < |Cursors(text, 0, chunkSize, step)|
    ensures |FileChunks(file, text, chunkSize, step, symbol)| == |Cursors(text, 0, chunkSize, step)|
    ensures var chunk := FileChunks(file, text, chunkSize, step, symbol)[k];
            var c := Cursors(text, 0, chunkSize, step)[k];
            var from := Offset(text, c, chunkSize);
            && chunk.file == file && chunk.ordinal == k && |chunk.content| > 0
            && from + |chunk.content| <= |text| && chunk.content == text[from..from + |chunk.content|]
            && (chunk.startLine == Newlines(text[..from]) + 1 <==> '\n' !in text[c..from])
  {
    hide Lead, Tail, IsSpace, Cursors, ChunksAt, Newlines;
    var cursors := Cursors(text, 0, chunkSize, step);
    ChunksAre(file, text, cursors, chunkSize, symbol, k);
    var c := cursors[k];
    var window := Window(text, c, chunkSize);
    StripBounds(window);
    var from := Offset(text, c, chunkSize);
    PartOfWindow(text, c, c + |window|, Lead(window), Tail(window));
    LinesBefore(text, c, from);
  }

  lemma PartOfWindow(text: string, c: nat, end: nat, from: nat, to: nat)
    requires c <= end <= |text| && from <= to <= end - c
    ensures text[c..end][from..to] == text[c + from..c + to]
  {
    var (part, same) := (text[c..end][from..to], text[c + from..c + to]);
    assert |part| == |same| && forall i :: 0 <= i < |same| ==> part[i] == same[i];
  }

  lemma LinesBefore(text: string, c: nat, from: nat)
    requires c <= from <= |text|
    ensures Newlines(text[..from]) == Newlines(text[..c]) <==> '\n' !in text[c..from]
  {
    hide Newlines;
    assert text[..from] == text[..c] + text[c..from];
    NewlinesConcat(text[..c], text[c..from]);
    NoNewlines(text[c..from]);
  }

  lemma {:induction false} NewlinesConcat(a: string, b: string)
    ensures Newlines(a + b) == Newlines(a) + Newlines(b)
  {
    if b == "" {
      assert a + b == a;
    } else {
      NewlinesConcat(a, b[..|b| - 1]);
      assert (a + b)[..|a + b| - 1] == a + b[..|b| - 1];
    }
  }

  lemma {:induction false} NoNewlines(s: string)
    ensures Newlines(s) == 0 <==> '\n' !in s
  {
    if s != "" {
      NoNewlines(s[..|s| - 1]);
      assert s == s[..|s| - 1] + [s[|s| - 1]];
    }
  }

  lemma StrippedContains(s: string, i: int)
    requires 0 <= i < |s| && !IsSpace(s[i])
    ensures Lead(s) <= i < Lead(s) + |Strip(s)|
  {
    hide IsSpace;
    StripBounds(s);
    assert Lead(s) < |s|;
    assert i < Tail(s);
  }

  // With a non-negative overlap every character that is not white space is in a chunk.
  lemma EveryCharacterCovered(text: string, chunkSize: int, overlap: int, p: int)
    requires chunkSize >= 1 && overlap >= 0 && 0 <= p < |text| && !IsSpace(text[p])
    ensures Covered(text, chunkSize, Stride(chunkSize, overlap), p)
  {
    hide Strip, Lead, IsSpace, Cursors;
    var step := Stride(chunkSize, overlap);
    var c := CursorOf(p, step);
    var window := Window(text, c, chunkSize);
    assert window[p - c] == text[p];
    StrippedContains(window, p - c);
    var k: nat :| c == k * step;
    assert Strip(window) != "";
    assert 0 + k * step == c;
    CursorKept(text, 0, chunkSize, step, k);
    var cursors := Cursors(text, 0, chunkSize, step);
    var i :| 0 <= i < |cursors| && cursors[i] == c;
    assert CoversAt(text, chunkSize, step, i, p);
  }

  // A text of n letters.
  function Letters(n: nat): (text: string)
    ensures |text| == n && forall i :: 0 <= i < n ==> text[i] == 'a'
  {
    seq(n, _ => 'a')
  }

  // Without overlap some text has a character in no chunk.
  lemma GapWithoutOverlap(chunkSize: int, overlap: int)
    requires chunkSize >= 1 && overlap < 0
    ensures !Covered(Letters(chunkSize + 1), chunkSize, Stride(chunkSize, overlap), chunkSize)
  {
    hide Strip, Lead;
    var text := Letters(chunkSize + 1);
    var step := Stride(chunkSize, overlap);
    CursorsFrom(text, 0, chunkSize, step);
    CursorsFrom(text, step, chunkSize, step);
    forall k
      ensures !CoversAt(text, chunkSize, step, k, chunkSize)
    {
      var cursors := Cursors(text, 0, chunkSize, step);
      if 0 <= k < |cursors| {
        assert cursors[k] == 0;
        StripWithin(Window(text, 0, chunkSize));
      }
    }
  }

  // Without a size the only character of a text is in no chunk.
  lemma GapWithoutSize(chunkSize: int, step: nat)
    requires chunkSize < 1 && step >= 1
    ensures !Covered(Letters(1), chunkSize, step, 0)
  {
    hide Strip, Lead;
    var text := Letters(1);
    CursorsFrom(text, 0, chunkSize, step);
    CursorsFrom(text, step, chunkSize, step);
    assert Window(text, 0, chunkSize) == "";
    StripBlank("");
    assert forall k :: !CoversAt(text, chunkSize, step, k, 0);
  }

  lemma StripWithin(s: string)
    ensures Lead(s) + |Strip(s)| <= |s|
  {
    StripBounds(s);
  }

  // No text loses a character exactly if windows have a size and overlap or at least touch.
  lemma CoveredExactly(chunkSize: int, overlap: int)
    ensures (forall text: string, p :: 0 <= p < |text| && !IsSpace(text[p]) ==>
               Covered(text, chunkSize, Stride(chunkSize, overlap), p))
            <==> chunkSize >= 1 && overlap >= 0
  {
    hide IsSpace, Covered, Stride;
    LetterIsNoSpace();
    if chunkSize < 1 {
      GapWithoutSize(chunkSize, Stride(chunkSize, overlap));
      assert !IsSpace(Letters(1)[0]);
    } else if overlap < 0 {
      GapWithoutOverlap(chunkSize, overlap);
      assert !IsSpace(Letters(chunkSize + 1)[chunkSize]);
    } else {
      forall text: string, p | 0 <= p < |text| && !IsSpace(text[p])
        ensures Covered(text, chunkSize, Stride(chunkSize, overlap), p)
      {
        EveryCharacterCovered(text, chunkSize, overlap, p);
      }
    }
  }

  lemma LetterIsNoSpace()
    ensures !IsSpace('a')
  {
  }

  // ----- indexing

  predicate DistinctNames(files: seq<File>) {
    forall i, j :: 0 <= i < j < |files| ==> files[i].name != files[j].name
  }

  predicate DistinctIds(chunks: seq<Chunk>) {
    forall i, j :: 0 <= i < j < |chunks| ==> chunks[i].file != chunks[j].file || chunks[i].ordinal != chunks[j].ordinal
  }

  predicate NamedIn(files: seq<File>, name: string) {
    exists j :: 0 <= j < |files| && files[j].name == name
  }

  lemma NamedInMore(files: seq<File>, f: File, name: string)
    ensures NamedIn(files + [f], name) <==> NamedIn(files, name) || f.name == name
  {
    var longer := files + [f];
    assert longer[|files|] == f && forall j :: 0 <= j < |files| ==> longer[j] == files[j];
  }

  // File and ordinal, from which the id of a chunk is hashed, identify it.
  lemma {:induction false} IdsDistinct(files: seq<File>, chunkSize: int, step: nat, symbol: string -> Option<string>)
    requires step >= 1 && DistinctNames(files)
    ensures DistinctIds(Chunks(files, chunkSize, step, symbol))
    ensures forall i :: 0 <= i < |Chunks(files, chunkSize, step, symbol)| ==>
              NamedIn(files, Chunks(files, chunkSize, step, symbol)[i].file)
  {
    hide FileChunks, NamedIn;
    if files != [] {
      var (init, f) := (files[..|files| - 1], files[|files| - 1]);
      IdsDistinct(init, chunkSize, step, symbol);
      assert files == init + [f];
      forall name
        ensures NamedIn(files, name) <==> NamedIn(init, name) || f.name == name
      {
        NamedInMore(init, f, name);
      }
      if f.text.Some? {
        ConcatDistinct(init, f, chunkSize, step, symbol);
      }
    }
  }

  lemma {:induction false} ConcatDistinct(init: seq<File>, f: File, chunkSize: int, step: nat,
                                          symbol: string -> Option<string>)
    requires step >= 1 && DistinctNames(init + [f]) && f.text.Some?
    requires DistinctIds(Chunks(init, chunkSize, step, symbol))
    requires forall i :: 0 <= i < |Chunks(init, chunkSize, step, symbol)| ==>
               NamedIn(init, Chunks(init, chunkSize, step, symbol)[i].file)
    ensures DistinctIds(Chunks(init, chunkSize, step, symbol) +
                        FileChunks(f.name, f.text.value, chunkSize, step, symbol))
    ensures forall i :: 0 <= i < |FileChunks(f.name, f.text.value, chunkSize, step, symbol)| ==>
              FileChunks(f.name, f.text.value, chunkSize, step, symbol)[i].file == f.name
  {
    hide Chunks, ChunksAt, Cursors, Strip, Lead, Newlines;
    var before := Chunks(init, chunkSize, step, symbol);
    var more := FileChunks(f.name, f.text.value, chunkSize, step, symbol);
    forall k | 0 <= k < |more|
      ensures more[k].file == f.name && more[k].ordinal == k
    {
      ChunkIs(f.name, f.text.value, chunkSize, step, symbol, k);
    }
    forall i | 0 <= i < |before|
      ensures before[i].file != f.name
    {
      assert NamedIn(init, before[i].file);
      var j :| 0 <= j < |init| && init[j].name == before[i].file;
      assert (init + [f])[j] == init[j] && (init + [f])[|init|] == f;
    }
  }

  const BATCH := 256

  function Flatten<T>(batches: seq<seq<T>>): seq<T> {
    if batches == [] then [] else Flatten(batches[..|batches| - 1]) + batches[|batches| - 1]
  }

  // Every item is added, once and in order, in batches that are full except for the last.
  method AddInBatches<T>(items: seq<T>) returns (batches: seq<seq<T>>)
    ensures Flatten(batches) == items
    ensures forall i :: 0 <= i < |batches| ==>
            0 < |batches[i]| <= BATCH && (i < |batches| - 1 ==> |batches[i]| == BATCH)
  {
    batches := [];
    var start := 0;
    while start < |items|
      invariant 0 <= start && start == |batches| * BATCH
      invariant Flatten(batches) == items[..Min(start, |items|)]
      invariant forall i :: 0 <= i < |batches| ==> 0 < |batches[i]| <= BATCH
      invariant forall i :: 0 <= i < |batches| && (i < |batches| - 1 || start <= |items|) ==> |batches[i]| == BATCH
    {
      var end := start + BATCH;
      var batch := items[start..Min(end, |items|)];
      assert (batches + [batch])[..|batches|] == batches;
      assert items[..start] + batch == items[..Min(end, |items|)];
      batches := batches + [batch];
      start := end;
    }
  }
}
