/** The lore chunker of the database setup (database_setup.py): sliding
    windows of whole words that keep only full windows and then force a window
    ending at the last word, and the numbering of the chunk records written to
    the world-context store. */
module WorldChunks {
  import opened Common
  import opened Text

  const LoreWindow: nat := 50
  const LoreOverlap: nat := 10
  const IdWidth: nat := 4

  /** The full windows that `range(0, n - window + 1, step)` starts: one every
      `step` words from word i on, as long as a whole window fits. */
  function FullWindowsFrom(words: seq<string>, window: nat, step: nat, i: nat): (ws: seq<seq<string>>)
    requires step >= 1
    ensures i + window > |words| <==> ws == []
    decreases |words| - i
  {
    if i + window > |words| then []
    else [words[i..i + window]] + FullWindowsFrom(words, window, step, i + step)
  }

  /** The words of the last window. */
  function TailChunk(words: seq<string>, window: nat): (chunk: string)
    requires window <= |words|
    ensures window == 0 ==> chunk == ""
    ensures window > 0 ==> var first := words[|words| - window];
      |chunk| >= |first| && chunk[..|first|] == first
  {
    Join(" ", words[|words| - window..])
  }

  /** The chunks of more than `window` words: the full windows (none for a
      negative step, ValueError for a zero step) followed by the last window
      unless an equal string is already there. */
  function WindowChunks(words: seq<string>, window: nat, overlap: int): (r: Result<seq<string>>)
    requires 1 <= window < |words|
    ensures window == overlap <==> r == Err(ValueError)
    ensures r.Ok? ==> r.value != [] && TailChunk(words, window) in r.value
    ensures window < overlap ==> r == Ok([TailChunk(words, window)])
    ensures window > overlap ==> var full := JoinWords(FullWindowsFrom(words, window, window - overlap, 0));
      r.Ok? && |r.value| >= |full| && r.value[..|full|] == full
      && (|r.value| == |full| <==> TailChunk(words, window) in full)
      && (|r.value| > |full| ==> r.value[|full|..] == [TailChunk(words, window)])
  {
    var step := window - overlap;
    if step == 0 then Err(ValueError)
    else if step < 0 then Ok([TailChunk(words, window)])
    else
      var full := JoinWords(FullWindowsFrom(words, window, step, 0));
      var tail := TailChunk(words, window);
      Ok(if tail in full then full else full + [tail])
  }

  /** `create_sliding_window_chunks(text, window_size, overlap)`: the text
      itself when it has at most `window` words, otherwise its window chunks. */
  function SlidingWindowChunks(text: string, window: nat, overlap: int): (r: Result<seq<string>>)
    requires window >= 1
    ensures |Words(text)| <= window ==> r == Ok([text])
    ensures |Words(text)| > window && window == overlap ==> r == Err(ValueError)
    ensures |Words(text)| > window && window != overlap ==>
      r.Ok? && r.value != [] && TailChunk(Words(text), window) in r.value
    ensures |Words(text)| > window && window < overlap ==> r == Ok([TailChunk(Words(text), window)])
    ensures |Words(text)| > window && window > overlap ==>
      var words := Words(text);
      var full := JoinWords(FullWindowsFrom(words, window, window - overlap, 0));
      r.Ok? && |r.value| >= |full| && r.value[..|full|] == full
      && (|r.value| == |full| <==> TailChunk(words, window) in full)
      && (|r.value| > |full| ==> r.value[|full|..] == [TailChunk(words, window)])
  {
    var words := Words(text);
    if |words| <= window then Ok([text]) else WindowChunks(words, window, overlap)
  }

  /** `range(i, n - window + 1, step)` has (n - i - window) / step + 1
      elements when a whole window fits at i. */
  lemma {:induction false} FullWindowsCount(words: seq<string>, window: nat, step: nat, i: nat)
    requires step >= 1 && i + window <= |words|
    ensures |FullWindowsFrom(words, window, step, i)| == (|words| - i - window) / step + 1
    decreases |words| - i
  {
    var n := |words| - i - window;
    if i + step + window > |words| {
      DivOfSmaller(n, step);
    } else {
      FullWindowsCount(words, window, step, i + step);
      DivStepDown(n, step);
    }
  }

  lemma DivOfSmaller(n: nat, d: nat)
    requires 0 < d && n < d
    ensures n / d == 0
  {
  }

  lemma DivStepDown(n: nat, d: nat)
    requires 0 < d <= n
    ensures (n - d) / d + 1 == n / d
  {
    var q := (n - d) / d;
    var m := (n - d) % d;
    assert n == (q + 1) * d + m;
    DivUnique(n, d, q + 1, m);
  }

  lemma DivUnique(n: nat, d: nat, q: nat, m: nat)
    requires 0 <= m < d && n == q * d + m
    ensures n / d == q
  {
    var q' := n / d;
    var m' := n % d;
    assert n == q' * d + m';
    if q' < q {
      MulMono(q' + 1, q, d);
      assert false;
    } else if q' > q {
      MulMono(q + 1, q', d);
      assert false;
    }
  }

  lemma MulMono(a: nat, b: nat, d: nat)
    requires a <= b
    ensures a * d <= b * d
  {
  }

  /** Full window k starts at word i + k*step and holds exactly the `window`
      words from there. */
  lemma {:induction false} FullWindowAt(words: seq<string>, window: nat, step: nat, i: nat, k: nat)
    requires step >= 1
    requires k < |FullWindowsFrom(words, window, step, i)|
    ensures i + k * step + window <= |words|
    ensures FullWindowsFrom(words, window, step, i)[k] == words[i + k * step..i + k * step + window]
    decreases |words| - i
  {
    if k == 0 {
      assert k * step == 0;
    } else {
      var rest := FullWindowsFrom(words, window, step, i + step);
      assert FullWindowsFrom(words, window, step, i)[k] == rest[k - 1];
      FullWindowAt(words, window, step, i + step, k - 1);
      assert i + step + (k - 1) * step == i + k * step by {
        assert k * step == (k - 1) * step + step;
      }
    }
  }

  /** A stretch of words joined with spaces re-splits into that stretch. */
  lemma WordsOfSlice(words: seq<string>, lo: nat, hi: nat)
    requires lo <= hi <= |words|
    requires forall j :: 0 <= j < |words| ==> IsWord(words[j])
    ensures Words(Join(" ", words[lo..hi])) == words[lo..hi]
  {
    var slice := words[lo..hi];
    forall j | 0 <= j < |slice| ensures IsWord(slice[j]) {
      assert slice[j] == words[lo + j];
    }
    WordsOfJoin(slice);
  }

  /** Every joined full window re-splits into exactly the words of that
      window (which `FullWindowAt` places in the text). */
  lemma FullWindowWords(words: seq<string>, window: nat, step: nat, i: nat, k: nat)
    requires step >= 1
    requires forall j :: 0 <= j < |words| ==> IsWord(words[j])
    requires k < |FullWindowsFrom(words, window, step, i)|
    ensures Words(JoinWords(FullWindowsFrom(words, window, step, i))[k]) == FullWindowsFrom(words, window, step, i)[k]
  {
    FullWindowAt(words, window, step, i, k);
    WordsOfSlice(words, i + k * step, i + k * step + window);
  }

  /** A window chunk is the tail or one of the full windows. */
  lemma WindowChunkSource(words: seq<string>, window: nat, overlap: int, c: string)
    requires 1 <= window < |words|
    requires WindowChunks(words, window, overlap).Ok?
    requires c in WindowChunks(words, window, overlap).value
    ensures c == TailChunk(words, window) ||
      (window > overlap && c in JoinWords(FullWindowsFrom(words, window, window - overlap, 0)))
  {
  }

  /** Every full window from word i on re-splits into exactly `window`
      words. */
  lemma {:induction false} FullChunkWords(words: seq<string>, window: nat, step: nat, i: nat, c: string)
    requires step >= 1
    requires forall j :: 0 <= j < |words| ==> IsWord(words[j])
    requires c in JoinWords(FullWindowsFrom(words, window, step, i))
    ensures |Words(c)| == window
    decreases |words| - i
  {
    var ws := FullWindowsFrom(words, window, step, i);
    var rest := FullWindowsFrom(words, window, step, i + step);
    assert ws == [words[i..i + window]] + rest;
    var k :| 0 <= k < |ws| && JoinWords(ws)[k] == c;
    if k == 0 {
      SliceWordCount(words, i, window);
    } else {
      assert JoinWords(rest)[k - 1] == c;
      FullChunkWords(words, window, step, i + step, c);
    }
  }

  /** A stretch of `window` words joined with spaces re-splits into `window`
      words. */
  lemma SliceWordCount(words: seq<string>, lo: nat, window: nat)
    requires lo + window <= |words|
    requires forall j :: 0 <= j < |words| ==> IsWord(words[j])
    ensures |Words(Join(" ", words[lo..lo + window]))| == window
  {
    WordsOfSlice(words, lo, lo + window);
  }

  /** The tail chunk re-splits into the last `window` words. */
  lemma TailChunkWords(words: seq<string>, window: nat)
    requires window <= |words|
    requires forall j :: 0 <= j < |words| ==> IsWord(words[j])
    ensures Words(TailChunk(words, window)) == words[|words| - window..]
  {
    assert words[|words| - window..] == words[|words| - window..|words|];
    WordsOfSlice(words, |words| - window, |words|);
  }

  /** Every window chunk re-splits into exactly `window` words. */
  lemma WindowChunksHaveWindowWords(words: seq<string>, window: nat, overlap: int, c: string)
    requires 1 <= window < |words|
    requires forall j :: 0 <= j < |words| ==> IsWord(words[j])
    requires WindowChunks(words, window, overlap).Ok?
    requires c in WindowChunks(words, window, overlap).value
    ensures |Words(c)| == window
  {
    WindowChunkSource(words, window, overlap, c);
    SourcedChunkWords(words, window, overlap, c);
  }

  /** A chunk that is the tail or a full window has `window` words. */
  lemma SourcedChunkWords(words: seq<string>, window: nat, overlap: int, c: string)
    requires 1 <= window < |words|
    requires forall j :: 0 <= j < |words| ==> IsWord(words[j])
    requires c == TailChunk(words, window) ||
      (window > overlap && c in JoinWords(FullWindowsFrom(words, window, window - overlap, 0)))
    ensures |Words(c)| == window
  {
    if c == TailChunk(words, window) {
      TailChunkWords(words, window);
    } else {
      FullChunkWords(words, window, window - overlap, 0, c);
    }
  }

  /** Beyond the single-chunk case every chunk has exactly `window` words. */
  lemma ChunksHaveWindowWords(text: string, window: nat, overlap: int, c: string)
    requires window >= 1
    requires |Words(text)| > window
    requires SlidingWindowChunks(text, window, overlap).Ok?
    requires c in SlidingWindowChunks(text, window, overlap).value
    ensures |Words(c)| == window
  {
    WindowChunksHaveWindowWords(Words(text), window, overlap, c);
  }

  /** 120 words with window 50 and step 40 have full windows at 0 and 40. */
  lemma FullWindowsOf120(w: seq<string>)
    requires |w| == 120
    ensures JoinWords(FullWindowsFrom(w, 50, 40, 0)) == [Join(" ", w[0..50]), Join(" ", w[40..90])]
  {
    var ws := FullWindowsFrom(w, 50, 40, 0);
    assert FullWindowsFrom(w, 50, 40, 80) == [];
    assert FullWindowsFrom(w, 50, 40, 40) == [w[40..90]];
    assert ws == [w[0..50], w[40..90]];
  }

  /** Two stretches of distinct words that start at different words join to
      different strings. */
  lemma JoinedStretchesDiffer(w: seq<string>, lo1: nat, hi1: nat, lo2: nat, hi2: nat)
    requires lo1 < hi1 <= |w| && lo2 < hi2 <= |w| && lo1 != lo2
    requires forall j :: 0 <= j < |w| ==> IsWord(w[j])
    requires forall i, j :: 0 <= i < j < |w| ==> w[i] != w[j]
    ensures Join(" ", w[lo1..hi1]) != Join(" ", w[lo2..hi2])
  {
    WordsOfSlice(w, lo1, hi1);
    WordsOfSlice(w, lo2, hi2);
    assert Words(Join(" ", w[lo1..hi1]))[0] == w[lo1];
    assert Words(Join(" ", w[lo2..hi2]))[0] == w[lo2];
  }

  /** 120 distinct words with window 50 and overlap 10: full windows at 0
      and 40, then the forced tail [70:120]. */
  lemma WindowChunksOf120(w: seq<string>)
    requires |w| == 120
    requires forall j :: 0 <= j < |w| ==> IsWord(w[j])
    requires forall i, j :: 0 <= i < j < |w| ==> w[i] != w[j]
    ensures WindowChunks(w, 50, 10) == Ok([Join(" ", w[0..50]), Join(" ", w[40..90]), Join(" ", w[70..120])])
  {
    var a, b, t := Join(" ", w[0..50]), Join(" ", w[40..90]), Join(" ", w[70..120]);
    FullWindowsOf120(w);
    var full := JoinWords(FullWindowsFrom(w, 50, 40, 0));
    assert full == [a, b];
    JoinedStretchesDiffer(w, 70, 120, 0, 50);
    JoinedStretchesDiffer(w, 70, 120, 40, 90);
    assert w[70..] == w[70..120];
    assert TailChunk(w, 50) == t;
    assert t !in full;
    assert WindowChunks(w, 50, 10) == Ok(full + [t]);
    assert full + [t] == [a, b, t];
  }

  /** The 120-word lore example of the chunker: three chunks, the last one
      forced to end at the final word (distinct words keep it apart). */
  lemma ChunksOf120Words(text: string)
    requires |Words(text)| == 120
    requires var w := Words(text); forall i, j :: 0 <= i < j < |w| ==> w[i] != w[j]
    ensures var w := Words(text);
      SlidingWindowChunks(text, 50, 10) == Ok([Join(" ", w[0..50]), Join(" ", w[40..90]), Join(" ", w[70..120])])
  {
    WindowChunksOf120(Words(text));
  }

  /** The `range(0, n - window + 1, step)` loop of
      `create_sliding_window_chunks`: one joined chunk per full window. */
  method FullWindowChunks(words: seq<string>, window: nat, step: nat) returns (chunks: seq<string>)
    requires step >= 1
    ensures chunks == JoinWords(FullWindowsFrom(words, window, step, 0))
  {
    chunks := [];
    ghost var done: seq<seq<string>> := [];
    var i: nat := 0;
    while i < |words| - window + 1
      invariant done + FullWindowsFrom(words, window, step, i) == FullWindowsFrom(words, window, step, 0)
      invariant chunks == JoinWords(done)
      decreases |words| - i
    {
      assert FullWindowsFrom(words, window, step, i) == [words[i..i + window]] + FullWindowsFrom(words, window, step, i + step);
      JoinWordsSnoc(done, words[i..i + window]);
      done := done + [words[i..i + window]];
      chunks := chunks + [Join(" ", words[i..i + window])];
      i := i + step;
    }
    assert done == FullWindowsFrom(words, window, step, 0);
  }

  /** `create_sliding_window_chunks`, built as the source does: a `range`
      loop appending full windows, then the membership-checked tail. */
  method CreateSlidingWindowChunks(text: string, window: nat, overlap: int) returns (r: Result<seq<string>>)
    requires window >= 1
    ensures r == SlidingWindowChunks(text, window, overlap)
  {
    var words := Words(text);
    if |words| <= window {
      return Ok([text]);
    }
    var step := window - overlap;
    if step == 0 {
      return Err(ValueError);
    }
    var chunks: seq<string> := [];
    if step > 0 {
      chunks := FullWindowChunks(words, window, step);
    }
    assert chunks == if step > 0 then JoinWords(FullWindowsFrom(words, window, step, 0)) else [];
    var last := Join(" ", words[|words| - window..]);
    assert last == TailChunk(words, window);
    if last !in chunks {
      chunks := chunks + [last];
    }
    assert step < 0 ==> chunks == [last];
    assert Ok(chunks) == WindowChunks(words, window, overlap);
    return Ok(chunks);
  }

  // ---------------------------------------------------------------- records

  /** A chunk as `initialize_world_context` writes it, with its metadata. */
  datatype ChunkRecord = ChunkRecord(
    id: string, document: string, kind: string, category: string,
    chunkIndex: nat, totalChunks: nat, wordCount: nat)

  const ChunkIdPrefix := "world_context_chunk_"

  function ChunkId(i: nat): (id: string)
    ensures |id| >= |ChunkIdPrefix| && id[..|ChunkIdPrefix|] == ChunkIdPrefix
  {
    ChunkIdPrefix + ZeroPadded(i, IdWidth)
  }

  /** After the prefix, the id of chunk i is digits that read back as i. */
  lemma ChunkIdValue(i: nat)
    ensures IsDigits(ChunkId(i)[|ChunkIdPrefix|..]) && DecimalValue(ChunkId(i)[|ChunkIdPrefix|..]) == i
  {
    ZeroPaddedValue(i, IdWidth);
    assert ChunkId(i)[|ChunkIdPrefix|..] == ZeroPadded(i, IdWidth);
  }

  function ChunkRecordAt(chunks: seq<string>, i: nat): ChunkRecord
    requires i < |chunks|
  {
    ChunkRecord(ChunkId(i), chunks[i], "world_context", "lore", i, |chunks|, |Words(chunks[i])|)
  }

  /** The records of a chunk list: chunk i under id `world_context_chunk_{i:04d}`,
      index i, the chunk total and its own word count. */
  function ChunkRecords(chunks: seq<string>): (rs: seq<ChunkRecord>)
    ensures |rs| == |chunks|
    ensures forall i :: 0 <= i < |rs| ==> rs[i] == ChunkRecordAt(chunks, i)
  {
    seq(|chunks|, i requires 0 <= i < |chunks| => ChunkRecordAt(chunks, i))
  }

  /** Chunk ids never collide, so no record overwrites another. */
  lemma ChunkIdsDistinct(chunks: seq<string>, i: nat, j: nat)
    requires i < j < |chunks|
    ensures ChunkRecords(chunks)[i].id != ChunkRecords(chunks)[j].id
  {
    ZeroPaddedInjective(i, j, IdWidth);
    assert ChunkId(i)[|ChunkIdPrefix|..] == ZeroPadded(i, IdWidth);
    assert ChunkId(j)[|ChunkIdPrefix|..] == ZeroPadded(j, IdWidth);
  }

  /** The lore `initialize_world_context` chunks: the stripped file when it
      exists and is non-empty, otherwise the built-in default. */
  function LoreText(file: Option<string>, defaultText: string): (text: string)
    ensures file.None? || file.value == "" ==> text == defaultText
    ensures file.Some? && file.value != "" ==> |text| <= |file.value| && (text == [] <==> AllSpace(file.value))
    ensures file.Some? && text != [] && file.value != "" ==> !IsSpace(text[0]) && !IsSpace(text[|text| - 1])
    ensures file.Some? && file.value != "" ==> text == Strip(file.value)
  {
    if file.Some? && file.value != "" then Strip(file.value) else defaultText
  }

  /** `initialize_world_context`: chunk the lore with window 50 and overlap 10
      and write one record per chunk, in order. */
  method InitializeWorldContext(file: Option<string>, defaultText: string) returns (written: seq<ChunkRecord>)
    ensures var chunks := SlidingWindowChunks(LoreText(file, defaultText), LoreWindow, LoreOverlap);
      chunks.Ok? && written == ChunkRecords(chunks.value)
  {
    var r := CreateSlidingWindowChunks(LoreText(file, defaultText), LoreWindow, LoreOverlap);
    written := WriteChunkRecords(r.value);
  }

  /** The `for i, chunk in enumerate(chunks)` loop of
      `initialize_world_context`: one record per chunk, in order. */
  method WriteChunkRecords(chunks: seq<string>) returns (written: seq<ChunkRecord>)
    ensures written == ChunkRecords(chunks)
  {
    written := [];
    var i := 0;
    while i < |chunks|
      invariant 0 <= i <= |chunks|
      invariant written == ChunkRecords(chunks)[..i]
    {
      assert ChunkRecords(chunks)[..i + 1] == ChunkRecords(chunks)[..i] + [ChunkRecordAt(chunks, i)];
      written := written + [ChunkRecordAt(chunks, i)];
      i := i + 1;
    }
    assert ChunkRecords(chunks)[..i] == ChunkRecords(chunks);
  }

  /** With more than 50 words of lore, every record counts 50 words. */
  lemma LoreRecordsCountFullWindows(file: Option<string>, defaultText: string, i: nat)
    requires |Words(LoreText(file, defaultText))| > LoreWindow
    requires var chunks := SlidingWindowChunks(LoreText(file, defaultText), LoreWindow, LoreOverlap);
      chunks.Ok? && i < |chunks.value|
    ensures ChunkRecords(SlidingWindowChunks(LoreText(file, defaultText), LoreWindow, LoreOverlap).value)[i].wordCount == LoreWindow
  {
    var text := LoreText(file, defaultText);
    var chunks := SlidingWindowChunks(text, LoreWindow, LoreOverlap).value;
    ChunksHaveWindowWords(text, LoreWindow, LoreOverlap, chunks[i]);
  }
}
