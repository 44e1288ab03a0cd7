/** The overlapping text chunker: blocks are stripped and joined, and cut into chunks that report character offsets. */
module ChunkText {
  import opened Basics
  import opened PythonStrings

  const CHUNK_SIZE := 800
  const CHUNK_OVERLAP := 150
  const MIN_CHUNK_SIZE := 50

  datatype Block = Block(page: int, text: string, bbox: seq<real>)

  datatype Chunk = Chunk(text: string, page: int, bbox: seq<real>, start: int, end: int)

  /** `s[-k:]`: the last k characters, all of s when k is 0, and s without its first -k when k is negative. */
  function SliceFromEnd(s: string, k: int): string {
    if k > |s| then s
    else if k > 0 then s[|s| - k..]
    else if -k <= |s| then s[-k..]
    else ""
  }

  // ---- The chunker as a state that blocks are fed to ----

  /** The local variables of the loop. */
  datatype State = State(chunks: seq<Chunk>, text: string, page: int, bbox: seq<real>, offset: int)

  function Start(blocks: seq<Block>): State {
    if blocks == [] then State([], "", 1, [], 0) else State([], "", blocks[0].page, blocks[0].bbox, 0)
  }

  function Emit(st: State): Chunk {
    Chunk(Strip(st.text), st.page, st.bbox, st.offset, st.offset + |st.text|)
  }

  predicate MustCut(st: State, text: string, size: int) {
    |st.text| + |text| + 1 > size && |st.text| >= MIN_CHUNK_SIZE
  }

  function Overlap(text: string, k: int): string {
    if |text| > k then SliceFromEnd(text, k) else ""
  }

  function CutHere(st: State, block: Block, k: int): State {
    State(st.chunks + [Emit(st)], Overlap(st.text, k), block.page, block.bbox, st.offset + |st.text| - k)
  }

  function Add(st: State, block: Block, text: string): State {
    if st.text != "" then st.(text := st.text + "\n" + text)
    else st.(text := text, page := block.page, bbox := block.bbox)
  }

  function Feed(st: State, block: Block, size: int, k: int): State {
    var text := Strip(block.text);
    if text == "" then st
    else Add(if MustCut(st, text, size) then CutHere(st, block, k) else st, block, text)
  }

  function FeedAll(blocks: seq<Block>, n: nat, size: int, k: int): State
    requires n <= |blocks|
  {
    if n == 0 then Start(blocks) else Feed(FeedAll(blocks, n - 1, size, k), blocks[n - 1], size, k)
  }

  function Finish(st: State): seq<Chunk> {
    var rest := Strip(st.text);
    if rest == "" then st.chunks
    else if |rest| >= MIN_CHUNK_SIZE || st.chunks == [] then st.chunks + [Emit(st)]
    else
      var last := |st.chunks| - 1;
      st.chunks[last := st.chunks[last].(text := st.chunks[last].text + "\n" + rest, end := st.offset + |st.text|)]
  }

  function Chunks(blocks: seq<Block>, size: int, k: int): seq<Chunk> {
    Finish(FeedAll(blocks, |blocks|, size, k))
  }

  method ChunkTextBlocks(blocks: seq<Block>, chunkSize: int, chunkOverlap: int) returns (chunks: seq<Chunk>)
    ensures chunks == Chunks(blocks, chunkSize, chunkOverlap)
  {
    chunks := [];
    if blocks == [] {
      return;
    }
    var text, page, bbox, offset := "", blocks[0].page, blocks[0].bbox, 0;
    for i := 0 to |blocks|
      invariant FeedAll(blocks, i, chunkSize, chunkOverlap) == State(chunks, text, page, bbox, offset)
    {
      var block := blocks[i];
      var stripped := Strip(block.text);
      if stripped != "" {
        if |text| + |stripped| + 1 > chunkSize && |text| >= MIN_CHUNK_SIZE {
          chunks := chunks + [Chunk(Strip(text), page, bbox, offset, offset + |text|)];
          offset := offset + |text| - chunkOverlap;
          text := if |text| > chunkOverlap then SliceFromEnd(text, chunkOverlap) else "";
          page, bbox := block.page, block.bbox;
        }
        if text != "" {
          text := text + "\n" + stripped;
        } else {
          text, page, bbox := stripped, block.page, block.bbox;
        }
      }
    }
    if Strip(text) != "" {
      if |Strip(text)| >= MIN_CHUNK_SIZE || chunks == [] {
        chunks := chunks + [Chunk(Strip(text), page, bbox, offset, offset + |text|)];
      } else {
        var last := |chunks| - 1;
        chunks := chunks[last := chunks[last].(text := chunks[last].text + "\n" + Strip(text), end := offset + |text|)];
      }
    }
  }

  // ---- The joined text the offsets are meant to index ----

  function Joined(blocks: seq<Block>, n: nat): string
    requires n <= |blocks|
  {
    if n == 0 then "" else
      var before, text := Joined(blocks, n - 1), Strip(blocks[n - 1].text);
      if text == "" then before else if before == "" then text else before + "\n" + text
  }

  /** The current text is always a suffix of what was joined so far, so it has a true start in the joined text. */
  ghost predicate IsSuffix(s: string, t: string) {
    |s| <= |t| && s == t[|t| - |s|..]
  }

  lemma SuffixAppend(s: string, t: string, x: string)
    requires IsSuffix(s, t)
    ensures IsSuffix(s + "\n" + x, t + "\n" + x) && IsSuffix(x, t + "\n" + x)
  {
    assert (s + "\n" + x) == (t + "\n" + x)[|t| - |s|..];
    assert x == (t + "\n" + x)[|t| + 1..];
  }

  lemma OverlapIsSuffix(text: string, k: int, t: string)
    requires IsSuffix(text, t)
    ensures IsSuffix(Overlap(text, k), t)
    ensures 0 < k < |text| ==> |Overlap(text, k)| == k
  {
    assert t[|t|..] == "";
  }

  lemma {:induction false} TextIsSuffix(blocks: seq<Block>, n: nat, size: int, k: int)
    requires n <= |blocks|
    ensures var st, joined := FeedAll(blocks, n, size, k), Joined(blocks, n);
            IsSuffix(st.text, joined) && (joined == "" <==> st.text == "") && (st.text != "" ==> EndsInText(st.text))
  {
    if n > 0 {
      TextIsSuffix(blocks, n - 1, size, k);
      var st, joined, text := FeedAll(blocks, n - 1, size, k), Joined(blocks, n - 1), Strip(blocks[n - 1].text);
      StripEnds(blocks[n - 1].text);
      if text != "" && joined != "" {
        var kept := if MustCut(st, text, size) then Overlap(st.text, k) else st.text;
        OverlapIsSuffix(st.text, k, joined);
        SuffixAppend(kept, joined, text);
      }
    }
  }

  // ---- When the offsets are exact ----

  /** Every chunk that was cut off while feeding n blocks was longer than a positive overlap. */
  ghost predicate CutsFit(blocks: seq<Block>, n: nat, size: int, k: int)
    requires n <= |blocks|
  {
    n > 0 ==>
      var st, text := FeedAll(blocks, n - 1, size, k), Strip(blocks[n - 1].text);
      CutsFit(blocks, n - 1, size, k) && (text != "" && MustCut(st, text, size) ==> 0 < k < |st.text|)
  }

  /** How far the recorded offset is from the true start of the current text. */
  function Drift(blocks: seq<Block>, n: nat, size: int, k: int): int
    requires n <= |blocks|
  {
    FeedAll(blocks, n, size, k).offset - (|Joined(blocks, n)| - |FeedAll(blocks, n, size, k).text|)
  }

  lemma OverlapLength(text: string, k: int)
    ensures |Overlap(text, k)| == if k >= |text| then 0 else if k > 0 then k
                                  else if k == 0 then |text| else Max(0, |text| + k)
  {
  }

  /** A cut that fits leaves the drift alone; any other moves it away, down when k is positive and up otherwise. */
  lemma FeedDrift(st: State, joined: nat, block: Block, size: int, k: int)
    requires |st.text| <= joined && (joined == 0 <==> st.text == "") && Strip(block.text) != ""
    ensures var text, st' := Strip(block.text), Feed(st, block, size, k);
            var drift, drift' := st.offset - joined + |st.text|,
                                 st'.offset - (if joined == 0 then |text| else joined + 1 + |text|) + |st'.text|;
            if !MustCut(st, text, size) || 0 < k < |st.text| then drift' == drift
            else if k > 0 then drift' < drift else drift' > drift
  {
    var text := Strip(block.text);
    if MustCut(st, text, size) {
      var cut := CutHere(st, block, k);
      OverlapLength(st.text, k);
      assert |Add(cut, block, text).text| == (if cut.text == "" then |text| else |cut.text| + 1 + |text|);
    }
  }

  /** Drift never shrinks back: it is zero exactly while every cut has fitted. */
  lemma {:induction false} DriftIsZeroIff(blocks: seq<Block>, n: nat, size: int, k: int)
    requires n <= |blocks|
    ensures Drift(blocks, n, size, k) == 0 <==> CutsFit(blocks, n, size, k)
    ensures if k > 0 then Drift(blocks, n, size, k) <= 0 else Drift(blocks, n, size, k) >= 0
  {
    if n > 0 {
      DriftIsZeroIff(blocks, n - 1, size, k);
      TextIsSuffix(blocks, n - 1, size, k);
      if Strip(blocks[n - 1].text) != "" {
        FeedDrift(FeedAll(blocks, n - 1, size, k), |Joined(blocks, n - 1)|, blocks[n - 1], size, k);
      }
    }
  }

  lemma FinishEnds(st: State)
    requires EndsInText(st.text)
    ensures Finish(st) != [] && Finish(st)[|Finish(st)| - 1].end == st.offset + |st.text|
  {
    StripEnds(st.text);
  }

  /** For every input with text, the last end is the length of the joined text if and only if every cut fitted. */
  lemma LastEndIsExactIff(blocks: seq<Block>, size: int, k: int)
    requires Joined(blocks, |blocks|) != ""
    ensures var chunks := Chunks(blocks, size, k);
            && chunks != []
            && (chunks[|chunks| - 1].end == |Joined(blocks, |blocks|)| <==> CutsFit(blocks, |blocks|, size, k))
  {
    TextIsSuffix(blocks, |blocks|, size, k);
    FinishEnds(FeedAll(blocks, |blocks|, size, k));
    DriftIsZeroIff(blocks, |blocks|, size, k);
  }

  // ---- Tiling ----

  /** The chunk reports the range of the joined text it was cut from. */
  ghost predicate Exact(c: Chunk, joined: string) {
    0 <= c.start <= c.end <= |joined| && c.text == Strip(joined[c.start..c.end])
  }

  /** The first chunk starts at 0 and each next one k characters before the end of the one before. */
  ghost predicate Chained(chunks: seq<Chunk>, k: int) {
    && (chunks != [] ==> chunks[0].start == 0)
    && (forall i :: 0 < i < |chunks| ==> chunks[i].start == chunks[i - 1].end - k)
  }

  function NextStart(chunks: seq<Chunk>, k: int): int {
    if chunks == [] then 0 else chunks[|chunks| - 1].end - k
  }

  ghost predicate AllExact(chunks: seq<Chunk>, joined: string, k: int) {
    forall i :: 0 <= i < |chunks| ==> Exact(chunks[i], joined) && chunks[i].start <= chunks[i].end - k
  }

  /** What is known after n blocks while every cut fitted. */
  ghost predicate Tiling(st: State, joined: string, k: int) {
    && AllExact(st.chunks, joined, k)
    && Chained(st.chunks, k)
    && (joined != "" ==> st.offset == NextStart(st.chunks, k))
    && 0 <= st.offset == |joined| - |st.text|
  }

  lemma ExactAppend(c: Chunk, joined: string, more: string)
    requires Exact(c, joined)
    ensures Exact(c, joined + more)
  {
    assert (joined + more)[c.start..c.end] == joined[c.start..c.end];
  }

  lemma CutKeepsTiling(st: State, joined: string, block: Block, k: int)
    requires Tiling(st, joined, k) && IsSuffix(st.text, joined) && 0 < k < |st.text|
    ensures Tiling(CutHere(st, block, k), joined, k)
  {
    OverlapLength(st.text, k);
    EmitIsExact(st, joined);
    OneMoreChunk(st.chunks, Emit(st), joined, k);
  }

  lemma EmitIsExact(st: State, joined: string)
    requires IsSuffix(st.text, joined) && 0 <= st.offset == |joined| - |st.text|
    ensures Exact(Emit(st), joined)
  {
    assert st.text == joined[st.offset..st.offset + |st.text|];
  }

  lemma OneMoreChunk(chunks: seq<Chunk>, c: Chunk, joined: string, k: int)
    requires AllExact(chunks, joined, k) && Chained(chunks, k)
    requires Exact(c, joined) && c.start <= c.end - k && c.start == NextStart(chunks, k)
    ensures AllExact(chunks + [c], joined, k) && Chained(chunks + [c], k)
  {
  }

  lemma AddKeepsTiling(st: State, joined: string, block: Block, text: string, k: int)
    requires Tiling(st, joined, k) && IsSuffix(st.text, joined) && text != ""
    requires joined == "" <==> st.text == ""
    requires joined == "" ==> st.chunks == []
    ensures Tiling(Add(st, block, text), if joined == "" then text else joined + "\n" + text, k)
  {
    if joined != "" {
      forall i | 0 <= i < |st.chunks|
        ensures Exact(st.chunks[i], joined + "\n" + text) && st.chunks[i].start <= st.chunks[i].end - k
      {
        ExactAppend(st.chunks[i], joined, "\n" + text);
        assert joined + ("\n" + text) == joined + "\n" + text;
      }
    }
  }

  lemma {:induction false} TilesSoFar(blocks: seq<Block>, n: nat, size: int, k: int)
    requires n <= |blocks| && CutsFit(blocks, n, size, k)
    ensures Tiling(FeedAll(blocks, n, size, k), Joined(blocks, n), k)
    ensures Joined(blocks, n) == "" ==> FeedAll(blocks, n, size, k).chunks == []
  {
    if n > 0 {
      TilesSoFar(blocks, n - 1, size, k);
      TextIsSuffix(blocks, n - 1, size, k);
      var st, joined, block := FeedAll(blocks, n - 1, size, k), Joined(blocks, n - 1), blocks[n - 1];
      var text := Strip(block.text);
      if text != "" {
        if MustCut(st, text, size) {
          CutKeepsTiling(st, joined, block, k);
          OverlapIsSuffix(st.text, k, joined);
          AddKeepsTiling(CutHere(st, block, k), joined, block, text, k);
        } else {
          AddKeepsTiling(st, joined, block, text, k);
        }
      }
    }
  }

  /** Whether the rest is joined to the last chunk instead of becoming one. */
  predicate Merges(st: State) {
    st.text != "" && |Strip(st.text)| < MIN_CHUNK_SIZE && st.chunks != []
  }

  /**
   * The chunks tile the joined text: they are chained from 0 to its end with k characters of overlap, and each holds
   * the stripped text of its range. A short rest is joined to the last chunk, whose text then repeats the overlap.
   */
  ghost predicate Tiles(chunks: seq<Chunk>, joined: string, k: int) {
    && chunks != []
    && Chained(chunks, k)
    && (forall i :: 0 <= i < |chunks| - 1 ==> Exact(chunks[i], joined))
    && var last := chunks[|chunks| - 1];
       && last.end == |joined|
       && (Exact(last, joined) || exists cut :: MergedAt(last, joined, cut, k))
  }

  ghost predicate MergedAt(c: Chunk, joined: string, cut: int, k: int) {
    && 0 <= c.start <= cut <= c.end == |joined| && 0 <= cut - k <= cut
    && |Strip(joined[cut - k..])| < MIN_CHUNK_SIZE
    && c.text == Strip(joined[c.start..cut]) + "\n" + Strip(joined[cut - k..])
  }

  lemma FinishMerges(st: State, joined: string, k: int)
    requires Tiling(st, joined, k) && IsSuffix(st.text, joined) && k > 0 && Merges(st)
    ensures var last := |st.chunks| - 1;
            var c := st.chunks[last].(text := st.chunks[last].text + "\n" + Strip(st.text),
                                      end := st.offset + |st.text|);
            MergedAt(c, joined, st.chunks[last].end, k)
  {
    var last := st.chunks[|st.chunks| - 1];
    assert Exact(last, joined);
    assert st.text == joined[last.end - k..];
  }

  lemma FinishTiles(st: State, joined: string, k: int)
    requires Tiling(st, joined, k) && IsSuffix(st.text, joined) && EndsInText(st.text) && k > 0
    ensures Tiles(Finish(st), joined, k)
  {
    StripEnds(st.text);
    if Merges(st) {
      var last := |st.chunks| - 1;
      FinishMerges(st, joined, k);
      LastReplaced(st.chunks,
                   st.chunks[last].(text := st.chunks[last].text + "\n" + Strip(st.text),
                                    end := st.offset + |st.text|), joined, k);
    } else {
      EmitIsExact(st, joined);
      LastAdded(st.chunks, Emit(st), joined, k);
    }
  }

  lemma LastReplaced(chunks: seq<Chunk>, c: Chunk, joined: string, k: int)
    requires AllExact(chunks, joined, k) && Chained(chunks, k) && chunks != []
    requires c.start == chunks[|chunks| - 1].start && MergedAt(c, joined, chunks[|chunks| - 1].end, k)
    ensures Tiles(chunks[|chunks| - 1 := c], joined, k)
  {
  }

  lemma LastAdded(chunks: seq<Chunk>, c: Chunk, joined: string, k: int)
    requires AllExact(chunks, joined, k) && Chained(chunks, k)
    requires Exact(c, joined) && c.end == |joined| && c.start == NextStart(chunks, k)
    ensures Tiles(chunks + [c], joined, k)
  {
    var all := chunks + [c];
    forall i | 0 <= i < |all| - 1 ensures Exact(all[i], joined) {
      assert all[i] == chunks[i];
    }
  }

  /** Whenever every cut fits, and so for every input when 0 < k < 50, the chunks tile the joined text. */
  lemma ChunksTile(blocks: seq<Block>, size: int, k: int)
    requires Joined(blocks, |blocks|) != "" && CutsFit(blocks, |blocks|, size, k) && k > 0
    ensures Tiles(Chunks(blocks, size, k), Joined(blocks, |blocks|), k)
  {
    TilesSoFar(blocks, |blocks|, size, k);
    TextIsSuffix(blocks, |blocks|, size, k);
    FinishTiles(FeedAll(blocks, |blocks|, size, k), Joined(blocks, |blocks|), k);
  }

  // ---- For which overlaps this holds of every input ----

  lemma {:induction false} SmallOverlapsFit(blocks: seq<Block>, n: nat, size: int, k: int)
    requires n <= |blocks| && 0 < k < MIN_CHUNK_SIZE
    ensures CutsFit(blocks, n, size, k)
  {
    if n > 0 {
      SmallOverlapsFit(blocks, n - 1, size, k);
    }
  }

  /** A first block of 50 characters and a long second one: the cut falls at 50, so no other overlap fits. */
  function Witness(size: int): seq<Block> {
    [Block(1, seq(MIN_CHUNK_SIZE, _ => 'a'), []), Block(1, seq(Max(MIN_CHUNK_SIZE, size), _ => 'b'), [])]
  }

  lemma WitnessDoesNotFit(size: int, k: int)
    requires !(0 < k < MIN_CHUNK_SIZE)
    ensures Joined(Witness(size), 2) != "" && !CutsFit(Witness(size), 2, size, k)
  {
    var blocks := Witness(size);
    StripPlain(blocks[0].text);
    StripPlain(blocks[1].text);
    assert FeedAll(blocks, 0, size, k) == Start(blocks);
    assert FeedAll(blocks, 1, size, k).text == blocks[0].text;
    assert MustCut(FeedAll(blocks, 1, size, k), blocks[1].text, size);
    assert Joined(blocks, 1) == blocks[0].text;
  }

  ghost predicate TilesEveryInput(size: int, k: int) {
    forall blocks: seq<Block> :: Joined(blocks, |blocks|) != "" ==>
      Tiles(Chunks(blocks, size, k), Joined(blocks, |blocks|), k)
  }

  /** Whatever the chunk size, the chunks of every input tile its joined text if and only if 0 < k < 50. */
  lemma TilesEveryInputIff(size: int, k: int)
    ensures TilesEveryInput(size, k) <==> 0 < k < MIN_CHUNK_SIZE
  {
    if 0 < k < MIN_CHUNK_SIZE {
      forall blocks: seq<Block> | Joined(blocks, |blocks|) != ""
        ensures Tiles(Chunks(blocks, size, k), Joined(blocks, |blocks|), k)
      {
        SmallOverlapsFit(blocks, |blocks|, size, k);
        ChunksTile(blocks, size, k);
      }
    } else {
      var blocks := Witness(size);
      WitnessDoesNotFit(size, k);
      assert |blocks| == 2;
      LastEndIsExactIff(blocks, size, k);
      assert !Tiles(Chunks(blocks, size, k), Joined(blocks, |blocks|), k);
    }
  }

  /** The module's own defaults, 800 and 150, do not tile every input. */
  lemma DefaultsDoNotTile()
    ensures !TilesEveryInput(CHUNK_SIZE, CHUNK_OVERLAP)
  {
    TilesEveryInputIff(CHUNK_SIZE, CHUNK_OVERLAP);
  }

  // ---- Where a block ends up ----

  /** The place of block i in the joined text. */
  function PlaceOf(blocks: seq<Block>, i: nat): nat
    requires i < |blocks|
  {
    if Joined(blocks, i) == "" then 0 else |Joined(blocks, i)| + 1
  }

  ghost predicate Inside(chunks: seq<Chunk>, from: int, to: int) {
    exists c :: 0 <= c < |chunks| && chunks[c].start <= from && to <= chunks[c].end
  }

  lemma {:induction false} JoinedGrows(blocks: seq<Block>, i: nat, n: nat)
    requires i < n <= |blocks| && Strip(blocks[i].text) != ""
    ensures var p, text := PlaceOf(blocks, i), Strip(blocks[i].text);
            p + |text| <= |Joined(blocks, n)| && Joined(blocks, n)[p..p + |text|] == text
  {
    if n > i + 1 {
      JoinedGrows(blocks, i, n - 1);
    }
  }

  lemma {:induction false} CoveredSoFar(blocks: seq<Block>, i: nat, n: nat, size: int, k: int)
    requires i < n <= |blocks| && Strip(blocks[i].text) != "" && CutsFit(blocks, n, size, k)
    ensures var p := PlaceOf(blocks, i); var st := FeedAll(blocks, n, size, k);
            Inside(st.chunks, p, p + |Strip(blocks[i].text)|) || st.offset <= p
  {
    var p, st := PlaceOf(blocks, i), FeedAll(blocks, n - 1, size, k);
    var to := p + |Strip(blocks[i].text)|;
    NextPlace(blocks, n - 1, size, k);
    OffsetIs(blocks, n - 1, size, k);
    if n - 1 > i {
      CoveredSoFar(blocks, i, n - 1, size, k);
      JoinedGrows(blocks, i, n - 1);
      if Strip(blocks[n - 1].text) != "" && MustCut(st, Strip(blocks[n - 1].text), size) {
        CutCovers(st, blocks[n - 1], k, p, to);
      }
    }
  }

  lemma OffsetIs(blocks: seq<Block>, n: nat, size: int, k: int)
    requires n <= |blocks| && CutsFit(blocks, n, size, k)
    ensures var st := FeedAll(blocks, n, size, k); st.offset + |st.text| == |Joined(blocks, n)|
  {
    DriftIsZeroIff(blocks, n, size, k);
  }

  /** A cut covers all of the current text. */
  lemma CutCovers(st: State, block: Block, k: int, from: int, to: int)
    requires Inside(st.chunks, from, to) || (st.offset <= from && to <= st.offset + |st.text|)
    ensures Inside(CutHere(st, block, k).chunks, from, to)
  {
    var chunks := CutHere(st, block, k).chunks;
    if Inside(st.chunks, from, to) {
      var c :| 0 <= c < |st.chunks| && st.chunks[c].start <= from && to <= st.chunks[c].end;
      assert chunks[c] == st.chunks[c];
    } else {
      assert chunks[|st.chunks|] == Emit(st);
    }
  }

  /** Finishing adds the range from the last start to the end of the text, and takes no range away. */
  lemma FinishRanges(st: State)
    requires EndsInText(st.text)
    ensures var chunks, n := Finish(st), |st.chunks|;
            && n <= |chunks| && chunks != []
            && (forall c :: 0 <= c < n ==> chunks[c].start == st.chunks[c].start)
            && (forall c :: 0 <= c < n - 1 ==> chunks[c].end == st.chunks[c].end)
            && (n < |chunks| ==> chunks[n].start == st.offset && (n > 0 ==> chunks[n - 1].end == st.chunks[n - 1].end))
            && |chunks| <= n + 1 && chunks[|chunks| - 1].end == st.offset + |st.text|
  {
    StripEnds(st.text);
  }

  lemma FinishCovers(st: State, from: int, to: int)
    requires EndsInText(st.text) && to <= st.offset + |st.text|
    requires forall c :: 0 <= c < |st.chunks| ==> st.chunks[c].end <= st.offset + |st.text|
    requires st.chunks != [] ==> st.chunks[|st.chunks| - 1].start <= st.offset
    requires Inside(st.chunks, from, to) || st.offset <= from
    ensures Inside(Finish(st), from, to)
  {
    var chunks := Finish(st);
    FinishRanges(st);
    if Inside(st.chunks, from, to) {
      var c :| 0 <= c < |st.chunks| && st.chunks[c].start <= from && to <= st.chunks[c].end;
      assert chunks[c].start <= from && to <= chunks[c].end;
    } else {
      assert chunks[|chunks| - 1].start <= from;
    }
  }

  /** While every cut fits, each block stands whole in the joined text and inside the range of some chunk. */
  lemma EveryBlockIsInside(blocks: seq<Block>, i: nat, size: int, k: int)
    requires i < |blocks| && Strip(blocks[i].text) != "" && CutsFit(blocks, |blocks|, size, k) && k > 0
    ensures var p, text, joined := PlaceOf(blocks, i), Strip(blocks[i].text), Joined(blocks, |blocks|);
            && p + |text| <= |joined| && joined[p..p + |text|] == text
            && Inside(Chunks(blocks, size, k), p, p + |text|)
  {
    var n, p := |blocks|, PlaceOf(blocks, i);
    JoinedGrows(blocks, i, n);
    CoveredSoFar(blocks, i, n, size, k);
    TilesSoFar(blocks, n, size, k);
    TextIsSuffix(blocks, n, size, k);
    FinishCovers(FeedAll(blocks, n, size, k), p, p + |Strip(blocks[i].text)|);
  }

  // ---- Page and box ----

  type Origin = (int, int, seq<real>)

  /** Where each block with text begins, with its page and box. */
  function OriginsOf(blocks: seq<Block>): set<Origin> {
    set i | 0 <= i < |blocks| && Strip(blocks[i].text) != "" :: (PlaceOf(blocks, i), blocks[i].page, blocks[i].bbox)
  }

  function FirstNew(chunks: seq<Chunk>, j: nat): int
    requires j <= |chunks|
  {
    if j == 0 then 0 else chunks[j - 1].end + 1
  }

  /** Every chunk, and the current text, have the page and box of the block that begins right after the chunk before. */
  ghost predicate HasOrigins(st: State, origins: set<Origin>) {
    && (forall j :: 0 <= j < |st.chunks| ==> (FirstNew(st.chunks, j), st.chunks[j].page, st.chunks[j].bbox) in origins)
    && (st.text != "" ==> (FirstNew(st.chunks, |st.chunks|), st.page, st.bbox) in origins)
  }

  lemma CutKeepsOrigins(st: State, origins: set<Origin>, block: Block, k: int)
    requires HasOrigins(st, origins) && st.text != ""
    requires (st.offset + |st.text| + 1, block.page, block.bbox) in origins
    ensures HasOrigins(CutHere(st, block, k), origins)
  {
    var chunks := CutHere(st, block, k).chunks;
    forall j | 0 <= j < |chunks| ensures (FirstNew(chunks, j), chunks[j].page, chunks[j].bbox) in origins {
      assert FirstNew(chunks, j) == FirstNew(st.chunks, j);
    }
  }

  lemma FeedKeepsOrigins(st: State, origins: set<Origin>, block: Block, size: int, k: int)
    requires HasOrigins(st, origins) && (st.text == "" ==> st.chunks == [])
    requires MustCut(st, Strip(block.text), size) ==> 0 < k < |st.text|
    requires Strip(block.text) != "" ==>
               (if st.text == "" then 0 else st.offset + |st.text| + 1, block.page, block.bbox) in origins
    ensures HasOrigins(Feed(st, block, size, k), origins)
  {
    if Strip(block.text) != "" && MustCut(st, Strip(block.text), size) {
      OverlapLength(st.text, k);
      CutKeepsOrigins(st, origins, block, k);
    }
  }

  lemma OriginOf(blocks: seq<Block>, i: nat)
    requires i < |blocks| && Strip(blocks[i].text) != ""
    ensures (PlaceOf(blocks, i), blocks[i].page, blocks[i].bbox) in OriginsOf(blocks)
  {
  }

  lemma NextPlace(blocks: seq<Block>, n: nat, size: int, k: int)
    requires n < |blocks| && CutsFit(blocks, n, size, k)
    ensures var st := FeedAll(blocks, n, size, k);
            PlaceOf(blocks, n) == (if st.text == "" then 0 else st.offset + |st.text| + 1)
            && (st.text == "" ==> st.chunks == [])
  {
    TilesSoFar(blocks, n, size, k);
    TextIsSuffix(blocks, n, size, k);
  }

  lemma {:induction false} OriginsSoFar(blocks: seq<Block>, n: nat, size: int, k: int)
    requires n <= |blocks| && CutsFit(blocks, n, size, k)
    ensures HasOrigins(FeedAll(blocks, n, size, k), OriginsOf(blocks))
  {
    if n > 0 {
      var st, block := FeedAll(blocks, n - 1, size, k), blocks[n - 1];
      OriginsSoFar(blocks, n - 1, size, k);
      if Strip(block.text) != "" {
        NextPlace(blocks, n - 1, size, k);
        OriginOf(blocks, n - 1);
        FeedKeepsOrigins(st, OriginsOf(blocks), block, size, k);
      }
    }
  }

  lemma FinishKeepsOrigins(st: State, origins: set<Origin>, j: nat)
    requires HasOrigins(st, origins) && j < |Finish(st)|
    ensures var chunks := Finish(st); (FirstNew(chunks, j), chunks[j].page, chunks[j].bbox) in origins
  {
    assert Strip("") == "";
    if j < |st.chunks| {
      assert FirstNew(Finish(st), j) == FirstNew(st.chunks, j);
    }
  }

  /**
   * While every cut fits, a chunk carries the page and box of the block that begins right after the chunk before it.
   */
  lemma ChunkOrigins(blocks: seq<Block>, size: int, k: int, j: nat)
    requires CutsFit(blocks, |blocks|, size, k) && j < |Chunks(blocks, size, k)|
    ensures var chunks := Chunks(blocks, size, k);
            exists i :: 0 <= i < |blocks| && Strip(blocks[i].text) != ""
                        && (PlaceOf(blocks, i), blocks[i].page, blocks[i].bbox)
                             == (FirstNew(chunks, j), chunks[j].page, chunks[j].bbox)
  {
    OriginsSoFar(blocks, |blocks|, size, k);
    FinishKeepsOrigins(FeedAll(blocks, |blocks|, size, k), OriginsOf(blocks), j);
  }
}
