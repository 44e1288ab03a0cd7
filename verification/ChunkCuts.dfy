/** Where the chunker cuts: the cuts of any input described by lengths alone, and every chunk described by the cuts. */
module ChunkCuts {
  import opened Basics
  import opened PythonStrings
  import opened ChunkText

  // ---- Which blocks are cut before ----

  /** The length of the overlap kept from n characters. */
  function KeptLength(n: nat, k: int): nat {
    if k >= n then 0 else if k > 0 then k else Max(0, n + k)
  }

  /** How many characters are collected before block i, when the blocks `cuts` each begin a new chunk. */
  function Collected(blocks: seq<Block>, cuts: seq<nat>, i: nat, k: int): nat
    requires i <= |blocks|
  {
    if i == 0 then 0 else
      var before, text := Collected(blocks, cuts, i - 1, k), Strip(blocks[i - 1].text);
      var kept := if i - 1 in cuts then KeptLength(before, k) else before;
      if text == "" then before else if kept == 0 then |text| else kept + 1 + |text|
  }

  /** The text of block i would not fit, and at least 50 characters are collected. */
  ghost predicate Begins(blocks: seq<Block>, cuts: seq<nat>, i: nat, size: int, k: int)
    requires i < |blocks|
  {
    var text, before := Strip(blocks[i].text), Collected(blocks, cuts, i, k);
    text != "" && before >= 50 && before + 1 + |text| > size
  }

  /** New chunks begin exactly there. */
  ghost predicate Greedy(blocks: seq<Block>, cuts: seq<nat>, size: int, k: int) {
    && Increasing(cuts) && (forall i :: i in cuts ==> i < |blocks|)
    && forall i: nat :: i < |blocks| ==> (i in cuts <==> Begins(blocks, cuts, i, size, k))
  }

  /** What is collected before block i depends on the earlier cuts only. */
  lemma {:induction false} CollectedBy(blocks: seq<Block>, a: seq<nat>, b: seq<nat>, i: nat, k: int)
    requires i <= |blocks| && forall m: nat :: m < i ==> (m in a <==> m in b)
    ensures Collected(blocks, a, i, k) == Collected(blocks, b, i, k)
  {
    if i > 0 {
      CollectedBy(blocks, a, b, i - 1, k);
    }
  }

  lemma {:induction false} GreedyAgree(blocks: seq<Block>, a: seq<nat>, b: seq<nat>, size: int, k: int, i: nat)
    requires Greedy(blocks, a, size, k) && Greedy(blocks, b, size, k) && i <= |blocks|
    ensures forall m: nat :: m < i ==> (m in a <==> m in b)
  {
    if i > 0 {
      GreedyAgree(blocks, a, b, size, k, i - 1);
      GreedyAgreeAt(blocks, a, b, size, k, i - 1);
      forall m: nat | m < i ensures m in a <==> m in b {
        assert m < i - 1 || m == i - 1;
      }
    }
  }

  lemma GreedyAgreeAt(blocks: seq<Block>, a: seq<nat>, b: seq<nat>, size: int, k: int, i: nat)
    requires Greedy(blocks, a, size, k) && Greedy(blocks, b, size, k) && i < |blocks|
    requires forall m: nat :: m < i ==> (m in a <==> m in b)
    ensures i in a <==> i in b
  {
    CollectedBy(blocks, a, b, i, k);
    BeginsAlike(blocks, a, b, i, size, k);
  }

  lemma BeginsAlike(blocks: seq<Block>, a: seq<nat>, b: seq<nat>, i: nat, size: int, k: int)
    requires i < |blocks| && Collected(blocks, a, i, k) == Collected(blocks, b, i, k)
    ensures Begins(blocks, a, i, size, k) <==> Begins(blocks, b, i, size, k)
  {
  }

  /** There is one way to cut greedily. */
  lemma GreedyIsUnique(blocks: seq<Block>, a: seq<nat>, b: seq<nat>, size: int, k: int)
    requires Greedy(blocks, a, size, k) && Greedy(blocks, b, size, k)
    ensures a == b
  {
    GreedyAgree(blocks, a, b, size, k, |blocks|);
    forall i: nat ensures i in Members(a) <==> i in Members(b) {
      assert i < |blocks| || (i !in a && i !in b);
    }
    SameIncreasing(a, b);
  }

  // ---- The cuts the chunker makes ----

  ghost predicate CutsBefore(blocks: seq<Block>, i: nat, size: int, k: int)
    requires i < |blocks|
  {
    Strip(blocks[i].text) != "" && MustCut(FeedAll(blocks, i, size, k), Strip(blocks[i].text), size)
  }

  ghost function CutsOf(blocks: seq<Block>, n: nat, size: int, k: int): seq<nat>
    requires n <= |blocks|
  {
    if n == 0 then []
    else CutsOf(blocks, n - 1, size, k) + (if CutsBefore(blocks, n - 1, size, k) then [n - 1] else [])
  }

  lemma {:induction false} CutsOfIncrease(blocks: seq<Block>, n: nat, size: int, k: int)
    requires n <= |blocks|
    ensures Increasing(CutsOf(blocks, n, size, k)) && Below(CutsOf(blocks, n, size, k), n)
  {
    if n > 0 {
      CutsOfIncrease(blocks, n - 1, size, k);
      if CutsBefore(blocks, n - 1, size, k) {
        GreaterAtEnd(CutsOf(blocks, n - 1, size, k), n - 1);
      } else {
        assert CutsOf(blocks, n, size, k) == CutsOf(blocks, n - 1, size, k);
      }
    }
  }

  ghost predicate Below(s: seq<nat>, n: nat) {
    forall j :: 0 <= j < |s| ==> s[j] < n
  }

  lemma GreaterAtEnd(s: seq<nat>, m: nat)
    requires Increasing(s) && Below(s, m)
    ensures Increasing(s + [m]) && Below(s + [m], m + 1)
  {
  }

  lemma {:induction false} CutsOfAt(blocks: seq<Block>, n: nat, i: nat, size: int, k: int)
    requires i < n <= |blocks|
    ensures i in CutsOf(blocks, n, size, k) <==> CutsBefore(blocks, i, size, k)
  {
    CutsOfIncrease(blocks, n - 1, size, k);
    if i < n - 1 {
      CutsOfAt(blocks, n - 1, i, size, k);
    }
  }

  lemma CutsOfAre(blocks: seq<Block>, n: nat, size: int, k: int)
    requires n <= |blocks|
    ensures var cuts := CutsOf(blocks, n, size, k);
            && Increasing(cuts) && (forall i :: i in cuts ==> i < n)
            && forall i: nat :: i < n ==> (i in cuts <==> CutsBefore(blocks, i, size, k))
  {
    CutsOfIncrease(blocks, n, size, k);
    forall i: nat | i < n ensures i in CutsOf(blocks, n, size, k) <==> CutsBefore(blocks, i, size, k) {
      CutsOfAt(blocks, n, i, size, k);
    }
  }

  lemma FeedLength(st: State, block: Block, size: int, k: int)
    requires Strip(block.text) != ""
    ensures var text := Strip(block.text);
            var kept := if MustCut(st, text, size) then KeptLength(|st.text|, k) else |st.text|;
            |Feed(st, block, size, k).text| == if kept == 0 then |text| else kept + 1 + |text|
  {
    OverlapLength(st.text, k);
  }

  lemma CollectsNext(blocks: seq<Block>, cuts: seq<nat>, i: nat, size: int, k: int)
    requires i < |blocks| && (i in cuts <==> CutsBefore(blocks, i, size, k))
    requires |FeedAll(blocks, i, size, k).text| == Collected(blocks, cuts, i, k)
    ensures |FeedAll(blocks, i + 1, size, k).text| == Collected(blocks, cuts, i + 1, k)
  {
    if Strip(blocks[i].text) != "" {
      FeedLength(FeedAll(blocks, i, size, k), blocks[i], size, k);
    }
  }

  /** Between the cuts the chunker collects what was described. */
  lemma {:induction false} CollectsSo(blocks: seq<Block>, n: nat, i: nat, size: int, k: int)
    requires i <= n <= |blocks|
    ensures |FeedAll(blocks, i, size, k).text| == Collected(blocks, CutsOf(blocks, n, size, k), i, k)
  {
    if i > 0 {
      CollectsSo(blocks, n, i - 1, size, k);
      CutsOfAt(blocks, n, i - 1, size, k);
      CollectsNext(blocks, CutsOf(blocks, n, size, k), i - 1, size, k);
    }
  }

  /** The chunker cuts greedily. */
  lemma CutsAreGreedy(blocks: seq<Block>, size: int, k: int)
    ensures Greedy(blocks, CutsOf(blocks, |blocks|, size, k), size, k)
  {
    var cuts := CutsOf(blocks, |blocks|, size, k);
    CutsOfAre(blocks, |blocks|, size, k);
    forall i: nat | i < |blocks| ensures i in cuts <==> Begins(blocks, cuts, i, size, k) {
      CollectsSo(blocks, |blocks|, i, size, k);
    }
  }

  // ---- The chunks, given the cuts ----

  /** Each chunk is what the state gave out at its cut. */
  lemma {:induction false} ChunkAtCut(blocks: seq<Block>, n: nat, size: int, k: int)
    requires n <= |blocks|
    ensures var st, cuts := FeedAll(blocks, n, size, k), CutsOf(blocks, n, size, k);
            && |st.chunks| == |cuts|
            && forall j :: 0 <= j < |cuts| ==> cuts[j] < n && st.chunks[j] == Emit(FeedAll(blocks, cuts[j], size, k))
  {
    if n > 0 {
      ChunkAtCut(blocks, n - 1, size, k);
    }
  }

  lemma {:induction false} StartsChain(blocks: seq<Block>, n: nat, size: int, k: int)
    requires n <= |blocks|
    ensures var st := FeedAll(blocks, n, size, k); Chained(st.chunks, k) && st.offset == NextStart(st.chunks, k)
  {
    if n > 0 {
      StartsChain(blocks, n - 1, size, k);
    }
  }

  function LastOf(s: string, n: nat): string {
    if n <= |s| then s[|s| - n..] else s
  }

  ghost predicate IsFirstText(blocks: seq<Block>, i: nat) {
    i < |blocks| && Strip(blocks[i].text) != "" && forall m :: 0 <= m < i ==> Strip(blocks[m].text) == ""
  }

  /** The block that begins the j-th chunk: the first with text, or the one that is cut before. */
  ghost predicate Opens(blocks: seq<Block>, cuts: seq<nat>, j: nat, i: nat)
    requires j <= |cuts|
  {
    if j == 0 then IsFirstText(blocks, i) else i == cuts[j - 1] < |blocks|
  }

  ghost predicate HasOrigin(blocks: seq<Block>, cuts: seq<nat>, j: nat, page: int, bbox: seq<real>)
    requires j <= |cuts|
  {
    exists i: nat :: Opens(blocks, cuts, j, i) && blocks[i].page == page && blocks[i].bbox == bbox
  }

  /** Page and box of the current text are those of the block that began it. */
  lemma {:induction false} OriginSoFar(blocks: seq<Block>, n: nat, size: int, k: int)
    requires n <= |blocks|
    ensures var st, cuts := FeedAll(blocks, n, size, k), CutsOf(blocks, n, size, k);
            && (st.text != "" ==> HasOrigin(blocks, cuts, |cuts|, st.page, st.bbox))
            && (st.text == "" ==> cuts == [] && forall m :: 0 <= m < n ==> Strip(blocks[m].text) == "")
  {
    if n > 0 {
      OriginSoFar(blocks, n - 1, size, k);
      var cuts := CutsOf(blocks, n, size, k);
      if CutsBefore(blocks, n - 1, size, k) {
        assert Opens(blocks, cuts, |cuts|, n - 1);
      } else {
        assert cuts == CutsOf(blocks, n - 1, size, k);
        if FeedAll(blocks, n - 1, size, k).text == "" && Strip(blocks[n - 1].text) != "" {
          assert Opens(blocks, cuts, 0, n - 1);
        }
      }
    }
  }

  lemma {:induction false} CutsOfPrefix(blocks: seq<Block>, n: nat, j: nat, size: int, k: int)
    requires n <= |blocks| && j < |CutsOf(blocks, n, size, k)|
    ensures var cuts := CutsOf(blocks, n, size, k); cuts[j] < n && CutsOf(blocks, cuts[j], size, k) == cuts[..j]
  {
    var before := CutsOf(blocks, n - 1, size, k);
    if j < |before| {
      CutsOfPrefix(blocks, n - 1, j, size, k);
      assert CutsOf(blocks, n, size, k)[..j] == before[..j];
    } else {
      assert CutsOf(blocks, n, size, k)[..j] == before;
    }
  }

  /** The j-th chunk ends before block i: it is the stripped text of what was collected there, and as long. */
  ghost predicate ChunkIs(c: Chunk, blocks: seq<Block>, cuts: seq<nat>, j: nat, i: nat, k: int)
    requires i <= |blocks| && j <= |cuts|
  {
    && c.end - c.start == Collected(blocks, cuts, i, k)
    && c.text == Strip(LastOf(Joined(blocks, i), Collected(blocks, cuts, i, k)))
    && HasOrigin(blocks, cuts, j, c.page, c.bbox)
  }

  lemma EmitIs(blocks: seq<Block>, n: nat, j: nat, i: nat, size: int, k: int)
    requires i <= n <= |blocks| && FeedAll(blocks, i, size, k).text != ""
    requires j <= |CutsOf(blocks, n, size, k)| && CutsOf(blocks, i, size, k) == CutsOf(blocks, n, size, k)[..j]
    ensures ChunkIs(Emit(FeedAll(blocks, i, size, k)), blocks, CutsOf(blocks, n, size, k), j, i, k)
  {
    var st, cuts := FeedAll(blocks, i, size, k), CutsOf(blocks, n, size, k);
    CollectsSo(blocks, n, i, size, k);
    TextIsSuffix(blocks, i, size, k);
    assert st.text == LastOf(Joined(blocks, i), |st.text|);
    OriginSoFar(blocks, i, size, k);
    var m: nat :| Opens(blocks, cuts[..j], j, m) && blocks[m].page == st.page && blocks[m].bbox == st.bbox;
    assert Opens(blocks, cuts, j, m);
  }

  /** All chunks but a last one are those of the cuts. */
  ghost predicate ChunksAre(chunks: seq<Chunk>, n: nat, blocks: seq<Block>, cuts: seq<nat>, k: int) {
    n <= |chunks| && n <= |cuts|
    && forall j :: 0 <= j < n ==> cuts[j] < |blocks| && ChunkIs(chunks[j], blocks, cuts, j, cuts[j], k)
  }

  lemma ChunksSoFar(blocks: seq<Block>, size: int, k: int)
    ensures var st, cuts := FeedAll(blocks, |blocks|, size, k), CutsOf(blocks, |blocks|, size, k);
            |st.chunks| == |cuts| && ChunksAre(st.chunks, |cuts|, blocks, cuts, k)
  {
    var n := |blocks|;
    var st, cuts := FeedAll(blocks, n, size, k), CutsOf(blocks, n, size, k);
    ChunkAtCut(blocks, n, size, k);
    CutsOfAre(blocks, n, size, k);
    forall j | 0 <= j < |cuts| ensures cuts[j] < n && ChunkIs(st.chunks[j], blocks, cuts, j, cuts[j], k) {
      assert cuts[j] in cuts && CutsBefore(blocks, cuts[j], size, k);
      CutsOfPrefix(blocks, n, j, size, k);
      EmitIs(blocks, n, j, cuts[j], size, k);
    }
  }

  /** The rest became a chunk of its own. */
  ghost predicate OwnChunk(chunks: seq<Chunk>, blocks: seq<Block>, cuts: seq<nat>, k: int) {
    var n := |cuts|;
    && |chunks| == n + 1 && ChunksAre(chunks, n, blocks, cuts, k)
    && ChunkIs(chunks[n], blocks, cuts, n, |blocks|, k)
  }

  /** The chunk is c with the rest joined to it. */
  ghost predicate Extends(chunk: Chunk, c: Chunk, rest: string, more: int) {
    chunk == c.(text := c.text + "\n" + rest, end := c.end + more)
  }

  /** The rest was joined to the last chunk. */
  ghost predicate Joins(chunks: seq<Chunk>, blocks: seq<Block>, cuts: seq<nat>, rest: string, more: int, k: int) {
    var n := |cuts|;
    && |chunks| == n > 0
    && exists c :: Extends(chunks[n - 1], c, rest, more) && ChunksAre(chunks[..n - 1] + [c], n, blocks, cuts, k)
  }

  /** The chunks after the last block: the rest is a chunk of its own, or too short and joined to the last one. */
  ghost predicate Finished(chunks: seq<Chunk>, blocks: seq<Block>, cuts: seq<nat>, k: int) {
    var length := Collected(blocks, cuts, |blocks|, k);
    var rest := Strip(LastOf(Joined(blocks, |blocks|), length));
    && Chained(chunks, k)
    && if length == 0 then chunks == []
       else if cuts == [] || |rest| >= 50 then OwnChunk(chunks, blocks, cuts, k)
       else Joins(chunks, blocks, cuts, rest, length - k, k)
  }

  lemma FinishIs(blocks: seq<Block>, size: int, k: int)
    ensures Finished(Chunks(blocks, size, k), blocks, CutsOf(blocks, |blocks|, size, k), k)
  {
    var m := |blocks|;
    var st, cuts := FeedAll(blocks, m, size, k), CutsOf(blocks, m, size, k);
    ChunksSoFar(blocks, size, k);
    StartsChain(blocks, m, size, k);
    CollectsSo(blocks, m, m, size, k);
    if st.text == "" {
      OriginSoFar(blocks, m, size, k);
      assert Strip("") == "";
    } else {
      LastIs(blocks, size, k);
      if cuts == [] || |Strip(st.text)| >= 50 {
        OwnChunkIs(st, blocks, cuts, k);
      } else {
        JoinsIs(st, blocks, cuts, k);
      }
    }
  }

  lemma LastIs(blocks: seq<Block>, size: int, k: int)
    requires FeedAll(blocks, |blocks|, size, k).text != ""
    ensures var st, cuts := FeedAll(blocks, |blocks|, size, k), CutsOf(blocks, |blocks|, size, k);
            && st.text == LastOf(Joined(blocks, |blocks|), |st.text|) && Strip(st.text) != ""
            && ChunkIs(Emit(st), blocks, cuts, |cuts|, |blocks|, k)
  {
    var st, cuts := FeedAll(blocks, |blocks|, size, k), CutsOf(blocks, |blocks|, size, k);
    TextIsSuffix(blocks, |blocks|, size, k);
    StripEnds(st.text);
    assert cuts[..|cuts|] == cuts;
    EmitIs(blocks, |blocks|, |cuts|, |blocks|, size, k);
  }

  lemma OwnChunkIs(st: State, blocks: seq<Block>, cuts: seq<nat>, k: int)
    requires |st.chunks| == |cuts| && ChunksAre(st.chunks, |cuts|, blocks, cuts, k)
    requires Chained(st.chunks, k) && st.offset == NextStart(st.chunks, k)
    requires ChunkIs(Emit(st), blocks, cuts, |cuts|, |blocks|, k)
    requires Strip(st.text) != "" && (cuts == [] || |Strip(st.text)| >= 50)
    ensures OwnChunk(Finish(st), blocks, cuts, k) && Chained(Finish(st), k)
  {
    assert Finish(st) == st.chunks + [Emit(st)];
    OneMore(st.chunks, Emit(st), blocks, cuts, k);
  }

  lemma OneMore(chunks: seq<Chunk>, c: Chunk, blocks: seq<Block>, cuts: seq<nat>, k: int)
    requires |chunks| == |cuts| && ChunksAre(chunks, |cuts|, blocks, cuts, k)
    ensures ChunksAre(chunks + [c], |cuts|, blocks, cuts, k)
  {
    forall j | 0 <= j < |cuts|
      ensures cuts[j] < |blocks| && ChunkIs((chunks + [c])[j], blocks, cuts, j, cuts[j], k) {
      assert (chunks + [c])[j] == chunks[j];
    }
  }

  lemma JoinsIs(st: State, blocks: seq<Block>, cuts: seq<nat>, k: int)
    requires |st.chunks| == |cuts| && ChunksAre(st.chunks, |cuts|, blocks, cuts, k)
    requires Chained(st.chunks, k) && st.offset == NextStart(st.chunks, k)
    requires Strip(st.text) != "" && cuts != [] && |Strip(st.text)| < 50
    ensures Joins(Finish(st), blocks, cuts, Strip(st.text), |st.text| - k, k) && Chained(Finish(st), k)
  {
    var n := |cuts|;
    var c := st.chunks[n - 1];
    assert Finish(st)[..n - 1] + [c] == st.chunks;
    assert Extends(Finish(st)[n - 1], c, Strip(st.text), |st.text| - k);
  }

  /**
   * For every input, chunk size and overlap there is exactly one greedy way to cut, and it determines the chunks:
   * their number, texts, ranges, pages and boxes.
   */
  lemma ChunksAreGreedy(blocks: seq<Block>, cuts: seq<nat>, size: int, k: int)
    requires Greedy(blocks, cuts, size, k)
    ensures Finished(Chunks(blocks, size, k), blocks, cuts, k)
  {
    CutsAreGreedy(blocks, size, k);
    GreedyIsUnique(blocks, CutsOf(blocks, |blocks|, size, k), cuts, size, k);
    FinishIs(blocks, size, k);
  }

  // ---- Read off the chunks ----

  /**
   * Every chunk but the last is at least 50 long, and a later block did not fit into it; while every cut fits, that is
   * the block that begins right after its end.
   */
  lemma ChunksAreFull(blocks: seq<Block>, size: int, k: int, j: nat) returns (i: nat)
    requires j < |Chunks(blocks, size, k)| - 1
    ensures var c := Chunks(blocks, size, k)[j];
            && c.end - c.start >= 50
            && i < |blocks| && Strip(blocks[i].text) != "" && (c.end - c.start) + 1 + |Strip(blocks[i].text)| > size
            && (CutsFit(blocks, |blocks|, size, k) ==> PlaceOf(blocks, i) == c.end + 1)
  {
    var cuts := CutsOf(blocks, |blocks|, size, k);
    CutsAreGreedy(blocks, size, k);
    FinishIs(blocks, size, k);
    i := cuts[j];
    assert i in cuts && Begins(blocks, cuts, i, size, k);
    if CutsFit(blocks, |blocks|, size, k) {
      EndsAtCut(blocks, size, k, j);
    }
  }

  lemma {:induction false} FitsBefore(blocks: seq<Block>, n: nat, m: nat, size: int, k: int)
    requires m <= n <= |blocks| && CutsFit(blocks, n, size, k)
    ensures CutsFit(blocks, m, size, k)
  {
    if m < n {
      FitsBefore(blocks, n - 1, m, size, k);
    }
  }

  lemma EndsAtCut(blocks: seq<Block>, size: int, k: int, j: nat)
    requires CutsFit(blocks, |blocks|, size, k)
    requires j < |Chunks(blocks, size, k)| - 1 && j < |CutsOf(blocks, |blocks|, size, k)|
    ensures var i := CutsOf(blocks, |blocks|, size, k)[j];
            i < |blocks| && PlaceOf(blocks, i) == Chunks(blocks, size, k)[j].end + 1
  {
    var n := |blocks|;
    ChunkAtCut(blocks, n, size, k);
    CutsOfAre(blocks, n, size, k);
    var i := CutsOf(blocks, n, size, k)[j];
    assert i in CutsOf(blocks, n, size, k) && CutsBefore(blocks, i, size, k);
    FitsBefore(blocks, n, i, size, k);
    OffsetIs(blocks, i, size, k);
    TextIsSuffix(blocks, i, size, k);
    ChunkStays(FeedAll(blocks, n, size, k), j);
  }

  /** Finishing changes no chunk but the last. */
  lemma ChunkStays(st: State, j: nat)
    requires j < |Finish(st)| - 1
    ensures j < |st.chunks| && Finish(st)[j] == st.chunks[j]
  {
  }
}
