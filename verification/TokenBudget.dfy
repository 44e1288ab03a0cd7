/** Packing evidence into token budgets: rank, deduplicate and trim per criterion, then cut across the report. */
module TokenBudget {
  import opened Basics
  import opened StableSort

  const SINGLE_CRITERIA_BUDGET := 6000
  const TOTAL_REPORT_BUDGET := 24000
  const MIN_EVIDENCE_PER_CRITERIA := 2
  const MAX_EVIDENCE_PER_CRITERIA := 8

  datatype Item = Item(text: string, score: real, doc: Option<string>)

  /** One entry of the evidence dictionary; entries are kept in its order. */
  datatype Criterion = Criterion(id: string, evidence: seq<Item>)

  type Tokens = string -> nat

  function Sum(items: seq<Item>, tokens: Tokens): nat {
    if items == [] then 0 else Sum(items[..|items| - 1], tokens) + tokens(items[|items| - 1].text)
  }

  /** `max_tokens or default` */
  function Budget(maxTokens: int, default': int): int {
    if maxTokens == 0 then default' else maxTokens
  }

  // ---- Ranking: best score first ----

  function Ranked(items: seq<Item>): seq<Item> {
    SortBy(items, (x: Item) => -x.score)
  }

  ghost predicate Descending(items: seq<Item>) {
    forall i, j :: 0 <= i < j < |items| ==> items[i].score >= items[j].score
  }

  function Best(items: seq<Item>): seq<Item> {
    Ranked(items)[..Min(MAX_EVIDENCE_PER_CRITERIA, |Ranked(items)|)]
  }

  /** The best items are in order, and none that was left behind scores higher. */
  lemma BestAreBest(items: seq<Item>)
    ensures Descending(Best(items)) && |Best(items)| == Min(8, |items|)
    ensures var rest := Ranked(items)[|Best(items)|..];
            && multiset(Best(items)) + multiset(rest) == multiset(items)
            && forall x, y :: x in Best(items) && y in rest ==> x.score >= y.score
  {
    var key := (x: Item) => -x.score;
    SortSorts(items, key);
    var r, n := Ranked(items), |Best(items)|;
    assert forall i, j :: 0 <= i < j < |r| ==> key(r[i]) <= key(r[j]);
    assert r == r[..n] + r[n..];
    forall x, y | x in r[..n] && y in r[n..] ensures x.score >= y.score {
      var i :| 0 <= i < n && r[i] == x;
      var j :| n <= j < |r| && r[j] == y;
    }
  }

  // ---- Deduplication ----

  /** The items whose document was not seen earlier, and the others; items without a document are never others. */
  function Firsts(items: seq<Item>): seq<Item> {
    if items == [] then [] else
      var (before, x) := (items[..|items| - 1], items[|items| - 1]);
      if x.doc.Some? && x.doc in Docs(before) then Firsts(before) else Firsts(before) + [x]
  }

  function Laters(items: seq<Item>): seq<Item> {
    if items == [] then [] else
      var (before, x) := (items[..|items| - 1], items[|items| - 1]);
      if x.doc.Some? && x.doc in Docs(before) then Laters(before) + [x] else Laters(before)
  }

  function Docs(items: seq<Item>): set<Option<string>> {
    set x | x in items :: x.doc
  }

  function Dedup(ranked: seq<Item>): seq<Item> {
    var kept := Firsts(ranked);
    if |kept| < MIN_EVIDENCE_PER_CRITERIA then
      kept + Laters(ranked)[..Min(MIN_EVIDENCE_PER_CRITERIA - |kept|, |Laters(ranked)|)]
    else kept
  }

  method DedupByDocument(ranked: seq<Item>) returns (kept: seq<Item>)
    ensures kept == Dedup(ranked)
  {
    var seen: set<string> := {};
    kept := [];
    var deferred: seq<Item> := [];
    for i := 0 to |ranked|
      invariant kept == Firsts(ranked[..i]) && deferred == Laters(ranked[..i])
      invariant forall d :: d in seen <==> Some(d) in Docs(ranked[..i])
    {
      var item := ranked[i];
      assert ranked[..i + 1][..i] == ranked[..i];
      DocsAppend(ranked[..i], item);
      assert ranked[..i + 1] == ranked[..i] + [item];
      if item.doc.None? {
        kept := kept + [item];
      } else if item.doc.value !in seen {
        seen := seen + {item.doc.value};
        kept := kept + [item];
      } else {
        deferred := deferred + [item];
      }
    }
    assert ranked[..|ranked|] == ranked;
    if |kept| < MIN_EVIDENCE_PER_CRITERIA {
      var needed := MIN_EVIDENCE_PER_CRITERIA - |kept|;
      kept := kept + deferred[..Min(needed, |deferred|)];
    }
  }

  lemma DocsAppend(items: seq<Item>, x: Item)
    ensures Docs(items + [x]) == Docs(items) + {x.doc}
  {
    assert forall y :: y in items + [x] <==> y in items || y == x;
  }

  /** Items of one document: at most one. */
  ghost predicate OnePerDocument(items: seq<Item>) {
    forall i, j :: 0 <= i < j < |items| && items[i].doc.Some? ==> items[i].doc != items[j].doc
  }

  /** s is r with some items left out. */
  ghost predicate Subsequence(s: seq<Item>, r: seq<Item>) {
    || s == []
    || (r != [] && ((s[|s| - 1] == r[|r| - 1] && Subsequence(s[..|s| - 1], r[..|r| - 1]))
                    || Subsequence(s, r[..|r| - 1])))
  }

  lemma {:induction false} FirstsAreSubsequence(items: seq<Item>)
    ensures Subsequence(Firsts(items), items)
  {
    if items != [] {
      FirstsAreSubsequence(items[..|items| - 1]);
    }
  }

  /** Deduplication keeps at least two items, or all of fewer. */
  lemma DedupLength(ranked: seq<Item>)
    ensures Min(MIN_EVIDENCE_PER_CRITERIA, |ranked|) <= |Dedup(ranked)| <= |ranked|
  {
    FirstsAndLaters(ranked);
    assert |multiset(Firsts(ranked)) + multiset(Laters(ranked))| == |multiset(ranked)|;
  }

  /** Two documents or more: one item per document, all documents, in rank order. */
  lemma DedupManyDocuments(ranked: seq<Item>)
    requires |Firsts(ranked)| >= 2
    ensures OnePerDocument(Dedup(ranked)) && Docs(Dedup(ranked)) == Docs(ranked) && Subsequence(Dedup(ranked), ranked)
  {
    FirstsAreOnePerDocument(ranked);
    FirstsAreSubsequence(ranked);
  }

  /** A single document: the two best items stay. */
  lemma DedupOneDocument(ranked: seq<Item>)
    requires |Firsts(ranked)| < 2
    ensures Dedup(ranked) == ranked[..Min(2, |ranked|)]
  {
    FewFirsts(ranked);
  }

  lemma DedupDescends(ranked: seq<Item>)
    requires Descending(ranked)
    ensures Descending(Dedup(ranked))
  {
    if |Firsts(ranked)| < MIN_EVIDENCE_PER_CRITERIA {
      DedupOneDocument(ranked);
    } else {
      FirstsDescend(ranked);
    }
  }

  lemma {:induction false} FirstsAreOnePerDocument(items: seq<Item>)
    ensures OnePerDocument(Firsts(items)) && Docs(Firsts(items)) == Docs(items)
    ensures forall x :: x in Firsts(items) ==> x in items
  {
    if items != [] {
      var before, x := items[..|items| - 1], items[|items| - 1];
      FirstsAreOnePerDocument(before);
      DocsAppend(before, x);
      DocsAppend(Firsts(before), x);
      assert items == before + [x];
      forall y | y in Firsts(before) ensures y.doc in Docs(before) {
        assert y in before;
      }
    }
  }

  /** Items without a document are never taken for duplicates: all of them stay. */
  lemma {:induction false} UndocumentedStay(items: seq<Item>, x: Item)
    requires x.doc.None?
    ensures multiset(Firsts(items))[x] == multiset(items)[x]
  {
    if items != [] {
      var before, y := items[..|items| - 1], items[|items| - 1];
      UndocumentedStay(before, x);
      assert items == before + [y];
    }
  }

  /** Firsts and the others are all the items. */
  lemma {:induction false} FirstsAndLaters(items: seq<Item>)
    ensures multiset(Firsts(items)) + multiset(Laters(items)) == multiset(items)
  {
    if items != [] {
      var before, x := items[..|items| - 1], items[|items| - 1];
      FirstsAndLaters(before);
      assert items == before + [x];
    }
  }

  /** When at most one item is a first, it is the first of all and the others follow in order. */
  lemma {:induction false} FewFirsts(items: seq<Item>)
    ensures items != [] ==> Firsts(items) != []
    ensures |Firsts(items)| <= 1 ==> items == Firsts(items) + Laters(items)
  {
    if items != [] {
      var before, x := items[..|items| - 1], items[|items| - 1];
      FewFirsts(before);
      assert items == before + [x];
      if x.doc.Some? && x.doc in Docs(before) {
        assert |Firsts(before)| <= 1 ==> items == Firsts(before) + (Laters(before) + [x]);
      } else if before == [] {
        assert Firsts(items) == [x] && Laters(items) == [];
      }
    }
  }

  lemma {:induction false} FirstsDescend(items: seq<Item>)
    requires Descending(items)
    ensures Descending(Firsts(items)) && forall x :: x in Firsts(items) ==> x in items
  {
    if items != [] {
      var before, x := items[..|items| - 1], items[|items| - 1];
      FirstsDescend(before);
      assert items == before + [x];
      forall i | 0 <= i < |Firsts(before)| ensures Firsts(before)[i].score >= x.score {
        assert Firsts(before)[i] in before;
        var k :| 0 <= k < |before| && items[k] == Firsts(before)[i];
      }
    }
  }

  /** A first scores at least as high as every item of its document. */
  lemma {:induction false} FirstsAreBest(items: seq<Item>, f: Item, y: Item)
    requires Descending(items) && f in Firsts(items) && y in items && f.doc == y.doc && f.doc.Some?
    ensures f.score >= y.score
  {
    var before, x := items[..|items| - 1], items[|items| - 1];
    assert items == before + [x];
    FirstsDescend(before);
    if f in Firsts(before) {
      if y in before {
        FirstsAreBest(before, f, y);
      } else {
        assert f in before;
        var k :| 0 <= k < |before| && items[k] == f;
      }
    } else {
      assert y !in before by {
        assert y in before ==> y.doc in Docs(before);
      }
    }
  }

  // ---- One criterion ----

  /** Where the trimming loop stops once it has taken n items. */
  function Cut(items: seq<Item>, budget: int, tokens: Tokens, n: nat): (m: nat)
    requires n <= |items|
    ensures n <= m <= |items|
    decreases |items| - n
  {
    if n == |items| || (n >= MIN_EVIDENCE_PER_CRITERIA && Sum(items[..n + 1], tokens) > budget) then n
    else Cut(items, budget, tokens, n + 1)
  }

  lemma {:induction false} CutFits(items: seq<Item>, budget: int, tokens: Tokens, n: nat)
    requires n <= |items|
    ensures var m := Cut(items, budget, tokens, n);
            && (forall k :: n < k <= m && k > MIN_EVIDENCE_PER_CRITERIA ==> Sum(items[..k], tokens) <= budget)
            && (m < |items| ==> m >= MIN_EVIDENCE_PER_CRITERIA && Sum(items[..m + 1], tokens) > budget)
    decreases |items| - n
  {
    if n < |items| && (n < MIN_EVIDENCE_PER_CRITERIA || Sum(items[..n + 1], tokens) <= budget) {
      CutFits(items, budget, tokens, n + 1);
    }
  }

  function Trim(evidence: seq<Item>, maxTokens: int, tokens: Tokens): seq<Item> {
    var d := Dedup(Best(evidence));
    d[..Cut(d, Budget(maxTokens, SINGLE_CRITERIA_BUDGET), tokens, 0)]
  }

  lemma SumAppend(items: seq<Item>, n: nat, tokens: Tokens)
    requires n < |items|
    ensures Sum(items[..n + 1], tokens) == Sum(items[..n], tokens) + tokens(items[n].text)
  {
    assert items[..n + 1][..n] == items[..n];
  }

  method TrimEvidenceToBudget(evidence: seq<Item>, maxTokens: int, tokens: Tokens) returns (result: seq<Item>)
    ensures result == Trim(evidence, maxTokens, tokens)
  {
    var budget := Budget(maxTokens, SINGLE_CRITERIA_BUDGET);
    if evidence == [] {
      return evidence;
    }
    var ranked := Ranked(evidence);
    ranked := ranked[..Min(MAX_EVIDENCE_PER_CRITERIA, |ranked|)];
    ranked := DedupByDocument(ranked);
    result := TakeWithin(ranked, budget, tokens);
  }

  method TakeWithin(ranked: seq<Item>, budget: int, tokens: Tokens) returns (result: seq<Item>)
    ensures result == ranked[..Cut(ranked, budget, tokens, 0)]
  {
    result := [];
    var total := 0;
    for i := 0 to |ranked|
      invariant result == ranked[..i] && total == Sum(ranked[..i], tokens)
      invariant Cut(ranked, budget, tokens, 0) == Cut(ranked, budget, tokens, i)
    {
      SumAppend(ranked, i, tokens);
      var count := tokens(ranked[i].text);
      if total + count > budget && |result| >= MIN_EVIDENCE_PER_CRITERIA {
        break;
      }
      result := result + [ranked[i]];
      total := total + count;
    }
  }

  /** A trimmed criterion: in budget or down to two items, and cut only where the next item would not fit. */
  lemma TrimFits(evidence: seq<Item>, maxTokens: int, tokens: Tokens)
    ensures var r, d := Trim(evidence, maxTokens, tokens), Dedup(Best(evidence));
            var budget := if maxTokens == 0 then 6000 else maxTokens;
            && r <= d
            && (Sum(r, tokens) <= budget || |r| <= 2)
            && (|r| < |d| ==> Sum(r, tokens) + tokens(d[|r|].text) > budget)
  {
    var d, budget := Dedup(Best(evidence)), Budget(maxTokens, SINGLE_CRITERIA_BUDGET);
    CutFits(d, budget, tokens, 0);
    var m := Cut(d, budget, tokens, 0);
    if m < |d| {
      SumAppend(d, m, tokens);
    }
  }

  /** Between min(2, n) and 8 of the n items stay, best score first. */
  lemma TrimKeeps(evidence: seq<Item>, maxTokens: int, tokens: Tokens)
    ensures var r := Trim(evidence, maxTokens, tokens);
            && Descending(r)
            && Min(2, |evidence|) <= |r| <= Min(8, |evidence|)
  {
    var d := Dedup(Best(evidence));
    BestAreBest(evidence);
    DedupLength(Best(evidence));
    DedupDescends(Best(evidence));
    CutFits(d, Budget(maxTokens, SINGLE_CRITERIA_BUDGET), tokens, 0);
  }
}
