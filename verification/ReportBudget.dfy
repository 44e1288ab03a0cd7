/** The second stage of evidence packing: cut the worst items across all criteria until the report fits. */
module ReportBudget {
  import opened Basics
  import opened StableSort
  import opened TokenBudget

  /** An item of a trimmed report, by the position of its criterion and its position in it. */
  type Place = (nat, nat)

  datatype Ref = Ref(place: Place, score: real)

  function Kept(items: seq<Item>, c: nat, removed: set<Place>): seq<Item> {
    if items == [] then [] else
      var i := |items| - 1;
      Kept(items[..i], c, removed) + (if (c, i) in removed then [] else [items[i]])
  }

  function Survivors(report: seq<Criterion>, removed: set<Place>): seq<Criterion> {
    if report == [] then [] else
      var c := |report| - 1;
      Survivors(report[..c], removed) + [Criterion(report[c].id, Kept(report[c].evidence, c, removed))]
  }

  function TotalTokens(report: seq<Criterion>, tokens: Tokens): nat {
    if report == [] then 0 else
      var c := |report| - 1;
      TotalTokens(report[..c], tokens) + Sum(report[c].evidence, tokens)
  }

  function TrimAll(report: seq<Criterion>, tokens: Tokens): seq<Criterion> {
    seq(|report|, c requires 0 <= c < |report| => Criterion(report[c].id, Trim(report[c].evidence, 0, tokens)))
  }

  ghost predicate IsPlace(report: seq<Criterion>, p: Place) {
    p.0 < |report| && p.1 < |report[p.0].evidence|
  }

  // ---- What removing one item changes ----

  lemma {:induction false} KeptAll(items: seq<Item>, c: nat, removed: set<Place>)
    requires forall i :: 0 <= i < |items| ==> (c, i) !in removed
    ensures Kept(items, c, removed) == items
  {
    if items != [] {
      KeptAll(items[..|items| - 1], c, removed);
    }
  }

  lemma {:induction false} KeptOther(items: seq<Item>, c: nat, removed: set<Place>, p: Place)
    requires p.0 != c || p.1 >= |items|
    ensures Kept(items, c, removed + {p}) == Kept(items, c, removed)
  {
    if items != [] {
      KeptOther(items[..|items| - 1], c, removed, p);
    }
  }

  lemma SumOfAppend(s: seq<Item>, x: Item, tokens: Tokens)
    ensures Sum(s + [x], tokens) == Sum(s, tokens) + tokens(x.text)
  {
    assert (s + [x])[..|s|] == s;
  }

  lemma {:induction false} KeptRemove(items: seq<Item>, c: nat, removed: set<Place>, i: nat, tokens: Tokens)
    requires i < |items| && (c, i) !in removed
    ensures var before, after := Kept(items, c, removed), Kept(items, c, removed + {(c, i)});
            |after| == |before| - 1 && Sum(after, tokens) == Sum(before, tokens) - tokens(items[i].text)
  {
    var n, r := |items| - 1, removed + {(c, i)};
    var before, after := Kept(items[..n], c, removed), Kept(items[..n], c, r);
    SumOfAppend(before, items[n], tokens);
    SumOfAppend(after, items[n], tokens);
    if i == n {
      KeptOther(items[..n], c, removed, (c, i));
      assert Kept(items, c, r) == before;
    } else {
      KeptRemove(items[..n], c, removed, i, tokens);
      if (c, n) in removed {
        assert Kept(items, c, r) == after && Kept(items, c, removed) == before;
      }
    }
  }

  lemma {:induction false} KeptSome(items: seq<Item>, c: nat, removed: set<Place>) returns (i: nat)
    requires Kept(items, c, removed) != []
    ensures i < |items| && (c, i) !in removed
  {
    var n := |items| - 1;
    if (c, n) in removed {
      i := KeptSome(items[..n], c, removed);
    } else {
      i := n;
    }
  }

  lemma {:induction false} SurvivorsAt(report: seq<Criterion>, removed: set<Place>)
    ensures |Survivors(report, removed)| == |report|
    ensures forall c :: 0 <= c < |report| ==>
              Survivors(report, removed)[c] == Criterion(report[c].id, Kept(report[c].evidence, c, removed))
  {
    if report != [] {
      SurvivorsAt(report[..|report| - 1], removed);
    }
  }

  lemma TotalAppend(s: seq<Criterion>, x: Criterion, tokens: Tokens)
    ensures TotalTokens(s + [x], tokens) == TotalTokens(s, tokens) + Sum(x.evidence, tokens)
  {
    assert (s + [x])[..|s|] == s;
  }

  lemma {:induction false} SurvivorsOther(report: seq<Criterion>, removed: set<Place>, p: Place)
    requires p.0 >= |report|
    ensures Survivors(report, removed + {p}) == Survivors(report, removed)
  {
    if report != [] {
      SurvivorsOther(report[..|report| - 1], removed, p);
      KeptOther(report[|report| - 1].evidence, |report| - 1, removed, p);
    }
  }

  lemma {:induction false} TotalRemove(report: seq<Criterion>, removed: set<Place>, p: Place, tokens: Tokens)
    requires IsPlace(report, p) && p !in removed
    ensures TotalTokens(Survivors(report, removed + {p}), tokens)
         == TotalTokens(Survivors(report, removed), tokens) - tokens(report[p.0].evidence[p.1].text)
  {
    var n, r := |report| - 1, removed + {p};
    TotalAppend(Survivors(report[..n], removed), Criterion(report[n].id, Kept(report[n].evidence, n, removed)), tokens);
    TotalAppend(Survivors(report[..n], r), Criterion(report[n].id, Kept(report[n].evidence, n, r)), tokens);
    if p.0 < n {
      TotalRemove(report[..n], removed, p, tokens);
      KeptOther(report[n].evidence, n, removed, p);
    } else {
      SurvivorsOther(report[..n], removed, p);
      KeptRemove(report[n].evidence, n, removed, p.1, tokens);
    }
  }

  lemma {:induction false} SurvivorsAll(report: seq<Criterion>)
    ensures Survivors(report, {}) == report
  {
    if report != [] {
      SurvivorsAll(report[..|report| - 1]);
      KeptAll(report[|report| - 1].evidence, |report| - 1, {});
    }
  }

  // ---- The removal order ----

  function RefsIn(items: seq<Item>, c: nat): seq<Ref> {
    if items == [] then [] else
      var i := |items| - 1;
      RefsIn(items[..i], c) + [Ref((c, i), items[i].score)]
  }

  function Refs(report: seq<Criterion>): seq<Ref> {
    if report == [] then [] else
      var c := |report| - 1;
      Refs(report[..c]) + RefsIn(report[c].evidence, c)
  }

  /** All places, worst score first; equal scores in report order. */
  function RemovalOrder(report: seq<Criterion>): seq<Ref> {
    SortBy(Refs(report), (r: Ref) => r.score)
  }

  lemma {:induction false} RefsInAre(items: seq<Item>, c: nat)
    ensures |RefsIn(items, c)| == |items|
    ensures forall i :: 0 <= i < |items| ==> RefsIn(items, c)[i] == Ref((c, i), items[i].score)
  {
    if items != [] {
      RefsInAre(items[..|items| - 1], c);
    }
  }

  ghost predicate IsRef(report: seq<Criterion>, r: Ref) {
    IsPlace(report, r.place) && r.score == report[r.place.0].evidence[r.place.1].score
  }

  lemma {:induction false} RefsAre(report: seq<Criterion>)
    ensures forall r :: r in Refs(report) <==> IsRef(report, r)
    ensures NoDuplicates(Refs(report))
  {
    if report != [] {
      var n := |report| - 1;
      RefsAre(report[..n]);
      RefsInAre(report[n].evidence, n);
      var before, here := Refs(report[..n]), RefsIn(report[n].evidence, n);
      forall r ensures r in Refs(report) <==> IsRef(report, r) {
        if IsRef(report, r) {
          if r.place.0 == n {
            assert here[r.place.1] == r;
          } else {
            assert IsRef(report[..n], r);
          }
        } else {
          assert !IsRef(report[..n], r);
        }
      }
      forall i, j | 0 <= i < |before| && 0 <= j < |here| ensures before[i] != here[j] {
        assert before[i] in before && IsRef(report[..n], before[i]);
      }
    }
  }

  /** The removal order lists every place exactly once, by ascending score. */
  lemma OrderIsRight(report: seq<Criterion>)
    ensures var o := RemovalOrder(report);
            && (forall r :: r in o <==> IsRef(report, r))
            && (forall i, j :: 0 <= i < j < |o| ==> o[i].score <= o[j].score && o[i].place != o[j].place)
  {
    var o, key := RemovalOrder(report), (r: Ref) => r.score;
    RefsAre(report);
    SortSorts(Refs(report), key);
    forall r ensures r in o <==> IsRef(report, r) {
      assert r in multiset(o) <==> r in multiset(Refs(report));
    }
    forall i, j | 0 <= i < j < |o| ensures o[i].score <= o[j].score && o[i].place != o[j].place {
      assert key(o[i]) <= key(o[j]);
      assert o[i] in o && o[j] in o;
      if o[i] == o[j] {
        CountsTwice(o, i, j);
        CountsOnce(Refs(report), o[i]);
      }
    }
  }

  lemma CountsTwice(s: seq<Ref>, i: nat, j: nat)
    requires i < j < |s| && s[i] == s[j]
    ensures multiset(s)[s[i]] >= 2
  {
    assert s == s[..i] + [s[i]] + s[i + 1..j] + [s[j]] + s[j + 1..];
  }

  lemma {:induction false} CountsOnce(s: seq<Ref>, x: Ref)
    requires NoDuplicates(s)
    ensures multiset(s)[x] <= 1
  {
    if s != [] {
      CountsOnce(s[1..], x);
      assert s == [s[0]] + s[1..];
    }
  }

  method ScoredRefs(report: seq<Criterion>) returns (refs: seq<Ref>)
    ensures refs == Refs(report)
  {
    refs := [];
    for c := 0 to |report|
      invariant refs == Refs(report[..c])
    {
      ghost var before := refs;
      var items := report[c].evidence;
      for i := 0 to |items|
        invariant refs == before + RefsIn(items[..i], c)
      {
        assert items[..i + 1][..i] == items[..i];
        refs := refs + [Ref((c, i), items[i].score)];
      }
      assert items[..|items|] == items && report[..c + 1][..c] == report[..c];
    }
    assert report[..|report|] == report;
  }

  // ---- The cut ----

  /** What is known once the first k refs of the order have been looked at. */
  ghost predicate Cutting(report: seq<Criterion>, order: seq<Ref>, k: nat, removed: set<Place>)
    requires k <= |order|
  {
    && (forall p :: p in removed ==> exists i :: 0 <= i < k && order[i].place == p)
    && (forall i :: 0 <= i < k && order[i].place !in removed ==>
        Left(report, removed, order[i].place.0) <= MIN_EVIDENCE_PER_CRITERIA)
    && (forall i, j :: 0 <= i < j < k && order[i].place.0 == order[j].place.0 && order[j].place in removed ==>
          order[i].place in removed)
    && (forall c :: 0 <= c < |report| ==>
          Left(report, removed, c) >= Min(MIN_EVIDENCE_PER_CRITERIA, |report[c].evidence|))
  }

  function Left(report: seq<Criterion>, removed: set<Place>, c: nat): nat {
    if c < |report| then |Kept(report[c].evidence, c, removed)| else 0
  }

  lemma LeftAfter(report: seq<Criterion>, removed: set<Place>, p: Place, c: nat, tokens: Tokens)
    requires IsPlace(report, p) && p !in removed && c < |report|
    ensures Left(report, removed + {p}, c) == if c == p.0 then Left(report, removed, c) - 1
              else Left(report, removed, c)
  {
    if c == p.0 {
      KeptRemove(report[c].evidence, c, removed, p.1, tokens);
    } else {
      KeptOther(report[c].evidence, c, removed, p);
    }
  }

  /** Removing the next ref, when its criterion can spare it, keeps what is known. */
  lemma CutOne(report: seq<Criterion>, order: seq<Ref>, k: nat, removed: set<Place>, tokens: Tokens)
    requires order == RemovalOrder(report) && k < |order| && Cutting(report, order, k, removed)
    requires Left(report, removed, order[k].place.0) > MIN_EVIDENCE_PER_CRITERIA
    ensures IsPlace(report, order[k].place) && order[k].place !in removed
    ensures Cutting(report, order, k + 1, removed + {order[k].place})
  {
    OrderIsRight(report);
    var p := order[k].place;
    assert order[k] in order;
    var r := removed + {p};
    forall c | 0 <= c < |report|
      ensures Min(MIN_EVIDENCE_PER_CRITERIA, |report[c].evidence|) <= Left(report, r, c) <= Left(report, removed, c)
    {
      LeftAfter(report, removed, p, c, tokens);
    }
    forall i | 0 <= i < k && order[i].place !in r
      ensures Left(report, r, order[i].place.0) <= MIN_EVIDENCE_PER_CRITERIA {
      assert order[i] in order;
    }
  }

  /** Passing over the next ref, when its criterion is down to the minimum, keeps what is known. */
  lemma SkipOne(report: seq<Criterion>, order: seq<Ref>, k: nat, removed: set<Place>)
    requires order == RemovalOrder(report) && k < |order| && Cutting(report, order, k, removed)
    requires Left(report, removed, order[k].place.0) <= MIN_EVIDENCE_PER_CRITERIA
    ensures Cutting(report, order, k + 1, removed)
  {
    OrderIsRight(report);
  }

  /** Undoing the last removal, that of the latest ref in the order, would exceed the budget. */
  ghost predicate LastWasNeeded(report: seq<Criterion>, order: seq<Ref>, removed: set<Place>, total: int, budget: int,
                                tokens: Tokens)
  {
    removed != {} ==>
      exists i :: 0 <= i < |order| && order[i].place in removed && IsPlace(report, order[i].place)
                  && (forall j :: i < j < |order| ==> order[j].place !in removed)
                  && total + tokens(report[order[i].place.0].evidence[order[i].place.1].text) > budget
  }

  /**
   * The greedy cut of a trimmed report. It removes along the removal order, takes from no criterion below the minimum,
   * stops as soon as the report fits, and passes over a ref only when its criterion is at the minimum.
   */
  ghost predicate GreedyCut(report: seq<Criterion>, removed: set<Place>, budget: int, tokens: Tokens) {
    var total := TotalTokens(Survivors(report, removed), tokens);
    && (forall p :: p in removed ==> IsPlace(report, p))
    && (forall c :: 0 <= c < |report| ==>
        Left(report, removed, c) >= Min(MIN_EVIDENCE_PER_CRITERIA, |report[c].evidence|))
    && (total <= budget || forall c :: 0 <= c < |report| ==> Left(report, removed, c) <= MIN_EVIDENCE_PER_CRITERIA)
    && InOrder(report, removed)
    && LastWasNeeded(report, RemovalOrder(report), removed, total, budget, tokens)
  }

  /**
   * A ref that comes before a removed one is removed too, unless its criterion is down to the minimum and not the same.
   */
  ghost predicate InOrder(report: seq<Criterion>, removed: set<Place>) {
    var order := RemovalOrder(report);
    forall i, j :: 0 <= i < j < |order| && order[j].place in removed && order[i].place !in removed ==>
      order[i].place.0 != order[j].place.0 && Left(report, removed, order[i].place.0) <= MIN_EVIDENCE_PER_CRITERIA
  }

  lemma CuttingInOrder(report: seq<Criterion>, k: nat, removed: set<Place>)
    requires k <= |RemovalOrder(report)| && Cutting(report, RemovalOrder(report), k, removed)
    ensures InOrder(report, removed) && forall p :: p in removed ==> IsPlace(report, p)
  {
    var order := RemovalOrder(report);
    OrderIsRight(report);
    forall p | p in removed ensures IsPlace(report, p) {
      var i :| 0 <= i < k && order[i].place == p;
      assert order[i] in order;
    }
    forall j | 0 <= j < |order| && order[j].place in removed ensures j < k {
      var i :| 0 <= i < k && order[i].place == order[j].place;
    }
  }

  /** When all refs have been looked at, no criterion holds more than the minimum. */
  lemma AllLookedAt(report: seq<Criterion>, removed: set<Place>, c: nat)
    requires Cutting(report, RemovalOrder(report), |RemovalOrder(report)|, removed) && c < |report|
    ensures Left(report, removed, c) <= MIN_EVIDENCE_PER_CRITERIA
  {
    if Left(report, removed, c) > 0 {
      var i := KeptSome(report[c].evidence, c, removed);
      OrderIsRight(report);
      var ref := Ref((c, i), report[c].evidence[i].score);
      assert IsRef(report, ref);
      var k :| 0 <= k < |RemovalOrder(report)| && RemovalOrder(report)[k] == ref;
    }
  }

  method TrimEach(criteria: seq<Criterion>, tokens: Tokens) returns (trimmed: seq<Criterion>)
    ensures trimmed == TrimAll(criteria, tokens)
  {
    trimmed := [];
    for c := 0 to |criteria|
      invariant trimmed == TrimAll(criteria, tokens)[..c]
    {
      var ev := TrimEvidenceToBudget(criteria[c].evidence, 0, tokens);
      trimmed := trimmed + [Criterion(criteria[c].id, ev)];
    }
  }

  lemma NothingRemoved(report: seq<Criterion>)
    ensures Cutting(report, RemovalOrder(report), 0, {}) && InOrder(report, {})
  {
    forall c | 0 <= c < |report| ensures Left(report, {}, c) == |report[c].evidence| {
      KeptAll(report[c].evidence, c, {});
    }
  }

  lemma LastIs(report: seq<Criterion>, order: seq<Ref>, k: nat, removed: set<Place>, total: int, budget: int,
               tokens: Tokens)
    requires order == RemovalOrder(report) && k < |order| && Cutting(report, order, k, removed) && total > budget
    requires IsPlace(report, order[k].place)
    ensures var p := order[k].place;
            LastWasNeeded(report, order, removed + {p}, total - tokens(report[p.0].evidence[p.1].text), budget, tokens)
  {
    OrderIsRight(report);
    forall j | k < j < |order| ensures order[j].place !in removed + {order[k].place} {
      assert forall i :: 0 <= i <= k ==> order[i].place != order[j].place;
    }
  }

  /** The state of the removal loop after k refs. */
  ghost predicate LoopState(report: seq<Criterion>, k: nat, removed: set<Place>, total: int, budget: int,
                            tokens: Tokens)
  {
    && k <= |RemovalOrder(report)|
    && Cutting(report, RemovalOrder(report), k, removed)
    && total == TotalTokens(Survivors(report, removed), tokens)
    && LastWasNeeded(report, RemovalOrder(report), removed, total, budget, tokens)
  }

  lemma LoopStart(report: seq<Criterion>, budget: int, tokens: Tokens)
    ensures LoopState(report, 0, {}, TotalTokens(report, tokens), budget, tokens)
  {
    SurvivorsAll(report);
    NothingRemoved(report);
  }

  lemma LoopCut(report: seq<Criterion>, k: nat, removed: set<Place>, total: int, budget: int, tokens: Tokens)
    requires LoopState(report, k, removed, total, budget, tokens) && k < |RemovalOrder(report)| && total > budget
    requires Left(report, removed, RemovalOrder(report)[k].place.0) > MIN_EVIDENCE_PER_CRITERIA
    ensures var p := RemovalOrder(report)[k].place;
            && IsPlace(report, p)
            && LoopState(report, k + 1, removed + {p}, total - tokens(report[p.0].evidence[p.1].text), budget, tokens)
  {
    var order := RemovalOrder(report);
    CutOne(report, order, k, removed, tokens);
    TotalRemove(report, removed, order[k].place, tokens);
    LastIs(report, order, k, removed, total, budget, tokens);
  }

  lemma LoopSkip(report: seq<Criterion>, k: nat, removed: set<Place>, total: int, budget: int, tokens: Tokens)
    requires LoopState(report, k, removed, total, budget, tokens) && k < |RemovalOrder(report)|
    requires Left(report, removed, RemovalOrder(report)[k].place.0) <= MIN_EVIDENCE_PER_CRITERIA
    ensures LoopState(report, k + 1, removed, total, budget, tokens)
  {
    SkipOne(report, RemovalOrder(report), k, removed);
  }

  lemma LoopEnd(report: seq<Criterion>, k: nat, removed: set<Place>, total: int, budget: int, tokens: Tokens)
    requires LoopState(report, k, removed, total, budget, tokens) && (total <= budget || k == |RemovalOrder(report)|)
    ensures total == TotalTokens(Survivors(report, removed), tokens)
    ensures GreedyCut(report, removed, budget, tokens)
  {
    CuttingInOrder(report, k, removed);
    if total > budget {
      forall c | 0 <= c < |report| ensures Left(report, removed, c) <= MIN_EVIDENCE_PER_CRITERIA {
        AllLookedAt(report, removed, c);
      }
    }
  }

  method SortedRefs(report: seq<Criterion>) returns (order: seq<Ref>)
    ensures order == RemovalOrder(report)
  {
    var refs := ScoredRefs(report);
    order := SortBy(refs, (r: Ref) => r.score);
  }

  method RemoveLowest(trimmed: seq<Criterion>, start: int, budget: int, tokens: Tokens)
    returns (removed: set<Place>, total: int)
    requires start == TotalTokens(trimmed, tokens)
    ensures total == TotalTokens(Survivors(trimmed, removed), tokens)
    ensures GreedyCut(trimmed, removed, budget, tokens)
  {
    var order := SortedRefs(trimmed);
    removed, total := {}, start;
    LoopStart(trimmed, budget, tokens);
    var k := 0;
    while k < |order| && total > budget
      invariant 0 <= k <= |order| && LoopState(trimmed, k, removed, total, budget, tokens)
    {
      var p := order[k].place;
      if Left(trimmed, removed, p.0) <= MIN_EVIDENCE_PER_CRITERIA {
        LoopSkip(trimmed, k, removed, total, budget, tokens);
      } else {
        LoopCut(trimmed, k, removed, total, budget, tokens);
        removed := removed + {p};
        total := total - tokens(trimmed[p.0].evidence[p.1].text);
      }
      k := k + 1;
    }
    LoopEnd(trimmed, k, removed, total, budget, tokens);
  }

  /** The report a budget leaves: each criterion trimmed, then the greedy cut. */
  ghost predicate WithinBudget(criteria: seq<Criterion>, result: seq<Criterion>, removed: set<Place>, budget: int,
                               tokens: Tokens) {
    && GreedyCut(TrimAll(criteria, tokens), removed, budget, tokens)
    && result == Survivors(TrimAll(criteria, tokens), removed)
  }

  method ApplyReportBudget(criteria: seq<Criterion>, maxTokens: int, tokens: Tokens) returns (result: seq<Criterion>)
    ensures var budget := if maxTokens == 0 then 24000 else maxTokens;
            exists removed :: WithinBudget(criteria, result, removed, budget, tokens)
  {
    var budget := Budget(maxTokens, TOTAL_REPORT_BUDGET);
    var trimmed := TrimEach(criteria, tokens);
    var total := TotalTokens(trimmed, tokens);
    if total <= budget {
      LoopStart(trimmed, budget, tokens);
      LoopEnd(trimmed, 0, {}, total, budget, tokens);
      SurvivorsAll(trimmed);
      assert WithinBudget(criteria, trimmed, {}, budget, tokens);
      return trimmed;
    }
    var removed, _ := RemoveLowest(trimmed, total, budget, tokens);
    result := Survivors(trimmed, removed);
    assert WithinBudget(criteria, result, removed, budget, tokens);
  }

  // ---- What the budget promises ----

  /** The report fits, or no criterion can spare an item; each keeps between min(2, n) and 8 of its n items. */
  lemma ReportEndState(criteria: seq<Criterion>, result: seq<Criterion>, removed: set<Place>, budget: int,
                       tokens: Tokens)
    requires WithinBudget(criteria, result, removed, budget, tokens)
    ensures TotalTokens(result, tokens) <= budget
            || forall c :: 0 <= c < |result| ==> |result[c].evidence| <= 2
    ensures |result| == |criteria|
    ensures forall c :: 0 <= c < |criteria| ==>
              && result[c].id == criteria[c].id
              && Min(2, |criteria[c].evidence|) <= |result[c].evidence| <= Min(8, |criteria[c].evidence|)
              && (Sum(result[c].evidence, tokens) <= 6000 || |result[c].evidence| <= 2)
  {
    var trimmed := TrimAll(criteria, tokens);
    SurvivorsAt(trimmed, removed);
    forall c | 0 <= c < |criteria|
      ensures result[c].id == criteria[c].id
      ensures Min(2, |criteria[c].evidence|) <= |result[c].evidence| <= Min(8, |criteria[c].evidence|)
      ensures Sum(result[c].evidence, tokens) <= 6000 || |result[c].evidence| <= 2
    {
      TrimKeeps(criteria[c].evidence, 0, tokens);
      TrimFits(criteria[c].evidence, 0, tokens);
      KeptSum(trimmed[c].evidence, c, removed, tokens);
      KeptLength(trimmed[c].evidence, c, removed);
      assert Left(trimmed, removed, c) == |result[c].evidence|;
    }
  }

  lemma {:induction false} KeptSum(items: seq<Item>, c: nat, removed: set<Place>, tokens: Tokens)
    ensures Sum(Kept(items, c, removed), tokens) <= Sum(items, tokens)
  {
    if items != [] {
      var n := |items| - 1;
      KeptSum(items[..n], c, removed, tokens);
      SumOfAppend(Kept(items[..n], c, removed), items[n], tokens);
      if (c, n) in removed {
        assert Kept(items, c, removed) == Kept(items[..n], c, removed);
      }
    }
  }

  lemma {:induction false} KeptLength(items: seq<Item>, c: nat, removed: set<Place>)
    ensures |Kept(items, c, removed)| <= |items| && Subsequence(Kept(items, c, removed), items)
  {
    if items != [] {
      var n := |items| - 1;
      KeptLength(items[..n], c, removed);
      var before := Kept(items[..n], c, removed);
      if (c, n) in removed {
        assert Kept(items, c, removed) == before;
      } else {
        assert (before + [items[n]])[..|before|] == before;
      }
    }
  }

  /**
   * Greedy order: a survivor of a criterion with more than two survivors scores at least as high as everything removed,
   * and within one criterion every survivor scores at least as high as every removed item.
   */
  lemma SurvivorsScoreHigher(report: seq<Criterion>, removed: set<Place>, budget: int, tokens: Tokens, kept: Place,
                             gone: Place)
    requires GreedyCut(report, removed, budget, tokens)
    requires IsPlace(report, kept) && kept !in removed && gone in removed
    requires kept.0 == gone.0 || Left(report, removed, kept.0) > MIN_EVIDENCE_PER_CRITERIA
    ensures IsPlace(report, gone)
    ensures report[kept.0].evidence[kept.1].score >= report[gone.0].evidence[gone.1].score
  {
    var order := RemovalOrder(report);
    OrderIsRight(report);
    var k, g := Ref(kept, report[kept.0].evidence[kept.1].score), Ref(gone, report[gone.0].evidence[gone.1].score);
    assert IsRef(report, k) && IsRef(report, g);
    var i :| 0 <= i < |order| && order[i] == k;
    var j :| 0 <= j < |order| && order[j] == g;
    assert i >= j;
  }
}
