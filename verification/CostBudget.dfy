/** The token budget of one scoring run: the sticky tracker and the loop that scores under it. */
module CostBudget {
  datatype Status = Ok | Warn | Degrade | Blocked

  datatype Usage = Usage(prompt: int, completion: int, total: int)

  datatype Limits = Limits(budget: int, warnRatio: real, hardRatio: real)

  /** `int(x)` of Python: towards zero. */
  function Truncate(x: real): int {
    if x >= 0.0 then x.Floor else -(-x).Floor
  }

  function WarnAt(l: Limits): int {
    Truncate(l.budget as real * l.warnRatio)
  }

  function HardAt(l: Limits): int {
    Truncate(l.budget as real * l.hardRatio)
  }

  /** The status a total has by itself, without any memory. */
  function Classify(l: Limits, total: int): Status {
    if l.budget <= 0 then Ok
    else if total > HardAt(l) then Blocked
    else if total >= WarnAt(l) then Degrade
    else Ok
  }

  lemma TruncateIsBelow(x: real)
    requires x >= 0.0
    ensures Truncate(x) as real <= x < (Truncate(x) + 1) as real
  {
  }

  /**
   * With a positive budget and ratios that are not negative, spending is blocked exactly when it is beyond the hard
   * share of the budget, and degraded exactly when it is not, but reaches the warn share up to less than one token.
   */
  lemma StatusByShare(l: Limits, total: int)
    requires l.budget > 0 && l.warnRatio >= 0.0 && l.hardRatio >= 0.0
    ensures var status, budget := Classify(l, total), l.budget as real;
            && (status == Blocked <==> total as real > budget * l.hardRatio)
            && (status == Degrade <==>
                  && total as real <= budget * l.hardRatio
                  && (total + 1) as real > budget * l.warnRatio)
            && status in {Ok, Degrade, Blocked}
  {
    var hard, warn := l.budget as real * l.hardRatio, l.budget as real * l.warnRatio;
    NotNegative(l.budget, l.hardRatio);
    NotNegative(l.budget, l.warnRatio);
    TruncateIsBelow(hard);
    TruncateIsBelow(warn);
    assert total > Truncate(hard) ==> total >= Truncate(hard) + 1;
    assert total < Truncate(warn) ==> total + 1 <= Truncate(warn);
  }

  lemma NotNegative(budget: int, ratio: real)
    requires budget >= 0 && ratio >= 0.0
    ensures budget as real * ratio >= 0.0
  {
  }

  /** Without a budget nothing is ever refused. */
  lemma NoBudgetNoLimit(l: Limits, total: int)
    requires l.budget <= 0
    ensures Classify(l, total) == Ok
  {
  }

  class CostBudgetTracker {
    const limits: Limits
    var prompt: int
    var completion: int
    var total: int
    var degraded: bool
    var blocked: bool

    /** The sticky flags say no more than the total does. */
    ghost predicate Valid()
      reads this
    {
      && (blocked ==> Classify(limits, total) == Blocked)
      && (degraded ==> limits.budget > 0 && total >= WarnAt(limits))
    }

    constructor (limits: Limits)
      ensures Valid() && this.limits == limits && total == 0 && prompt == 0 && completion == 0 && !degraded && !blocked
    {
      this.limits := limits;
      prompt, completion, total, degraded, blocked := 0, 0, 0, false, false;
    }

    method RecordUsage(usage: Usage)
      modifies this
      ensures prompt == old(prompt) + usage.prompt && completion == old(completion) + usage.completion
      ensures total == old(total) + usage.total
      ensures degraded == old(degraded) && blocked == old(blocked)
      ensures old(Valid()) && usage.total >= 0 ==> Valid()
    {
      prompt := prompt + usage.prompt;
      completion := completion + usage.completion;
      total := total + usage.total;
    }

    predicate IsOverBudget()
      reads this
    {
      limits.budget > 0 && total > HardAt(limits)
    }

    predicate ShouldDegrade()
      reads this
    {
      limits.budget > 0 && total >= WarnAt(limits)
    }

    /** As long as usage was never negative, the sticky answer is the plain classification; it is never a warning. */
    method CheckBudget() returns (status: Status)
      modifies this
      ensures total == old(total) && prompt == old(prompt) && completion == old(completion)
      ensures blocked <==> status == Blocked
      ensures old(Valid()) ==> Valid() && status == Classify(limits, total)
      ensures status != Warn && (old(blocked) ==> status == Blocked)
      ensures old(degraded) && limits.budget > 0 ==> status in {Degrade, Blocked}
    {
      if blocked {
        return Blocked;
      }
      if limits.budget <= 0 {
        return Ok;
      }
      if IsOverBudget() {
        blocked := true;
        return Blocked;
      }
      if degraded {
        return Degrade;
      }
      if ShouldDegrade() {
        degraded := true;
        return Degrade;
      }
      return Ok;
    }
  }

  // ---- Scoring ----

  /** An entry of the criteria list; entries that are not dictionaries are skipped. */
  datatype Entry = NotADict | Criterion(id: string, requireCitation: bool)

  datatype Reply = Reply(score: real, hardPass: bool, usage: Usage)

  datatype Scored = Scored(id: string, score: real, hardPass: bool)

  /** What the run meets: the model's reply and the mock's at each position, and whether its citations resolve. */
  datatype World = World(llm: nat -> Reply, mock: nat -> Reply, cited: nat -> bool, hardConstraint: bool)

  /** The mock reports no usage. */
  const NO_USAGE := Usage(0, 0, 0)

  /** The positions of the dictionaries. */
  function Dicts(entries: seq<Entry>): seq<nat> {
    if entries == [] then [] else
      var n := |entries| - 1;
      Dicts(entries[..n]) + (if entries[n].Criterion? then [n] else [])
  }

  lemma {:induction false} DictsAre(entries: seq<Entry>)
    ensures var d := Dicts(entries);
            && (forall j :: 0 <= j < |d| ==> d[j] < |entries| && entries[d[j]].Criterion?)
            && (forall j, k :: 0 <= j < k < |d| ==> d[j] < d[k])
            && (forall i :: 0 <= i < |entries| && entries[i].Criterion? ==> i in d)
  {
    if entries != [] {
      DictsAre(entries[..|entries| - 1]);
    }
  }

  /** The tokens of the model calls at the first k positions. */
  function Spent(w: World, positions: seq<nat>, k: nat): int
    requires k <= |positions|
  {
    if k == 0 then 0 else Spent(w, positions, k - 1) + w.llm(positions[k - 1]).usage.total
  }

  function ResultAt(entries: seq<Entry>, w: World, i: nat, real': bool): Scored
    requires i < |entries| && entries[i].Criterion?
  {
    var r := if real' then w.llm(i) else w.mock(i);
    Scored(entries[i].id, r.score, r.hardPass && w.hardConstraint)
  }

  function Unsupported(entries: seq<Entry>, w: World, positions: seq<nat>): seq<string>
    requires forall j :: 0 <= j < |positions| ==> positions[j] < |entries| && entries[positions[j]].Criterion?
  {
    if positions == [] then [] else
      var n := |positions| - 1;
      var i := positions[n];
      Unsupported(entries, w, positions[..n])
        + (if entries[i].requireCitation && !w.cited(i) then [entries[i].id] else [])
  }

  /**
   * The first k of the dictionaries d were scored by the model, each while the total was fine; then, if there are more,
   * either all the rest was scored by the mock at one degraded total, or scoring stopped at a blocked one.
   */
  ghost predicate Outcome(entries: seq<Entry>, w: World, l: Limits, d: seq<nat>, results: seq<Scored>, total: int,
                          k: nat) {
    && k <= |results| <= |d|
    && (forall j :: 0 <= j < |d| ==> d[j] < |entries| && entries[d[j]].Criterion?)
    && total == Spent(w, d, k)
    && (forall j :: 0 <= j < |results| ==> results[j] == ResultAt(entries, w, d[j], j < k))
    && (forall j :: 0 <= j < k ==> Classify(l, Spent(w, d, j)) == Ok)
    && (k < |results| ==> Classify(l, total) == Degrade)
    && (|results| < |d| ==> k == |results| && Classify(l, total) == Blocked)
  }

  lemma {:induction false} SpentOfPrefix(w: World, d: seq<nat>, more: seq<nat>, k: nat)
    requires k <= |d|
    ensures Spent(w, d + more, k) == Spent(w, d, k)
  {
    if k > 0 {
      SpentOfPrefix(w, d, more, k - 1);
    }
  }

  /** One more dictionary, scored as the current total demands. */
  lemma OutcomeGrows(entries: seq<Entry>, w: World, l: Limits, d: seq<nat>, results: seq<Scored>, total: int, k: nat,
                     i: nat)
    requires Outcome(entries, w, l, d, results, total, k) && |results| == |d|
    requires i < |entries| && entries[i].Criterion? && Classify(l, total) in {Ok, Degrade}
    ensures Classify(l, total) == Ok ==>
              Outcome(entries, w, l, d + [i], results + [ResultAt(entries, w, i, true)], total + w.llm(i).usage.total,
                      k + 1)
    ensures Classify(l, total) == Degrade ==>
              Outcome(entries, w, l, d + [i], results + [ResultAt(entries, w, i, false)], total, k)
  {
    forall j | 0 <= j <= |d| ensures Spent(w, d + [i], j) == Spent(w, d, j) {
      SpentOfPrefix(w, d, [i], j);
    }
  }

  /** Stopping at a blocked total leaves the later dictionaries without results. */
  lemma OutcomeStops(entries: seq<Entry>, w: World, l: Limits, d: seq<nat>, more: seq<nat>, results: seq<Scored>,
                     total: int, k: nat)
    requires Outcome(entries, w, l, d, results, total, k) && |results| == |d| && Classify(l, total) == Blocked
    requires forall j :: 0 <= j < |more| ==> more[j] < |entries| && entries[more[j]].Criterion?
    ensures Outcome(entries, w, l, d + more, results, total, k)
  {
    forall j | 0 <= j <= |d| ensures Spent(w, d + more, j) == Spent(w, d, j) {
      SpentOfPrefix(w, d, more, j);
    }
  }

  lemma {:induction false} DictsOfPrefix(entries: seq<Entry>, i: nat) returns (more: seq<nat>)
    requires i <= |entries|
    ensures Dicts(entries) == Dicts(entries[..i]) + more
    ensures i < |entries| && entries[i].Criterion? ==> more != []
  {
    if i == |entries| {
      assert entries[..i] == entries;
      more := [];
    } else {
      var n := |entries| - 1;
      assert entries[..n][..i] == entries[..i];
      more := DictsOfPrefix(entries[..n], i);
      more := more + (if entries[n].Criterion? then [n] else []);
    }
  }

  /** What is known after the first i entries when the run was not stopped. */
  ghost predicate Progress(entries: seq<Entry>, i: nat, w: World, l: Limits, results: seq<Scored>,
                           unsupported: seq<string>, total: int, k: nat)
    requires i <= |entries|
  {
    var d := Dicts(entries[..i]);
    Outcome(entries, w, l, d, results, total, k) && |results| == |d| && unsupported == Unsupported(entries, w, d)
  }

  lemma ProgressSkips(entries: seq<Entry>, i: nat, w: World, l: Limits, results: seq<Scored>, unsupported: seq<string>,
                      total: int, k: nat)
    requires i < |entries| && entries[i].NotADict? && Progress(entries, i, w, l, results, unsupported, total, k)
    ensures Progress(entries, i + 1, w, l, results, unsupported, total, k)
  {
    assert entries[..i + 1][..i] == entries[..i];
    assert Dicts(entries[..i + 1]) == Dicts(entries[..i]);
  }

  lemma ProgressScores(entries: seq<Entry>, i: nat, w: World, l: Limits, results: seq<Scored>, unsupported: seq<string>,
                       total: int, k: nat)
    requires i < |entries| && entries[i].Criterion? && Progress(entries, i, w, l, results, unsupported, total, k)
    requires Classify(l, total) in {Ok, Degrade}
    ensures var real' := Classify(l, total) == Ok;
            Progress(entries, i + 1, w, l, results + [ResultAt(entries, w, i, real')],
                     unsupported + (if entries[i].requireCitation && !w.cited(i) then [entries[i].id] else []),
                     if real' then total + w.llm(i).usage.total else total, if real' then k + 1 else k)
  {
    var d := Dicts(entries[..i]);
    assert entries[..i + 1][..i] == entries[..i];
    OutcomeGrows(entries, w, l, d, results, total, k, i);
    assert (d + [i])[..|d|] == d;
  }

  /** The end of a run: its outcome over all dictionaries, whether it was stopped, and the claims without citations. */
  ghost predicate Done(entries: seq<Entry>, w: World, l: Limits, results: seq<Scored>, unsupported: seq<string>,
                       exceeded: bool, total: int, k: nat) {
    var d := Dicts(entries);
    && Outcome(entries, w, l, d, results, total, k)
    && (exceeded <==> |results| < |d|)
    && unsupported == Unsupported(entries, w, d[..|results|])
  }

  lemma ProgressStops(entries: seq<Entry>, i: nat, w: World, l: Limits, results: seq<Scored>, unsupported: seq<string>,
                      total: int, k: nat)
    requires i < |entries| && entries[i].Criterion? && Progress(entries, i, w, l, results, unsupported, total, k)
    requires Classify(l, total) == Blocked
    ensures Done(entries, w, l, results, unsupported, true, total, k)
  {
    var d := Dicts(entries[..i]);
    var more := DictsOfPrefix(entries, i);
    DictsAre(entries);
    forall j | 0 <= j < |more| ensures more[j] < |entries| && entries[more[j]].Criterion? {
      assert Dicts(entries)[|d| + j] == more[j];
    }
    OutcomeStops(entries, w, l, d, more, results, total, k);
    assert Dicts(entries)[..|results|] == d;
  }

  lemma ProgressEnds(entries: seq<Entry>, w: World, l: Limits, results: seq<Scored>, unsupported: seq<string>,
                     total: int, k: nat)
    requires Progress(entries, |entries|, w, l, results, unsupported, total, k)
    ensures Done(entries, w, l, results, unsupported, false, total, k)
  {
    assert entries[..|entries|] == entries && Dicts(entries)[..|results|] == Dicts(entries);
  }

  method NodeScore(entries: seq<Entry>, w: World, limits: Limits)
    returns (results: seq<Scored>, unsupported: seq<string>, exceeded: bool, total: int)
    requires forall i :: w.llm(i).usage.total >= 0
    ensures exists k :: Done(entries, w, limits, results, unsupported, exceeded, total, k)
  {
    var tracker := new CostBudgetTracker(limits);
    results, unsupported, exceeded := [], [], false;
    ghost var k := 0;
    for i := 0 to |entries|
      invariant tracker.Valid() && tracker.limits == limits && fresh(tracker)
      invariant Progress(entries, i, w, limits, results, unsupported, tracker.total, k)
    {
      if entries[i].NotADict? {
        ProgressSkips(entries, i, w, limits, results, unsupported, tracker.total, k);
        continue;
      }
      var status := tracker.CheckBudget();
      if status == Blocked {
        ProgressStops(entries, i, w, limits, results, unsupported, tracker.total, k);
        return results, unsupported, true, tracker.total;
      }
      ProgressScores(entries, i, w, limits, results, unsupported, tracker.total, k);
      var reply;
      if status == Degrade {
        reply := w.mock(i).(usage := NO_USAGE);
      } else {
        reply := w.llm(i);
        k := k + 1;
      }
      tracker.RecordUsage(reply.usage);
      results := results + [Scored(entries[i].id, reply.score, reply.hardPass && w.hardConstraint)];
      unsupported := unsupported + (if entries[i].requireCitation && !w.cited(i) then [entries[i].id] else []);
    }
    ProgressEnds(entries, w, limits, results, unsupported, tracker.total, k);
    total := tracker.total;
  }

  // ---- What a run promises ----

  /** The status the loop sees before dictionary j. */
  function StatusAt(w: World, l: Limits, d: seq<nat>, k: nat, j: nat): Status
    requires k <= |d|
  {
    Classify(l, Spent(w, d, if j < k then j else k))
  }

  /** Fine statuses first; then all degraded to the end, or a single blocked one that ends the run: never both. */
  lemma StatusesInOrder(entries: seq<Entry>, w: World, l: Limits, results: seq<Scored>, total: int, k: nat)
    requires Outcome(entries, w, l, Dicts(entries), results, total, k)
    ensures forall j :: 0 <= j < |results| ==> StatusAt(w, l, Dicts(entries), k, j) == if j < k then Ok else Degrade
    ensures |results| < |Dicts(entries)| ==>
              StatusAt(w, l, Dicts(entries), k, |results|) == Blocked && k == |results|
  {
  }

  /** A run stops at the first model call that reaches the warn threshold, so only that call can go beyond it. */
  lemma SpendingIsBounded(entries: seq<Entry>, w: World, l: Limits, results: seq<Scored>, total: int, k: nat)
    requires Outcome(entries, w, l, Dicts(entries), results, total, k) && l.budget > 0
    ensures k == 0 ==> total == 0
    ensures k > 0 ==> total < WarnAt(l) + w.llm(Dicts(entries)[k - 1]).usage.total
    ensures forall j :: 0 <= j < k ==>
              Spent(w, Dicts(entries), j) < WarnAt(l) && Spent(w, Dicts(entries), j) <= HardAt(l)
  {
    var d := Dicts(entries);
    assert k > 0 ==> Classify(l, Spent(w, d, k - 1)) == Ok;
    forall j | 0 <= j < k ensures Spent(w, d, j) < WarnAt(l) && Spent(w, d, j) <= HardAt(l) {
      assert Classify(l, Spent(w, d, j)) == Ok;
    }
  }

  /**
   * What a result is: the criterion's id, with score and pass of the model's reply for the first k and of the mock's
   * for the others, and no pass for anybody when a hard constraint failed.
   */
  lemma ResultsAre(entries: seq<Entry>, w: World, l: Limits, results: seq<Scored>, unsupported: seq<string>,
                   exceeded: bool, total: int, k: nat, j: nat)
    requires Done(entries, w, l, results, unsupported, exceeded, total, k) && j < |results|
    ensures var i := Dicts(entries)[j];
            && i < |entries| && entries[i].Criterion? && results[j].id == entries[i].id
            && results[j].score == (if j < k then w.llm(i).score else w.mock(i).score)
            && (results[j].hardPass <==> w.hardConstraint && if j < k then w.llm(i).hardPass else w.mock(i).hardPass)
  {
  }

  /** A claim is unsupported exactly when a scored criterion wants a citation and has none that resolves. */
  lemma {:induction false} UnsupportedAre(entries: seq<Entry>, w: World, positions: seq<nat>, id: string)
    requires forall j :: 0 <= j < |positions| ==> positions[j] < |entries| && entries[positions[j]].Criterion?
    ensures id in Unsupported(entries, w, positions) <==>
              exists j :: 0 <= j < |positions| && entries[positions[j]].id == id
                          && entries[positions[j]].requireCitation && !w.cited(positions[j])
  {
    if positions != [] {
      var n := |positions| - 1;
      UnsupportedAre(entries, w, positions[..n], id);
      var i := positions[n];
      var own := if entries[i].requireCitation && !w.cited(i) then [entries[i].id] else [];
      assert id in Unsupported(entries, w, positions) <==> id in Unsupported(entries, w, positions[..n]) || id in own;
    }
  }
}
