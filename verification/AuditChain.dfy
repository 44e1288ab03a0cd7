/** The audit log: rows chained by hashes, and the check that walks the chain. */
module AuditChain {
  import opened Basics

  /** A row without its two hashes; `body` is all that is not named here. */
  datatype Content = Content(auditId: string, tenant: string, occurredAt: string, body: string)

  /** A collision-free hash of content and previous hash; a stored value may also be any other text. */
  datatype Hash = Empty | H(content: Content, prev: Hash) | Other(text: string)

  datatype Row = Row(content: Content, prev: Hash, hash: Hash)

  datatype Reason = PrevHashMismatch | AuditHashMismatch

  datatype Report = Valid(checked: nat, lastHash: Hash) | Broken(checked: nat, reason: Reason, auditId: string)

  function LastHash(rows: seq<Row>): Hash {
    if rows == [] then Empty else rows[|rows| - 1].hash
  }

  /** The chain is whole: each row names the hash of the row before and carries its own. */
  ghost predicate Passes(rows: seq<Row>) {
    rows != [] ==>
      var before, row := rows[..|rows| - 1], rows[|rows| - 1];
      Passes(before) && row.prev == LastHash(before) && row.hash == H(row.content, row.prev)
  }

  function RowsOf(rows: seq<Row>, tenant: string): seq<Row> {
    if rows == [] then [] else
      var before, row := rows[..|rows| - 1], rows[|rows| - 1];
      RowsOf(before, tenant) + (if row.content.tenant == tenant then [row] else [])
  }

  function Selected(rows: seq<Row>, tenant: string): seq<Row> {
    if tenant == "" then rows else RowsOf(rows, tenant)
  }

  function WithDefaults(log: Content, freshId: string, now: string): Content {
    log.(auditId := if log.auditId == "" then freshId else log.auditId,
         occurredAt := if log.occurredAt == "" then now else log.occurredAt)
  }

  function Chained(rows: seq<Row>, content: Content): Row {
    Row(content, LastHash(rows), H(content, LastHash(rows)))
  }

  /** The verdict on rows: the first row that breaks the chain, or the last hash. */
  ghost predicate Judges(r: Report, rows: seq<Row>) {
    match r
    case Valid(n, last) => Passes(rows) && n == |rows| && last == LastHash(rows)
    case Broken(n, reason, id) =>
      && 1 <= n <= |rows| && Passes(rows[..n - 1])
      && var row, last := rows[n - 1], LastHash(rows[..n - 1]);
         && id == row.content.auditId
         && (if reason.PrevHashMismatch? then row.prev != last
             else row.prev == last && row.hash != H(row.content, last))
  }

  class AuditLog {
    var rows: seq<Row>

    constructor ()
      ensures rows == []
    {
      rows := [];
    }

    method Append(log: Content, freshId: string, now: string) returns (row: Row)
      modifies this
      ensures row == Chained(old(rows), WithDefaults(log, freshId, now)) && rows == old(rows) + [row]
      ensures Passes(rows) <==> old(Passes(rows))
      ensures row.content.tenant == log.tenant && row.content.body == log.body
      ensures row.content.auditId == freshId || (row.content.auditId == log.auditId && log.auditId != "")
      ensures row.content.occurredAt == now || (row.content.occurredAt == log.occurredAt && log.occurredAt != "")
      ensures (log.auditId != "" ==> row.content.auditId == log.auditId)
              && (log.occurredAt != "" ==> row.content.occurredAt == log.occurredAt)
    {
      var entry := log;
      if entry.auditId == "" {
        entry := entry.(auditId := freshId);
      }
      if entry.occurredAt == "" {
        entry := entry.(occurredAt := now);
      }
      var prev := Empty;
      if rows != [] {
        prev := rows[|rows| - 1].hash;
      }
      row := Row(entry, prev, H(entry, prev));
      assert (rows + [row])[..|rows|] == rows;
      rows := rows + [row];
    }

    method Verify(tenant: string) returns (report: Report)
      ensures Judges(report, Selected(rows, tenant))
    {
      var rows := Selected(rows, tenant);
      var prev := Empty;
      for i := 0 to |rows|
        invariant Passes(rows[..i]) && prev == LastHash(rows[..i])
      {
        var row := rows[i];
        if row.prev != prev {
          return Broken(i + 1, PrevHashMismatch, row.content.auditId);
        }
        if row.hash != H(row.content, prev) {
          return Broken(i + 1, AuditHashMismatch, row.content.auditId);
        }
        assert rows[..i + 1][..i] == rows[..i];
        prev := row.hash;
      }
      assert rows[..|rows|] == rows;
      report := Valid(|rows|, prev);
    }
  }

  // ---- Passing is a property of the rows alone ----

  lemma {:induction false} PrefixPasses(rows: seq<Row>, n: nat)
    requires Passes(rows) && n <= |rows|
    ensures Passes(rows[..n])
  {
    if n < |rows| {
      PrefixPasses(rows[..|rows| - 1], n);
      assert rows[..|rows| - 1][..n] == rows[..n];
    } else {
      assert rows[..n] == rows;
    }
  }

  /**
   * The check has one verdict: two reports that judge the same rows are equal, and it is valid exactly when they pass.
   */
  lemma OneVerdict(r: Report, s: Report, rows: seq<Row>)
    requires Judges(r, rows) && Judges(s, rows)
    ensures r == s && (r.Valid? <==> Passes(rows))
  {
    BrokenFromThere(r, rows, |rows|);
    BrokenFromThere(s, rows, |rows|);
    assert rows[..|rows|] == rows;
    if r.Broken? && s.Broken? {
      BrokenFromThere(r, rows, s.checked - 1);
      BrokenFromThere(s, rows, r.checked - 1);
    }
  }

  /** From the reported row on, no prefix passes. */
  lemma BrokenFromThere(r: Report, rows: seq<Row>, n: nat)
    requires Judges(r, rows) && n <= |rows|
    ensures r.Broken? && r.checked <= n ==> !Passes(rows[..n])
  {
    if r.Broken? && r.checked <= n {
      assert rows[..r.checked][..r.checked - 1] == rows[..r.checked - 1];
      assert rows[..n][..r.checked] == rows[..r.checked];
      if Passes(rows[..n]) {
        PrefixPasses(rows[..n], r.checked);
      }
    }
  }

  // ---- Appends ----

  function Appended(logs: seq<Content>): seq<Row> {
    if logs == [] then [] else
      var before := Appended(logs[..|logs| - 1]);
      before + [Chained(before, logs[|logs| - 1])]
  }

  /** Any sequence of appends passes the unfiltered check. */
  lemma {:induction false} AppendsPass(logs: seq<Content>)
    ensures Passes(Appended(logs)) && |Appended(logs)| == |logs|
  {
    if logs != [] {
      AppendsPass(logs[..|logs| - 1]);
      var before := Appended(logs[..|logs| - 1]);
      assert Appended(logs)[..|before|] == before;
    }
  }

  /** The last hash commits to the whole history: two passing logs with the same last hash are the same rows. */
  lemma {:induction false} LastHashCommits(a: seq<Row>, b: seq<Row>)
    requires Passes(a) && Passes(b) && LastHash(a) == LastHash(b)
    ensures a == b
  {
    if a != [] && b != [] {
      LastHashCommits(a[..|a| - 1], b[..|b| - 1]);
      assert a == a[..|a| - 1] + [a[|a| - 1]] && b == b[..|b| - 1] + [b[|b| - 1]];
    }
  }

  // ---- What the check detects ----

  /** Changing the content of any row, without its hash, is reported at that row. */
  lemma EditIsReported(rows: seq<Row>, i: nat, c: Content)
    requires Passes(rows) && i < |rows| && c != rows[i].content
    ensures Judges(Broken(i + 1, AuditHashMismatch, c.auditId), rows[i := rows[i].(content := c)])
  {
    RowIsChained(rows, i);
    assert rows[i := rows[i].(content := c)][..i] == rows[..i];
  }

  /** Removing any row but the last is reported at its place. */
  lemma RemovalIsReported(rows: seq<Row>, i: nat)
    requires Passes(rows) && i + 1 < |rows|
    ensures Judges(Broken(i + 1, PrevHashMismatch, rows[i + 1].content.auditId), rows[..i] + rows[i + 1..])
  {
    RowIsChained(rows, i);
    RowIsChained(rows, i + 1);
    assert (rows[..i] + rows[i + 1..])[..i] == rows[..i];
    HashDiffersFromPrev(rows[i].hash);
  }

  lemma RowIsChained(rows: seq<Row>, i: nat)
    requires Passes(rows) && i < |rows|
    ensures Passes(rows[..i]) && rows[i].prev == LastHash(rows[..i]) && rows[i].hash == H(rows[i].content, rows[i].prev)
  {
    PrefixPasses(rows, i);
    PrefixPasses(rows, i + 1);
    assert rows[..i + 1][..i] == rows[..i];
  }

  lemma HashDiffersFromPrev(h: Hash)
    ensures h.H? ==> h != h.prev
  {
    if h.H? {
      assert h.prev < h;
    }
  }

  /** Dropping rows from the end, or any rewriting that chains the rows anew, passes: only the last hash can tell. */
  lemma TruncationPasses(rows: seq<Row>, n: nat)
    requires Passes(rows) && n < |rows|
    ensures Judges(Valid(n, LastHash(rows[..n])), rows[..n]) && LastHash(rows[..n]) != LastHash(rows)
  {
    PrefixPasses(rows, n);
    if LastHash(rows[..n]) == LastHash(rows) {
      LastHashCommits(rows[..n], rows);
    }
  }

  // ---- The check of one tenant ----

  lemma {:induction false} RowsOfLast(rows: seq<Row>, tenant: string) returns (m: nat)
    requires RowsOf(rows, tenant) != []
    ensures m < |rows| && LastHash(RowsOf(rows, tenant)) == rows[m].hash
  {
    var n := |rows| - 1;
    if rows[n].content.tenant == tenant {
      m := n;
    } else {
      assert RowsOf(rows, tenant) == RowsOf(rows[..n], tenant);
      m := RowsOfLast(rows[..n], tenant);
    }
  }

  /** The places of a tenant's rows in the log, in order. */
  ghost predicate PlacesOf(idx: seq<nat>, rows: seq<Row>, tenant: string) {
    && (forall j :: 0 <= j < |idx| ==> idx[j] < |rows|)
    && Increasing(idx)
    && (forall i: nat :: i < |rows| ==> (i in idx <==> rows[i].content.tenant == tenant))
  }

  /** A tenant's rows are exactly the rows that name it, each once and in the order of the log. */
  lemma {:induction false} RowsOfAre(rows: seq<Row>, tenant: string) returns (idx: seq<nat>)
    ensures PlacesOf(idx, rows, tenant) && |RowsOf(rows, tenant)| == |idx|
    ensures forall j :: 0 <= j < |idx| ==> RowsOf(rows, tenant)[j] == rows[idx[j]]
  {
    if rows == [] {
      idx := [];
    } else {
      var n := |rows| - 1;
      var before := RowsOfAre(rows[..n], tenant);
      idx := before + (if rows[n].content.tenant == tenant then [n] else []);
    }
  }

  /** No row of another tenant stands before a row of this one. */
  ghost predicate ComesFirst(rows: seq<Row>, tenant: string) {
    forall i, j :: 0 <= i < j < |rows| && rows[j].content.tenant == tenant ==> rows[i].content.tenant == tenant
  }

  /** In order, places that leave none out are the first ones. */
  lemma {:induction false} FirstPlaces(idx: seq<nat>, rows: seq<Row>, tenant: string, j: nat)
    requires PlacesOf(idx, rows, tenant) && ComesFirst(rows, tenant) && j < |idx|
    ensures idx[j] == j
  {
    assert idx[j] in idx && j <= idx[j] by {
      AtLeastIts(idx, rows, tenant, j);
    }
    assert rows[j].content.tenant == tenant;
    var k :| 0 <= k < |idx| && idx[k] == j;
    AtLeastIts(idx, rows, tenant, k);
    if k < j {
      FirstPlaces(idx, rows, tenant, k);
    }
  }

  /** A passing log holds no two equal rows: what follows a row is built on it. */
  lemma RowsDiffer(rows: seq<Row>, i: nat, j: nat)
    requires Passes(rows) && i < j < |rows|
    ensures rows[i] != rows[j]
  {
    if rows[i] == rows[j] {
      SamePlace(rows, rows, i, j);
    }
  }

  /** On a passing log, the tenant's rows are a start of the log exactly when no other row comes before one of them. */
  lemma PrefixIffFirst(rows: seq<Row>, tenant: string)
    requires Passes(rows)
    ensures RowsOf(rows, tenant) <= rows <==> ComesFirst(rows, tenant)
  {
    var own := RowsOf(rows, tenant);
    var idx := RowsOfAre(rows, tenant);
    if ComesFirst(rows, tenant) {
      forall j | 0 <= j < |own| ensures own[j] == rows[j] {
        FirstPlaces(idx, rows, tenant, j);
      }
    }
    if own <= rows {
      forall j | 0 <= j < |idx| ensures idx[j] == j {
        assert rows[idx[j]] == rows[j];
        if j < idx[j] {
          RowsDiffer(rows, j, idx[j]);
        } else if idx[j] < j {
          RowsDiffer(rows, idx[j], j);
        }
      }
      forall i, j | 0 <= i < j < |rows| && rows[j].content.tenant == tenant ensures rows[i].content.tenant == tenant {
        var k :| 0 <= k < |idx| && idx[k] == j;
        assert idx[i] == i && i in idx;
      }
    }
  }

  /**
   * On a log built by appends, the check of a tenant passes exactly when no row of another tenant stands before one of
   * its own rows.
   */
  lemma TenantPassesIff(rows: seq<Row>, tenant: string)
    requires Passes(rows)
    ensures Passes(RowsOf(rows, tenant)) <==>
              forall i, j ::
                0 <= i < j < |rows| && rows[j].content.tenant == tenant ==> rows[i].content.tenant == tenant
  {
    var own := RowsOf(rows, tenant);
    PrefixIffFirst(rows, tenant);
    if own <= rows {
      PrefixPasses(rows, |own|);
      assert rows[..|own|] == own;
    } else if Passes(own) {
      var m := RowsOfLast(rows, tenant);
      PrefixPasses(rows, m + 1);
      LastHashCommits(own, rows[..m + 1]);
    }
  }

  /**
   * What a tenant's check answers, said of the log itself: the check of an untouched log counts the tenant's rows when
   * they come first, and otherwise stops at the first of them that another tenant's row precedes.
   */
  lemma TenantVerdict(rows: seq<Row>, tenant: string, r: Report, idx: seq<nat>)
    requires Passes(rows) && tenant != "" && Judges(r, Selected(rows, tenant)) && PlacesOf(idx, rows, tenant)
    ensures r.Valid? ==> r.checked == |idx| && forall j :: 0 <= j < |idx| ==> idx[j] == j
    ensures r.Broken? ==> BrokenAt(rows, idx, r)
  {
    var own := RowsOf(rows, tenant);
    RowsAtPlaces(rows, tenant, idx);
    if r.Valid? {
      PassingPlaces(rows, idx, own);
    } else {
      PassingPlaces(rows, idx, own[..r.checked - 1]);
      AtLeastIts(idx, rows, tenant, r.checked - 1);
      BrokenPlace(rows, idx, own, r);
    }
  }

  lemma RowsAtPlaces(rows: seq<Row>, tenant: string, idx: seq<nat>)
    requires PlacesOf(idx, rows, tenant)
    ensures |RowsOf(rows, tenant)| == |idx|
    ensures forall j :: 0 <= j < |idx| ==> RowsOf(rows, tenant)[j] == rows[idx[j]]
  {
    var places := RowsOfAre(rows, tenant);
    forall i: nat ensures i in Members(idx) <==> i in Members(places) {
      assert i < |rows| || (i !in idx && i !in places);
    }
    SameIncreasing(idx, places);
  }

  /** The report names the first of these rows that does not stand where it would without the others' rows. */
  ghost predicate BrokenAt(rows: seq<Row>, idx: seq<nat>, r: Report)
    requires r.Broken?
  {
    && 1 <= r.checked <= |idx| && r.reason == PrevHashMismatch
    && r.checked <= idx[r.checked - 1] < |rows|
    && (forall j :: 0 <= j < r.checked - 1 ==> idx[j] == j)
    && r.auditId == rows[idx[r.checked - 1]].content.auditId
  }

  lemma BrokenPlace(rows: seq<Row>, idx: seq<nat>, own: seq<Row>, r: Report)
    requires Passes(rows) && |own| == |idx| && r.Broken? && Judges(r, own)
    requires forall j :: 0 <= j < |idx| ==> idx[j] < |rows| && own[j] == rows[idx[j]]
    requires (forall j :: 0 <= j < r.checked - 1 ==> idx[j] == j) && idx[r.checked - 1] >= r.checked - 1
    ensures BrokenAt(rows, idx, r)
  {
    var n := r.checked - 1;
    RowIsChained(rows, idx[n]);
    assert own[..n] == rows[..n];
  }

  lemma AtLeastIts(idx: seq<nat>, rows: seq<Row>, tenant: string, j: nat)
    requires PlacesOf(idx, rows, tenant) && j < |idx|
    ensures idx[j] >= j
  {
    if j > 0 {
      AtLeastIts(idx, rows, tenant, j - 1);
    }
  }

  /** Rows of a passing log that pass by themselves are the first rows of it. */
  lemma PassingPlaces(rows: seq<Row>, idx: seq<nat>, part: seq<Row>)
    requires Passes(rows) && Passes(part) && |part| <= |idx|
    requires forall j :: 0 <= j < |part| ==> idx[j] < |rows| && part[j] == rows[idx[j]]
    ensures forall j :: 0 <= j < |part| ==> idx[j] == j
  {
    forall j | 0 <= j < |part| ensures idx[j] == j {
      SamePlace(part, rows, j, idx[j]);
    }
  }

  /** The same row stands at the same place in passing logs. */
  lemma SamePlace(a: seq<Row>, b: seq<Row>, i: nat, j: nat)
    requires Passes(a) && Passes(b) && i < |a| && j < |b| && a[i] == b[j]
    ensures i == j
  {
    PrefixPasses(a, i + 1);
    PrefixPasses(b, j + 1);
    LastHashCommits(a[..i + 1], b[..j + 1]);
    assert |a[..i + 1]| == |b[..j + 1]|;
  }
}
