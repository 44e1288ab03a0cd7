/** What every run of uploads, re-archiving, holds, releases and cleanups keeps. */
module LegalHoldSafety {
  import opened Basics
  import opened PythonStrings
  import opened ObjectStorage
  import opened LegalHold

  datatype Step =
    | Upload(tenant: string, doc: string, filename: string, bytes: Option<string>, now: int)
    | Persist(tenant: string, evaluation: string, content: string, now: int)
    | Impose(request: Request)
    | Release(hold: nat, tenant: string, reason: string, reviewer: string, reviewer2: string)
    | Cleanup(key: Key, now: int)

  function Next(s: State, c: Config, step: Step): State {
    match step
    case Upload(t, d, f, bytes, now) => Uploaded(s, c, t, d, f, bytes, now)
    case Persist(t, e, content, now) => Persisted(s, c, t, e, content, now)
    case Impose(r) => Imposed(s, r).0
    case Release(h, t, reason, a, b) => Released(s, h, t, reason, a, b).0
    case Cleanup(key, now) => Cleaned(s, key, now).0
  }

  function After(s: State, c: Config, steps: seq<Step>): State
    decreases |steps|
  {
    if steps == [] then s else After(Next(s, c, steps[0]), c, steps[1..])
  }

  const START := State(map[], [], map[], map[])

  // ---- Objects under an active hold are not deleted ----

  ghost predicate RecordsOk(records: map<string, Stored>, kind: string) {
    forall id :: id in records && records[id].uri.Some? ==>
      KeyOf(records[id].uri.value) == Key(records[id].tenant, kind, id)
  }

  ghost predicate HoldOk(h: Hold) {
    && (h.uri.Some? ==> KeyOf(h.uri.value) == h.key)
    && (forall u :: u in h.covered ==> KeyOf(u) == h.key)
  }

  /** Every object a hold covers is an object of its key, and still there while the hold is active. */
  ghost predicate Keeps(s: State) {
    && RecordsOk(s.documents, "document") && RecordsOk(s.reports, "report")
    && (forall i :: 0 <= i < |s.holds| ==> HoldOk(s.holds[i]))
    && (forall i, u :: 0 <= i < |s.holds| && s.holds[i].active && u in s.holds[i].covered ==> u in s.objects)
  }

  lemma ResolvesToOwn(s: State, key: Key)
    requires RecordsOk(s.documents, "document") && RecordsOk(s.reports, "report")
    requires Resolve(s, key).Ok? && Resolve(s, key).value.Some?
    ensures KeyOf(Resolve(s, key).value.value) == key
  {
  }

  lemma ArchivedKeeps(s: State, c: Config, u: Uri, bytes: string, now: int)
    requires Keeps(s)
    ensures Keeps(Archived(s, c, u, bytes, now))
  {
  }

  lemma ImposedKeeps(s: State, r: Request)
    requires Keeps(s)
    ensures Keeps(Imposed(s, r).0)
  {
    var key := Key(r.tenant, Strip(r.kind), Strip(r.id));
    if Resolve(s, key).Ok? && Resolve(s, key).value.Some? {
      ResolvesToOwn(s, key);
    }
  }

  lemma ReleasedKeeps(s: State, hold: nat, tenant: string, reason: string, a: string, b: string)
    requires Keeps(s)
    ensures Keeps(Released(s, hold, tenant, reason, a, b).0)
  {
    if hold < |s.holds| && Resolve(s, s.holds[hold].key).Ok? && Resolve(s, s.holds[hold].key).value.Some? {
      ResolvesToOwn(s, s.holds[hold].key);
    }
  }

  lemma CleanedKeeps(s: State, key: Key, now: int)
    requires Keeps(s)
    ensures Keeps(Cleaned(s, key, now).0)
  {
    if Resolve(s, key).Ok? && Resolve(s, key).value.Some? {
      ResolvesToOwn(s, key);
      if !HasActive(s.holds, key) {
        forall i | 0 <= i < |s.holds| && s.holds[i].active ensures Resolve(s, key).value.value !in s.holds[i].covered {
          assert HoldOk(s.holds[i]) && s.holds[i].key != key;
        }
      }
    }
  }

  lemma NextKeeps(s: State, c: Config, step: Step)
    requires Keeps(s)
    ensures Keeps(Next(s, c, step))
  {
    match step
    case Upload(t, d, f, bytes, now) => if bytes.Some? { ArchivedKeeps(s, c, DocumentUri(t, d, f), bytes.value, now); }
    case Persist(t, e, content, now) => ArchivedKeeps(s, c, ReportUri(t, e, content), content, now);
    case Impose(r) => ImposedKeeps(s, r);
    case Release(h, t, reason, a, b) => ReleasedKeeps(s, h, t, reason, a, b);
    case Cleanup(key, now) => CleanedKeeps(s, key, now);
  }

  lemma {:induction false} RunKeeps(s: State, c: Config, steps: seq<Step>)
    requires Keeps(s)
    ensures Keeps(After(s, c, steps))
    decreases |steps|
  {
    if steps != [] {
      NextKeeps(s, c, steps[0]);
      RunKeeps(Next(s, c, steps[0]), c, steps[1..]);
    }
  }

  /** In every run, whatever the requests look like, no object flagged under a still active hold has been deleted. */
  lemma HeldObjectsAreKept(c: Config, steps: seq<Step>, i: nat, u: Uri)
    requires var s := After(START, c, steps); i < |s.holds| && s.holds[i].active && u in s.holds[i].covered
    ensures u in After(START, c, steps).objects
  {
    RunKeeps(START, c, steps);
  }

  // ---- One active hold, and its objects flagged, when requests are trimmed ----

  ghost predicate Unique(holds: seq<Hold>) {
    forall i, j :: 0 <= i < j < |holds| && holds[i].active && holds[j].active ==> holds[i].key != holds[j].key
  }

  ghost predicate AllHeld(objs: Objects, us: set<Uri>) {
    forall u :: u in us ==> Held(objs, u)
  }

  ghost predicate Flagged(s: State) {
    forall i :: 0 <= i < |s.holds| && s.holds[i].active ==> AllHeld(s.objects, s.holds[i].covered)
  }

  predicate Trimmed(r: Request) {
    Strip(r.kind) == r.kind && Strip(r.id) == r.id
  }

  lemma ArchivedStaysUnique(s: State, c: Config, u: Uri, bytes: string, now: int)
    requires Unique(s.holds)
    ensures Unique(Archived(s, c, u, bytes, now).holds)
  {
  }

  lemma ArchivedFlags(s: State, c: Config, u: Uri, bytes: string, now: int)
    requires Flagged(s) && forall i :: 0 <= i < |s.holds| ==> HoldOk(s.holds[i])
    ensures Flagged(Archived(s, c, u, bytes, now))
  {
    var s', k := Archived(s, c, u, bytes, now), FindActive(s.holds, KeyOf(u));
    forall i | 0 <= i < |s'.holds| && s'.holds[i].active ensures AllHeld(s'.objects, s'.holds[i].covered) {
      assert HoldOk(s.holds[i]) && AllHeld(s.objects, s.holds[i].covered);
      if k == |s.holds| {
        assert u !in s.holds[i].covered;
      } else {
        assert Held(s'.objects, u) && forall v :: v in s'.holds[i].covered ==> v == u || v in s.holds[i].covered;
      }
    }
  }

  lemma ArchivedStays(s: State, c: Config, u: Uri, bytes: string, now: int)
    requires Keeps(s) && Unique(s.holds) && Flagged(s)
    ensures var s' := Archived(s, c, u, bytes, now); Unique(s'.holds) && Flagged(s')
  {
    ArchivedStaysUnique(s, c, u, bytes, now);
    ArchivedFlags(s, c, u, bytes, now);
  }

  lemma ImposedFlags(s: State, r: Request)
    requires Keeps(s) && Unique(s.holds) && Flagged(s) && Trimmed(r)
    ensures var s' := Imposed(s, r).0; Unique(s'.holds) && Flagged(s')
  {
    var s' := Imposed(s, r).0;
    forall i | 0 <= i < |s'.holds| && s'.holds[i].active ensures AllHeld(s'.objects, s'.holds[i].covered) {
      if i < |s.holds| {
        assert AllHeld(s.objects, s.holds[i].covered);
      }
    }
  }

  /** A release clears the flag of an object of its own key only, and no other active hold has that key. */
  lemma ReleasedFlags(s: State, hold: nat, tenant: string, reason: string, a: string, b: string)
    requires Keeps(s) && Unique(s.holds) && Flagged(s)
    ensures var s' := Released(s, hold, tenant, reason, a, b).0; Unique(s'.holds) && Flagged(s')
  {
    var s' := Released(s, hold, tenant, reason, a, b).0;
    if s' != s {
      assert HoldOk(s.holds[hold]);
      if Resolve(s, s.holds[hold].key).Ok? && Resolve(s, s.holds[hold].key).value.Some? {
        ResolvesToOwn(s, s.holds[hold].key);
      }
      forall i | 0 <= i < |s'.holds| && s'.holds[i].active ensures AllHeld(s'.objects, s'.holds[i].covered) {
        assert i != hold && s'.holds[i] == s.holds[i] && HoldOk(s.holds[i]) && s.holds[i].key != s.holds[hold].key;
        assert AllHeld(s.objects, s.holds[i].covered);
      }
    }
  }

  lemma CleanedFlags(s: State, key: Key, now: int)
    requires Keeps(s) && Flagged(s)
    ensures Flagged(Cleaned(s, key, now).0) && Cleaned(s, key, now).0.holds == s.holds
  {
    CleanedKeeps(s, key, now);
    var s' := Cleaned(s, key, now).0;
    forall i | 0 <= i < |s'.holds| && s'.holds[i].active ensures AllHeld(s'.objects, s'.holds[i].covered) {
      assert AllHeld(s.objects, s.holds[i].covered);
    }
  }

  lemma NextFlags(s: State, c: Config, step: Step)
    requires Keeps(s) && Unique(s.holds) && Flagged(s) && (step.Impose? ==> Trimmed(step.request))
    ensures Unique(Next(s, c, step).holds) && Flagged(Next(s, c, step))
  {
    match step
    case Upload(t, d, f, bytes, now) => if bytes.Some? { ArchivedStays(s, c, DocumentUri(t, d, f), bytes.value, now); }
    case Persist(t, e, content, now) => ArchivedStays(s, c, ReportUri(t, e, content), content, now);
    case Impose(r) => ImposedFlags(s, r);
    case Release(h, t, reason, a, b) => ReleasedFlags(s, h, t, reason, a, b);
    case Cleanup(key, now) => CleanedFlags(s, key, now);
  }

  /** When all impose requests are trimmed, a key has at most one active hold and all objects under it stay flagged. */
  lemma {:induction false} TrimmedRunsFlag(s: State, c: Config, steps: seq<Step>)
    requires Keeps(s) && Unique(s.holds) && Flagged(s)
    requires forall i :: 0 <= i < |steps| && steps[i].Impose? ==> Trimmed(steps[i].request)
    ensures Unique(After(s, c, steps).holds) && Flagged(After(s, c, steps))
    decreases |steps|
  {
    if steps != [] {
      NextKeeps(s, c, steps[0]);
      assert steps[0].Impose? ==> Trimmed(steps[0].request);
      NextFlags(s, c, steps[0]);
      TrimmedRunsFlag(Next(s, c, steps[0]), c, steps[1..]);
    }
  }

  // ---- What an untrimmed request does ----

  /**
   * Imposing makes a second active hold for a key exactly when the request as written has no active hold but the
   * trimmed one has: the search compares the text as given, the new hold stores it trimmed.
   */
  lemma ImposeDuplicatesIff(s: State, r: Request)
    requires Unique(s.holds)
    ensures !Unique(Imposed(s, r).0.holds) <==>
              && Strip(r.kind) != "" && Strip(r.id) != "" && Strip(r.reason) != "" && Strip(r.imposedBy) != ""
              && Resolve(s, Key(r.tenant, Strip(r.kind), Strip(r.id))).Ok?
              && !HasActive(s.holds, Key(r.tenant, r.kind, r.id))
              && HasActive(s.holds, Key(r.tenant, Strip(r.kind), Strip(r.id)))
  {
    var key, holds := Key(r.tenant, Strip(r.kind), Strip(r.id)), Imposed(s, r).0.holds;
    var i := FindActive(s.holds, key);
    if |holds| == |s.holds| + 1 {
      if i < |s.holds| {
        assert holds[i].key == holds[|s.holds|].key && holds[i].active && holds[|s.holds|].active;
      }
    } else {
      assert holds == s.holds;
    }
  }

  /** Releasing such a second hold unflags the object of the first, which is still active. */
  lemma SecondHoldUnflags(s: State, r: Request, i: nat, u: Uri, reason: string, a: string, b: string)
    requires Imposed(s, r).1.Ok? && !HasActive(s.holds, Key(r.tenant, r.kind, r.id))
    requires i < |s.holds| && s.holds[i].active && s.holds[i].key == Key(r.tenant, Strip(r.kind), Strip(r.id))
    requires u in s.holds[i].covered && Resolve(s, s.holds[i].key) == Ok(Some(u)) && Held(s.objects, u)
    requires Strip(reason) != "" && Strip(a) != "" && Strip(b) != "" && Strip(a) != Strip(b)
    ensures var s1 := Imposed(s, r).0;
            var s2 := Released(s1, |s.holds|, r.tenant, reason, a, b).0;
            s2.holds[..|s.holds|] == s.holds && s2.holds[i].active && u in s2.holds[i].covered && !Held(s2.objects, u)
  {
  }

  /** Such a run exists: a document, a hold on it, and a second request with a blank in front of its id. */
  lemma UntrimmedWitness(c: Config)
    ensures var r := Request("t", "document", "d", "r", "x");
            var u := DocumentUri("t", "d", "f");
            var s := After(START, c, [Upload("t", "d", "f", Some("text"), 0), Impose(r)]);
            && s.holds == [Hold(Key("t", "document", "d"), true, Some(u), {u})] && Held(s.objects, u)
            && Resolve(s, Key("t", "document", "d")) == Ok(Some(u))
            && Imposed(s, r.(id := " d")).1 == Ok(1) && !HasActive(s.holds, Key("t", "document", " d"))
  {
    var r, u := Request("t", "document", "d", "r", "x"), DocumentUri("t", "d", "f");
    StripPlain("document");
    StripPlain("d");
    StripPlain("r");
    StripPlain("x");
    assert Strip(" d") == "d" by {
      assert " d"[1..] == "d";
    }
    var s1 := Uploaded(START, c, "t", "d", "f", Some("text"), 0);
    var steps := [Upload("t", "d", "f", Some("text"), 0), Impose(r)];
    assert steps[1..] == [Impose(r)] && steps[1..][1..] == [];
    assert s1.holds == [];
    assert Resolve(s1, Key("t", "document", "d")) == Ok(Some(u));
    var s := Imposed(s1, r).0;
    assert s.holds == [Hold(Key("t", "document", "d"), true, Some(u), {u})];
    assert After(s1, c, [Impose(r)]) == After(s, c, []);
    assert Next(START, c, steps[0]) == s1;
  }

  // ---- Release, cleanup and write-once ----

  /** What the code checks before it releases a hold. */
  predicate MayRelease(s: State, hold: nat, tenant: string, reason: string, a: string, b: string) {
    && hold < |s.holds| && s.holds[hold].key.tenant == tenant && s.holds[hold].active
    && Strip(reason) != "" && Strip(a) != "" && Strip(b) != "" && Strip(a) != Strip(b)
  }

  /** A hold that covers objects names one of them, the latest. */
  ghost predicate NamesLatest(h: Hold) {
    h.covered != {} ==> h.uri.Some? && h.uri.value in h.covered
  }

  ghost predicate AllNameLatest(s: State) {
    forall i :: 0 <= i < |s.holds| ==> NamesLatest(s.holds[i])
  }

  lemma NextNamesLatest(s: State, c: Config, step: Step)
    requires AllNameLatest(s)
    ensures AllNameLatest(Next(s, c, step))
  {
    match step
    case Upload(t, d, f, bytes, now) =>
      if bytes.Some? { ArchivedNamesLatest(s, c, DocumentUri(t, d, f), bytes.value, now); }
    case Persist(t, e, content, now) => ArchivedNamesLatest(s, c, ReportUri(t, e, content), content, now);
    case _ => assert forall i :: 0 <= i < |s.holds| ==> NamesLatest(s.holds[i]);
  }

  lemma ArchivedNamesLatest(s: State, c: Config, u: Uri, bytes: string, now: int)
    requires AllNameLatest(s)
    ensures AllNameLatest(Archived(s, c, u, bytes, now))
  {
  }

  lemma {:induction false} RunNamesLatest(s: State, c: Config, steps: seq<Step>)
    requires AllNameLatest(s)
    ensures AllNameLatest(After(s, c, steps))
    decreases |steps|
  {
    if steps != [] {
      NextNamesLatest(s, c, steps[0]);
      RunNamesLatest(Next(s, c, steps[0]), c, steps[1..]);
    }
  }

  /** A release that may be made clears the flag of the object the hold names, and of no other object it covered. */
  lemma ReleaseLeavesOlderFlags(s: State, hold: nat, tenant: string, reason: string, a: string, b: string, u: Uri)
    requires MayRelease(s, hold, tenant, reason, a, b) && u in s.holds[hold].covered && NamesLatest(s.holds[hold])
    ensures var s' := Released(s, hold, tenant, reason, a, b).0;
            Held(s'.objects, u) <==> Held(s.objects, u) && s.holds[hold].uri != Some(u)
  {
  }

  /**
   * In every run of trimmed requests, a release that may be made unflags all objects its hold covered if and only if
   * the hold covered no more than one.
   */
  lemma ReleaseClearsAllIff(c: Config, steps: seq<Step>, hold: nat, tenant: string, reason: string, a: string,
                            b: string)
    requires forall i :: 0 <= i < |steps| && steps[i].Impose? ==> Trimmed(steps[i].request)
    requires MayRelease(After(START, c, steps), hold, tenant, reason, a, b)
    ensures var s := After(START, c, steps);
            var s' := Released(s, hold, tenant, reason, a, b).0;
            (forall u :: u in s.holds[hold].covered ==> !Held(s'.objects, u)) <==> |s.holds[hold].covered| <= 1
  {
    var s := After(START, c, steps);
    var covered := s.holds[hold].covered;
    RunNamesLatest(START, c, steps);
    TrimmedRunsFlag(START, c, steps);
    assert AllHeld(s.objects, covered) && NamesLatest(s.holds[hold]);
    forall u | u in covered
      ensures Held(Released(s, hold, tenant, reason, a, b).0.objects, u) <==> s.holds[hold].uri != Some(u)
    {
      ReleaseLeavesOlderFlags(s, hold, tenant, reason, a, b, u);
    }
    if covered != {} {
      OnlyOneIff(covered, s.holds[hold].uri.value);
    }
  }

  lemma OnlyOneIff(us: set<Uri>, u: Uri)
    requires u in us
    ensures |us| <= 1 <==> forall v :: v in us ==> v == u
  {
    assert us == {u} + (us - {u});
    if |us| > 1 {
      assert us - {u} != {};
    }
  }

  /** A report is archived and held. */
  lemma HeldOnce(c: Config, u: Uri, key: Key)
    requires u == ReportUri("t", "e", "one") && key == Key("t", "report", "e")
    ensures var s := Imposed(Persisted(START, c, "t", "e", "one", 0), Request("t", "report", "e", "r", "x")).0;
            s.holds == [Hold(key, true, Some(u), {u})] && Held(s.objects, u)
  {
    StripPlain("report");
    StripPlain("e");
    StripPlain("r");
    StripPlain("x");
    var s := Persisted(START, c, "t", "e", "one", 0);
    assert s.holds == [] && u in s.objects && Resolve(s, key) == Ok(Some(u));
  }

  /** Archived again, the hold covers both objects. */
  lemma HeldTwice(s: State, c: Config, u: Uri, v: Uri, key: Key)
    requires s.holds == [Hold(key, true, Some(u), {u})] && Held(s.objects, u) && u != v
    requires v == ReportUri("t", "e", "two") && key == Key("t", "report", "e")
    ensures var s' := Persisted(s, c, "t", "e", "two", 0);
            s'.holds == [Hold(key, true, Some(v), {u, v})] && Held(s'.objects, u) && Held(s'.objects, v)
  {
    assert FindActive(s.holds, key) == 0;
    assert {u} + {v} == {u, v};
  }

  lemma ReleasedOnce(s: State, u: Uri, v: Uri, key: Key)
    requires s.holds == [Hold(key, true, Some(v), {u, v})] && Held(s.objects, u) && u != v && key.tenant == "t"
    ensures var s' := Released(s, 0, "t", "r", "a", "b").0;
            && s'.holds == [Hold(key, false, Some(v), {u, v})]
            && Held(s'.objects, u) && !Held(s'.objects, v)
  {
    StripPlain("r");
    StripPlain("a");
    StripPlain("b");
  }

  lemma HeldTwiceReleased(s: State, c: Config, u: Uri, v: Uri, key: Key)
    requires s.holds == [Hold(key, true, Some(u), {u})] && Held(s.objects, u) && u != v
    requires v == ReportUri("t", "e", "two") && key == Key("t", "report", "e")
    ensures var s' := Released(Persisted(s, c, "t", "e", "two", 0), 0, "t", "r", "a", "b").0;
            && s'.holds == [Hold(key, false, Some(v), {u, v})]
            && Held(s'.objects, u) && !Held(s'.objects, v)
  {
    HeldTwice(s, c, u, v, key);
    ReleasedOnce(Persisted(s, c, "t", "e", "two", 0), u, v, key);
  }

  /** A run that gets there: a report is held, archived again, and released; its first object stays flagged. */
  lemma OlderFlagWitness(c: Config)
    ensures var u, v := ReportUri("t", "e", "one"), ReportUri("t", "e", "two");
            var s := After(START, c, [Persist("t", "e", "one", 0), Impose(Request("t", "report", "e", "r", "x")),
                                      Persist("t", "e", "two", 0), Release(0, "t", "r", "a", "b")]);
            && s.holds == [Hold(Key("t", "report", "e"), false, Some(v), {u, v})]
            && Held(s.objects, u) && !Held(s.objects, v)
  {
    var u, v := ReportUri("t", "e", "one"), ReportUri("t", "e", "two");
    var r, key := Request("t", "report", "e", "r", "x"), Key("t", "report", "e");
    FourSteps(START, c, r);
    HeldOnce(c, u, key);
    HeldTwiceReleased(Imposed(Persisted(START, c, "t", "e", "one", 0), r).0, c, u, v, key);
  }

  lemma FourSteps(s: State, c: Config, r: Request)
    ensures After(s, c, [Persist("t", "e", "one", 0), Impose(r), Persist("t", "e", "two", 0),
                         Release(0, "t", "r", "a", "b")])
              == Released(Persisted(Imposed(Persisted(s, c, "t", "e", "one", 0), r).0, c, "t", "e", "two", 0),
                          0, "t", "r", "a", "b").0
  {
    AfterFour(s, c, Persist("t", "e", "one", 0), Impose(r), Persist("t", "e", "two", 0),
              Release(0, "t", "r", "a", "b"));
  }

  lemma AfterFour(s: State, c: Config, s1: Step, s2: Step, s3: Step, s4: Step)
    ensures After(s, c, [s1, s2, s3, s4]) == Next(Next(Next(Next(s, c, s1), c, s2), c, s3), c, s4)
  {
    AfterFirst(s, c, s1, [s2, s3, s4]);
    AfterFirst(Next(s, c, s1), c, s2, [s3, s4]);
    AfterFirst(Next(Next(s, c, s1), c, s2), c, s3, [s4]);
    AfterFirst(Next(Next(Next(s, c, s1), c, s2), c, s3), c, s4, []);
  }

  lemma AfterFirst(s: State, c: Config, step: Step, rest: seq<Step>)
    ensures After(s, c, [step] + rest) == After(Next(s, c, step), c, rest)
  {
    assert ([step] + rest)[1..] == rest;
  }

  /** Cleanup removes at most the object of the record, and exactly when no hold, flag or retention protects it. */
  lemma CleanupRemovesIff(s: State, key: Key, now: int, u: Uri)
    ensures var s' := Cleaned(s, key, now).0;
            u in s.objects && u !in s'.objects <==>
              && u in s.objects && Resolve(s, key) == Ok(Some(u))
              && !HasActive(s.holds, key) && !Held(s.objects, u) && !Retained(s.objects, u, now)
    ensures forall v :: v in Cleaned(s, key, now).0.objects ==>
              v in s.objects && Cleaned(s, key, now).0.objects[v] == s.objects[v]
  {
  }

  lemma StepKeepsBytes(s: State, c: Config, step: Step, u: Uri)
    requires c.worm && u in s.objects && u in Next(s, c, step).objects
    ensures Next(s, c, step).objects[u].bytes == s.objects[u].bytes
  {
  }

  /** In write-once mode an object has the same bytes for as long as it exists. */
  lemma {:induction false} WrittenOnce(s: State, c: Config, steps: seq<Step>, u: Uri)
    requires c.worm && forall n :: 0 <= n <= |steps| ==> u in After(s, c, steps[..n]).objects
    ensures u in s.objects && u in After(s, c, steps).objects
    ensures After(s, c, steps).objects[u].bytes == s.objects[u].bytes
    decreases |steps|
  {
    assert steps[..0] == [] && steps[..|steps|] == steps;
    assert u in After(s, c, steps[..0]).objects;
    if steps != [] {
      var s', rest := Next(s, c, steps[0]), steps[1..];
      forall n | 0 <= n <= |rest| ensures u in After(s', c, rest[..n]).objects {
        assert steps[..n + 1][0] == steps[0] && steps[..n + 1][1..] == rest[..n];
        assert u in After(s, c, steps[..n + 1]).objects;
      }
      WrittenOnce(s', c, rest, u);
      StepKeepsBytes(s, c, steps[0], u);
    }
  }
}
