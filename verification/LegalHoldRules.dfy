/** Who can end a hold, how long retention protects, and what an upload and an impose leave behind. */
module LegalHoldRules {
  import opened Basics
  import opened PythonStrings
  import opened ObjectStorage
  import opened LegalHold
  import opened LegalHoldSafety

  // ---- A hold ends by two reviewers ----

  ghost predicate HasText(s: string) {
    exists i :: 0 <= i < |s| && !IsSpace(s[i])
  }

  /** A release of this hold by its tenant, with a reason and two reviewers that differ in more than outer blanks. */
  ghost predicate ReleasesByTwo(step: Step, hold: nat, tenant: string) {
    && step.Release? && step.hold == hold && step.tenant == tenant
    && HasText(step.reason) && HasText(step.reviewer) && HasText(step.reviewer2)
    && Strip(step.reviewer) != Strip(step.reviewer2)
  }

  lemma HasTextIff(s: string)
    ensures HasText(s) <==> Strip(s) != ""
  {
    StripIsEmptyIff(s);
  }

  /** A step ends an active hold if and only if it is such a release. */
  lemma HoldEndsIff(s: State, c: Config, step: Step, i: nat)
    requires i < |s.holds| && s.holds[i].active
    ensures var s' := Next(s, c, step);
            && i < |s'.holds| && s'.holds[i].key == s.holds[i].key
            && (!s'.holds[i].active <==> ReleasesByTwo(step, i, s.holds[i].key.tenant))
  {
    match step
    case Release(h, t, reason, a, b) =>
      HasTextIff(reason);
      HasTextIff(a);
      HasTextIff(b);
    case _ =>
  }

  /** A hold that ended in a run was released by two reviewers in it. */
  lemma {:induction false} HoldEndedByTwo(s: State, c: Config, steps: seq<Step>, i: nat)
    requires i < |s.holds| && s.holds[i].active
    ensures i < |After(s, c, steps).holds|
    ensures !After(s, c, steps).holds[i].active ==>
              exists n :: 0 <= n < |steps| && ReleasesByTwo(steps[n], i, s.holds[i].key.tenant)
    decreases |steps|
  {
    if steps != [] {
      HoldEndsIff(s, c, steps[0], i);
      if Next(s, c, steps[0]).holds[i].active {
        HoldEndedByTwo(Next(s, c, steps[0]), c, steps[1..], i);
        if !After(s, c, steps).holds[i].active {
          var n :| 0 <= n < |steps| - 1 && ReleasesByTwo(steps[1..][n], i, s.holds[i].key.tenant);
          assert ReleasesByTwo(steps[n + 1], i, s.holds[i].key.tenant);
        }
      } else {
        assert ReleasesByTwo(steps[0], i, s.holds[i].key.tenant);
        HoldsStay(Next(s, c, steps[0]), c, steps[1..], i);
      }
    }
  }

  lemma {:induction false} HoldsStay(s: State, c: Config, steps: seq<Step>, i: nat)
    requires i < |s.holds|
    ensures i < |After(s, c, steps).holds|
    decreases |steps|
  {
    if steps != [] {
      HoldsStay(Next(s, c, steps[0]), c, steps[1..], i);
    }
  }

  /** A release that is refused changes nothing, and says why. */
  lemma RefusedRelease(s: State, hold: nat, tenant: string, reason: string, a: string, b: string)
    ensures var (s', r) := Released(s, hold, tenant, reason, a, b);
            var known := hold < |s.holds| && s.holds[hold].key.tenant == tenant;
            && (r == Err(HoldNotFound) <==> !known)
            && (r == Err(ReleaseConflict) <==> known && !s.holds[hold].active)
            && (r == Err(ApprovalRequired) <==>
                  known && s.holds[hold].active && !ReleasesByTwo(Release(hold, tenant, reason, a, b), hold, tenant))
            && (r in {Err(HoldNotFound), Err(ReleaseConflict), Err(ApprovalRequired)} ==> s' == s)
  {
    HasTextIff(reason);
    HasTextIff(a);
    HasTextIff(b);
  }

  // ---- Retention ----

  /** The time at which a step archives or cleans, if it does. */
  function TimeOf(step: Step): Option<int> {
    match step
    case Upload(_, _, _, bytes, now) => if bytes.Some? then Some(now) else None
    case Persist(_, _, _, now) => Some(now)
    case Cleanup(_, now) => Some(now)
    case _ => None
  }

  /** Nothing is archived before the time and nothing cleaned up at or after the end of its retention. */
  ghost predicate WithinRetention(c: Config, step: Step, from: int) {
    && (TimeOf(step).Some? ==> TimeOf(step).value >= from)
    && (step.Cleanup? ==> step.now < from + c.retention)
  }

  ghost predicate ProtectedUntil(s: State, u: Uri, until: int) {
    u in s.objects && s.objects[u].retainUntil.Some? && s.objects[u].retainUntil.value >= until
  }

  lemma StepKeepsProtected(s: State, c: Config, step: Step, u: Uri, from: int)
    requires c.retention > 0 && ProtectedUntil(s, u, from + c.retention) && WithinRetention(c, step, from)
    ensures ProtectedUntil(Next(s, c, step), u, from + c.retention)
  {
    match step
    case Upload(t, d, f, bytes, now) =>
      if bytes.Some? { ArchivedKeepsProtected(s, c, DocumentUri(t, d, f), bytes.value, now, u, from); }
    case Persist(t, e, content, now) => ArchivedKeepsProtected(s, c, ReportUri(t, e, content), content, now, u, from);
    case _ =>
  }

  lemma ArchivedKeepsProtected(s: State, c: Config, v: Uri, bytes: string, now: int, u: Uri, from: int)
    requires c.retention > 0 && ProtectedUntil(s, u, from + c.retention) && now >= from
    ensures ProtectedUntil(Archived(s, c, v, bytes, now), u, from + c.retention)
  {
  }

  lemma {:induction false} RunKeepsProtected(s: State, c: Config, steps: seq<Step>, u: Uri, from: int)
    requires c.retention > 0 && ProtectedUntil(s, u, from + c.retention)
    requires forall n :: 0 <= n < |steps| ==> WithinRetention(c, steps[n], from)
    ensures ProtectedUntil(After(s, c, steps), u, from + c.retention)
    decreases |steps|
  {
    if steps != [] {
      assert WithinRetention(c, steps[0], from);
      StepKeepsProtected(s, c, steps[0], u, from);
      RunKeepsProtected(Next(s, c, steps[0]), c, steps[1..], u, from);
    }
  }

  /**
   * Retention protects: an uploaded document is still stored after any run in which time does not go back and no
   * cleanup comes as late as its retention ends, whatever is imposed, released and uploaded again.
   */
  lemma RetentionProtects(s: State, c: Config, tenant: string, doc: string, filename: string, bytes: string, now: int,
                          steps: seq<Step>)
    requires c.retention > 0 && (c.worm ==> DocumentUri(tenant, doc, filename) !in s.objects)
    requires forall n :: 0 <= n < |steps| ==> WithinRetention(c, steps[n], now)
    ensures DocumentUri(tenant, doc, filename)
              in After(Uploaded(s, c, tenant, doc, filename, Some(bytes), now), c, steps).objects
  {
    RunKeepsProtected(Uploaded(s, c, tenant, doc, filename, Some(bytes), now), c, steps,
                      DocumentUri(tenant, doc, filename), now);
  }

  /** With no hold on it, a cleanup right after the upload removes the document exactly when its retention has ended. */
  lemma CleanedAfterRetention(s: State, c: Config, tenant: string, doc: string, filename: string, bytes: string,
                              now: int, later: int)
    requires !HasActive(s.holds, Key(tenant, "document", doc))
    requires c.worm ==> DocumentUri(tenant, doc, filename) !in s.objects
    ensures var u := DocumentUri(tenant, doc, filename);
            var s1 := Uploaded(s, c, tenant, doc, filename, Some(bytes), now);
            var (s2, r) := Cleaned(s1, Key(tenant, "document", doc), later);
            var ended := c.retention == 0 || later >= now + c.retention;
            && u in s1.objects && (u !in s2.objects <==> ended)
            && r == if ended then Ok(true) else Err(RetentionActive)
  {
  }

  /** What a cleanup answers: an active hold comes first, then retention, then the flag of the object. */
  lemma CleanupAnswers(s: State, key: Key, now: int)
    requires Resolve(s, key).Ok?
    ensures var u, (s', r) := Resolve(s, key).value, Cleaned(s, key, now);
            var held := FindActive(s.holds, key) < |s.holds|;
            var found := u.Some? && u.value in s.objects;
            var retained := found && s.objects[u.value].retainUntil.Some? && s.objects[u.value].retainUntil.value > now;
            var flagged := found && s.objects[u.value].held;
            && (r == Err(LegalHoldActive) <==> held || (!retained && flagged))
            && (r == Err(RetentionActive) <==> !held && retained)
            && (r == Ok(true) <==> !held && !retained && !flagged && found)
            && (r == Ok(false) <==> !held && !found)
            && (r != Ok(true) ==> s' == s)
  {
    if Resolve(s, key).value.Some? && Resolve(s, key).value.value !in s.objects {
      assert s.objects - {Resolve(s, key).value.value} == s.objects;
    }
  }

  // ---- What an upload leaves ----

  /** The record points to the new object, which is stored; an active hold now names, covers and flags it. */
  lemma UploadLeaves(s: State, c: Config, tenant: string, doc: string, filename: string, bytes: string, now: int)
    ensures var s' := Uploaded(s, c, tenant, doc, filename, Some(bytes), now);
            var u, key := DocumentUri(tenant, doc, filename), Key(tenant, "document", doc);
            && Resolve(s', key) == Ok(Some(u)) && u in s'.objects && |s'.holds| == |s.holds|
            && (c.worm && u in s.objects ==> s'.objects[u].bytes == s.objects[u].bytes)
            && (!(c.worm && u in s.objects) ==>
                  s'.objects[u].bytes == bytes && (Held(s'.objects, u) <==> HasActive(s.holds, key)))
            && (forall v :: v in s.objects && v != u ==> v in s'.objects && s'.objects[v] == s.objects[v])
            && (if HasActive(s.holds, key) then
                  var i := FindActive(s.holds, key);
                  Held(s'.objects, u) && s'.holds[i].uri == Some(u) && s'.holds[i].covered == s.holds[i].covered + {u}
                  && forall j :: 0 <= j < |s.holds| && j != i ==> s'.holds[j] == s.holds[j]
                else s'.holds == s.holds)
  {
  }

  /** A report archived again leaves the same. */
  lemma PersistLeaves(s: State, c: Config, tenant: string, evaluation: string, content: string, now: int)
    requires evaluation != ""
    ensures var s' := Persisted(s, c, tenant, evaluation, content, now);
            var u, key := ReportUri(tenant, evaluation, content), Key(tenant, "report", evaluation);
            && Resolve(s', key) == Ok(Some(u)) && u in s'.objects
            && (HasActive(s.holds, key) ==>
                  Held(s'.objects, u) && s'.holds[FindActive(s.holds, key)].uri == Some(u)
                  && u in s'.holds[FindActive(s.holds, key)].covered)
            && (!HasActive(s.holds, key) ==> s'.holds == s.holds)
  {
  }

  // ---- What an impose answers ----

  /** An answer names an active hold on the request's key; a new hold is the last, and flags its record's object. */
  lemma ImposeAnswers(s: State, r: Request)
    ensures var (s', answer) := Imposed(s, r);
            && (answer.Err? ==> s' == s)
            && (answer == Err(InvalidPayload) <==>
                  !(HasText(r.kind) && HasText(r.id) && HasText(r.reason) && HasText(r.imposedBy)))
            && (answer.Ok? ==>
                  && answer.value < |s'.holds| && s'.holds[answer.value].active
                  && s'.holds[..|s.holds|] == s.holds
                  && var hold := s'.holds[answer.value];
                     if answer.value < |s.holds| then s' == s && hold.key == Key(r.tenant, r.kind, r.id)
                     else
                       && hold.key == Key(r.tenant, Strip(r.kind), Strip(r.id))
                       && Resolve(s, hold.key) == Ok(hold.uri)
                       && (hold.uri.Some? && hold.uri.value in s.objects ==>
                             Held(s'.objects, hold.uri.value) && hold.covered == {hold.uri.value}))
  {
    HasTextIff(r.kind);
    HasTextIff(r.id);
    HasTextIff(r.reason);
    HasTextIff(r.imposedBy);
  }
}
