/** Legal holds over stored documents and reports: imposing, releasing, uploading, re-archiving and cleaning up. */
module LegalHold {
  import opened Basics
  import opened PythonStrings
  import opened ObjectStorage

  /** What a hold is about. */
  datatype Key = Key(tenant: string, kind: string, id: string)

  /** `covered` records every object that was flagged under the hold; the code keeps only the latest, in `uri`. */
  datatype Hold = Hold(key: Key, active: bool, uri: Option<Uri>, covered: set<Uri>)

  /** A document or report record: its tenant and where its object is. */
  datatype Stored = Stored(tenant: string, uri: Option<Uri>)

  /** Holds are numbered in the order in which they were imposed. */
  datatype State = State(objects: Objects, holds: seq<Hold>, documents: map<string, Stored>,
                         reports: map<string, Stored>)

  datatype Config = Config(worm: bool, retention: nat)

  function KeyOf(u: Uri): Key {
    match u
    case DocumentUri(t, id, _) => Key(t, "document", id)
    case ReportUri(t, id, _) => Key(t, "report", id)
  }

  // ---- The state after each operation ----

  /** The first active hold on the key, or the number of holds if there is none. */
  function FindActive(holds: seq<Hold>, key: Key): (i: nat)
    ensures i <= |holds|
    ensures i < |holds| ==> holds[i].active && holds[i].key == key
    ensures forall j :: 0 <= j < i ==> !(holds[j].active && holds[j].key == key)
  {
    if holds == [] || (holds[0].active && holds[0].key == key) then 0 else 1 + FindActive(holds[1..], key)
  }

  predicate HasActive(holds: seq<Hold>, key: Key) {
    FindActive(holds, key) < |holds|
  }

  function Lookup(records: map<string, Stored>, id: string, tenant: string): Result<Option<Uri>, Error> {
    if id !in records then Ok(None)
    else if records[id].tenant != tenant then Err(TenantScopeViolation)
    else Ok(records[id].uri)
  }

  function Resolve(s: State, key: Key): Result<Option<Uri>, Error> {
    if key.kind == "document" then Lookup(s.documents, key.id, key.tenant)
    else if key.kind == "report" then Lookup(s.reports, key.id, key.tenant)
    else Ok(None)
  }

  /** Stores an object; an active hold on its key is moved to it and flags it. */
  function Archived(s: State, c: Config, u: Uri, bytes: string, now: int): State {
    var objs, i := Put(s.objects, c.worm, c.retention, u, bytes, now), FindActive(s.holds, KeyOf(u));
    if i == |s.holds| then s.(objects := objs)
    else s.(objects := WithHold(objs, u, true),
            holds := s.holds[i := s.holds[i].(uri := Some(u), covered := s.holds[i].covered + {u})])
  }

  function Uploaded(s: State, c: Config, tenant: string, doc: string, filename: string, bytes: Option<string>,
                    now: int): State {
    if bytes.None? then s.(documents := s.documents[doc := Stored(tenant, None)])
    else
      var u := DocumentUri(tenant, doc, filename);
      Archived(s, c, u, bytes.value, now).(documents := s.documents[doc := Stored(tenant, Some(u))])
  }

  function Persisted(s: State, c: Config, tenant: string, evaluation: string, content: string, now: int): State {
    if evaluation == "" then s.(reports := s.reports[evaluation := Stored(tenant, None)])
    else
      var u := ReportUri(tenant, evaluation, content);
      Archived(s, c, u, content, now).(reports := s.reports[evaluation := Stored(tenant, Some(u))])
  }

  datatype Request = Request(tenant: string, kind: string, id: string, reason: string, imposedBy: string)

  function Imposed(s: State, r: Request): (State, Result<nat, Error>) {
    if Strip(r.kind) == "" || Strip(r.id) == "" || Strip(r.reason) == "" || Strip(r.imposedBy) == "" then
      (s, Err(InvalidPayload))
    else if HasActive(s.holds, Key(r.tenant, r.kind, r.id)) then
      (s, Ok(FindActive(s.holds, Key(r.tenant, r.kind, r.id))))
    else
      var key := Key(r.tenant, Strip(r.kind), Strip(r.id));
      match Resolve(s, key)
      case Err(e) => (s, Err(e))
      case Ok(None) => (s.(holds := s.holds + [Hold(key, true, None, {})]), Ok(|s.holds|))
      case Ok(Some(u)) =>
        (s.(objects := WithHold(s.objects, u, true),
            holds := s.holds + [Hold(key, true, Some(u), if u in s.objects then {u} else {})]), Ok(|s.holds|))
  }

  /** A release that cannot resolve the object fails after the hold was already marked as released. */
  function Released(s: State, hold: nat, tenant: string, reason: string, reviewer: string, reviewer2: string)
    : (State, Result<nat, Error>) {
    if hold >= |s.holds| || s.holds[hold].key.tenant != tenant then (s, Err(HoldNotFound))
    else if !s.holds[hold].active then (s, Err(ReleaseConflict))
    else if Strip(reason) == "" || Strip(reviewer) == "" || Strip(reviewer2) == ""
            || Strip(reviewer) == Strip(reviewer2) then
      (s, Err(ApprovalRequired))
    else
      var h := s.holds[hold].(active := false);
      var found: Result<Option<Uri>, Error> := if h.uri.Some? then Ok(h.uri) else Resolve(s, h.key);
      match found
      case Err(e) => (s.(holds := s.holds[hold := h]), Err(e))
      case Ok(None) => (s.(holds := s.holds[hold := h]), Ok(hold))
      case Ok(Some(u)) => (s.(objects := WithHold(s.objects, u, false), holds := s.holds[hold := h.(uri := Some(u))]),
                           Ok(hold))
  }

  function Cleaned(s: State, key: Key, now: int): (State, Result<bool, Error>) {
    match Resolve(s, key)
    case Err(e) => (s, Err(e))
    case Ok(u) =>
      if HasActive(s.holds, key) then (s, Err(LegalHoldActive))
      else if u.None? then (s, Ok(false))
      else if Retained(s.objects, u.value, now) then (s, Err(RetentionActive))
      else var d := Delete(s.objects, u.value, now); (s.(objects := d.0), d.1)
  }

  // ---- The store ----

  class HoldStore {
    const storage: LocalObjectStorage
    var holds: seq<Hold>
    var documents: map<string, Stored>
    var reports: map<string, Stored>

    constructor (storage: LocalObjectStorage)
      ensures this.storage == storage && holds == [] && documents == map[] && reports == map[]
    {
      this.storage := storage;
      holds, documents, reports := [], map[], map[];
    }

    function Value(): State
      reads this, storage
    {
      State(storage.objects, holds, documents, reports)
    }

    function Settings(): Config {
      Config(storage.worm, storage.retention)
    }

    method FindActiveLegalHold(key: Key) returns (found: Option<nat>)
      ensures found == if HasActive(holds, key) then Some(FindActive(holds, key)) else None
    {
      for i := 0 to |holds|
        invariant forall j :: 0 <= j < i ==> !(holds[j].active && holds[j].key == key)
      {
        if holds[i].key.tenant != key.tenant || holds[i].key.kind != key.kind || holds[i].key.id != key.id {
          continue;
        }
        if holds[i].active {
          return Some(i);
        }
      }
      found := None;
    }

    method Archive(u: Uri, bytes: string, now: int)
      modifies this, storage
      ensures Value() == Archived(old(Value()), Settings(), u, bytes, now)
    {
      storage.PutObject(u, bytes, now);
      var active := FindActiveLegalHold(KeyOf(u));
      if active.Some? {
        var i := active.value;
        holds := holds[i := holds[i].(uri := Some(u), covered := holds[i].covered + {u})];
        var _ := storage.ApplyLegalHold(u);
      }
    }

    method CreateUpload(tenant: string, doc: string, filename: string, bytes: Option<string>, now: int)
      modifies this, storage
      ensures Value() == Uploaded(old(Value()), Settings(), tenant, doc, filename, bytes, now)
    {
      var uri := None;
      if bytes.Some? {
        var u := DocumentUri(tenant, doc, filename);
        Archive(u, bytes.value, now);
        uri := Some(u);
      }
      documents := documents[doc := Stored(tenant, uri)];
    }

    method PersistReport(tenant: string, evaluation: string, content: string, now: int)
      modifies this, storage
      ensures Value() == Persisted(old(Value()), Settings(), tenant, evaluation, content, now)
    {
      var uri := None;
      if evaluation != "" {
        var u := ReportUri(tenant, evaluation, content);
        Archive(u, content, now);
        uri := Some(u);
      }
      reports := reports[evaluation := Stored(tenant, uri)];
    }

    method ImposeLegalHold(r: Request) returns (hold: Result<nat, Error>)
      modifies this, storage
      ensures (Value(), hold) == Imposed(old(Value()), r)
    {
      if Strip(r.kind) == "" || Strip(r.id) == "" || Strip(r.reason) == "" || Strip(r.imposedBy) == "" {
        return Err(InvalidPayload);
      }
      var existing := FindActiveLegalHold(Key(r.tenant, r.kind, r.id));
      if existing.Some? {
        return Ok(existing.value);
      }
      var key := Key(r.tenant, Strip(r.kind), Strip(r.id));
      var uri := Resolve(Value(), key);
      if uri.Err? {
        return Err(uri.error);
      }
      var covered := {};
      if uri.value.Some? {
        var applied := storage.ApplyLegalHold(uri.value.value);
        covered := if applied then {uri.value.value} else {};
      }
      hold := Ok(|holds|);
      holds := holds + [Hold(key, true, uri.value, covered)];
    }

    method ReleaseLegalHold(hold: nat, tenant: string, reason: string, reviewer: string, reviewer2: string)
      returns (done: Result<nat, Error>)
      modifies this, storage
      ensures (Value(), done) == Released(old(Value()), hold, tenant, reason, reviewer, reviewer2)
    {
      if hold >= |holds| || holds[hold].key.tenant != tenant {
        return Err(HoldNotFound);
      }
      if !holds[hold].active {
        return Err(ReleaseConflict);
      }
      if Strip(reason) == "" || Strip(reviewer) == "" || Strip(reviewer2) == "" || Strip(reviewer) == Strip(reviewer2) {
        return Err(ApprovalRequired);
      }
      holds := holds[hold := holds[hold].(active := false)];
      var uri := holds[hold].uri;
      if uri.None? {
        var resolved := Resolve(Value(), holds[hold].key);
        if resolved.Err? {
          return Err(resolved.error);
        }
        uri := resolved.value;
        if uri.Some? {
          holds := holds[hold := holds[hold].(uri := uri)];
        }
      }
      assert holds == old(holds)[hold := holds[hold]];
      if uri.Some? {
        var _ := storage.ReleaseLegalHold(uri.value);
      }
      done := Ok(hold);
    }

    method ExecuteStorageCleanup(key: Key, now: int) returns (deleted: Result<bool, Error>)
      modifies this, storage
      ensures (Value(), deleted) == Cleaned(old(Value()), key, now)
    {
      var active := FindActiveLegalHold(key);
      var uri := Resolve(Value(), key);
      if uri.Err? {
        return Err(uri.error);
      }
      if active.Some? {
        return Err(LegalHoldActive);
      }
      if uri.value.Some? && Retained(storage.objects, uri.value.value, now) {
        return Err(RetentionActive);
      }
      deleted := Ok(false);
      if uri.value.Some? {
        deleted := storage.DeleteObject(uri.value.value, now);
      }
    }
  }
}
