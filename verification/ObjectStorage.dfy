/**
 * The local object store: objects under keys, with a hold flag and a retention time, and an optional write-once mode.
 */
module ObjectStorage {
  import opened Basics

  /** Where an object lives. Segments are taken as already clean, and a report's file name stands for its content. */
  datatype Uri = DocumentUri(tenant: string, id: string, filename: string)
    | ReportUri(tenant: string, id: string, content: string)

  datatype Object = Object(bytes: string, held: bool, retainUntil: Option<int>)

  datatype Error = LegalHoldActive | RetentionActive | TenantScopeViolation | InvalidPayload | HoldNotFound
    | ReleaseConflict
                 | ApprovalRequired

  type Objects = map<Uri, Object>

  function Put(objs: Objects, worm: bool, retention: nat, u: Uri, bytes: string, now: int): Objects {
    if worm && u in objs then objs
    else objs[u := Object(bytes, false, if retention > 0 then Some(now + retention) else None)]
  }

  function WithHold(objs: Objects, u: Uri, held: bool): Objects {
    if u in objs then objs[u := objs[u].(held := held)] else objs
  }

  predicate Held(objs: Objects, u: Uri) {
    u in objs && objs[u].held
  }

  predicate Retained(objs: Objects, u: Uri, now: int) {
    u in objs && objs[u].retainUntil.Some? && now < objs[u].retainUntil.value
  }

  function Delete(objs: Objects, u: Uri, now: int): (Objects, Result<bool, Error>) {
    if Held(objs, u) then (objs, Err(LegalHoldActive))
    else if Retained(objs, u, now) then (objs, Err(RetentionActive))
    else (objs - {u}, Ok(u in objs))
  }

  class LocalObjectStorage {
    const worm: bool
    const retention: nat
    var objects: Objects

    constructor (worm: bool, retentionDays: int)
      ensures objects == map[] && this.worm == worm && retention == Max(retentionDays, 0)
    {
      this.worm := worm;
      retention := Max(retentionDays, 0);
      objects := map[];
    }

    method PutObject(u: Uri, bytes: string, now: int)
      modifies this
      ensures objects == Put(old(objects), worm, retention, u, bytes, now)
    {
      if u in objects && worm {
        return;
      }
      var meta := Object(bytes, false, None);
      if retention > 0 {
        meta := meta.(retainUntil := Some(now + retention));
      }
      objects := objects[u := meta];
    }

    method DeleteObject(u: Uri, now: int) returns (deleted: Result<bool, Error>)
      modifies this
      ensures (objects, deleted) == Delete(old(objects), u, now)
    {
      if Held(objects, u) {
        return Err(LegalHoldActive);
      }
      if Retained(objects, u, now) {
        return Err(RetentionActive);
      }
      if u !in objects {
        assert objects - {u} == objects;
        return Ok(false);
      }
      objects := objects - {u};
      deleted := Ok(true);
    }

    method ApplyLegalHold(u: Uri) returns (applied: bool)
      modifies this
      ensures objects == WithHold(old(objects), u, true) && applied == (u in old(objects))
    {
      if u !in objects {
        return false;
      }
      objects := objects[u := objects[u].(held := true)];
      applied := true;
    }

    method ReleaseLegalHold(u: Uri) returns (released: bool)
      modifies this
      ensures objects == WithHold(old(objects), u, false) && released == (u in old(objects))
    {
      if u !in objects {
        return false;
      }
      objects := objects[u := objects[u].(held := false)];
      released := true;
    }
  }
}
