// internal/usecase/session.go: SessionManager, sessions stamped with a tenant in memory and on disk.
//
// Save and DeleteWithTenant consist of several methods, each of them one section under the manager's
// lock or one file operation; every other method is one such section. Whatever each of these keeps
// holds in every interleaving. The disk is a map from file name to its contents.
module SessionStore {
  import opened Options
  import opened Messages
  import opened Compression

  datatype Stored = Stored(id: string, externalKey: string, tenantID: string, msgs: seq<Message>)

  // Safe as a file name. Cleaning a path that has no separators and no ".." changes nothing.
  predicate ValidSessionID(id: string) {
    && id != ""
    && (forall i :: 0 <= i < |id| ==> id[i] != '/' && id[i] != '\\' && id[i] != '\0')
    && (forall i :: 0 <= i < |id| - 1 ==> !(id[i] == '.' && id[i + 1] == '.'))
  }

  // A valid ID is one path element: no separator, no null byte, no "..".
  lemma ValidMeansSafe(id: string)
    ensures ValidSessionID(id) <==>
            id != "" && '/' !in id && '\\' !in id && '\0' !in id && forall a, b :: id != a + ".." + b
  {
    if i :| 0 <= i < |id| - 1 && id[i] == '.' && id[i + 1] == '.' {
      assert id == id[..i] + ".." + id[i + 2..];
    }
    forall a, b | id == a + ".." + b
      ensures !ValidSessionID(id)
    {
      assert id[|a|] == '.' && id[|a| + 1] == '.';
    }
  }

  // Whether a caller for tenant `t` may use a session stamped `stamp`; "" stands for no tenant.
  predicate MayUse(t: string, stamp: string) {
    t == "" || stamp == "" || stamp == t
  }

  // Sessions of the old format get a generated ID; their ID becomes the external key.
  function Migrated(data: Stored, newID: string): Stored {
    if data.externalKey == "" then data.(externalKey := data.id, id := newID) else data
  }

  datatype Outcome = Ok | InvalidID | NotFound

  // No file that `tenant` may not use is changed or removed.
  ghost predicate SparesOthers(tenant: string, before: map<string, Stored>, after: map<string, Stored>) {
    forall id :: id in before && !MayUse(tenant, before[id].tenantID) ==> id in after && after[id] == before[id]
  }

  // Every file removed is one its owner in memory may use.
  ghost predicate RemovesOwn(owners: map<string, string>, before: map<string, Stored>, after: map<string, Stored>) {
    forall id :: id in before && id !in after ==> id in owners && MayUse(owners[id], before[id].tenantID)
  }

  function SafeIDs(ids: set<string>): set<string> {
    set id | id in ids && ValidSessionID(id)
  }

  class SessionManager {
    var sessions: map<string, Session>
    var disk: map<string, Stored>
    // Which session objects were handed to which tenant, and what was added through them.
    ghost var handed: set<(Session, string)>
    ghost var added: set<(string, Message)>

    // Starts over files of an earlier run; `earlier` is what was added in it.
    constructor (files: map<string, Stored>, ghost earlier: set<(string, Message)>)
      ensures sessions == map[] && disk == files && handed == {} && added == earlier
      ensures (forall id :: id in files ==> GoodFile(files[id])) ==> Isolated()
    {
      sessions, disk, handed, added := map[], files, {}, earlier;
    }

    ghost function Objects(): set<Session>
      reads this
    {
      set p | p in handed :: p.0
    }

    // All messages were added through sessions handed to `tenant`.
    ghost predicate From(tenant: string, msgs: seq<Message>)
      reads this`added
    {
      forall m :: m in msgs ==> (tenant, m) in added
    }

    ghost predicate GoodFile(data: Stored)
      reads this`added
    {
      data.tenantID != "" && From(data.tenantID, data.msgs)
    }

    // Every session was handed only to the tenant it is stamped with and holds only what that tenant
    // added; the same holds of the files.
    ghost predicate Isolated()
      reads this, Objects()
    {
      && (forall p :: p in handed ==> p.1 != "" && p.0.tenantID == p.1 && From(p.1, p.0.msgs))
      && (forall id :: id in sessions ==> sessions[id] in Objects())
      && (forall id :: id in disk ==> GoodFile(disk[id]))
    }

    // The session for `id`: the one in memory or on disk if the tenant may use it, else a new one.
    method GetOrCreateWithTenant(id: string, tenantID: string, newID: string) returns (s: Session)
      modifies this`sessions, this`handed
      ensures sessions == old(sessions)[id := s] && handed == old(handed) + {(s, tenantID)}
      ensures id in old(sessions) && MayUse(tenantID, old(sessions[id].tenantID)) ==> s == old(sessions[id])
      ensures id in old(sessions) && !MayUse(tenantID, old(sessions[id].tenantID)) ==>
              fresh(s) && s.msgs == [] && s.tenantID == tenantID && s.id == newID && s.externalKey == id
      ensures id !in old(sessions) && Loadable(id, tenantID) ==>
              && fresh(s) && s.msgs == disk[id].msgs
              && s.id == Migrated(disk[id], newID).id && s.externalKey == Migrated(disk[id], newID).externalKey
              && s.tenantID == if disk[id].tenantID == "" then tenantID else disk[id].tenantID
      ensures id !in old(sessions) && !Loadable(id, tenantID) ==>
              fresh(s) && s.msgs == [] && s.tenantID == tenantID && s.id == newID && s.externalKey == id
      ensures old(Isolated()) && tenantID != "" ==>
              Isolated() && s.tenantID == tenantID && From(tenantID, s.msgs)
    {
      if id in sessions {
        s := sessions[id];
        if !MayUse(tenantID, s.tenantID) {
          s := new Session(newID, id);
          s.tenantID := tenantID;
        }
      } else {
        s := LoadOrCreate(id, tenantID, newID);
      }
      sessions := sessions[id := s];
      handed := handed + {(s, tenantID)};
    }

    // A new object for an ID that is not in memory.
    method LoadOrCreate(id: string, tenantID: string, newID: string) returns (s: Session)
      ensures fresh(s)
      ensures Loadable(id, tenantID) ==>
              && s.msgs == disk[id].msgs
              && s.id == Migrated(disk[id], newID).id && s.externalKey == Migrated(disk[id], newID).externalKey
              && s.tenantID == if disk[id].tenantID == "" then tenantID else disk[id].tenantID
      ensures !Loadable(id, tenantID) ==>
              s.msgs == [] && s.tenantID == tenantID && s.id == newID && s.externalKey == id
      ensures Isolated() && tenantID != "" ==> s.tenantID == tenantID && From(tenantID, s.msgs)
    {
      s := new Session(newID, id);
      s.tenantID := tenantID;
      var loaded := LoadFromDisk(id, newID);
      if loaded.Some? && MayUse(tenantID, loaded.value.tenantID) {
        s.id, s.externalKey, s.msgs := loaded.value.id, loaded.value.externalKey, loaded.value.msgs;
        if loaded.value.tenantID != "" {
          s.tenantID := loaded.value.tenantID;
        }
      }
    }

    predicate Loadable(id: string, tenantID: string)
      reads this`disk
    {
      ValidSessionID(id) && id in disk && MayUse(tenantID, disk[id].tenantID)
    }

    method LoadFromDisk(id: string, newID: string) returns (data: Option<Stored>)
      ensures data.Some? <==> ValidSessionID(id) && id in disk
      ensures data.Some? ==> data.value == Migrated(disk[id], newID)
      ensures data.Some? ==> data.value.msgs == disk[id].msgs && data.value.tenantID == disk[id].tenantID
      ensures data.Some? && disk[id].externalKey != "" ==> data.value == disk[id]
      ensures data.Some? && disk[id].externalKey == "" ==> data.value.externalKey == disk[id].id && data.value.id == newID
    {
      if !ValidSessionID(id) || id !in disk {
        return None;
      }
      var s := disk[id];
      if s.externalKey == "" {
        s := s.(externalKey := s.id, id := newID);
      }
      return Some(s);
    }

    // A session in memory, if the tenant may use it.
    method GetWithTenant(id: string, tenantID: string) returns (s: Option<Session>)
      modifies this`handed
      ensures s.Some? <==>
              id in sessions && (tenantID == "" || sessions[id].tenantID == "" || sessions[id].tenantID == tenantID)
      ensures s.Some? ==> s.value == sessions[id] && handed == old(handed) + {(s.value, tenantID)}
      ensures s.None? ==> handed == old(handed)
      ensures old(Isolated()) && tenantID != "" ==> Isolated()
      ensures old(Isolated()) && tenantID != "" && s.Some? ==>
              s.value.tenantID == tenantID && From(tenantID, s.value.msgs)
    {
      if id !in sessions || !MayUse(tenantID, sessions[id].tenantID) {
        return None;
      }
      s := Some(sessions[id]);
      handed := handed + {(sessions[id], tenantID)};
    }

    // The IDs a tenant sees, in no particular order.
    method ListSessionsForTenant(tenantID: string) returns (ids: set<string>)
      ensures forall id :: id in ids <==> id in sessions && MayUse(tenantID, sessions[id].tenantID)
      ensures Isolated() && tenantID != "" ==>
              forall id :: id in ids <==> id in sessions && sessions[id].tenantID == tenantID
    {
      ids := set id | id in sessions && MayUse(tenantID, sessions[id].tenantID);
    }

    // Someone who was handed `s` for `tenant` appends a message to it.
    method AddThrough(s: Session, ghost tenant: string, m: Message)
      requires (s, tenant) in handed
      modifies s`msgs, this`added
      ensures s.msgs == old(s.msgs) + [m] && added == old(added) + {(tenant, m)}
      ensures old(Isolated()) ==> Isolated()
    {
      ghost var before := s.msgs;
      s.AddMessage(m);
      added := added + {(tenant, m)};
    }

    // Someone who was handed `s` for `tenant` has it compressed.
    method CompressThrough(s: Session, ghost tenant: string, content: string, keepRecent: nat)
      requires (s, tenant) in handed
      modifies s`msgs, this`added
      ensures s.msgs == Compressed(old(s.msgs), content, keepRecent)
      ensures added == old(added) + {(tenant, SummaryMessage(content))}
      ensures old(Isolated()) ==> Isolated()
    {
      ghost var before := s.msgs;
      s.CompressMessages(content, keepRecent);
      added := added + {(tenant, SummaryMessage(content))};
    }

    // Save: find the session, then read it, then write the file; others may act in between.
    method SaveFind(id: string) returns (s: Option<Session>)
      ensures s.Some? <==> ValidSessionID(id) && id in sessions
      ensures s.Some? ==> s.value == sessions[id]
      ensures Isolated() && s.Some? ==> s.value in Objects()
    {
      if !ValidSessionID(id) || id !in sessions {
        return None;
      }
      return Some(sessions[id]);
    }

    method SaveRead(s: Session) returns (data: Stored)
      ensures data == Stored(s.id, s.externalKey, s.tenantID, s.msgs)
      ensures Isolated() && s in Objects() ==> GoodFile(data)
    {
      data := Stored(s.id, s.externalKey, s.tenantID, s.msgs);
    }

    method SaveWrite(id: string, data: Stored)
      modifies this`disk
      ensures disk == old(disk)[id := data]
      ensures old(Isolated()) && GoodFile(data) ==> Isolated()
    {
      disk := disk[id := data];
    }

    // Nobody else acts in between here. The file written over may be another tenant's: the code does
    // not look at it. It is spared exactly if the owner of the session may use it.
    method Save(id: string) returns (result: Outcome)
      modifies this`disk
      ensures result == if !ValidSessionID(id) then InvalidID else if id !in sessions then NotFound else Ok
      ensures result != Ok ==> disk == old(disk)
      ensures result == Ok ==>
              disk == old(disk)[id := Stored(sessions[id].id, sessions[id].externalKey, sessions[id].tenantID, sessions[id].msgs)]
      ensures result == Ok ==>
              (SparesOthers(sessions[id].tenantID, old(disk), disk) <==>
               (id in old(disk) ==> MayUse(sessions[id].tenantID, old(disk)[id].tenantID)))
      ensures old(Isolated()) ==> Isolated()
    {
      var s := SaveFind(id);
      if s.None? {
        return if !ValidSessionID(id) then InvalidID else NotFound;
      }
      var data := SaveRead(s.value);
      SaveWrite(id, data);
      result := Ok;
    }

    // First from memory, then the file; nobody else acts in between here. The file removed may be
    // another tenant's: the code checks the stamp of the session in memory only. Others are spared
    // exactly if the file is one the tenant may use.
    method DeleteWithTenant(id: string, tenantID: string) returns (result: Outcome)
      modifies this`sessions, this`disk
      ensures result == if !ValidSessionID(id) then InvalidID
                        else if id in old(sessions) && MayUse(tenantID, old(sessions[id].tenantID)) then Ok
                        else NotFound
      ensures sessions == if result == Ok then old(sessions) - {id} else old(sessions)
      ensures disk == if result == Ok then old(disk) - {id} else old(disk)
      ensures result == Ok ==>
              (SparesOthers(tenantID, old(disk), disk) <==>
               (id in old(disk) ==> MayUse(tenantID, old(disk)[id].tenantID)))
      ensures old(Isolated()) ==> Isolated()
    {
      result := DeleteFromMemory(id, tenantID);
      if result == Ok {
        RemoveFile(id);
      }
    }

    method DeleteFromMemory(id: string, tenantID: string) returns (result: Outcome)
      modifies this`sessions
      ensures result == if !ValidSessionID(id) then InvalidID
                        else if id in old(sessions) && MayUse(tenantID, old(sessions[id].tenantID)) then Ok
                        else NotFound
      ensures sessions == if result == Ok then old(sessions) - {id} else old(sessions)
      ensures old(Isolated()) ==> Isolated()
      ensures old(Isolated()) && tenantID != "" && result == Ok ==> old(sessions[id].tenantID) == tenantID
    {
      if !ValidSessionID(id) {
        return InvalidID;
      }
      if id !in sessions || !MayUse(tenantID, sessions[id].tenantID) {
        return NotFound;
      }
      sessions := sessions - {id};
      result := Ok;
    }

    method RemoveFile(id: string)
      modifies this`disk
      ensures disk == old(disk) - {id}
      ensures old(Isolated()) ==> Isolated()
    {
      disk := disk - {id};
    }

    // Removes the sessions found stale from memory, then their files; nobody else acts in between here.
    // As in DeleteWithTenant the files are not looked at: a file may be another tenant's. Only files of
    // the owners of the stale sessions go exactly if each stale session's owner may use the file of
    // that name.
    method ReapStaleSessions(isStale: string -> bool) returns (count: nat)
      modifies this`sessions, this`disk
      ensures var stale := set id | id in old(sessions) && isStale(id);
              && count == |stale| && sessions == old(sessions) - stale
              && disk == old(disk) - SafeIDs(stale)
              && (forall id :: id in disk <==> id in old(disk) && !(id in stale && ValidSessionID(id)))
              && (RemovesOwn(old(Owners()), old(disk), disk) <==>
                  forall id :: id in SafeIDs(stale) && id in old(disk) ==> MayUse(old(Owners())[id], old(disk)[id].tenantID))
      ensures old(Isolated()) ==> Isolated()
    {
      var staleIDs := set id | id in sessions && isStale(id);
      ReapFromMemory(staleIDs);
      var todo := staleIDs;
      while todo != {}
        invariant todo <= staleIDs
        invariant disk == old(disk) - SafeIDs(staleIDs - todo)
        invariant sessions == old(sessions) - staleIDs
        invariant old(Isolated()) ==> Isolated()
        decreases |todo|
      {
        var id :| id in todo;
        if ValidSessionID(id) {
          RemoveFile(id);
        }
        todo := todo - {id};
      }
      assert staleIDs - todo == staleIDs;
      count := |staleIDs|;
    }

    // The tenant each session in memory is stamped with.
    ghost function Owners(): map<string, string>
      reads this, sessions.Values
    {
      map id | id in sessions :: sessions[id].tenantID
    }

    method ReapFromMemory(staleIDs: set<string>)
      modifies this`sessions
      ensures sessions == old(sessions) - staleIDs
      ensures old(Isolated()) ==> Isolated()
    {
      sessions := sessions - staleIDs;
    }
  }

  // A tenant's first use of an ID under which another tenant's session is stored, then its deletion:
  // the other tenant's file is gone.
  method AnothersFileIsDeleted(id: string, tenant: string, file: Stored, newID: string)
    returns (result: Outcome, left: map<string, Stored>)
    requires ValidSessionID(id) && tenant != "" && file.tenantID != "" && tenant != file.tenantID
    ensures result == Ok && left == map[]
  {
    var sm := new SessionManager(map[id := file], set m | m in file.msgs :: (file.tenantID, m));
    var s := sm.GetOrCreateWithTenant(id, tenant, newID);
    assert sm.Isolated() && s.tenantID == tenant;
    result := sm.DeleteWithTenant(id, tenant);
    left := sm.disk;
  }

  // The same with saving: the other tenant's file is overwritten.
  method AnothersFileIsOverwritten(id: string, tenant: string, file: Stored, newID: string)
    returns (result: Outcome, left: map<string, Stored>)
    requires ValidSessionID(id) && tenant != "" && file.tenantID != "" && tenant != file.tenantID
    ensures result == Ok && left == map[id := Stored(newID, id, tenant, [])]
  {
    var sm := new SessionManager(map[id := file], set m | m in file.msgs :: (file.tenantID, m));
    var s := sm.GetOrCreateWithTenant(id, tenant, newID);
    result := sm.Save(id);
    left := sm.disk;
  }

  // And with reaping.
  method AnothersFileIsReaped(id: string, tenant: string, file: Stored, newID: string)
    returns (count: nat, left: map<string, Stored>)
    requires ValidSessionID(id) && tenant != "" && file.tenantID != "" && tenant != file.tenantID
    ensures count == 1 && left == map[]
  {
    var sm := new SessionManager(map[id := file], set m | m in file.msgs :: (file.tenantID, m));
    var s := sm.GetOrCreateWithTenant(id, tenant, newID);
    ghost var held := sm.sessions;
    var all := (x: string) => true;
    assert (set x | x in held && all(x)) == {id};
    assert SafeIDs({id}) == {id};
    count := sm.ReapStaleSessions(all);
    left := sm.disk;
  }
}
