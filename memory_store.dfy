/**
 * The in-process session store: a mapping from session id to record,
 * changed in place, with expiry enforced lazily on read.
 */
module MemoryStore {
  import opened Wrappers
  import opened SessionRecord

  class MemorySessionStore {
    var store: map<string, SessionData>

    constructor ()
      ensures store == map[]
    {
      store := map[];
    }

    /** Stores `data` under `sid`, replacing any previous record, without touching it. */
    method Create(sid: string, data: SessionData)
      modifies this
      ensures store == old(store)[sid := data]
      ensures data.lastUsed == old(data.lastUsed)
    {
      store := store[sid := data];
    }

    /**
     * The record under `sid` if there is one and it is live at `now`. An
     * expired record is removed and reported as absent.
     */
    method Get(sid: string, now: real) returns (r: Option<SessionData>)
      modifies this
      ensures sid !in old(store) ==> r == None && store == old(store)
      ensures sid in old(store) && old(store)[sid].Expired(now) ==>
                r == None && store == old(store) - {sid}
      ensures sid in old(store) && !old(store)[sid].Expired(now) ==>
                r == Some(old(store)[sid]) && store == old(store)
      ensures r.Some? ==> !r.value.Expired(now)
    {
      var data := if sid in store then Some(store[sid]) else None;
      if data.Some? && data.value.Expired(now) {
        Delete(sid);
        return None;
      }
      return data;
    }

    /** Same as Create: an unconditional overwrite, with no implicit touch. */
    method Save(sid: string, data: SessionData)
      modifies this
      ensures store == old(store)[sid := data]
      ensures data.lastUsed == old(data.lastUsed)
    {
      store := store[sid := data];
    }

    /** Removes `sid`; removing an absent id changes nothing and is no error. */
    method Delete(sid: string)
      modifies this
      ensures store == old(store) - {sid}
      ensures sid !in old(store) ==> store == old(store)
    {
      store := store - {sid};
    }
  }

  /**
   * A caller of the store: a two-second session is returned right after
   * creation and is gone, and removed, once more than two seconds have passed.
   */
  method ExpiryScenario(t0: real)
  {
    var s := new MemorySessionStore();
    var d := new SessionData("python", 2, Some(map["a.py" := "x"]), t0);
    s.Create("abc", d);
    var r := s.Get("abc", t0);
    assert r.Some? && r.value.files == map["a.py" := "x"];
    r := s.Get("abc", t0 + 2.5);
    assert r == None && "abc" !in s.store;
  }

  /**
   * The store holds the record itself, so a touch on a record returned by
   * Get extends its life without a Save.
   */
  method TouchWithoutSave(t0: real)
  {
    var s := new MemorySessionStore();
    var d := new SessionData("python", 2, None, t0);
    s.Create("abc", d);
    var r := s.Get("abc", t0 + 1.5);
    r.value.Touch(t0 + 1.5);
    r := s.Get("abc", t0 + 3.0);
    assert r == Some(d);
  }
}
