/** Namespacing of session ids into the keys of the shared key-value service. */
module RedisKey {

  const KeyPrefix: string := "sf:session:"

  /** The backend key of session `sid`: the id behind a fixed namespace prefix. */
  function Key(sid: string): (k: string)
    ensures |k| == |KeyPrefix| + |sid|
    ensures k[..|KeyPrefix|] == KeyPrefix
    ensures k[|KeyPrefix|..] == sid
  {
    KeyPrefix + sid
  }

  /** Distinct session ids get distinct backend keys. */
  lemma KeyInjective(a: string, b: string)
    requires Key(a) == Key(b)
    ensures a == b
  {
  }

  /** The backend keys occupied by the sessions `ids`. */
  function Keyspace(ids: set<string>): set<string>
  {
    set sid | sid in ids :: Key(sid)
  }

  /** `n` sessions occupy exactly `n` backend keys: namespacing merges no two sessions. */
  lemma {:induction false} KeyspaceSize(ids: set<string>)
    ensures |Keyspace(ids)| == |ids|
  {
    if ids != {} {
      var sid :| sid in ids;
      var rest := ids - {sid};
      KeyspaceSize(rest);
      assert Keyspace(ids) == Keyspace(rest) + {Key(sid)};
      forall s | s in rest
        ensures Key(s) != Key(sid)
      {
        if Key(s) == Key(sid) {
          KeyInjective(s, sid);
        }
      }
      assert Key(sid) !in Keyspace(rest);
    }
  }
}
