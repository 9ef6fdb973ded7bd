/**
 * The per-session record: language tag, time-to-live, last-used timestamp
 * and the session's files. Time is an explicit parameter `now` (seconds
 * since the epoch) instead of a read of the wall clock.
 */
module SessionRecord {
  import opened Wrappers

  /** The four fields a record is serialized to; the model of the JSON document. */
  datatype Payload = Payload(
    language: string,
    ttl: int,
    lastUsed: real,
    files: map<string, string>)

  /**
   * A record last used at `lastUsed` with time-to-live `ttl` is expired at
   * `now` when strictly more than `ttl` seconds have passed since.
   */
  predicate IsExpired(lastUsed: real, ttl: int, now: real): (b: bool)
    // within the window (idle time at most ttl) a record is live
    ensures now - lastUsed <= ttl as real ==> !b
    // a non-positive ttl has no "never expires" reading: any elapsed time expires it
    ensures ttl <= 0 && now > lastUsed ==> b
  {
    now - lastUsed > ttl as real
  }

  /** At exactly `ttl` seconds idle a record is still live; any moment later it is expired. */
  lemma ExpiryBoundary(lastUsed: real, ttl: int, eps: real)
    requires eps > 0.0
    ensures !IsExpired(lastUsed, ttl, lastUsed + ttl as real - eps)
    ensures !IsExpired(lastUsed, ttl, lastUsed + ttl as real)
    ensures IsExpired(lastUsed, ttl, lastUsed + ttl as real + eps)
  {
  }

  /** Once expired, a record stays expired as time goes on. */
  lemma ExpiryIsMonotone(lastUsed: real, ttl: int, now: real, later: real)
    requires now <= later
    requires IsExpired(lastUsed, ttl, now)
    ensures IsExpired(lastUsed, ttl, later)
  {
  }

  /** A mutable session record, shared by reference between the store and its callers. */
  class SessionData {
    var language: string
    var ttl: int
    var lastUsed: real
    var files: map<string, string>

    /** Creation at time `now`; omitted files become an empty mapping. */
    constructor (language: string, ttl: int, files: Option<map<string, string>>, now: real)
      ensures this.language == language && this.ttl == ttl
      ensures this.lastUsed == now
      ensures files.None? ==> this.files == map[]
      ensures files.Some? ==> this.files == files.value
      ensures !Expired(now) <==> ttl >= 0
    {
      this.language := language;
      this.ttl := ttl;
      this.lastUsed := now;
      this.files := if files.Some? then files.value else map[];
    }

    /** The serialized form: all four fields, nothing else. */
    function Dumps(): (p: Payload)
      reads this
      ensures p.language == language && p.ttl == ttl
      ensures p.lastUsed == lastUsed && p.files == files
    {
      Payload(language, ttl, lastUsed, files)
    }

    /**
     * Rebuilds a record from its serialized form. The constructor stamps the
     * record with the time of loading, which is then replaced by the stored
     * timestamp, so the result does not depend on `now`.
     */
    static method Loads(p: Payload, now: real) returns (r: SessionData)
      ensures fresh(r)
      ensures r.Dumps() == p
      ensures r.language == p.language && r.ttl == p.ttl
      ensures r.lastUsed == p.lastUsed && r.files == p.files
    {
      r := new SessionData(p.language, p.ttl, Some(p.files), now);
      r.lastUsed := p.lastUsed;
    }

    /** Marks the record as used at `now`; nothing else changes. */
    method Touch(now: real)
      modifies this`lastUsed
      ensures lastUsed == now
      ensures language == old(language) && ttl == old(ttl) && files == old(files)
      ensures !Expired(now) <==> ttl >= 0
    {
      lastUsed := now;
    }

    /** The record's own timestamp and time-to-live, judged at `now`. */
    predicate Expired(now: real): (b: bool)
      reads this
      ensures b <==> IsExpired(lastUsed, ttl, now)
      ensures b <==> now - lastUsed > ttl as real
    {
      IsExpired(lastUsed, ttl, now)
    }
  }
}
