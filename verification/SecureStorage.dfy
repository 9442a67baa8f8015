/** The operating-system secret store and the clock, as the trust and transport code sees them.

    Nothing is assumed of an unhealthy host: a read may fail, a `put` removes the old credential
    and then adds the new one and may stop or be dropped at either half, and a call that reports
    success may have done nothing. A crash is a call that fails and is never followed by another,
    so whatever a method promises of every outcome holds at every crash point. */
module SecureStorage {
  import opened Outcomes

  /** What a `put` can leave behind: nothing done, only the removal done, or all of it done. */
  ghost predicate PutLeaves<K, V>(before: map<K, V>, k: K, v: V, after: map<K, V>) {
    after == before || after == before - {k} || after == before[k := v]
  }

  class Host<K(==), V(==)> {
    var contents: map<K, V>
    var time: int
    /** A healthy host performs every operation, and its clock moves forward, to `horizon` at most. */
    const healthy: bool
    const horizon: int
    /** When `contents` was last written. */
    ghost var wroteAt: int

    ghost predicate Ticks()
      reads this
    {
      healthy ==> wroteAt <= time <= horizon
    }

    constructor (contents: map<K, V>, time: int, healthy: bool, horizon: int)
      ensures this.contents == contents && this.time == time && this.wroteAt == time
      ensures this.healthy == healthy && this.horizon == horizon
    {
      this.contents := contents;
      this.time := time;
      this.healthy := healthy;
      this.horizon := horizon;
      wroteAt := time;
    }

    method Now() returns (t: int)
      requires healthy ==> time <= horizon
      modifies `time
      ensures t == time
      ensures healthy ==> old(time) <= t <= horizon
    {
      t := *;
      if healthy && !(time <= t <= horizon) {
        t := time;
      }
      time := t;
    }

    method Fresh(k: K) returns (r: Result<Option<V>>)
      ensures r.Success? ==> r.value == Lookup(contents, k)
      ensures healthy ==> r.Success?
    {
      var unreadable: bool := *;
      if !healthy && unreadable {
        return Failure("secure_store_read_failed");
      }
      return Success(Lookup(contents, k));
    }

    /** A row of reads with no write between them, under the caller's device lock. */
    method ReadAll() returns (r: Result<map<K, V>>)
      ensures r.Success? ==> r.value == contents
      ensures healthy ==> r.Success?
    {
      var unreadable: bool := *;
      if !healthy && unreadable {
        return Failure("secure_store_read_failed");
      }
      return Success(contents);
    }

    method Put(k: K, v: V) returns (r: Result<()>)
      modifies `contents, `wroteAt
      ensures PutLeaves(old(contents), k, v, contents) && wroteAt == time
      ensures healthy ==> r.Success? && contents == old(contents)[k := v]
    {
      wroteAt := time;
      var removalDropped: bool, interrupted: bool, additionDropped: bool := *, *, *;
      if healthy || !removalDropped {
        contents := contents - {k};
      }
      if !healthy && interrupted {
        return Failure("secure_store_write_failed");
      }
      if healthy || !additionDropped {
        contents := contents[k := v];
        assert contents == old(contents)[k := v];
      }
      return Success(());
    }

    method Delete(k: K) returns (r: Result<()>)
      modifies `contents, `wroteAt
      ensures (contents == old(contents) || contents == old(contents) - {k}) && wroteAt == time
      ensures healthy ==> r.Success? && contents == old(contents) - {k}
    {
      wroteAt := time;
      var dropped: bool, reported: bool := *, *;
      if healthy || !dropped {
        contents := contents - {k};
      }
      if !healthy && reported {
        return Failure("secure_store_write_failed");
      }
      return Success(());
    }

    /** `put` and read back: the only write the callers rely on. */
    method ConfirmedPut(k: K, v: V, unconfirmed: string) returns (r: Result<()>)
      modifies `contents, `wroteAt
      ensures PutLeaves(old(contents), k, v, contents) && wroteAt == time
      ensures r.Success? ==> contents == old(contents)[k := v]
      ensures healthy ==> r.Success?
    {
      var _ :- Put(k, v);
      var seen :- Fresh(k);
      if seen != Some(v) {
        return Failure(unconfirmed);
      }
      assert contents == old(contents)[k := v];
      return Success(());
    }
  }
}
