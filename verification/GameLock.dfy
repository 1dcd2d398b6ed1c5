// The token lock of one game: the retry loop of acquire and the compare-and-delete of release.
module GameLock {
  import opened Common
  import opened Domain

  type Token = nat
  datatype Held = Held(token: Token, expiresAt: Millis)

  // ---- The two scripts the store runs on the key; an expired key is gone ----

  predicate Free(key: Option<Held>, now: Millis) {
    key.None? || key.value.expiresAt <= now
  }

  // SET key token NX PX ttl
  function SetNxPx(key: Option<Held>, now: Millis, token: Token, ttlMs: nat): Option<Held> {
    if Free(key, now) then Some(Held(token, now + ttlMs)) else key
  }

  // GET and DEL in one script.
  function CompareAndDelete(key: Option<Held>, now: Millis, token: Token): Option<Held> {
    if !Free(key, now) && key.value.token == token then None else key
  }

  // ---- How many retries fit ----

  // How many whole or begun retry intervals the waiting time holds.
  function Rounds(waitMs: nat, retryMs: nat): nat
    requires retryMs > 0
  {
    (waitMs + retryMs - 1) / retryMs
  }

  lemma MulMonotone(a: int, b: int, m: nat)
    requires a <= b
    ensures a * m <= b * m
  {
  }

  lemma RoundsBrackets(waitMs: nat, retryMs: nat)
    requires retryMs > 0
    ensures (Rounds(waitMs, retryMs) - 1) * retryMs < waitMs <= Rounds(waitMs, retryMs) * retryMs
  {
    var r := Rounds(waitMs, retryMs);
    assert waitMs + retryMs - 1 == retryMs * r + (waitMs + retryMs - 1) % retryMs;
    assert (r - 1) * retryMs == retryMs * r - retryMs;
  }

  lemma RoundsIsCeiling(waitMs: nat, retryMs: nat, k: nat)
    requires retryMs > 0
    ensures k * retryMs < waitMs <==> k < Rounds(waitMs, retryMs)
  {
    hide Rounds;
    var r := Rounds(waitMs, retryMs);
    RoundsBrackets(waitMs, retryMs);
    if k < r { MulMonotone(k, r - 1, retryMs); } else { MulMonotone(r, k, retryMs); }
  }

  // The shared key and the clock. Others act on the key while an instance sleeps.
  class LockStore {
    var now: Millis
    var key: Option<Held>
    var issued: Token  // every token below has been drawn
    var attempts: nat

    constructor ()
      ensures key == None && attempts == 0
    {
      now, key, issued, attempts := 0, None, 0, 0;
    }

    method RandomToken() returns (token: Token)
      modifies `issued
      ensures token == old(issued) && issued == token + 1
    {
      token := issued;
      issued := issued + 1;
    }

    method TrySet(token: Token, ttlMs: nat) returns (ok: bool)
      modifies `key, `attempts
      ensures ok <==> old(Free(key, now))
      ensures key == SetNxPx(old(key), now, token, ttlMs)
      ensures attempts == old(attempts) + 1
    {
      ok := Free(key, now);
      attempts := attempts + 1;
      if ok { key := Some(Held(token, now + ttlMs)); }
    }

    // At least the requested time passes; meanwhile anybody may release, take or lose the lock.
    method Sleep(ms: nat)
      modifies `now, `key, `issued
      ensures now >= old(now) + ms && issued >= old(issued)
    {
      var extra: nat :| true;
      var others: Option<Held> := *;
      var drawn: nat :| true;
      now := now + ms + extra;
      issued := issued + drawn;
      key := others;
    }

    // Ends, and gives up only after waiting waitMs, within ceil(waitMs / retryMs) + 1 attempts.
    method Acquire(ttlMs: nat, waitMs: nat, retryMs: nat) returns (lock: Option<Token>)
      requires ttlMs > 0 && waitMs > 0 && retryMs > 0
      modifies this
      ensures now >= old(now)
      ensures lock.Some? ==> key == Some(Held(lock.value, now + ttlMs)) && old(issued) <= lock.value < issued
      ensures lock.None? ==> now - old(now) >= waitMs
      ensures attempts - old(attempts) <= Rounds(waitMs, retryMs) + 1
    {
      var startedAt := now;
      ghost var sleeps: nat := 0;
      while now - startedAt <= waitMs
        invariant now >= startedAt && issued >= old(issued)
        invariant attempts == old(attempts) + sleeps
        invariant sleeps <= Rounds(waitMs, retryMs)
        invariant now - startedAt >= waitMs || now - startedAt >= sleeps * retryMs
        decreases startedAt + waitMs - now
      {
        var token := RandomToken();
        var ok := TrySet(token, ttlMs);
        if ok { return Some(token); }
        var remaining := waitMs - (now - startedAt);
        if remaining <= 0 { break; }
        RoundsIsCeiling(waitMs, retryMs, sleeps);
        Sleep(if retryMs < remaining then retryMs else remaining);
        sleeps := sleeps + 1;
      }
      lock := None;
    }

    method Release(token: Token) returns (freed: bool)
      modifies `key
      ensures freed <==> old(!Free(key, now) && key.value.token == token)
      ensures key == CompareAndDelete(old(key), now, token) == if freed then None else old(key)
    {
      freed := !Free(key, now) && key.value.token == token;
      if freed { key := None; }
    }
  }
}
