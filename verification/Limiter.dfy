/** Brute-force protection: failures per address and the block they cause. */
module Limiter {
  import opened Basics

  const FAIL_MAX := 5
  const BLOCK_SEC := 300.0
  const FAIL_WINDOW := 600.0

  datatype Entry = Entry(count: int, firstFail: real, blockedUntil: real)

  type Attempts = map<Ip, Entry>

  predicate IsBlocked(f: Attempts, ip: Ip, now: real) {
    ip in f && now < f[ip].blockedUntil
  }

  /** The entry that the next failure at `now` is counted on. */
  function Base(f: Attempts, ip: Ip, now: real): Entry {
    if ip in f && now - f[ip].firstFail <= FAIL_WINDOW then f[ip] else Entry(0, now, 0.0)
  }

  function RecordFailure(f: Attempts, ip: Ip, now: real): Attempts {
    var e := Base(f, ip, now);
    var n := e.count + 1;
    f[ip := Entry(n, e.firstFail, if n >= FAIL_MAX then now + BLOCK_SEC else e.blockedUntil)]
  }

  function RecordSuccess(f: Attempts, ip: Ip): Attempts {
    f - {ip}
  }

  predicate Stale(e: Entry, now: real) {
    now - e.firstFail > FAIL_WINDOW * 2.0
  }

  /** The hourly cleanup. */
  function Cleanup(f: Attempts, now: real): Attempts {
    map ip | ip in f && !Stale(f[ip], now) :: f[ip]
  }

  /**
   What holds of an entry while failures are recorded only by callers that
   checked the block first; `last` is when the address last failed. From the
   fifth failure on, the block ends its length after that.
   */
  predicate EntryOk(e: Entry, last: real, now: real) {
    && 1 <= e.count <= 7
    && 0.0 <= e.firstFail <= last <= now
    && (e.count < FAIL_MAX ==> e.blockedUntil == 0.0)
    && (e.count >= FAIL_MAX ==>
          && e.blockedUntil == last + BLOCK_SEC
          && e.firstFail + BLOCK_SEC * (e.count - FAIL_MAX) as real <= last <= e.firstFail + FAIL_WINDOW)
  }

  /** Every entry fits the time of its address's last failure. */
  ghost predicate Ok(f: Attempts, last: map<Ip, real>, now: real) {
    forall ip :: ip in f ==> ip in last && EntryOk(f[ip], last[ip], now)
  }

  lemma FailureKeepsOk(f: Attempts, last: map<Ip, real>, ip: Ip, now: real)
    requires Ok(f, last, now) && now >= 0.0 && !IsBlocked(f, ip, now)
    ensures Ok(RecordFailure(f, ip, now), last[ip := now], now)
  {
    var e := Base(f, ip, now);
    if e.count >= 6 {
      assert e.firstFail + 300.0 <= now - 300.0;
    }
    assert EntryOk(RecordFailure(f, ip, now)[ip], now, now);
  }

  lemma BlockIsBounded(e: Entry, last: real, now: real)
    requires EntryOk(e, last, now)
    ensures e.blockedUntil <= e.firstFail + 900.0
    ensures Stale(e, now) ==> e.blockedUntil <= now
  {
  }

  /** `f` is `g` after some stale entries were dropped. */
  ghost predicate Thinned(f: Attempts, g: Attempts, now: real) {
    && (forall ip :: ip in f ==> ip in g && f[ip] == g[ip])
    && (forall ip :: ip in g && ip !in f ==> Stale(g[ip], now))
  }

  lemma ThinnedAnswersAlike(f: Attempts, g: Attempts, last: map<Ip, real>, ip: Ip, now: real)
    requires Thinned(f, g, now) && Ok(g, last, now)
    ensures IsBlocked(f, ip, now) == IsBlocked(g, ip, now)
    ensures Thinned(RecordFailure(f, ip, now), RecordFailure(g, ip, now), now)
    ensures Thinned(RecordSuccess(f, ip), RecordSuccess(g, ip), now)
    ensures Thinned(Cleanup(f, now), g, now)
  {
    if ip in g { BlockIsBounded(g[ip], last[ip], now); }
    assert Base(f, ip, now) == Base(g, ip, now);
  }
}
