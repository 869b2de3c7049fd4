/**
 The quarter-hour expiry quantum: which presence rows an expiry removes at a
 given second, and why a model read after it never carries an expired row.
 */
module ExpiryQuantum {
  import opened Options
  import opened DirectoryState

  const QUANTUM: nat := 900
  const ALIAS_LIFETIME: nat := 60
  const MINIMUM_TTL: nat := QUANTUM + ALIAS_LIFETIME
  const MAXIMUM_TTL: nat := 86400
  const MAXIMUM_LIFETIME: nat := 14400
  const MAXIMUM_LEAD: nat := 7200

  predicate ValidTtl(ttl: int) {
    MINIMUM_TTL <= ttl <= MAXIMUM_TTL
  }

  function Quantised(t: int): int {
    t / QUANTUM * QUANTUM
  }

  function NextBoundary(now: int): int {
    (now / QUANTUM + 1) * QUANTUM
  }

  function Cutoff(now: int, ttl: int): int {
    Max(0, NextBoundary(now) - 1 - ttl)
  }

  /** The quantised time at which a row last seen then stops being listed. */
  function Deadline(lastSeen: int, ttl: int): int {
    Quantised(lastSeen + ttl)
  }

  function Lifetime(ttl: int): int {
    if ttl <= MAXIMUM_LIFETIME then ttl else MAXIMUM_LIFETIME
  }

  lemma QuantisedBounds(t: int)
    ensures Quantised(t) <= t < Quantised(t) + QUANTUM
  {
  }

  lemma QuantisedLeast(t: int, k: int)
    ensures k * QUANTUM <= t <==> k * QUANTUM <= Quantised(t)
  {
  }

  /** A boundary is passed exactly when the quantised time has reached the present. */
  lemma BoundaryPassed(t: int, now: int)
    ensures t < NextBoundary(now) <==> Quantised(t) <= now
  {
    QuantisedLeast(t, now / QUANTUM + 1);
    QuantisedBounds(now);
    QuantisedBounds(t);
    if Quantised(t) <= now {
      assert t / QUANTUM <= now / QUANTUM;
    }
  }

  /**
   An expiry at time now removes a row exactly when its quantised deadline has
   been reached. It does so for every possible row if and only if the listing
   time is shorter than the next boundary, which any present-day clock satisfies.
   */
  lemma RemovedExactlyWhenDue(now: int, ttl: int)
    requires 0 <= now && 0 <= ttl
    ensures (forall lastSeen: nat :: lastSeen <= Cutoff(now, ttl) <==> Deadline(lastSeen, ttl) <= now)
            <==> ttl < NextBoundary(now)
  {
    if ttl < NextBoundary(now) {
      forall lastSeen: nat
        ensures lastSeen <= Cutoff(now, ttl) <==> Deadline(lastSeen, ttl) <= now
      {
        BoundaryPassed(lastSeen + ttl, now);
      }
    } else {
      BoundaryPassed(0 + ttl, now);
      var counter: nat := 0;
      assert counter <= Cutoff(now, ttl) && !(Deadline(counter, ttl) <= now);
    }
  }

  lemma PresentClock(now: int, ttl: int)
    requires 0 <= ttl <= now
    ensures ttl < NextBoundary(now)
  {
    QuantisedBounds(now);
  }

  /** In the tables: after an expiry exactly the rows with a deadline still ahead remain. */
  lemma ExpiryKeepsUnexpiredRows(d: Directory, now: int, ttl: int, token: string, s: string)
    requires ValidTtl(ttl) && ttl <= now && s in d.presence && d.presence[s].lastSeen >= 0
    ensures s in Expired(d, Cutoff(now, ttl), now, token).presence <==> Deadline(d.presence[s].lastSeen, ttl) > now
  {
    hide Shown, MarkerFor, StaleEntries, Deadline, Cutoff, NextBoundary;
    PresentClock(now, ttl);
    RemovedExactlyWhenDue(now, ttl);
    var lastSeen: nat := d.presence[s].lastSeen;
    assert lastSeen <= Cutoff(now, ttl) <==> Deadline(lastSeen, ttl) <= now;
  }

  // ---- the model's own expiry ---------------------------------------------------------------

  predicate Fits(expiresAt: int, generatedAt: int, ttl: int, rows: seq<nat>) {
    expiresAt <= generatedAt + Lifetime(ttl) && forall k :: 0 <= k < |rows| ==> expiresAt <= rows[k] + ttl
  }

  /**
   The snapshot expiry is the latest quarter hour that outlives neither the
   artifact lifetime nor any listed row. Reading fails, as a snapshot with
   expired presence, exactly when some row's own quantised deadline has passed.
   */
  method SnapshotExpiry(generatedAt: nat, ttl: int, rows: seq<nat>) returns (expiry: Option<int>)
    requires ValidTtl(ttl)
    ensures expiry.None? <==> exists k :: 0 <= k < |rows| && Deadline(rows[k], ttl) <= generatedAt
    ensures expiry.Some? ==>
              && generatedAt < expiry.value && expiry.value % QUANTUM == 0 && Fits(expiry.value, generatedAt, ttl, rows)
              && forall later: int :: later % QUANTUM == 0 && Fits(later, generatedAt, ttl, rows) ==>
                  later <= expiry.value
  {
    hide Quantised;
    var least := generatedAt + Lifetime(ttl);
    var i := 0;
    while i < |rows|
      invariant 0 <= i <= |rows|
      invariant Fits(least, generatedAt, ttl, rows[..i])
      invariant least == generatedAt + Lifetime(ttl) || exists k :: 0 <= k < i && least == rows[k] + ttl
    {
      if rows[i] + ttl < least {
        least := rows[i] + ttl;
      }
      i := i + 1;
    }
    assert rows[..i] == rows;
    SnapshotFacts(least, generatedAt, ttl, rows);
    if Quantised(least) <= generatedAt {
      expiry := None;
    } else {
      expiry := Some(Quantised(least));
    }
  }

  lemma QuantisedMonotone(a: int, b: int)
    requires a <= b
    ensures Quantised(a) <= Quantised(b)
  {
  }

  lemma LifetimeReachesQuantum(generatedAt: nat, ttl: int)
    requires ValidTtl(ttl)
    ensures Quantised(generatedAt + Lifetime(ttl)) > generatedAt
  {
    QuantisedBounds(generatedAt + Lifetime(ttl));
  }

  lemma SnapshotFacts(least: int, generatedAt: nat, ttl: int, rows: seq<nat>)
    requires ValidTtl(ttl) && Fits(least, generatedAt, ttl, rows)
    requires least == generatedAt + Lifetime(ttl) || exists k :: 0 <= k < |rows| && least == rows[k] + ttl
    ensures Quantised(least) <= generatedAt <==> exists k :: 0 <= k < |rows| && Deadline(rows[k], ttl) <= generatedAt
    ensures Quantised(least) % QUANTUM == 0 && Fits(Quantised(least), generatedAt, ttl, rows)
    ensures forall later: int :: later % QUANTUM == 0 && Fits(later, generatedAt, ttl, rows) ==>
        later <= Quantised(least)
  {
    hide Quantised;
    QuantisedBounds(least);
    QuantisedMultiple(least);
    LifetimeReachesQuantum(generatedAt, ttl);
    forall k | 0 <= k < |rows|
      ensures Quantised(least) <= Deadline(rows[k], ttl)
    {
      QuantisedMonotone(least, rows[k] + ttl);
    }
    forall later: int | later % QUANTUM == 0 && Fits(later, generatedAt, ttl, rows)
      ensures later <= Quantised(least)
    {
      MultipleWithin(later, least);
    }
  }

  lemma QuantisedMultiple(t: int)
    ensures Quantised(t) % QUANTUM == 0
  {
  }

  lemma MultipleWithin(later: int, t: int)
    requires later % QUANTUM == 0 && later <= t
    ensures later <= Quantised(t)
  {
    QuantisedLeast(t, later / QUANTUM);
  }

  /**
   Expired presence is unreachable: a model read at the time of an expiry, over
   tables whose revision is not stamped in the future, finds no passed deadline.
   */
  lemma NoExpiredPresence(d: Directory, now: int, ttl: int, token: string, s: string)
    requires ValidTtl(ttl) && ttl <= now && d.updatedAt <= now
    requires s in d.presence && d.presence[s].lastSeen >= 0
    requires s in Expired(d, Cutoff(now, ttl), now, token).presence
    ensures Deadline(d.presence[s].lastSeen, ttl) > Max(now, Expired(d, Cutoff(now, ttl), now, token).updatedAt)
  {
    hide Deadline, Cutoff, Stale, StaleEntries, MarkerFor;
    ExpiryKeepsUnexpiredRows(d, now, ttl, token, s);
  }

  // ---- why the listing time has its minimum -----------------------------------------------------

  /**
   A row seen at the moment of a build always leaves more than the alias
   publication window before its quantised deadline, at every clock value, if
   and only if the listing time has the configured minimum.
   */
  lemma MinimumTtlIsTight(ttl: int)
    requires 0 <= ttl
    ensures (forall now: nat :: Deadline(now, ttl) > now + ALIAS_LIFETIME) <==> ttl >= MINIMUM_TTL
  {
    if ttl >= MINIMUM_TTL {
      forall now: nat
        ensures Deadline(now, ttl) > now + ALIAS_LIFETIME
      {
        QuantisedBounds(now + ttl);
      }
    } else {
      var worst: nat := (QUANTUM - 1 - ttl) % QUANTUM;
      WorstOffset(ttl);
      assert !(Deadline(worst, ttl) > worst + ALIAS_LIFETIME);
    }
  }

  lemma WorstOffset(ttl: int)
    requires 0 <= ttl < MINIMUM_TTL
    ensures var worst := (QUANTUM - 1 - ttl) % QUANTUM;
            Deadline(worst, ttl) <= worst + ALIAS_LIFETIME
  {
    var worst := (QUANTUM - 1 - ttl) % QUANTUM;
    if ttl < QUANTUM {
      assert worst == QUANTUM - 1 - ttl;
      assert worst + ttl == QUANTUM - 1;
    } else {
      assert worst == 2 * QUANTUM - 1 - ttl;
      assert worst + ttl == 2 * QUANTUM - 1;
    }
  }

  /** A fresh publication is not immediately due for its own refresh, for every configurable lead. */
  lemma RefreshIsAhead(now: nat, ttl: int, lead: int)
    requires ValidTtl(ttl) && 1 <= lead <= MAXIMUM_LEAD && lead <= ttl - QUANTUM
    ensures now < Quantised(now + Lifetime(ttl)) - lead
  {
    QuantisedBounds(now + Lifetime(ttl));
  }
}
