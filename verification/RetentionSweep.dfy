/**
 The paginated retention sweep over the private bucket: at most 64 deletions a
 pass, a page cursor that stays while a page still holds obsolete names, and a
 full sweep that leaves exactly the names that are kept.
 */
module RetentionSweep {
  import opened Options

  const PAGE: nat := 1000
  const MAX_DELETES: nat := 64

  /** An object name: its place in the listing order, and its generation unless the name is foreign. */
  datatype Name = Name(at: nat, generation: Option<nat>)

  predicate IsObsolete(n: Name, retained: set<nat>) {
    n.generation.Some? && n.generation.value !in retained
  }

  function Kept(names: seq<Name>, retained: set<nat>): seq<Name> {
    if names == [] then []
    else if IsObsolete(names[0], retained) then Kept(names[1..], retained)
    else [names[0]] + Kept(names[1..], retained)
  }

  predicate Ordered(names: seq<Name>) {
    forall j, k :: 0 <= j < k < |names| ==> names[j].at < names[k].at
  }

  /** The index of the first name a listing from this cursor returns. */
  predicate StartsAt(names: seq<Name>, cursor: Option<nat>, start: nat) {
    && start <= |names| && (cursor.None? ==> start == 0)
    && (cursor.Some? ==> forall k :: 0 <= k < |names| ==> (names[k].at > cursor.value <==> k >= start))
  }

  predicate Clean(names: seq<Name>, retained: set<nat>) {
    forall k :: 0 <= k < |names| ==> !IsObsolete(names[k], retained)
  }

  lemma {:induction false} KeptConcat(a: seq<Name>, b: seq<Name>, retained: set<nat>)
    ensures Kept(a + b, retained) == Kept(a, retained) + Kept(b, retained)
  {
    if a == [] {
      assert a + b == b;
    } else {
      KeptConcat(a[1..], b, retained);
      assert (a + b)[0] == a[0] && (a + b)[1..] == a[1..] + b;
    }
  }

  lemma {:induction false} KeptClean(names: seq<Name>, retained: set<nat>)
    ensures Clean(names, retained) ==> Kept(names, retained) == names
  {
    if names != [] {
      KeptClean(names[1..], retained);
    }
  }

  /** What a sweep keeps, stated without its recursion: the surviving names, each once, in order. */
  lemma {:induction false} KeptMembers(names: seq<Name>, retained: set<nat>)
    ensures forall n :: n in Kept(names, retained) <==> n in names && !IsObsolete(n, retained)
    ensures Ordered(names) ==> Ordered(Kept(names, retained))
  {
    if names != [] {
      KeptMembers(names[1..], retained);
      assert names == [names[0]] + names[1..];
      if Ordered(names) {
        var tail := Kept(names[1..], retained);
        forall k | 0 <= k < |tail|
          ensures names[0].at < tail[k].at
        {
          assert tail[k] in names[1..];
        }
      }
    }
  }

  /** The names a pass writes back: some obsolete names of the page may be left for the next pass. */
  predicate Thinned(page: seq<Name>, rest: seq<Name>, retained: set<nat>, deleted: nat) {
    && Kept(rest, retained) == Kept(page, retained) && |rest| + deleted == |page|
    && Ordered(rest) && (forall n :: n in rest ==> n in page)
  }

  lemma KeptNext(front: seq<Name>, rest: seq<Name>, n: Name, retained: set<nat>)
    requires Kept(rest, retained) == Kept(front, retained)
    ensures Kept(rest + [n], retained) == Kept(front + [n], retained)
    ensures IsObsolete(n, retained) ==> Kept(front + [n], retained) == Kept(front, retained)
  {
    KeptConcat(front, [n], retained);
    KeptConcat(rest, [n], retained);
  }

  lemma OrderedNext(page: seq<Name>, rest: seq<Name>, i: nat)
    requires i < |page| && Ordered(page) && Ordered(rest) && forall n :: n in rest ==> n in page[..i]
    ensures Ordered(rest + [page[i]])
  {
    forall k | 0 <= k < |rest|
      ensures rest[k].at < page[i].at
    {
      assert rest[k] in page[..i];
    }
  }

  class GenerationBucket {
    var names: seq<Name>

    constructor (names: seq<Name>)
      ensures this.names == names
    {
      this.names := names;
    }

    method ListFrom(cursor: Option<nat>) returns (start: nat)
      requires Ordered(names)
      ensures StartsAt(names, cursor, start)
    {
      start := 0;
      while cursor.Some? && start < |names| && names[start].at <= cursor.value
        invariant start <= |names|
        invariant cursor.None? ==> start == 0
        invariant cursor.Some? ==> forall k :: 0 <= k < start ==> names[k].at <= cursor.value
      {
        start := start + 1;
      }
    }

    /** Drops at most one batch of obsolete names from a page and says whether some are left in it. */
    method Select(page: seq<Name>, retained: set<nat>) returns (rest: seq<Name>, deleted: nat, more: bool)
      requires Ordered(page)
      ensures Thinned(page, rest, retained, deleted) && deleted <= MAX_DELETES
      ensures more ==> deleted == MAX_DELETES
      ensures !more ==> Clean(rest, retained)
    {
      hide Kept;
      rest, deleted, more := [], 0, false;
      var i := 0;
      assert page[..0] == rest;
      while i < |page|
        invariant 0 <= i <= |page| && deleted <= MAX_DELETES && |rest| + deleted == i
        invariant Kept(rest, retained) == Kept(page[..i], retained)
        invariant Ordered(rest) && (forall n :: n in rest ==> n in page[..i])
        invariant more ==> deleted == MAX_DELETES
        invariant !more ==> Clean(rest, retained)
      {
        assert page[..i + 1] == page[..i] + [page[i]];
        KeptNext(page[..i], rest, page[i], retained);
        OrderedNext(page, rest, i);
        if IsObsolete(page[i], retained) && deleted < MAX_DELETES {
          deleted := deleted + 1;
        } else {
          more := more || IsObsolete(page[i], retained);
          rest := rest + [page[i]];
        }
        i := i + 1;
      }
      assert page[..i] == page;
    }

    /**
     One pass from a cursor. While a page holds more obsolete names than a batch
     its cursor stays, even when it is the null cursor of the first page, so only
     a pass that defers nothing ends a sweep.
     */
    method PrunePage(retained: set<nat>, cursor: Option<nat>, ghost start: nat)
      returns (next: Option<nat>, deferred: bool, deleted: nat, ghost resumed: nat)
      requires Ordered(names) && StartsAt(names, cursor, start) && Clean(names[..start], retained)
      modifies this
      ensures Ordered(names) && Kept(names, retained) == old(Kept(names, retained)) && deleted <= MAX_DELETES
      ensures |names| + deleted == |old(names)|
      ensures !deferred ==> next.None? && Clean(names, retained)
      ensures deferred ==> StartsAt(names, next, resumed) && Clean(names[..resumed], retained)
      ensures deferred ==> |names| - resumed < |old(names)| - start
    {
      hide Kept, Clean, Thinned;
      var from := ListFrom(cursor);
      SameStart(names, cursor, start, from);
      var end := if |names| - from > PAGE then from + PAGE else |names|;
      var before := names;
      var page := before[from..end];
      var rest, more;
      rest, deleted, more := Select(page, retained);
      names := before[..from] + rest + before[end..];
      Reassembled(before, from, end, rest, retained, deleted);
      deferred := more || end < |before|;
      if more {
        next, resumed := cursor, from;
        Resumes(before, from, end, rest, cursor, retained, deleted);
      } else if end < |before| {
        next, resumed := Some(before[end - 1].at), from + |rest|;
        Advances(before, from, end, rest, retained, deleted);
      } else {
        next, resumed := None, from;
        Finishes(before, from, end, rest, retained);
      }
    }

    /**
     A sweep over a fixed retained set, pass by pass until one defers nothing,
     deletes every obsolete name and nothing else.
     */
    method Sweep(retained: set<nat>) returns (passes: nat)
      requires Ordered(names)
      modifies this
      ensures names == Kept(old(names), retained)
      ensures |old(names)| - |names| <= passes * MAX_DELETES
    {
      ghost var before := names;
      var cursor: Option<nat> := None;
      ghost var start: nat := 0;
      var deferred := true;
      passes := 0;
      while deferred
        invariant Ordered(names) && Kept(names, retained) == Kept(before, retained)
        invariant deferred ==> StartsAt(names, cursor, start) && Clean(names[..start], retained)
        invariant !deferred ==> Clean(names, retained)
        invariant |before| - |names| <= passes * MAX_DELETES
        decreases deferred, if deferred then |names| - start else 0
      {
        var deleted;
        cursor, deferred, deleted, start := PrunePage(retained, cursor, start);
        passes := passes + 1;
      }
      KeptClean(names, retained);
    }
  }

  lemma SameStart(names: seq<Name>, cursor: Option<nat>, a: nat, b: nat)
    requires Ordered(names) && StartsAt(names, cursor, a) && StartsAt(names, cursor, b)
    ensures a == b
  {
    assert cursor.Some? && a < |names| ==> (names[a].at > cursor.value <==> a >= b);
    assert cursor.Some? && b < |names| ==> (names[b].at > cursor.value <==> b >= a);
  }

  lemma Reassembled(before: seq<Name>, from: nat, end: nat, rest: seq<Name>, retained: set<nat>, deleted: nat)
    requires from <= end <= |before| && Ordered(before) && Thinned(before[from..end], rest, retained, deleted)
    ensures var after := before[..from] + rest + before[end..];
            Ordered(after) && Kept(after, retained) == Kept(before, retained) && |after| + deleted == |before|
  {
    hide Kept;
    var page := before[from..end];
    assert before == before[..from] + page + before[end..];
    KeptConcat(before[..from] + page, before[end..], retained);
    KeptConcat(before[..from], page, retained);
    KeptConcat(before[..from] + rest, before[end..], retained);
    KeptConcat(before[..from], rest, retained);
    OrderedParts(before, from, end, rest);
  }

  predicate Within(names: seq<Name>, from: nat, end: nat, n: Name)
    requires from <= end <= |names|
  {
    exists j :: from <= j < end && names[j] == n
  }

  lemma OrderedParts(before: seq<Name>, from: nat, end: nat, rest: seq<Name>)
    requires from <= end <= |before| && Ordered(before) && Ordered(rest)
    requires forall n :: n in rest ==> n in before[from..end]
    ensures Ordered(before[..from] + rest + before[end..])
    ensures forall k :: 0 <= k < |rest| ==> Within(before, from, end, rest[k])
  {
    forall k | 0 <= k < |rest|
      ensures Within(before, from, end, rest[k])
    {
      var n := rest[k];
      assert n in before[from..end];
      var j :| 0 <= j < end - from && before[from..end][j] == n;
      assert before[from + j] == n;
    }
  }

  lemma Resumes(
    before: seq<Name>, from: nat, end: nat, rest: seq<Name>, cursor: Option<nat>, retained: set<nat>, deleted: nat)
    requires from <= end <= |before| && Ordered(before) && StartsAt(before, cursor, from)
    requires Clean(before[..from], retained) && Thinned(before[from..end], rest, retained, deleted) && deleted > 0
    ensures var after := before[..from] + rest + before[end..];
            && StartsAt(after, cursor, from) && Clean(after[..from], retained)
            && |after| - from < |before| - from
  {
    hide Kept;
    OrderedParts(before, from, end, rest);
    assert (before[..from] + rest + before[end..])[..from] == before[..from];
  }

  lemma Advances(before: seq<Name>, from: nat, end: nat, rest: seq<Name>, retained: set<nat>, deleted: nat)
    requires from < end < |before| && Ordered(before) && Clean(before[..from], retained) && Clean(rest, retained)
    requires Thinned(before[from..end], rest, retained, deleted)
    ensures var after := before[..from] + rest + before[end..];
            && StartsAt(after, Some(before[end - 1].at), from + |rest|) && Clean(after[..from + |rest|], retained)
            && |after| - (from + |rest|) < |before| - from
  {
    hide Kept;
    OrderedParts(before, from, end, rest);
    assert (before[..from] + rest + before[end..])[..from + |rest|] == before[..from] + rest;
  }

  lemma Finishes(before: seq<Name>, from: nat, end: nat, rest: seq<Name>, retained: set<nat>)
    requires from <= end == |before| && Clean(before[..from], retained) && Clean(rest, retained)
    ensures Clean(before[..from] + rest + before[end..], retained)
  {
  }
}
