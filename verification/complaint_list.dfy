/** Operations on the stored complaint list that both pages perform: the
    owner filter, resolving by id, and the status counts. */
module ComplaintList {
  import opened Records

  /** Some record in `s` carries `id`. */
  predicate HasId(id: string, s: seq<Complaint>)
  {
    exists i :: 0 <= i < |s| && s[i].id == id
  }

  /** No two records in `s` share an id. Ids come from a millisecond clock,
      so nothing in the program guarantees this. */
  predicate UniqueIds(s: seq<Complaint>)
  {
    forall i, j :: 0 <= i < j < |s| ==> s[i].id != s[j].id
  }

  /** The list after "mark resolved" on `id`; `ResolveByIdEffect` states
      what happens to each record. */
  function ResolveById(id: string, s: seq<Complaint>): (r: seq<Complaint>)
    ensures |r| == |s|
  {
    if s == [] then []
    else
      var head := if s[0].id == id then s[0].(status := Resolved) else s[0];
      [head] + ResolveById(id, s[1..])
  }

  /** The records of `s` owned by `userId`, in stored order; `ForOwnerMembers`
      states which records those are. */
  function ForOwner(userId: string, s: seq<Complaint>): (r: seq<Complaint>)
    ensures |r| <= |s|
  {
    if s == [] then []
    else (if s[0].userId == userId then [s[0]] else []) + ForOwner(userId, s[1..])
  }

  /** How many records of `s` have status `st`. */
  function CountStatus(st: Status, s: seq<Complaint>): (n: nat)
    ensures n <= |s|
  {
    if s == [] then 0
    else (if s[0].status == st then 1 else 0) + CountStatus(st, s[1..])
  }

  /** How many records of `s` carry id `id` and status `st`. */
  function CountIdStatus(id: string, st: Status, s: seq<Complaint>): (n: nat)
    ensures n == 0 <==> forall i :: 0 <= i < |s| ==> s[i].id != id || s[i].status != st
  {
    if s == [] then 0
    else (if s[0].id == id && s[0].status == st then 1 else 0) + CountIdStatus(id, st, s[1..])
  }

  // ---------------------------------------------------------------------
  // Resolving by id

  /** Resolving `id` keeps the list's length and order: every record with that
      id becomes resolved, no other field of any record changes, and records
      with other ids stay as they were. */
  lemma {:induction false} ResolveByIdEffect(id: string, s: seq<Complaint>)
    ensures forall i :: 0 <= i < |s| ==> SameButStatus(ResolveById(id, s)[i], s[i])
    ensures forall i :: 0 <= i < |s| && s[i].id == id ==> ResolveById(id, s)[i].status == Resolved
    ensures forall i :: 0 <= i < |s| && s[i].id != id ==> ResolveById(id, s)[i] == s[i]
  {
    if s != [] {
      ResolveByIdEffect(id, s[1..]);
      var r := ResolveById(id, s);
      forall i | 1 <= i < |s|
        ensures r[i] == ResolveById(id, s[1..])[i - 1] && s[i] == s[1..][i - 1]
      {
      }
    }
  }

  /** Resolving an id no record carries leaves the list as it was. */
  lemma {:induction false} ResolveAbsentIsIdentity(id: string, s: seq<Complaint>)
    requires !HasId(id, s)
    ensures ResolveById(id, s) == s
  {
    ResolveByIdEffect(id, s);
  }

  /** Resolving the same id twice is the same as resolving it once. */
  lemma {:induction false} ResolveIdempotent(id: string, s: seq<Complaint>)
    ensures ResolveById(id, ResolveById(id, s)) == ResolveById(id, s)
  {
    var r := ResolveById(id, s);
    ResolveByIdEffect(id, s);
    ResolveByIdEffect(id, r);
    forall i | 0 <= i < |r|
      ensures ResolveById(id, r)[i] == r[i]
    {
      if r[i].id == id {
        assert SameButStatus(ResolveById(id, r)[i], r[i]);
      }
    }
  }

  /** Resolving acts record by record, so it distributes over concatenation. */
  lemma {:induction false} ResolveAppend(id: string, a: seq<Complaint>, b: seq<Complaint>)
    ensures ResolveById(id, a + b) == ResolveById(id, a) + ResolveById(id, b)
  {
    if a == [] {
      assert a + b == b;
    } else {
      assert (a + b)[1..] == a[1..] + b;
      ResolveAppend(id, a[1..], b);
    }
  }

  /** Filtering by owner and resolving by id commute: the resolved view of a
      user's records is the view of the resolved list. */
  lemma {:induction false} ResolveCommutesWithOwner(userId: string, id: string, s: seq<Complaint>)
    ensures ForOwner(userId, ResolveById(id, s)) == ResolveById(id, ForOwner(userId, s))
  {
    if s != [] {
      var r := ResolveById(id, s);
      assert r[1..] == ResolveById(id, s[1..]);
      ResolveCommutesWithOwner(userId, id, s[1..]);
      var head := if s[0].userId == userId then [s[0]] else [];
      assert ForOwner(userId, s) == head + ForOwner(userId, s[1..]);
      ResolveAppend(id, head, ForOwner(userId, s[1..]));
    }
  }

  /** With unique ids, resolving the id of a record that is already resolved
      changes nothing. */
  lemma {:induction false} ResolveResolvedIsIdentity(s: seq<Complaint>, k: nat)
    requires UniqueIds(s) && k < |s| && s[k].status == Resolved
    ensures ResolveById(s[k].id, s) == s
  {
    var r := ResolveById(s[k].id, s);
    ResolveByIdEffect(s[k].id, s);
    forall i | 0 <= i < |s|
      ensures r[i] == s[i]
    {
      if i != k {
        assert s[i].id != s[k].id;
      }
    }
  }

  /** With unique ids, resolving a record's id changes the list exactly when
      that record is not resolved yet. */
  lemma {:induction false} ResolveChangesIffUnresolved(s: seq<Complaint>, k: nat)
    requires UniqueIds(s) && k < |s|
    ensures ResolveById(s[k].id, s) != s <==> s[k].status != Resolved
  {
    if s[k].status == Resolved {
      ResolveResolvedIsIdentity(s, k);
    } else {
      ResolveByIdEffect(s[k].id, s);
      assert ResolveById(s[k].id, s)[k].status != s[k].status;
    }
  }

  // ---------------------------------------------------------------------
  // The owner filter

  /** The owner filter keeps stored order: it distributes over concatenation. */
  lemma {:induction false} ForOwnerAppend(userId: string, a: seq<Complaint>, b: seq<Complaint>)
    ensures ForOwner(userId, a + b) == ForOwner(userId, a) + ForOwner(userId, b)
  {
    if a == [] {
      assert a + b == b;
    } else {
      var head := if a[0].userId == userId then [a[0]] else [];
      assert (a + b)[0] == a[0];
      assert (a + b)[1..] == a[1..] + b;
      assert ForOwner(userId, a + b) == head + ForOwner(userId, a[1..] + b);
      ForOwnerAppend(userId, a[1..], b);
      assert head + (ForOwner(userId, a[1..]) + ForOwner(userId, b))
          == (head + ForOwner(userId, a[1..])) + ForOwner(userId, b);
    }
  }

  /** The view holds exactly the stored records owned by `userId`. */
  lemma {:induction false} ForOwnerMembers(userId: string, s: seq<Complaint>)
    ensures forall c :: c in ForOwner(userId, s) <==> c in s && c.userId == userId
  {
    if s != [] {
      ForOwnerMembers(userId, s[1..]);
      assert s == [s[0]] + s[1..];
    }
  }

  /** The view is as long as the whole list exactly when the user owns every
      stored record. */
  lemma {:induction false} ForOwnerKeepsAllIffOwned(userId: string, s: seq<Complaint>)
    ensures |ForOwner(userId, s)| == |s| <==> forall i :: 0 <= i < |s| ==> s[i].userId == userId
  {
    if s != [] {
      ForOwnerKeepsAllIffOwned(userId, s[1..]);
      if s[0].userId == userId {
        forall i | 1 <= i < |s|
          ensures s[i].userId == userId <==> s[1..][i - 1].userId == userId
        {
        }
      }
    }
  }

  /** A user's view never counts more records of a status than the whole list. */
  lemma {:induction false} OwnerCountBounded(userId: string, st: Status, s: seq<Complaint>)
    ensures CountStatus(st, ForOwner(userId, s)) <= CountStatus(st, s)
  {
    if s != [] {
      OwnerCountBounded(userId, st, s[1..]);
      var head := if s[0].userId == userId then [s[0]] else [];
      CountAppend(st, head, ForOwner(userId, s[1..]));
    }
  }

  // ---------------------------------------------------------------------
  // Counting

  /** Counting splits over concatenation. */
  lemma {:induction false} CountAppend(st: Status, a: seq<Complaint>, b: seq<Complaint>)
    ensures CountStatus(st, a + b) == CountStatus(st, a) + CountStatus(st, b)
  {
    if a == [] {
      assert a + b == b;
    } else {
      assert (a + b)[1..] == a[1..] + b;
      CountAppend(st, a[1..], b);
    }
  }

  /** Every record has exactly one of the three statuses. */
  lemma {:induction false} CountsPartition(s: seq<Complaint>)
    ensures CountStatus(Pending, s) + CountStatus(InProgress, s) + CountStatus(Resolved, s) == |s|
  {
    if s != [] {
      CountsPartition(s[1..]);
    }
  }

  /** A count is zero exactly when no record has the status, and is the
      whole length exactly when every record has it. */
  lemma {:induction false} CountExtremes(st: Status, s: seq<Complaint>)
    ensures CountStatus(st, s) == 0 <==> forall i :: 0 <= i < |s| ==> s[i].status != st
    ensures CountStatus(st, s) == |s| <==> forall i :: 0 <= i < |s| ==> s[i].status == st
  {
    if s != [] {
      CountExtremes(st, s[1..]);
      forall i | 1 <= i < |s|
        ensures s[i] == s[1..][i - 1]
      {
      }
    }
  }

  /** Resolving an id takes its records out of every unresolved count. */
  lemma {:induction false} ResolveDrainsUnresolved(id: string, st: Status, s: seq<Complaint>)
    requires st != Resolved
    ensures CountStatus(st, ResolveById(id, s)) + CountIdStatus(id, st, s) == CountStatus(st, s)
  {
    if s != [] {
      var r := ResolveById(id, s);
      assert r[1..] == ResolveById(id, s[1..]);
      ResolveDrainsUnresolved(id, st, s[1..]);
    }
  }

  /** Resolving an id adds its pending and in-progress records to the
      resolved count. */
  lemma {:induction false} ResolveFillsResolved(id: string, s: seq<Complaint>)
    ensures CountStatus(Resolved, ResolveById(id, s))
         == CountStatus(Resolved, s) + CountIdStatus(id, Pending, s) + CountIdStatus(id, InProgress, s)
  {
    if s != [] {
      var r := ResolveById(id, s);
      assert r[1..] == ResolveById(id, s[1..]);
      ResolveFillsResolved(id, s[1..]);
    }
  }

  /** With unique ids, the record at `k` is the only one carrying its id. */
  lemma {:induction false} UniqueIdCounts(s: seq<Complaint>, k: nat, st: Status)
    requires UniqueIds(s) && k < |s|
    ensures CountIdStatus(s[k].id, st, s) == (if s[k].status == st then 1 else 0)
  {
    if k == 0 {
      assert forall i :: 0 <= i < |s[1..]| ==> s[1..][i].id != s[0].id by {
        forall i | 0 <= i < |s[1..]|
          ensures s[1..][i].id != s[0].id
        {
          assert s[1..][i] == s[i + 1];
        }
      }
    } else {
      assert s[1..][k - 1] == s[k];
      assert s[0].id != s[k].id;
      UniqueIdCounts(s[1..], k - 1, st);
    }
  }

  /** With unique ids, resolving one pending record moves exactly one record
      from the pending count to the resolved count. */
  lemma ResolvePendingMovesOne(s: seq<Complaint>, k: nat)
    requires UniqueIds(s) && k < |s| && s[k].status == Pending
    ensures |ResolveById(s[k].id, s)| == |s|
    ensures CountStatus(Pending, ResolveById(s[k].id, s)) == CountStatus(Pending, s) - 1
    ensures CountStatus(Resolved, ResolveById(s[k].id, s)) == CountStatus(Resolved, s) + 1
    ensures CountStatus(InProgress, ResolveById(s[k].id, s)) == CountStatus(InProgress, s)
  {
    ResolveDrainsUnresolved(s[k].id, Pending, s);
    ResolveDrainsUnresolved(s[k].id, InProgress, s);
    ResolveFillsResolved(s[k].id, s);
    UniqueIdCounts(s, k, Pending);
    UniqueIdCounts(s, k, InProgress);
  }

  /** Appending a record whose id is new keeps the ids unique. */
  lemma AppendFreshKeepsUnique(s: seq<Complaint>, c: Complaint)
    requires UniqueIds(s) && !HasId(c.id, s)
    ensures UniqueIds(s + [c])
  {
  }
}
