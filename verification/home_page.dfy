/** The home dashboard: counters over the whole stored list, the embedded
    submission form, and a "Mark Resolved" button for pending records. The
    page keeps its own copy of the list and writes that copy back to storage
    after each change. */
module HomePage {
  import opened Records
  import opened ComplaintList
  import ComplaintForm
  import ComplaintsPage

  /** The three counters the dashboard shows. */
  datatype Counts = Counts(total: nat, pending: nat, resolved: nat)

  /** The counters for a list: every record counts towards the total, and no
      record is both pending and resolved. */
  function Dashboard(s: seq<Complaint>): (r: Counts)
    ensures r.total == |s|
    ensures r.pending + r.resolved <= r.total
    ensures r.pending + r.resolved == r.total <==> CountStatus(InProgress, s) == 0
    ensures r.pending == 0 <==> forall i :: 0 <= i < |s| ==> s[i].status != Pending
    ensures r.resolved == 0 <==> forall i :: 0 <= i < |s| ==> s[i].status != Resolved
  {
    CountsPartition(s);
    CountExtremes(Pending, s);
    CountExtremes(Resolved, s);
    CountExtremes(InProgress, s);
    Counts(|s|, CountStatus(Pending, s), CountStatus(Resolved, s))
  }

  /** The counters take in every owner's records: a user's own records never
      count for more, and the totals agree only when the user owns them all. */
  lemma DashboardCountsEveryOwner(userId: string, s: seq<Complaint>)
    ensures Dashboard(ForOwner(userId, s)).pending <= Dashboard(s).pending
    ensures Dashboard(ForOwner(userId, s)).resolved <= Dashboard(s).resolved
    ensures Dashboard(ForOwner(userId, s)).total == Dashboard(s).total
        <==> forall i :: 0 <= i < |s| ==> s[i].userId == userId
  {
    OwnerCountBounded(userId, Pending, s);
    OwnerCountBounded(userId, Resolved, s);
    ForOwnerKeepsAllIffOwned(userId, s);
  }

  /** The page's copy of the list and the stored list. */
  datatype HomeState = HomeState(complaints: seq<Complaint>, store: seq<Complaint>)

  /** The page's copy is what storage holds. */
  predicate Synced(h: HomeState)
  {
    h.complaints == h.store
  }

  /** Mounting the page loads the stored list into its copy. */
  function Mount(store: seq<Complaint>): (h: HomeState)
    ensures Synced(h) && h.store == store
  {
    HomeState(store, store)
  }

  /** "Mark Resolved" on the dashboard is offered only for pending records. */
  predicate OffersResolve(c: Complaint)
  {
    c.status == Pending
  }

  /** The dashboard offers the button for fewer records than the complaints
      page: never for an in-progress record, which that page does offer. */
  lemma DashboardOffersFewer(c: Complaint)
    ensures OffersResolve(c) ==> ComplaintsPage.OffersResolve(c)
    ensures c.status == InProgress ==> !OffersResolve(c) && ComplaintsPage.OffersResolve(c)
  {
  }

  /** Resolves an id in the page's copy and writes the copy to storage. The
      list keeps its length, so the total does not move. */
  function ResolveComplaint(h: HomeState, id: string): (r: HomeState)
    ensures Synced(r)
    ensures |r.complaints| == |h.complaints|
    ensures Dashboard(r.complaints).total == Dashboard(h.complaints).total
    ensures forall i :: 0 <= i < |h.complaints| ==> SameButStatus(r.complaints[i], h.complaints[i])
    ensures forall i :: 0 <= i < |h.complaints| && h.complaints[i].id == id ==> r.complaints[i].status == Resolved
    ensures forall i :: 0 <= i < |h.complaints| && h.complaints[i].id != id ==> r.complaints[i] == h.complaints[i]
    ensures !HasId(id, h.complaints) ==> r.complaints == h.complaints
  {
    ResolveByIdEffect(id, h.complaints);
    var updated := ResolveById(id, h.complaints);
    HomeState(updated, updated)
  }

  /** With unique ids, pressing the button on a pending record moves one
      record from the pending counter to the resolved counter. */
  lemma ResolvePendingCounters(h: HomeState, k: nat)
    requires UniqueIds(h.complaints) && k < |h.complaints| && OffersResolve(h.complaints[k])
    ensures var before := Dashboard(h.complaints);
            var after := Dashboard(ResolveComplaint(h, h.complaints[k].id).complaints);
            && after.total == before.total
            && after.pending == before.pending - 1
            && after.resolved == before.resolved + 1
  {
    ResolvePendingMovesOne(h.complaints, k);
  }

  /** With unique ids, resolving a record that is already resolved leaves all
      three counters as they were. */
  lemma ResolveResolvedCounters(h: HomeState, k: nat)
    requires UniqueIds(h.complaints) && k < |h.complaints| && h.complaints[k].status == Resolved
    ensures Dashboard(ResolveComplaint(h, h.complaints[k].id).complaints) == Dashboard(h.complaints)
  {
    ResolveResolvedIsIdentity(h.complaints, k);
  }

  /** The form's callback: appends the new record to the page's copy and
      writes the copy to storage. A record whose id is not already stored
      keeps the ids unique; nothing in the program checks that it is not. */
  function OnSubmit(h: HomeState, c: Complaint): (r: HomeState)
    ensures Synced(r)
    ensures |r.complaints| == |h.complaints| + 1
    ensures r.complaints[..|h.complaints|] == h.complaints && r.complaints[|h.complaints|] == c
    ensures Dashboard(r.complaints).total == Dashboard(h.complaints).total + 1
    ensures c.status == Pending ==>
              && Dashboard(r.complaints).pending == Dashboard(h.complaints).pending + 1
              && Dashboard(r.complaints).resolved == Dashboard(h.complaints).resolved
    ensures UniqueIds(h.complaints) && !HasId(c.id, h.complaints) ==> UniqueIds(r.complaints)
  {
    var updated := h.complaints + [c];
    assert UniqueIds(h.complaints) && !HasId(c.id, h.complaints) ==> UniqueIds(updated) by {
      if UniqueIds(h.complaints) && !HasId(c.id, h.complaints) {
        AppendFreshKeepsUnique(h.complaints, c);
      }
    }
    assert updated[..|h.complaints|] == h.complaints;
    CountAppend(Pending, h.complaints, [c]);
    CountAppend(Resolved, h.complaints, [c]);
    HomeState(updated, updated)
  }

  /** A submit from the dashboard and what it leaves behind. */
  datatype HomeSubmit = HomeSubmit(home: HomeState, form: ComplaintForm.Form)

  /** A submit from the dashboard, through the form's handler as written: the
      form appends to storage itself, then the callback overwrites storage
      with the page's copy plus the new record.
      With the copy in step with storage the record is stored exactly once, at
      the end, and adds one to the total and pending counters. */
  function SubmitFromHome(h: HomeState, f: ComplaintForm.Form, user: Option<User>, id: string,
                          createdAt: string, encode: ComplaintForm.MediaFile -> Option<string>,
                          persistOk: bool): (r: HomeSubmit)
    ensures Synced(h) ==> Synced(r.home)
    ensures var s := ComplaintForm.HandleSubmitAsWritten(f, user, id, createdAt, encode, persistOk, h.store);
            && r.form == s.form
            && (s.submitted.None? ==> r.home == h)
            && (s.submitted.Some? ==> r.home.complaints == h.complaints + [s.submitted.value])
            && (s.submitted.Some? ==> r.home.store == h.complaints + [s.submitted.value])
            && (s.submitted.Some? && Synced(h) ==>
                  && r.home.store == s.store
                  && Dashboard(r.home.store).total == Dashboard(h.store).total + 1
                  && Dashboard(r.home.store).pending == Dashboard(h.store).pending + 1)
  {
    var s := ComplaintForm.HandleSubmitAsWritten(f, user, id, createdAt, encode, persistOk, h.store);
    match s.submitted
    case None => HomeSubmit(h, s.form)
    case Some(c) => HomeSubmit(OnSubmit(h.(store := s.store), c), s.form)
  }

  /** A submit-then-resolve scenario: "Pothole" submitted by user u1 on an
      empty store, then resolved from the complaints page. The store holds one pending
      record owned by u1; after resolving it holds one resolved record, and
      u1's view still shows exactly one. */
  lemma PotholeScenario(id: string, createdAt: string, encode: ComplaintForm.MediaFile -> Option<string>)
    ensures var f := ComplaintForm.Form("Pothole", "Large pothole on Main St", "Path Holes", "high",
                                        "Main St", [], false, false, "");
            var u1 := User("u1", "U One", "u1@example.com");
            var s := ComplaintForm.HandleSubmit(f, Some(u1), id, createdAt, encode, true, []);
            && |s.store| == 1
            && s.store[0].status == Pending && s.store[0].userId == "u1"
            && var p := ComplaintsPage.MarkResolved(ComplaintsPage.Open(Some(u1), s.store).value, id);
               && p.store[0].status == Resolved
               && |ForOwner("u1", p.store)| == 1
               && ComplaintsPage.Consistent(p)
  {
  }
}
