/** The "My Complaints" page: the signed-in user's view of the stored list,
    its badge classes and media kinds, and "Mark as Resolved", which updates
    the view and the stored list together. */
module ComplaintsPage {
  import opened Records
  import opened ComplaintList

  const YellowBadge: string := "bg-yellow-100 text-yellow-800"
  const BlueBadge: string := "bg-blue-100 text-blue-800"
  const GreenBadge: string := "bg-green-100 text-green-800"
  const RedBadge: string := "bg-red-100 text-red-800"
  const OrangeBadge: string := "bg-orange-100 text-orange-800"
  const GrayBadge: string := "bg-gray-100 text-gray-800"

  /** The badge class for a status text: a class of its own for each of the
      three statuses, gray for any other text. */
  function StatusColor(status: string): (r: string)
    ensures ParseStatus(status).None? <==> r == GrayBadge
    ensures r in {YellowBadge, BlueBadge, GreenBadge, GrayBadge}
  {
    if status == "pending" then YellowBadge
    else if status == "in-progress" then BlueBadge
    else if status == "resolved" then GreenBadge
    else GrayBadge
  }

  /** The badge class for a priority text: a class of its own for each of the
      four levels, gray for any other text. */
  function PriorityColor(priority: string): (r: string)
    ensures ParsePriority(priority).None? <==> r == GrayBadge
    ensures r in {RedBadge, OrangeBadge, YellowBadge, GreenBadge, GrayBadge}
  {
    if priority == "urgent" then RedBadge
    else if priority == "high" then OrangeBadge
    else if priority == "medium" then YellowBadge
    else if priority == "low" then GreenBadge
    else GrayBadge
  }

  /** Different statuses get different badges, and so do different priorities. */
  lemma ColorsDistinguish(s1: Status, s2: Status, p1: Priority, p2: Priority)
    ensures StatusColor(StatusText(s1)) == StatusColor(StatusText(s2)) ==> s1 == s2
    ensures PriorityColor(PriorityText(p1)) == PriorityColor(PriorityText(p2)) ==> p1 == p2
  {
  }

  /** The status badge's text: "Resolved" capitalised, other statuses as stored. */
  function StatusLabel(status: Status): (r: string)
    ensures status == Resolved <==> r == "Resolved"
    ensures status != Resolved ==> ParseStatus(r) == Some(status)
  {
    if status == Resolved then "Resolved" else StatusText(status)
  }

  /** How one media entry is shown. */
  datatype MediaKind = Video | Image

  const VideoPrefix: string := "data:video"

  /** An entry is shown as a video exactly when it starts with "data:video";
      for a data URL, exactly when the file's type starts with "video". */
  function KindOf(media: string): (k: MediaKind)
    ensures k == Video <==> StartsWith(media, VideoPrefix)
    ensures forall t, p {:trigger DataUrl(t, p)} :: media == DataUrl(t, p) ==>
              (k == Video <==> StartsWith(t, "video"))
  {
    DataUrlKindEvery();
    if StartsWith(media, VideoPrefix) then Video else Image
  }

  /** The data URL a file reader produces for a file of type `mimeType`. */
  function DataUrl(mimeType: string, payload: string): string
  {
    "data:" + mimeType + ";base64," + payload
  }

  /** The characters of a data URL: the scheme, then the file type, then ';'. */
  lemma DataUrlChars(mimeType: string, payload: string)
    ensures var u := DataUrl(mimeType, payload);
            && |u| > 5 + |mimeType|
            && (forall i :: 0 <= i < 5 ==> u[i] == "data:"[i])
            && (forall i :: 0 <= i < |mimeType| ==> u[5 + i] == mimeType[i])
            && u[5 + |mimeType|] == ';'
  {
  }

  /** A data URL starts with "data:video" exactly when its file type starts
      with "video", as the type of every video file does. */
  lemma DataUrlKind(mimeType: string, payload: string)
    ensures StartsWith(DataUrl(mimeType, payload), VideoPrefix) <==> StartsWith(mimeType, "video")
  {
    var u := DataUrl(mimeType, payload);
    DataUrlChars(mimeType, payload);
    if StartsWith(mimeType, "video") {
      forall i | 0 <= i < 10
        ensures u[i] == VideoPrefix[i]
      {
        if i >= 5 {
          assert u[5 + (i - 5)] == mimeType[i - 5];
          assert mimeType[..5][i - 5] == mimeType[i - 5];
        }
      }
      assert u[..10] == VideoPrefix;
    }
    if StartsWith(u, VideoPrefix) {
      if |mimeType| < 5 {
        assert false;
      }
      forall i | 0 <= i < 5
        ensures mimeType[i] == "video"[i]
      {
        assert u[5 + i] == mimeType[i];
        assert u[..10][5 + i] == VideoPrefix[5 + i];
      }
      assert mimeType[..5] == "video";
    }
  }

  /** `DataUrlKind` for every file type and payload at once. */
  lemma DataUrlKindEvery()
    ensures forall t, p {:trigger DataUrl(t, p)} ::
              StartsWith(DataUrl(t, p), VideoPrefix) <==> StartsWith(t, "video")
  {
    forall t, p
      ensures StartsWith(DataUrl(t, p), VideoPrefix) <==> StartsWith(t, "video")
    {
      DataUrlKind(t, p);
    }
  }

  /** "Mark as Resolved" is offered for every record not yet resolved. */
  predicate OffersResolve(c: Complaint)
  {
    c.status != Resolved
  }

  /** With unique ids the button is offered exactly when pressing it would
      change the stored list. */
  lemma {:induction false} OfferedExactlyWhenEffective(store: seq<Complaint>, k: nat)
    requires UniqueIds(store) && k < |store|
    ensures OffersResolve(store[k]) <==> ResolveById(store[k].id, store) != store
  {
    ResolveChangesIffUnresolved(store, k);
  }

  /** The page's state: whose view it shows, the view, and the stored list. */
  datatype ListPage = ListPage(userId: string, view: seq<Complaint>, store: seq<Complaint>)

  /** The view is what re-reading the stored list would give. */
  predicate Consistent(p: ListPage)
  {
    p.view == ForOwner(p.userId, p.store)
  }

  /** Opening the page: no page without a session user (it redirects to the
      login flow); otherwise the user's records, in stored order. */
  function Open(user: Option<User>, store: seq<Complaint>): (r: Option<ListPage>)
    ensures r.Some? <==> user.Some?
    ensures r.Some? ==> r.value.userId == user.value.id && r.value.store == store
    ensures r.Some? ==> Consistent(r.value)
    ensures r.Some? ==> forall c :: c in r.value.view <==> c in store && c.userId == user.value.id
  {
    match user
    case None => None
    case Some(u) =>
      ForOwnerMembers(u.id, store);
      Some(ListPage(u.id, ForOwner(u.id, store), store))
  }

  /** "Mark as Resolved": resolves the id in the view and in the stored list.
      Both keep their length and order, and a consistent page stays consistent. */
  function MarkResolved(p: ListPage, id: string): (r: ListPage)
    ensures r.userId == p.userId
    ensures |r.view| == |p.view| && |r.store| == |p.store|
    ensures forall i :: 0 <= i < |p.store| ==> SameButStatus(r.store[i], p.store[i])
    ensures forall i :: 0 <= i < |p.view| ==> SameButStatus(r.view[i], p.view[i])
    ensures forall i :: 0 <= i < |p.store| && p.store[i].id == id ==> r.store[i].status == Resolved
    ensures forall i :: 0 <= i < |p.store| && p.store[i].id != id ==> r.store[i] == p.store[i]
    ensures forall i :: 0 <= i < |p.view| && p.view[i].id == id ==> r.view[i].status == Resolved
    ensures forall i :: 0 <= i < |p.view| && p.view[i].id != id ==> r.view[i] == p.view[i]
    ensures Consistent(p) ==> Consistent(r)
  {
    ResolveCommutesWithOwner(p.userId, id, p.store);
    ResolveByIdEffect(id, p.store);
    ResolveByIdEffect(id, p.view);
    ListPage(p.userId, ResolveById(id, p.view), ResolveById(id, p.store))
  }

  /** Marking a record resolved never changes how many records the view
      shows: the user's own list keeps every record it had. */
  lemma {:induction false} MarkResolvedKeepsView(p: ListPage, k: nat)
    requires Consistent(p) && k < |p.view|
    ensures var r := MarkResolved(p, p.view[k].id);
            && Consistent(r)
            && |r.view| == |p.view|
            && r.view[k].status == Resolved
            && |ForOwner(p.userId, r.store)| == |ForOwner(p.userId, p.store)|
  {
    ResolveByIdEffect(p.view[k].id, p.view);
  }
}
