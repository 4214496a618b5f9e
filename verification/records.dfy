/** The complaint record shared by the submission form and both pages, and the
    small vocabulary it is built from: statuses, priorities, the session user.
    Stored lists are kept as plain sequences; their JSON form is not modelled. */
module Records {

  /** A value that may be missing (an unset session user, a failed encoding). */
  datatype Option<+T> = None | Some(value: T)

  /** The three statuses a complaint record may carry. */
  datatype Status = Pending | InProgress | Resolved

  /** The text each status is stored and shown as. */
  function StatusText(s: Status): string
  {
    match s
    case Pending => "pending"
    case InProgress => "in-progress"
    case Resolved => "resolved"
  }

  /** Reads a status text back; any other text is no status at all. */
  function ParseStatus(t: string): (r: Option<Status>)
    ensures r.Some? ==> StatusText(r.value) == t
    ensures r.None? <==> forall s: Status :: StatusText(s) != t
  {
    if t == "pending" then Some(Pending)
    else if t == "in-progress" then Some(InProgress)
    else if t == "resolved" then Some(Resolved)
    else None
  }

  /** The four priority levels the form's picker offers. */
  datatype Priority = Low | Medium | High | Urgent

  function PriorityText(p: Priority): string
  {
    match p
    case Low => "low"
    case Medium => "medium"
    case High => "high"
    case Urgent => "urgent"
  }

  /** Reads a priority text back; any other text is no priority level. */
  function ParsePriority(t: string): (r: Option<Priority>)
    ensures r.Some? ==> PriorityText(r.value) == t
    ensures r.None? <==> forall p: Priority :: PriorityText(p) != t
  {
    if t == "low" then Some(Low)
    else if t == "medium" then Some(Medium)
    else if t == "high" then Some(High)
    else if t == "urgent" then Some(Urgent)
    else None
  }

  /** Reading back the text of a status or a priority gives the same value. */
  lemma TextRoundTrip(s: Status, p: Priority)
    ensures ParseStatus(StatusText(s)) == Some(s)
    ensures ParsePriority(PriorityText(p)) == Some(p)
  {
  }

  /** The user of the current session. */
  datatype User = User(id: string, name: string, email: string)

  /** One complaint record as it sits in the stored list. `category` and
      `priority` are free text: the submit handler accepts any non-empty value. */
  datatype Complaint = Complaint(
    id: string,
    title: string,
    description: string,
    category: string,
    priority: string,
    status: Status,
    location: string,
    media: seq<string>,
    userId: string,
    createdAt: string)

  /** `a` agrees with `b` on every field except possibly `status`. */
  predicate SameButStatus(a: Complaint, b: Complaint)
  {
    && a.id == b.id
    && a.title == b.title
    && a.description == b.description
    && a.category == b.category
    && a.priority == b.priority
    && a.location == b.location
    && a.media == b.media
    && a.userId == b.userId
    && a.createdAt == b.createdAt
  }

  /** The string test `s.startsWith(prefix)`. */
  predicate StartsWith(s: string, prefix: string)
  {
    |prefix| <= |s| && s[..|prefix|] == prefix
  }
}
