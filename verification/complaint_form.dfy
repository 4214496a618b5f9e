/** The complaint submission form: field validation, media encoding, record
    construction, the append to the stored list, and the form reset.
    The clock, the ISO date and the per-file encoder are parameters. */
module ComplaintForm {
  import opened Records
  import opened ComplaintList

  /** A file the user picked; only the encoder looks inside it. */
  datatype MediaFile = MediaFile(name: string, mimeType: string, content: seq<bv8>)

  /** The form's state: its five text fields, the picked files, and the
      flags and message the form shows. */
  datatype Form = Form(
    title: string,
    description: string,
    category: string,
    priority: string,
    location: string,
    mediaFiles: seq<MediaFile>,
    isSubmitting: bool,
    success: bool,
    error: string)

  const FillAllMessage: string := "Please fill in all fields, including location"
  const SubmitFailedMessage: string := "Failed to submit complaint. Please try again."

  /** All five text fields are non-empty (an empty string is falsy). */
  predicate AllFilled(f: Form)
  {
    f.title != "" && f.description != "" && f.category != ""
    && f.priority != "" && f.location != ""
  }

  /** The five text fields and the file list are empty again. */
  predicate Cleared(f: Form)
  {
    f.title == "" && f.description == "" && f.category == ""
    && f.priority == "" && f.location == "" && f.mediaFiles == []
  }

  /** The file picker's change handler: a present selection replaces the
      file list; nothing else changes. */
  function ChooseFiles(f: Form, picked: Option<seq<MediaFile>>): (r: Form)
    ensures picked.Some? ==> r.mediaFiles == picked.value
    ensures picked.None? ==> r == f
    ensures r.(mediaFiles := f.mediaFiles) == f
  {
    match picked
    case Some(files) => f.(mediaFiles := files)
    case None => f
  }

  /** Encodes every picked file; one failure fails the whole selection.
      The encoded list lines up with the picked files, one entry each. */
  function EncodeAll(files: seq<MediaFile>, encode: MediaFile -> Option<string>): (r: Option<seq<string>>)
    ensures r.Some? <==> forall i :: 0 <= i < |files| ==> encode(files[i]).Some?
    ensures r.Some? ==> |r.value| == |files|
    ensures r.Some? ==> forall i :: 0 <= i < |files| ==> encode(files[i]) == Some(r.value[i])
  {
    if files == [] then Some([])
    else
      match encode(files[0])
      case None => None
      case Some(url) =>
        match EncodeAll(files[1..], encode)
        case None => None
        case Some(rest) => Some([url] + rest)
  }

  /** The id the new record is owned by: the session user's, or "" without one. */
  function OwnerId(user: Option<User>): string
  {
    if user.Some? then user.value.id else ""
  }

  /** The record a submission builds: pending, with the form's fields copied
      verbatim. `id` is the clock's text and `createdAt` the ISO date. */
  function NewComplaint(f: Form, user: Option<User>, id: string, createdAt: string, media: seq<string>): (c: Complaint)
    ensures c.status == Pending
    ensures c.title == f.title && c.description == f.description && c.category == f.category
    ensures c.priority == f.priority && c.location == f.location
    ensures c.media == media
    ensures user.None? ==> c.userId == ""
    ensures user.Some? ==> c.userId == user.value.id
    ensures c.id == id && c.createdAt == createdAt
  {
    Complaint(id, f.title, f.description, f.category, f.priority, Pending,
              f.location, media, OwnerId(user), createdAt)
  }

  /** What one submit leaves behind: the form, the stored list, and the
      record handed to the page's callback, if any. */
  datatype Submission = Submission(form: Form, store: seq<Complaint>, submitted: Option<Complaint>)

  /** The submit handler with every failure caught: a missing field, a file
      that cannot be encoded, or a storage read or write that throws
      (`persistOk` false). Only a complete success touches the store. */
  function HandleSubmit(f: Form, user: Option<User>, id: string, createdAt: string,
                        encode: MediaFile -> Option<string>, persistOk: bool,
                        store: seq<Complaint>): (r: Submission)
    ensures r.submitted.Some? <==> AllFilled(f) && EncodeAll(f.mediaFiles, encode).Some? && persistOk
    ensures r.submitted.None? ==> r.store == store
    ensures r.submitted.Some? ==>
              && r.store == store + [r.submitted.value]
              && r.submitted.value == NewComplaint(f, user, id, createdAt, EncodeAll(f.mediaFiles, encode).value)
    ensures r.form.error == FillAllMessage <==> !AllFilled(f)
    ensures r.form.error == "" <==> r.submitted.Some?
    ensures r.form.success <==> r.submitted.Some?
    ensures r.submitted.Some? ==> Cleared(r.form)
    ensures r.submitted.None? ==> r.form.(error := f.error, success := f.success, isSubmitting := f.isSubmitting) == f
    ensures AllFilled(f) && r.submitted.None? ==> r.form.error == SubmitFailedMessage
    ensures AllFilled(f) ==> !r.form.isSubmitting
    ensures !f.isSubmitting ==> !r.form.isSubmitting
  {
    var f1 := f.(error := "", success := false);
    if !AllFilled(f1) then
      Submission(f1.(error := FillAllMessage), store, None)
    else
      var f2 := f1.(isSubmitting := true);
      var failed := Submission(f2.(error := SubmitFailedMessage, isSubmitting := false), store, None);
      match EncodeAll(f2.mediaFiles, encode)
      case None => failed
      case Some(urls) =>
        if !persistOk then failed
        else
          var c := NewComplaint(f2, user, id, createdAt, urls);
          var reset := f2.(title := "", description := "", category := "", priority := "",
                           location := "", mediaFiles := []);
          Submission(reset.(success := true, isSubmitting := false), store + [c], Some(c))
  }

  /** The submit handler as the form has it: file encoding is awaited before
      the `try`, so an encoding failure escapes the handler. The form is left
      mid-submit with no message; every other case is as in `HandleSubmit`. */
  function HandleSubmitAsWritten(f: Form, user: Option<User>, id: string, createdAt: string,
                                 encode: MediaFile -> Option<string>, persistOk: bool,
                                 store: seq<Complaint>): (r: Submission)
    ensures AllFilled(f) && EncodeAll(f.mediaFiles, encode).None? ==>
              r.form.isSubmitting && r.form.error == "" && r.store == store && r.submitted.None?
    ensures AllFilled(f) && EncodeAll(f.mediaFiles, encode).None? ==>
              !r.form.success
              && r.form.(error := f.error, success := f.success, isSubmitting := f.isSubmitting) == f
    ensures !(AllFilled(f) && EncodeAll(f.mediaFiles, encode).None?) ==>
              r == HandleSubmit(f, user, id, createdAt, encode, persistOk, store)
  {
    if AllFilled(f) && EncodeAll(f.mediaFiles, encode).None? then
      Submission(f.(error := "", success := false, isSubmitting := true), store, None)
    else
      HandleSubmit(f, user, id, createdAt, encode, persistOk, store)
  }

  /** A picked file the encoder rejects leaves the as-written form locked
      (every input disabled, no message), while the corrected handler
      re-enables it and reports the failure. */
  lemma EncodingFailureLocksForm(f: Form, k: nat, user: Option<User>, id: string, createdAt: string,
                                 encode: MediaFile -> Option<string>, persistOk: bool, store: seq<Complaint>)
    requires AllFilled(f) && k < |f.mediaFiles| && encode(f.mediaFiles[k]).None?
    ensures var w := HandleSubmitAsWritten(f, user, id, createdAt, encode, persistOk, store);
            var c := HandleSubmit(f, user, id, createdAt, encode, persistOk, store);
            && w.form.isSubmitting && w.form.error == "" && w.store == store
            && !c.form.isSubmitting && c.form.error == SubmitFailedMessage && c.store == store
  {
  }

  /** Two records built in the same clock tick carry the same id, so the ids
      in a list holding both are not unique, and resolving that id resolves
      both. */
  lemma SameTickIdsResolveTogether(f1: Form, u1: Option<User>, d1: string, m1: seq<string>,
                                   f2: Form, u2: Option<User>, d2: string, m2: seq<string>, tick: string)
    ensures var a := NewComplaint(f1, u1, tick, d1, m1);
            var b := NewComplaint(f2, u2, tick, d2, m2);
            && !UniqueIds([a, b])
            && CountStatus(Pending, ResolveById(tick, [a, b])) == CountStatus(Pending, [a, b]) - 2
  {
  }

  /** A successful submission grows the stored list by exactly one record at
      its end, leaves the earlier records as they were, and resets the form. */
  lemma SubmitAppendsOne(f: Form, user: Option<User>, id: string, createdAt: string,
                         encode: MediaFile -> Option<string>, store: seq<Complaint>)
    requires AllFilled(f) && forall i :: 0 <= i < |f.mediaFiles| ==> encode(f.mediaFiles[i]).Some?
    ensures var r := HandleSubmit(f, user, id, createdAt, encode, true, store);
            && r.submitted.Some?
            && |r.store| == |store| + 1
            && r.store[..|store|] == store
            && r.store[|store|].status == Pending
            && |r.store[|store|].media| == |f.mediaFiles|
            && r.form.success && Cleared(r.form)
  {
  }
}
