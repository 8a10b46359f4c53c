/**
 * The achievements dashboard: a list fetched from the server, a form draft
 * with comma-separated tags, the payload and target of a save, and the
 * delete flow. The draft keeps two date keys, `dateAchieved` (what the date
 * input shows and edits) and `dateAcheived` (what the payload's date is
 * built from), exactly as the page does.
 */
module Achievements {
  import opened Wrappers
  import opened Strings
  import opened Backend

  /** An achievement as the server lists it; any field but the id may be missing. */
  datatype Achievement = Achievement(
    id: string,
    title: Option<string>,
    description: Option<string>,
    category: Option<string>,
    dateAcheived: Option<string>,
    featured: Option<bool>,
    tags: Option<seq<string>>)

  /** `formData`; a date key the current draft has no entry for is `None`. */
  datatype Draft = Draft(
    title: string,
    description: string,
    category: string,
    dateAchieved: Option<string>,
    dateAcheived: Option<string>,
    tags: string,
    featured: bool)

  const DefaultCategory := "award"

  /** The draft when the page opens: `dateAchieved` empty and no `dateAcheived`. */
  const InitialDraft := Draft("", "", DefaultCategory, Some(""), None, "", false)

  /** `resetForm`'s draft: `dateAcheived` is today and `dateAchieved` is gone. */
  function ResetDraft(today: string): (r: Draft)
    ensures r.title == "" && r.description == "" && r.tags == ""
    ensures r.category == DefaultCategory && !r.featured
    ensures r.dateAcheived == Some(today) && r.dateAchieved.None?
  {
    Draft("", "", DefaultCategory, None, Some(today), "", false)
  }

  /** The form's date for a stored date: cut at `T`, or today when there is none. */
  function EditDate(stored: Option<string>, today: string): (r: string)
    ensures stored.Some? && stored.value != "" ==> r == DatePart(stored.value)
    ensures stored.None? || stored == Some("") ==> r == today
  {
    if stored.Some? && stored.value != "" then DatePart(stored.value) else today
  }

  /**
   * `handleEdit`'s draft: missing text becomes `""`, a missing category
   * "award", a missing flag false, the tags joined with ", ", and the stored
   * date cut at `T` (today when there is none).
   */
  function EditDraft(a: Achievement, today: string): (r: Draft)
    ensures r.title == OrElse(a.title, "") && r.description == OrElse(a.description, "")
    ensures r.category == OrElse(a.category, DefaultCategory)
    ensures r.featured == a.featured.GetOr(false)
    ensures r.tags == if a.tags.Some? then Join(a.tags.value, ", ") else ""
    ensures r.dateAchieved.None?
    ensures r.dateAcheived == Some(EditDate(a.dateAcheived, today))
  {
    var date := EditDate(a.dateAcheived, today);
    Draft(
      OrElse(a.title, ""),
      OrElse(a.description, ""),
      OrElse(a.category, DefaultCategory),
      None,
      Some(date),
      if a.tags.Some? then Join(a.tags.value, ", ") else "",
      a.featured.GetOr(false))
  }

  /** One of the form's inline `setFormData({...formData, <field>: …})` handlers. */
  datatype FieldChange =
    | SetTitle(title: string)
    | SetDescription(description: string)
    | SetCategory(category: string)
    | SetDateAchieved(date: string)
    | SetTags(tags: string)
    | SetFeatured(featured: bool)

  function ApplyChange(d: Draft, change: FieldChange): Draft {
    match change
    case SetTitle(s) => d.(title := s)
    case SetDescription(s) => d.(description := s)
    case SetCategory(s) => d.(category := s)
    case SetDateAchieved(s) => d.(dateAchieved := Some(s))
    case SetTags(s) => d.(tags := s)
    case SetFeatured(b) => d.(featured := b)
  }

  // ------------------------------------------------------------------ tags

  /** A tag as the list keeps it: non-empty, no white space at its ends, no comma. */
  predicate WellFormedTag(t: string) {
    t != "" && Trimmed(t) && ',' !in t
  }

  /** `.map(tag => tag.trim())`. */
  function TrimAll(parts: seq<string>): (r: seq<string>)
    ensures |r| == |parts|
    ensures forall i :: 0 <= i < |r| ==> r[i] == Trim(parts[i])
  {
    if parts == [] then [] else [Trim(parts[0])] + TrimAll(parts[1..])
  }

  /** `.filter(tag => tag)`: the non-empty strings, in order. */
  function DropEmpty(parts: seq<string>): (r: seq<string>)
    ensures forall i :: 0 <= i < |r| ==> r[i] != "" && r[i] in parts
    ensures forall t :: t in parts && t != "" ==> t in r
    ensures multiset(r) == multiset(parts)["" := 0]
    ensures (forall i :: 0 <= i < |parts| ==> parts[i] != "") ==> r == parts
  {
    if parts == [] then []
    else
      var rest := DropEmpty(parts[1..]);
      var r := if parts[0] == "" then rest else [parts[0]] + rest;
      assert parts == [parts[0]] + parts[1..];
      assert r == [parts[0]] + rest || r == rest;
      MembersOfFiltered(parts, r);
      r
  }

  /** Whatever holds every non-empty string of `parts` as often as `parts` does, and no empty one, holds exactly its non-empty members. */
  lemma MembersOfFiltered(parts: seq<string>, r: seq<string>)
    requires multiset(r) == multiset(parts)["" := 0]
    ensures forall i :: 0 <= i < |r| ==> r[i] != "" && r[i] in parts
    ensures forall t :: t in parts && t != "" ==> t in r
  {
    forall i | 0 <= i < |r| ensures r[i] != "" && r[i] in parts {
      assert r[i] in multiset(r);
    }
    forall t | t in parts && t != "" ensures t in r {
      assert multiset(parts)[t] > 0;
      assert multiset(r)[t] == multiset(parts)[t];
      assert t in multiset(r);
    }
  }

  /** The filter keeps the order: filtering two runs one after the other filters each. */
  lemma {:induction false} DropEmptyAppend(a: seq<string>, b: seq<string>)
    ensures DropEmpty(a + b) == DropEmpty(a) + DropEmpty(b)
  {
    if a == [] {
      assert a + b == b;
    } else {
      assert (a + b)[0] == a[0];
      assert (a + b)[1..] == a[1..] + b;
      DropEmptyAppend(a[1..], b);
    }
  }

  lemma CleanedPiecesWellFormed(pieces: seq<string>)
    requires forall i :: 0 <= i < |pieces| ==> ',' !in pieces[i]
    ensures var r := DropEmpty(TrimAll(pieces));
      forall i :: 0 <= i < |r| ==> WellFormedTag(r[i])
  {
    var trimmed := TrimAll(pieces);
    var r := DropEmpty(trimmed);
    forall i | 0 <= i < |r| ensures WellFormedTag(r[i]) {
      var j :| 0 <= j < |trimmed| && trimmed[j] == r[i];
      TrimKeepsOut(pieces[j], ',');
    }
  }

  /** The payload's tags: the text split at commas, each piece trimmed, the empty ones dropped. */
  function ParseTags(s: string): (r: seq<string>)
    ensures forall i :: 0 <= i < |r| ==> WellFormedTag(r[i])
  {
    var pieces := Split(s, ',');
    CleanedPiecesWellFormed(pieces);
    DropEmpty(TrimAll(pieces))
  }

  /** The pieces after the first one each start with the blank `", "` leaves. */
  function Spaced(ts: seq<string>): (r: seq<string>)
    ensures |r| == |ts|
    ensures forall i :: 0 <= i < |ts| ==> r[i] == " " + ts[i]
  {
    if ts == [] then [] else [" " + ts[0]] + Spaced(ts[1..])
  }

  lemma {:induction false} SplitJoinedTags(pre: string, ts: seq<string>)
    requires ',' !in pre && |ts| >= 1
    requires forall i :: 0 <= i < |ts| ==> ',' !in ts[i]
    ensures Split(pre + Join(ts, ", "), ',') == [pre + ts[0]] + Spaced(ts[1..])
    decreases |ts|
  {
    if |ts| == 1 {
      assert ',' !in pre + ts[0];
    } else {
      var rest := ts[1..];
      assert pre + Join(ts, ", ") == (pre + ts[0]) + [','] + (" " + Join(rest, ", "));
      assert ',' !in pre + ts[0];
      SplitAfter(pre + ts[0], ',', " " + Join(rest, ", "));
      SplitJoinedTags(" ", rest);
      assert Spaced(rest) == [" " + rest[0]] + Spaced(rest[1..]);
    }
  }

  /** Tags shown joined with ", " in the edit form are read back unchanged by a save. */
  lemma SplitJoinedTagsAtStart(tags: seq<string>)
    requires |tags| >= 1
    requires forall i :: 0 <= i < |tags| ==> ',' !in tags[i]
    ensures Split(Join(tags, ", "), ',') == [tags[0]] + Spaced(tags[1..])
  {
    SplitJoinedTags("", tags);
    assert "" + Join(tags, ", ") == Join(tags, ", ");
    assert "" + tags[0] == tags[0];
  }

  lemma TrimSpacedPieces(tags: seq<string>)
    requires |tags| >= 1
    requires forall i :: 0 <= i < |tags| ==> WellFormedTag(tags[i])
    ensures TrimAll([tags[0]] + Spaced(tags[1..])) == tags
  {
    var pieces := [tags[0]] + Spaced(tags[1..]);
    var t := TrimAll(pieces);
    TrimFixedPoints(tags[0]);
    forall i | 1 <= i < |tags| ensures t[i] == tags[i] {
      assert pieces[i] == " " + tags[i];
      TrimLeadingSpace(tags[i]);
    }
  }

  /** An empty tags box sends no tags. */
  lemma NoTagsParsed()
    ensures ParseTags("") == []
  {
    assert Split("", ',') == [""];
    TrimFixedPoints("");
    assert TrimAll([""]) == [""];
  }

  /** The trimmed pieces of joined well-formed tags are the tags, and none of them is empty. */
  lemma JoinedTagsPieces(tags: seq<string>)
    requires |tags| >= 1
    requires forall i :: 0 <= i < |tags| ==> WellFormedTag(tags[i])
    ensures TrimAll(Split(Join(tags, ", "), ',')) == tags
  {
    SplitJoinedTagsAtStart(tags);
    TrimSpacedPieces(tags);
  }

  /** Tags shown joined with ", " in the edit form are read back unchanged by a save. */
  lemma TagsRoundTrip(tags: seq<string>)
    requires forall i :: 0 <= i < |tags| ==> WellFormedTag(tags[i])
    ensures ParseTags(Join(tags, ", ")) == tags
  {
    if tags == [] {
      NoTagsParsed();
    } else {
      JoinedTagsPieces(tags);
    }
  }


  /** Parsing the tags, showing them and parsing again changes nothing more. */
  lemma ParseTagsIdempotent(s: string)
    ensures ParseTags(Join(ParseTags(s), ", ")) == ParseTags(s)
  {
    TagsRoundTrip(ParseTags(s));
  }

  // -------------------------------------------------------------- payload

  /** What a save sends: the draft spread, with parsed tags and the date built from `dateAcheived`. */
  datatype Payload = Payload(
    title: string,
    description: string,
    category: string,
    dateAchieved: Option<string>,
    dateAcheived: Option<string>,
    tags: seq<string>,
    featured: bool)

  function PayloadOf(d: Draft): (r: Payload)
    ensures r.tags == ParseTags(d.tags)
    ensures r.dateAcheived == d.dateAcheived && r.dateAchieved == d.dateAchieved
    ensures r.title == d.title && r.description == d.description
    ensures r.category == d.category && r.featured == d.featured
  {
    Payload(d.title, d.description, d.category, d.dateAchieved, d.dateAcheived, ParseTags(d.tags), d.featured)
  }

  /**
   * The date input writes `dateAchieved`, so no edit of it reaches the
   * payload's `dateAcheived`; every other handler writes the field it names.
   */
  lemma DateInputMissesPayloadDate(d: Draft, change: FieldChange)
    ensures PayloadOf(ApplyChange(d, change)).dateAcheived == PayloadOf(d).dateAcheived
    ensures change.SetDateAchieved? ==> PayloadOf(ApplyChange(d, change)).dateAchieved == Some(change.date)
    ensures change.SetTags? ==> PayloadOf(ApplyChange(d, change)).tags == ParseTags(change.tags)
  {
  }

  /** A draft that was never reset or loaded for editing sends no `dateAcheived` at all. */
  lemma InitialDraftHasNoPayloadDate(changes: seq<FieldChange>)
    ensures PayloadOf(ApplyAll(InitialDraft, changes)).dateAcheived.None?
  {
    ApplyAllKeepsPayloadDate(InitialDraft, changes);
  }

  function ApplyAll(d: Draft, changes: seq<FieldChange>): Draft
    decreases changes
  {
    if changes == [] then d else ApplyAll(ApplyChange(d, changes[0]), changes[1..])
  }

  lemma {:induction false} ApplyAllKeepsPayloadDate(d: Draft, changes: seq<FieldChange>)
    ensures ApplyAll(d, changes).dateAcheived == d.dateAcheived
    decreases changes
  {
    if changes != [] {
      ApplyAllKeepsPayloadDate(ApplyChange(d, changes[0]), changes[1..]);
    }
  }

  /** Well-formed tags shown in the edit form come back unchanged in the payload of a save. */
  lemma EditedTagsSurviveSave(a: Achievement, today: string)
    requires a.tags.Some? ==> forall i :: 0 <= i < |a.tags.value| ==> WellFormedTag(a.tags.value[i])
    ensures PayloadOf(EditDraft(a, today)).tags == a.tags.GetOr([])
  {
    var tags := a.tags.GetOr([]);
    var d := EditDraft(a, today);
    TagsRoundTrip(tags);
    assert d.tags == Join(tags, ", ");
  }

  /**
   * Saving an opened achievement sends back its featured flag and its
   * defaulted text fields.
   */
  lemma EditedFieldsSurviveSave(a: Achievement, today: string)
    ensures PayloadOf(EditDraft(a, today)).featured == a.featured.GetOr(false)
    ensures PayloadOf(EditDraft(a, today)).title == OrElse(a.title, "")
    ensures PayloadOf(EditDraft(a, today)).description == OrElse(a.description, "")
    ensures PayloadOf(EditDraft(a, today)).category == OrElse(a.category, DefaultCategory)
  {
    var d := EditDraft(a, today);
    assert d.featured == a.featured.GetOr(false);
    assert d.title == OrElse(a.title, "") && d.description == OrElse(a.description, "");
    assert d.category == OrElse(a.category, DefaultCategory);
  }

  /** Saving an opened achievement sends its date cut at `T`, or today when it had none. */
  lemma EditedDateSurvivesSave(a: Achievement, today: string)
    ensures a.dateAcheived.Some? && a.dateAcheived.value != "" ==>
      PayloadOf(EditDraft(a, today)).dateAcheived == Some(DatePart(a.dateAcheived.value))
    ensures a.dateAcheived.None? || a.dateAcheived == Some("") ==>
      PayloadOf(EditDraft(a, today)).dateAcheived == Some(today)
  {
    var d := EditDraft(a, today);
    if a.dateAcheived.Some? && a.dateAcheived.value != "" {
      assert d.dateAcheived == Some(DatePart(a.dateAcheived.value));
    } else {
      assert d.dateAcheived == Some(today);
    }
  }

  /**
   * Opening an achievement with well-formed tags and saving it unchanged
   * sends its tags, featured flag and the defaulted text fields back, and
   * its date cut at `T`, or today when it had none.
   */
  lemma EditThenSave(a: Achievement, today: string)
    requires a.tags.Some? ==> forall i :: 0 <= i < |a.tags.value| ==> WellFormedTag(a.tags.value[i])
    ensures var p := PayloadOf(EditDraft(a, today));
      && p.tags == a.tags.GetOr([])
      && p.featured == a.featured.GetOr(false)
      && p.title == OrElse(a.title, "")
      && p.description == OrElse(a.description, "")
      && p.category == OrElse(a.category, DefaultCategory)
    ensures a.dateAcheived.Some? && a.dateAcheived.value != "" ==>
      PayloadOf(EditDraft(a, today)).dateAcheived == Some(DatePart(a.dateAcheived.value))
    ensures PayloadOf(EditDraft(a, today)).dateAcheived == Some(EditDate(a.dateAcheived, today))
  {
    EditedTagsSurviveSave(a, today);
    EditedFieldsSurviveSave(a, today);
    EditedDateSurvivesSave(a, today);
  }

  // ------------------------------------------------------------- requests

  datatype Verb = Post | Put | Delete

  datatype Request = Request(verb: Verb, url: string, payload: Option<Payload>)

  const CollectionPath := "/api/v1/acheivements"

  /** A save updates the achievement being edited, else creates one. */
  function SaveRequest(baseUrl: string, editing: Option<Achievement>, d: Draft): (r: Request)
    ensures r.verb == Put <==> editing.Some?
    ensures r.verb == Post <==> editing.None?
    ensures editing.Some? ==> r.url == baseUrl + CollectionPath + "/" + editing.value.id
    ensures editing.None? ==> r.url == baseUrl + CollectionPath
    ensures r.payload == Some(PayloadOf(d))
  {
    match editing
    case Some(a) => Request(Put, baseUrl + CollectionPath + "/" + a.id, Some(PayloadOf(d)))
    case None => Request(Post, baseUrl + CollectionPath, Some(PayloadOf(d)))
  }

  /** The JSON a successful list request returns: a bare array, or an object whose `data` may be missing. */
  datatype ListBody = BareArray(items: seq<Achievement>) | Wrapped(data: Option<seq<Achievement>>)

  /** `Array.isArray(data) ? data : data.data || []`. */
  function Normalise(body: ListBody): (r: seq<Achievement>)
    ensures body.BareArray? ==> r == body.items
    ensures body.Wrapped? ==> r == body.data.GetOr([])
  {
    match body
    case BareArray(items) => items
    case Wrapped(data) => data.GetOr([])
  }

  /** The parts of a `fetch` response the page reads. */
  datatype Reply<T> = Reply(ok: bool, statusText: string, body: T)

  const FetchFailed := "Failed to fetch acheivements"
  const DeleteFailed := "Failed to delete acheivement"

  /** The component's state, field by field. */
  datatype Screen = Screen(
    achievements: seq<Achievement>,
    loading: bool,
    error: Option<string>,
    showForm: bool,
    editing: Option<Achievement>,
    formData: Draft)

  class AchievementsDashboard {
    /** The server's base URL. */
    const baseUrl: string

    var achievements: seq<Achievement>
    var loading: bool
    var error: Option<string>
    var showForm: bool
    var editing: Option<Achievement>
    var formData: Draft

    ghost function State(): Screen
      reads this
    {
      Screen(achievements, loading, error, showForm, editing, formData)
    }

    constructor (baseUrl: string)
      ensures this.baseUrl == baseUrl
      ensures State() == Screen([], true, None, false, None, InitialDraft)
    {
      this.baseUrl := baseUrl;
      achievements := [];
      loading := true;
      error := None;
      showForm := false;
      editing := None;
      formData := InitialDraft;
    }

    /**
     * `fetchAcheivements`: a good reply replaces the list with its normalised
     * body, a bad one or an exception sets the error; loading ends either way.
     */
    method FetchAchievements(fetched: Outcome<Reply<ListBody>>)
      modifies this
      ensures fetched.Ok? && fetched.value.ok ==>
        State() == old(State()).(achievements := Normalise(fetched.value.body), loading := false)
      ensures fetched.Ok? && !fetched.value.ok ==>
        State() == old(State()).(error := Some(FetchFailed), loading := false)
      ensures fetched.Threw? ==> State() == old(State()).(error := Some(fetched.error.message), loading := false)
    {
      match fetched {
        case Ok(reply) =>
          if reply.ok {
            achievements := Normalise(reply.body);
          } else {
            error := Some(FetchFailed);
          }
        case Threw(e) =>
          error := Some(e.message);
      }
      loading := false;
    }

    method ResetForm(today: string)
      modifies this
      ensures State() == old(State()).(formData := ResetDraft(today), editing := None, showForm := false)
    {
      formData := ResetDraft(today);
      editing := None;
      showForm := false;
    }

    method HandleEdit(a: Achievement, today: string)
      modifies this
      ensures State() == old(State()).(formData := EditDraft(a, today), editing := Some(a), showForm := true)
    {
      formData := EditDraft(a, today);
      editing := Some(a);
      showForm := true;
    }

    /** One of the inline field handlers. */
    method EditField(change: FieldChange)
      modifies this
      ensures State() == old(State()).(formData := ApplyChange(old(formData), change))
    {
      formData := ApplyChange(formData, change);
    }

    /** The "Add" button: shows the form with whatever draft is there. */
    method OpenForm()
      modifies this
      ensures State() == old(State()).(showForm := true)
    {
      showForm := true;
    }

    /**
     * `handleDelete`: nothing is sent unless confirmed; a good reply asks for
     * the list again, a bad reply or an exception only sets the error.
     */
    method HandleDelete(id: string, confirmed: bool, deleted: Outcome<Reply<()>>)
      returns (request: Option<Request>, refetch: bool)
      modifies this
      ensures request == if confirmed then Some(Request(Delete, baseUrl + CollectionPath + "/" + id, None)) else None
      ensures refetch <==> confirmed && deleted.Ok? && deleted.value.ok
      ensures !confirmed || (deleted.Ok? && deleted.value.ok) ==> State() == old(State())
      ensures confirmed && deleted.Ok? && !deleted.value.ok ==> State() == old(State()).(error := Some(DeleteFailed))
      ensures confirmed && deleted.Threw? ==> State() == old(State()).(error := Some(deleted.error.message))
    {
      request, refetch := None, false;
      if confirmed {
        request := Some(Request(Delete, baseUrl + CollectionPath + "/" + id, None));
        match deleted
        case Ok(reply) =>
          if reply.ok {
            refetch := true;
          } else {
            error := Some(DeleteFailed);
          }
        case Threw(e) =>
          error := Some(e.message);
      }
    }

    /**
     * `handleSubmit`: sends the draft; a good reply resets the form and asks
     * for the list again, a bad reply sets its status text as the error.
     */
    method HandleSubmit(today: string, saved: Outcome<Reply<()>>) returns (request: Request, refetch: bool)
      modifies this
      ensures request == SaveRequest(baseUrl, old(editing), old(formData))
      ensures refetch <==> saved.Ok? && saved.value.ok
      ensures saved.Ok? && saved.value.ok ==>
        State() == old(State()).(formData := ResetDraft(today), editing := None, showForm := false)
      ensures saved.Ok? && !saved.value.ok ==> State() == old(State()).(error := Some(saved.value.statusText))
      ensures saved.Threw? ==> State() == old(State()).(error := Some(saved.error.message))
    {
      request := SaveRequest(baseUrl, editing, formData);
      refetch := false;
      match saved
      case Ok(reply) =>
        if reply.ok {
          ResetForm(today);
          refetch := true;
        } else {
          error := Some(reply.statusText);
        }
      case Threw(e) =>
        error := Some(e.message);
    }
  }
}
