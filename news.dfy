/**
 * The announcements dashboard: a list of announcements, a modal form whose
 * fields are kept in a name-indexed object, the payload a save sends, and the
 * create-or-update and delete flows with their error messages.
 */
module News {
  import opened Wrappers
  import opened Strings
  import opened Backend

  /** A form field's value: text from an input, a checkbox state, or a number. */
  datatype Value = Undefined | Text(text: string) | Flag(flag: bool) | Num(num: int)

  /** `formData`: whatever `[name]: value` has written, indexed by input name. */
  type FormData = map<string, Value>

  /** `formData[name]`: a name never written reads as `undefined`. */
  function Field(form: FormData, name: string): Value {
    if name in form then form[name] else Undefined
  }

  /** JavaScript truthiness of a field value. */
  predicate Truthy(v: Value) {
    match v
    case Undefined => false
    case Text(s) => s != ""
    case Flag(b) => b
    case Num(n) => n != 0
  }

  /**
   * `Number(v)` for the values this form holds; `None` stands for `NaN`.
   * Text is read as optional white space around decimal digits, the empty
   * text being 0.
   */
  function ToNumber(v: Value): (r: Option<int>)
    ensures v.Num? ==> r == Some(v.num)
    ensures v.Flag? ==> r == Some(if v.flag then 1 else 0)
    ensures v.Undefined? ==> r.None?
    ensures v.Text? && r.Some? ==> r.value >= 0
  {
    match v
    case Undefined => None
    case Text(s) =>
      var t := Trim(s);
      if AllDigits(t) then Some(DecimalValue(t)) else None
    case Flag(b) => Some(if b then 1 else 0)
    case Num(n) => Some(n)
  }

  /** The text a `<select>` option carries is read back as the option's number. */
  lemma SelectedNumber(n: nat)
    ensures ToNumber(Text(DecimalString(n))) == Some(n)
  {
    var s := DecimalString(n);
    assert Trimmed(s) by {
      assert IsDigit(s[0]) && IsDigit(s[|s| - 1]);
    }
    TrimFixedPoints(s);
    DecimalRoundTrip(n);
  }

  /** The form as it opens for a new announcement and after every successful save. */
  function EmptyForm(today: string): (r: FormData)
    ensures Field(r, "title") == Text("") && Field(r, "content") == Text("")
    ensures Field(r, "publishDate") == Text(today)
    ensures Field(r, "expiryDate") == Text("")
    ensures Field(r, "priority") == Num(0)
    ensures Field(r, "isActive") == Flag(true)
    ensures r.Keys == {"title", "content", "publishDate", "expiryDate", "priority", "isActive"}
  {
    map["title" := Text(""), "content" := Text(""), "publishDate" := Text(today),
        "expiryDate" := Text(""), "priority" := Num(0), "isActive" := Flag(true)]
  }

  /** `handleInputChange`: a checkbox stores its `checked` state, any other input its `value`; nothing else moves. */
  function ApplyInput(form: FormData, name: string, inputType: string, value: string, checked: bool): (r: FormData)
    ensures Field(r, name) == if inputType == "checkbox" then Flag(checked) else Text(value)
    ensures forall other :: other != name ==> Field(r, other) == Field(form, other)
    ensures r.Keys == form.Keys + {name}
  {
    form[name := if inputType == "checkbox" then Flag(checked) else Text(value)]
  }

  /** What a save sends; `expiryDate` is `None` for `null` and `priority` is `None` for `NaN`. */
  datatype Payload = Payload(
    title: Value,
    content: Value,
    publishDate: Value,
    expiryDate: Option<Value>,
    priority: Option<int>,
    isActive: Value)

  /** The payload built from the form (dates are carried as the form holds them). */
  function PayloadOf(form: FormData): (r: Payload)
    ensures r.title == Field(form, "title") && r.content == Field(form, "content")
    ensures r.isActive == Field(form, "isActive")
    ensures r.publishDate == Field(form, "publishDate")
    ensures r.expiryDate.None? <==> !Truthy(Field(form, "expiryDate"))
    ensures r.expiryDate.Some? ==> r.expiryDate.value == Field(form, "expiryDate")
    ensures r.priority == ToNumber(Field(form, "priority"))
  {
    Payload(
      Field(form, "title"),
      Field(form, "content"),
      Field(form, "publishDate"),
      if Truthy(Field(form, "expiryDate")) then Some(Field(form, "expiryDate")) else None,
      ToNumber(Field(form, "priority")),
      Field(form, "isActive"))
  }

  /** A fresh form saves an active, priority-0 announcement without expiry. */
  lemma EmptyFormPayload(today: string)
    ensures var p := PayloadOf(EmptyForm(today));
      p.expiryDate.None? && p.priority == Some(0) && p.isActive == Flag(true) && p.publishDate == Text(today)
  {
  }

  /** Picking priority option `n` in the select makes the payload carry priority `n`. */
  lemma SelectPriorityPayload(form: FormData, n: nat)
    ensures PayloadOf(ApplyInput(form, "priority", "select-one", DecimalString(n), false)).priority == Some(n)
  {
    SelectedNumber(n);
  }

  /** Clearing the expiry input makes the payload send `null`. */
  lemma ClearExpiryPayload(form: FormData)
    ensures PayloadOf(ApplyInput(form, "expiryDate", "date", "", false)).expiryDate.None?
  {
  }

  /** Where a save goes: an update of the announcement being edited, else a create. */
  datatype Request =
    | Create(payload: Payload)
    | Update(id: string, payload: Payload)
  {
    function Path(): string {
      match this
      case Create(_) => "/announcements/create"
      case Update(id, _) => "/announcements/update/" + id
    }
  }

  function RequestFor(current: Option<Announcement>, payload: Payload): (r: Request)
    ensures r.payload == payload
    ensures r.Update? <==> current.Some?
    ensures current.Some? ==> r.id == current.value.id
  {
    match current
    case Some(a) => Update(a.id, payload)
    case None => Create(payload)
  }

  const SaveFailed := "Failed to save announcement"
  const LoadFailed := "Failed to load announcements"
  const DeleteFailed := "Failed to delete announcement"

  /** `error.response?.data?.error || error.message || "Failed to save announcement"`. */
  function SaveErrorText(e: JsError): (r: string)
    ensures r != ""
    ensures e.responseError.Some? && e.responseError.value != "" ==> r == e.responseError.value
    ensures !(e.responseError.Some? && e.responseError.value != "") && e.message != "" ==> r == e.message
    ensures !(e.responseError.Some? && e.responseError.value != "") && e.message == "" ==> r == SaveFailed
  {
    OrElse(e.responseError, OrElse(Some(e.message), SaveFailed))
  }

  /**
   * `handleEdit`'s form: the stored dates cut at `T`, today for a missing
   * publish date, `""` for a missing expiry, 0 for a missing priority.
   */
  function EditForm(a: Announcement, today: string): (r: FormData)
    ensures Field(r, "title") == Text(a.title) && Field(r, "content") == Text(a.content)
    ensures Field(r, "publishDate") == Text(if a.publishDate.Some? && a.publishDate.value != "" then DatePart(a.publishDate.value) else today)
    ensures Field(r, "expiryDate") == Text(if a.expiryDate.Some? && a.expiryDate.value != "" then DatePart(a.expiryDate.value) else "")
    ensures Field(r, "priority") == Num(a.priority.GetOr(0))
    ensures Field(r, "isActive") == Flag(a.isActive)
    ensures r.Keys == EmptyForm(today).Keys
  {
    map["title" := Text(a.title),
        "content" := Text(a.content),
        "publishDate" := Text(if a.publishDate.Some? && a.publishDate.value != "" then DatePart(a.publishDate.value) else today),
        "expiryDate" := Text(if a.expiryDate.Some? && a.expiryDate.value != "" then DatePart(a.expiryDate.value) else ""),
        "priority" := Num(if a.priority.Some? && a.priority.value != 0 then a.priority.value else 0),
        "isActive" := Flag(a.isActive)]
  }

  /**
   * Opening an announcement and saving it unchanged sends back its title,
   * content, priority (0 when it had none) and active flag, sends its publish
   * date cut at `T` (today when it had none), and sends its expiry cut at `T`,
   * or no expiry exactly when it had none (or one that is cut to nothing).
   */
  lemma EditThenSave(a: Announcement, today: string)
    ensures var p := PayloadOf(EditForm(a, today));
      && p.title == Text(a.title) && p.content == Text(a.content)
      && p.priority == Some(a.priority.GetOr(0))
      && p.isActive == Flag(a.isActive)
      && (a.publishDate.Some? && a.publishDate.value != "" ==> p.publishDate == Text(DatePart(a.publishDate.value)))
      && (!(a.publishDate.Some? && a.publishDate.value != "") ==> p.publishDate == Text(today))
      && (p.expiryDate.None? <==> (a.expiryDate.None? || DatePart(a.expiryDate.value) == ""))
      && (p.expiryDate.Some? ==> a.expiryDate.Some? && p.expiryDate.value == Text(DatePart(a.expiryDate.value)))
  {
  }

  /** One entry of `priorityOptions`. */
  datatype PriorityOption = PriorityOption(value: int, caption: string)

  const PriorityOptions := [PriorityOption(0, "Low"), PriorityOption(1, "Medium"), PriorityOption(2, "High")]

  /** `options.find(opt => opt.value === p)`: the first match; an absent priority matches nothing. */
  function Find(options: seq<PriorityOption>, p: Option<int>): (r: Option<PriorityOption>)
    ensures r.Some? ==> r.value in options && p == Some(r.value.value)
    ensures r.Some? ==> FirstMatch(options, p, r.value)
    ensures r.None? ==> forall o :: o in options ==> p != Some(o.value)
  {
    if options == [] then None
    else if p == Some(options[0].value) then Some(options[0])
    else
      var r := Find(options[1..], p);
      FirstMatchPastHead(options, p, r);
      r
  }

  /** `o` is the first option matching `p`. */
  predicate FirstMatch(options: seq<PriorityOption>, p: Option<int>, o: PriorityOption) {
    exists i :: 0 <= i < |options| && options[i] == o
      && forall j :: 0 <= j < i ==> p != Some(options[j].value)
  }

  /** The first match after a head that does not match is the first match of the whole. */
  lemma FirstMatchPastHead(options: seq<PriorityOption>, p: Option<int>, r: Option<PriorityOption>)
    requires options != [] && p != Some(options[0].value)
    requires r.Some? ==> FirstMatch(options[1..], p, r.value)
    ensures r.Some? ==> FirstMatch(options, p, r.value)
  {
    if r.Some? {
      var i :| 0 <= i < |options[1..]| && options[1..][i] == r.value
        && forall j :: 0 <= j < i ==> p != Some(options[1..][j].value);
      assert options[i + 1] == r.value;
      forall j | 0 <= j < i + 1 ensures p != Some(options[j].value) {
        if j > 0 { assert options[j] == options[1..][j - 1]; }
      }
    }
  }

  /** The badge text: the matching option's label, else "Unknown". */
  function PriorityLabel(p: Option<int>): (r: string)
    ensures r == "Unknown" <==> forall o :: o in PriorityOptions ==> p != Some(o.value)
    ensures r != "Unknown" ==> exists o :: o in PriorityOptions && p == Some(o.value) && r == o.caption
  {
    match Find(PriorityOptions, p)
    case Some(o) => OrElse(Some(o.caption), "Unknown")
    case None => "Unknown"
  }

  /** 0 is Low, 1 Medium, 2 High, and every other (or missing) priority Unknown. */
  lemma PriorityLabels(p: Option<int>)
    ensures PriorityLabel(p) == "Low" <==> p == Some(0)
    ensures PriorityLabel(p) == "Medium" <==> p == Some(1)
    ensures PriorityLabel(p) == "High" <==> p == Some(2)
    ensures PriorityLabel(p) == "Unknown" <==> !(p == Some(0) || p == Some(1) || p == Some(2))
  {
    assert PriorityOptions[1..] == [PriorityOption(1, "Medium"), PriorityOption(2, "High")];
    assert PriorityOptions[2..] == [PriorityOption(2, "High")];
  }

  /** The component's state, field by field. */
  datatype Screen = Screen(
    announcements: seq<Announcement>,
    isModalOpen: bool,
    currentAnnouncement: Option<Announcement>,
    formData: FormData,
    error: Option<string>)

  class AnnouncementsDashboard {
    var announcements: seq<Announcement>
    var isModalOpen: bool
    var currentAnnouncement: Option<Announcement>
    var formData: FormData
    var error: Option<string>

    ghost function State(): Screen
      reads this
    {
      Screen(announcements, isModalOpen, currentAnnouncement, formData, error)
    }

    constructor (today: string)
      ensures State() == Screen([], false, None, EmptyForm(today), None)
    {
      announcements := [];
      isModalOpen := false;
      currentAnnouncement := None;
      formData := EmptyForm(today);
      error := None;
    }

    /** The fetch on mount. */
    method LoadAnnouncements(fetched: Outcome<seq<Announcement>>)
      modifies this
      ensures fetched.Ok? ==> State() == old(State()).(announcements := fetched.value)
      ensures fetched.Threw? ==> State() == old(State()).(error := Some(LoadFailed))
    {
      match fetched
      case Ok(list) => announcements := list;
      case Threw(_) => error := Some(LoadFailed);
    }

    method HandleInputChange(name: string, inputType: string, value: string, checked: bool)
      modifies this
      ensures State() == old(State()).(formData := ApplyInput(old(formData), name, inputType, value, checked))
    {
      formData := ApplyInput(formData, name, inputType, value, checked);
    }

    /**
     * `handleSubmit`: clears the error and sends the request. When the save
     * and the refetch both succeed, the list is the refetched one, the modal
     * closes, nothing is being edited and the form is fresh; otherwise only
     * the error changes.
     */
    method HandleSubmit(today: string, saved: Outcome<()>, refetched: Outcome<seq<Announcement>>)
      returns (request: Request, refetchIssued: bool)
      modifies this
      ensures request == RequestFor(old(currentAnnouncement), PayloadOf(old(formData)))
      ensures refetchIssued == saved.Ok?
      ensures saved.Ok? && refetched.Ok? ==>
        State() == Screen(refetched.value, false, None, EmptyForm(today), None)
      ensures saved.Threw? ==> State() == old(State()).(error := Some(SaveErrorText(saved.error)))
      ensures saved.Ok? && refetched.Threw? ==> State() == old(State()).(error := Some(SaveErrorText(refetched.error)))
    {
      error := None;
      var payload := PayloadOf(formData);
      request := RequestFor(currentAnnouncement, payload);
      refetchIssued := saved.Ok?;
      if saved.Threw? {
        error := Some(SaveErrorText(saved.error));
      } else if refetched.Threw? {
        error := Some(SaveErrorText(refetched.error));
      } else {
        announcements := refetched.value;
        isModalOpen := false;
        currentAnnouncement := None;
        formData := EmptyForm(today);
      }
    }

    method HandleEdit(a: Announcement, today: string)
      modifies this
      ensures State() == old(State()).(currentAnnouncement := Some(a), formData := EditForm(a, today), isModalOpen := true)
    {
      currentAnnouncement := Some(a);
      formData := EditForm(a, today);
      isModalOpen := true;
    }

    /**
     * `handleDelete`: nothing happens unless confirmed; then the list is
     * refetched, and a failure of either call sets the fixed message.
     */
    method HandleDelete(id: string, confirmed: bool, deleted: Outcome<()>, refetched: Outcome<seq<Announcement>>)
      returns (target: Option<string>)
      modifies this
      ensures target == if confirmed then Some("/announcements/delete/" + id) else None
      ensures !confirmed ==> State() == old(State())
      ensures confirmed && deleted.Ok? && refetched.Ok? ==> State() == old(State()).(announcements := refetched.value)
      ensures confirmed && (deleted.Threw? || refetched.Threw?) ==> State() == old(State()).(error := Some(DeleteFailed))
    {
      target := None;
      if confirmed {
        target := Some("/announcements/delete/" + id);
        if deleted.Ok? && refetched.Ok? {
          announcements := refetched.value;
        } else {
          error := Some(DeleteFailed);
        }
      }
    }

    /** The "Add Announcement" button: only opens the modal, whatever the form holds. */
    method OpenModal()
      modifies this
      ensures State() == old(State()).(isModalOpen := true)
    {
      isModalOpen := true;
    }

    /** Cancel and the close button: the form keeps what was typed. */
    method CloseModal()
      modifies this
      ensures State() == old(State()).(isModalOpen := false, currentAnnouncement := None, error := None)
    {
      isModalOpen := false;
      currentAnnouncement := None;
      error := None;
    }
  }
}
