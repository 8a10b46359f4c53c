/**
 * The public announcements page: one fetch with three outcomes (the list, a
 * refusal, or an exception that falls back to three demo announcements), and
 * the colour and label each priority is shown with.
 */
module AnnouncementPage {
  import opened Wrappers
  import opened Backend
  import News

  const Red := "border-l-red-500"
  const Amber := "border-l-amber-500"
  const Green := "border-l-green-500"
  const Stone := "border-l-stone-500"

  /** `getPriorityColor`: the card's left-border class. */
  function PriorityColor(p: Option<int>): (r: string)
    ensures r == Red <==> p == Some(1)
    ensures r == Amber <==> p == Some(2)
    ensures r == Green <==> p == Some(3)
    ensures r == Stone <==> !(p == Some(1) || p == Some(2) || p == Some(3))
  {
    match p
    case Some(1) => Red
    case Some(2) => Amber
    case Some(3) => Green
    case _ => Stone
  }

  /** The label beside "Priority:" on a card. */
  function PriorityLabel(p: Option<int>): (r: string)
    ensures r == "High" <==> p == Some(1)
    ensures r == "Medium" <==> p == Some(2)
    ensures r == "Low" <==> !(p == Some(1) || p == Some(2))
  {
    if p == Some(1) then "High" else if p == Some(2) then "Medium" else "Low"
  }

  /** A red border goes with "High" and an amber one with "Medium"; green and stone both go with "Low". */
  lemma ColorMatchesLabel(p: Option<int>)
    ensures PriorityColor(p) == Red <==> PriorityLabel(p) == "High"
    ensures PriorityColor(p) == Amber <==> PriorityLabel(p) == "Medium"
    ensures PriorityColor(p) == Green || PriorityColor(p) == Stone <==> PriorityLabel(p) == "Low"
  {
  }

  /**
   * The page and the dashboard read priorities in opposite directions: they
   * agree only on 0, what the dashboard calls High (2) the page calls
   * Medium, and what the dashboard calls Medium (1) the page calls High.
   */
  lemma LabelsDisagreeWithDashboard(p: Option<int>)
    ensures PriorityLabel(p) == News.PriorityLabel(p) <==> p == Some(0)
    ensures PriorityLabel(Some(1)) == News.PriorityLabel(Some(2))
    ensures PriorityLabel(Some(2)) == News.PriorityLabel(Some(1))
  {
    News.PriorityLabels(p);
    News.PriorityLabels(Some(1));
    News.PriorityLabels(Some(2));
  }

  /** One day in milliseconds. */
  const DayMs := 86400000

  const FetchRefused := "Failed to fetch announcements"
  const DemoNotice := "Something went wrong. Showing demo announcements."

  const DemoContent1 := "We have updated our project management guidelines to ensure better coordination and efficiency across all departments."
  const DemoContent2 := "Join us for the quarterly review meeting to discuss project progress and upcoming milestones."
  const DemoContent3 := "Important updates to our safety protocols. All team members must review the new guidelines before starting any construction work."

  /**
   * The fallback list; `iso` renders a millisecond clock value as
   * `toISOString` does, and `now` is `Date.now()`.
   */
  function DemoAnnouncements(iso: int -> string, now: int): seq<Announcement> {
    [ Announcement("1", "New Project Guidelines Released",
        DemoContent1,
        Some(iso(now)), None, Some(2), true),
      Announcement("2", "Team Meeting - Q2 Review",
        DemoContent2,
        Some(iso(now - DayMs)), None, Some(1), true),
      Announcement("3", "Safety Protocol Update",
        DemoContent3,
        Some(iso(now - 2 * DayMs)), None, Some(3), true) ]
  }

  /**
   * The demo list shows ids 1 to 3, all active, dated today, yesterday and
   * the day before, labelled Medium, High and Low with amber, red and green borders.
   */
  lemma DemoShowsEveryColor(iso: int -> string, now: int)
    ensures var demo := DemoAnnouncements(iso, now);
      && |demo| == 3
      && (forall i :: 0 <= i < 3 ==> demo[i].isActive && demo[i].publishDate == Some(iso(now - i * DayMs)))
      && [demo[0].id, demo[1].id, demo[2].id] == ["1", "2", "3"]
      && [PriorityLabel(demo[0].priority), PriorityLabel(demo[1].priority), PriorityLabel(demo[2].priority)]
         == ["Medium", "High", "Low"]
      && [PriorityColor(demo[0].priority), PriorityColor(demo[1].priority), PriorityColor(demo[2].priority)]
         == [Amber, Red, Green]
  {
    var demo := DemoAnnouncements(iso, now);
    assert demo[0].publishDate == Some(iso(now - 0 * DayMs));
    assert demo[1].publishDate == Some(iso(now - 1 * DayMs));
  }

  /** The body of `/announcements/get`: `data.success` and `data.data`. */
  datatype ListResponse = ListResponse(success: bool, data: seq<Announcement>)

  /** The component's state, field by field. */
  datatype Screen = Screen(announcements: seq<Announcement>, loading: bool, error: Option<string>)

  class PublicAnnouncements {
    var announcements: seq<Announcement>
    var loading: bool
    var error: Option<string>

    ghost function State(): Screen
      reads this
    {
      Screen(announcements, loading, error)
    }

    constructor ()
      ensures State() == Screen([], true, None)
    {
      announcements := [];
      loading := true;
      error := None;
    }

    /**
     * The fetch on mount: a successful response shows its list, a refused
     * one only the error, and an exception the demo list with its notice;
     * loading ends on every path.
     */
    method FetchAnnouncements(fetched: Outcome<ListResponse>, iso: int -> string, now: int)
      modifies this
      ensures fetched.Ok? && fetched.value.success ==>
        State() == old(State()).(announcements := fetched.value.data, loading := false)
      ensures fetched.Ok? && !fetched.value.success ==>
        State() == old(State()).(error := Some(FetchRefused), loading := false)
      ensures fetched.Threw? ==>
        State() == old(State()).(error := Some(DemoNotice), announcements := DemoAnnouncements(iso, now), loading := false)
    {
      match fetched {
        case Ok(response) =>
          if response.success {
            announcements := response.data;
          } else {
            error := Some(FetchRefused);
          }
        case Threw(_) =>
          error := Some(DemoNotice);
          announcements := DemoAnnouncements(iso, now);
      }
      loading := false;
    }
  }
}
