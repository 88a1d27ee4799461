/** The listing state machine of the AttendeeList component: search text and page
    number mirrored in the address bar, the last response (attendees and total),
    the page count, the request parameters and the four navigation buttons. */
module AttendeeListComponent {
  import opened NumberText

  datatype Option<T> = None | Some(value: T)

  /** One row of the listing as the endpoint returns it; timestamps stay text. */
  datatype Attendee = Attendee(
    id: string,
    name: string,
    email: string,
    createdAt: string,
    checkedInAt: Option<string>)

  /** Query parameters of a URL, one value per key. */
  type Query = map<string, string>

  /** Number of attendees the endpoint returns per page. */
  const PageSize: int := 10

  /** Math.ceil(total / 10): the smallest count of pages of PageSize that holds total. */
  function Pages(total: int): (pages: int)
    ensures (pages - 1) * PageSize < total <= pages * PageSize
    ensures total == 0 ==> pages == 0
    ensures total > 0 ==> pages >= 1
  {
    (total + PageSize - 1) / PageSize
  }

  /** Only one integer sits where Pages(total) does. */
  lemma PagesIsTheCeiling(total: int, k: int)
    requires (k - 1) * PageSize < total <= k * PageSize
    ensures k == Pages(total)
  {
  }

  /** The search field's initial value, read from the address bar: the "search"
      value when the key is present (even when it is ""), otherwise "". */
  function InitialSearch(query: Query): (search: string)
    ensures "search" in query ==> search == query["search"]
    ensures "search" !in query ==> search == ""
  {
    if "search" in query then query["search"] else ""
  }

  /** The "page" value, when present, is text that Number reads as an integer. */
  predicate PageTextValid(query: Query) {
    "page" in query ==> IsIntText(query["page"])
  }

  /** The page's initial value, read from the address bar: Number of the "page"
      value when the key is present, otherwise 1. */
  function InitialPage(query: Query): (page: int)
    requires PageTextValid(query)
    ensures "page" !in query ==> page == 1
    ensures "page" in query ==> page == TextToInt(query["page"])
    ensures "page" in query && query["page"] == "" ==> page == 0
  {
    if "page" in query then TextToInt(query["page"]) else 1
  }

  /** Writing a page into the address bar and reading it back gives that page,
      and leaves the search read back unchanged. */
  lemma PageUrlRoundTrip(query: Query, p: int)
    ensures PageTextValid(query["page" := IntToText(p)])
    ensures InitialPage(query["page" := IntToText(p)]) == p
    ensures InitialSearch(query["page" := IntToText(p)]) == InitialSearch(query)
  {
    IntTextRoundTrip(p);
  }

  /** Writing a search into the address bar and reading it back gives that search,
      even the empty one, and leaves the page read back unchanged. */
  lemma SearchUrlRoundTrip(query: Query, v: string)
    requires PageTextValid(query)
    ensures PageTextValid(query["search" := v])
    ensures InitialSearch(query["search" := v]) == v
    ensures InitialPage(query["search" := v]) == InitialPage(query)
  {
  }

  /** Query parameters of the listing request for a 1-based page and a search. */
  function RequestParams(page: int, search: string): (params: Query)
    ensures params.Keys == if search == "" then {"pageIndex"} else {"pageIndex", "query"}
    ensures params["pageIndex"] == IntToText(page - 1)
    ensures IsIntText(params["pageIndex"]) && TextToInt(params["pageIndex"]) == page - 1
    ensures "query" in params ==> params["query"] == search
  {
    IntTextRoundTrip(page - 1);
    var params := map["pageIndex" := IntToText(page - 1)];
    if |search| > 0 then params["query" := search] else params
  }

  /** The four pagination buttons. */
  datatype NavAction = First | Previous | Next | Last

  /** The button's disabled flag: first and previous on page 1, next and last on
      the page equal to the page count. First and last are thus disabled exactly
      when they would not move. */
  function Disabled(action: NavAction, page: int, pages: int): (disabled: bool)
    ensures (action == First || action == Previous) ==> (disabled <==> page == 1)
    ensures (action == Next || action == Last) ==> (disabled <==> page == pages)
    ensures (action == First || action == Last) ==> (disabled <==> Target(action, page, pages) == page)
  {
    match action
    case First | Previous => page == 1
    case Next | Last => page == pages
  }

  /** The page the button passes to setCurrentPage: first goes to 1, previous one
      page back, next one page forward, last to the page count. */
  function Target(action: NavAction, page: int, pages: int): (target: int)
    ensures action == First ==> target == 1
    ensures action == Previous ==> target + 1 == page
    ensures action == Next ==> target - 1 == page
    ensures action == Last ==> target == pages
  {
    match action
    case First => 1
    case Previous => page - 1
    case Next => page + 1
    case Last => pages
  }

  /** While the page lies in [1, pages], a button is enabled exactly when it leads
      to another page inside [1, pages]. */
  lemma EnabledIffMovesWithinRange(action: NavAction, page: int, pages: int)
    requires 1 <= page <= pages
    ensures !Disabled(action, page, pages) <==>
            (1 <= Target(action, page, pages) <= pages && Target(action, page, pages) != page)
  {
  }

  /** With no attendees there are no pages, yet on page 1 the next and last buttons
      stay enabled and lead out of [1, pages]: to page 2 and to page 0. */
  lemma EmptyListingLeavesRange()
    ensures Pages(0) == 0
    ensures Disabled(First, 1, Pages(0)) && Disabled(Previous, 1, Pages(0))
    ensures !Disabled(Next, 1, Pages(0)) && Target(Next, 1, Pages(0)) == 2
    ensures !Disabled(Last, 1, Pages(0)) && Target(Last, 1, Pages(0)) == 0
  {
  }

  /** The component's state, with the browser's address bar and history. */
  class AttendeeList {
    var search: string
    var page: int
    var total: int
    var attendees: seq<Attendee>
    /** Query parameters of the current address. */
    var query: Query
    /** History entries, oldest first; the last one is the current address. */
    var history: seq<Query>

    ghost predicate Valid()
      reads this
    {
      |history| > 0 && history[|history| - 1] == query && PageTextValid(query)
    }

    /** Reading the address bar the way the component does on mount gives back
        the current search and page. */
    ghost predicate InSync()
      reads this
      requires Valid()
    {
      InitialSearch(query) == search && InitialPage(query) == page
    }

    function PageCount(): int
      reads this
    {
      Pages(total)
    }

    function IsDisabled(action: NavAction): bool
      reads this
    {
      Disabled(action, page, PageCount())
    }

    /** Query parameters of the request the component issues for its state; while
        the address agrees with the state, they carry the address bar's page and
        search. */
    function Request(): (params: Query)
      reads this
      ensures params.Keys == if search == "" then {"pageIndex"} else {"pageIndex", "query"}
      ensures params["pageIndex"] == IntToText(page - 1)
      ensures IsIntText(params["pageIndex"]) && TextToInt(params["pageIndex"]) == page - 1
      ensures "query" in params ==> params["query"] == search
      ensures Valid() && InSync() ==>
                TextToInt(params["pageIndex"]) == InitialPage(query) - 1 &&
                ("query" in params <==> InitialSearch(query) != "") &&
                ("query" in params ==> params["query"] == InitialSearch(query))
    {
      RequestParams(page, search)
    }

    /** The page moved to p through the address bar; nothing else changed. */
    twostate predicate PageWritten(p: int)
      reads this
    {
      && page == p
      && query == old(query)["page" := IntToText(p)]
      && history == old(history) + [query]
      && search == old(search) && total == old(total) && attendees == old(attendees)
    }

    /** Mounting: search and page come from the address bar, the listing is empty. */
    constructor (location: Query)
      requires PageTextValid(location)
      ensures Valid() && InSync()
      ensures "search" in location ==> search == location["search"]
      ensures "search" !in location ==> search == ""
      ensures "page" in location ==> page == TextToInt(location["page"])
      ensures "page" !in location ==> page == 1
      ensures total == 0 && attendees == []
      ensures query == location && history == [location]
    {
      search := InitialSearch(location);
      page := InitialPage(location);
      total := 0;
      attendees := [];
      query := location;
      history := [location];
    }

    /** A response overwrites the attendees and the total. */
    method ApplyResponse(newAttendees: seq<Attendee>, newTotal: int)
      requires Valid()
      modifies this
      ensures Valid()
      ensures attendees == newAttendees && total == newTotal
      ensures search == old(search) && page == old(page)
      ensures query == old(query) && history == old(history)
      ensures old(InSync()) ==> InSync()
    {
      attendees := newAttendees;
      total := newTotal;
    }

    /** Writes the search into the address bar, pushes a history entry and
        stores the search. */
    method SetCurrentSearch(v: string)
      requires Valid()
      modifies this
      ensures Valid()
      ensures search == v
      ensures query == old(query)["search" := v]
      ensures history == old(history) + [query]
      ensures page == old(page) && total == old(total) && attendees == old(attendees)
      ensures InitialSearch(query) == v && InitialPage(query) == InitialPage(old(query))
      ensures old(InSync()) ==> InSync()
    {
      SearchUrlRoundTrip(query, v);
      var url := query["search" := v];
      history := history + [url];
      query := url;
      search := v;
    }

    /** Writes the page into the address bar, pushes a history entry and
        stores the page. */
    method SetCurrentPage(p: int)
      requires Valid()
      modifies this
      ensures Valid() && PageWritten(p)
      ensures InitialPage(query) == p && InitialSearch(query) == InitialSearch(old(query))
      ensures old(InSync()) ==> InSync()
    {
      PageUrlRoundTrip(query, p);
      var url := query["page" := IntToText(p)];
      history := history + [url];
      query := url;
      page := p;
    }

    /** Typing in the search field: the search goes through the address bar,
        the page is reset in the state only, so the address keeps its old page. */
    method OnSearchInputChanged(v: string)
      requires Valid()
      modifies this
      ensures Valid()
      ensures search == v && page == 1
      ensures query == old(query)["search" := v]
      ensures history == old(history) + [query]
      ensures total == old(total) && attendees == old(attendees)
      ensures InitialPage(query) == InitialPage(old(query))
      ensures old(InSync()) ==> (InSync() <==> old(page) == 1)
    {
      SetCurrentSearch(v);
      page := 1;
    }

    /** Typing in the search field with the page reset through the address bar
        as well, so that the address and the state agree afterwards. */
    method OnSearchInputChangedSynced(v: string)
      requires Valid()
      modifies this
      ensures Valid() && InSync()
      ensures search == v && page == 1
      ensures query == old(query)["search" := v]["page" := IntToText(1)]
      ensures history == old(history) + [old(query)["search" := v], query]
      ensures total == old(total) && attendees == old(attendees)
    {
      SetCurrentSearch(v);
      SetCurrentPage(1);
    }

    method ToFirstPage()
      requires Valid()
      modifies this
      ensures Valid() && PageWritten(Target(First, old(page), old(PageCount())))
      ensures old(1 <= page <= PageCount() && !IsDisabled(First)) ==> 1 <= page <= PageCount()
      ensures old(InSync()) ==> InSync()
    {
      SetCurrentPage(1);
    }

    method ToPreviousPage()
      requires Valid()
      modifies this
      ensures Valid() && PageWritten(Target(Previous, old(page), old(PageCount())))
      ensures old(1 <= page <= PageCount() && !IsDisabled(Previous)) ==> 1 <= page <= PageCount()
      ensures old(InSync()) ==> InSync()
    {
      SetCurrentPage(page - 1);
    }

    method ToNextPage()
      requires Valid()
      modifies this
      ensures Valid() && PageWritten(Target(Next, old(page), old(PageCount())))
      ensures old(1 <= page <= PageCount() && !IsDisabled(Next)) ==> 1 <= page <= PageCount()
      ensures old(InSync()) ==> InSync()
    {
      SetCurrentPage(page + 1);
    }

    method ToLastPage()
      requires Valid()
      modifies this
      ensures Valid() && PageWritten(Target(Last, old(page), old(PageCount())))
      ensures old(1 <= page <= PageCount() && !IsDisabled(Last)) ==> 1 <= page <= PageCount()
      ensures old(InSync()) ==> InSync()
    {
      SetCurrentPage(PageCount());
    }
  }

  /** Clicking next and then previous: the state is back on its page with
      everything else unchanged, and two history entries are pushed. The address
      comes back to what it was exactly when its page text was already String(page);
      a missing key or text such as "03" is replaced by the canonical text. */
  method NextThenPrevious(list: AttendeeList)
    requires list.Valid()
    modifies list
    ensures list.Valid()
    ensures list.page == old(list.page) && list.search == old(list.search)
    ensures list.total == old(list.total) && list.attendees == old(list.attendees)
    ensures list.query == old(list.query)["page" := IntToText(old(list.page))]
    ensures list.history ==
              old(list.history) + [old(list.query)["page" := IntToText(old(list.page) + 1)], list.query]
    ensures list.query == old(list.query) <==>
              ("page" in old(list.query) && old(list.query)["page"] == IntToText(old(list.page)))
  {
    list.ToNextPage();
    list.ToPreviousPage();
    assert list.query["page"] == IntToText(old(list.page));
  }

  /** Twenty-five attendees make three pages; the last button goes from page 1 to
      page 3, where the next button is disabled. */
  method LastOfTwentyFive() returns (page: int, nextDisabled: bool)
    ensures page == 3 && nextDisabled
  {
    var list := new AttendeeList(map[]);
    list.ApplyResponse([], 25);
    list.ToLastPage();
    page := list.page;
    nextDisabled := list.IsDisabled(Next);
  }

  /** With an empty listing, the last button goes from page 1 to page 0. */
  method LastOfEmptyListing() returns (page: int)
    ensures page == 0
  {
    var list := new AttendeeList(map[]);
    list.ApplyResponse([], 0);
    list.ToLastPage();
    page := list.page;
  }

  /** Searching from page 3: the state returns to page 1 while the address bar
      still says page 3. */
  method SearchFromThirdPage() returns (statePage: int, urlPage: int)
    ensures statePage == 1 && urlPage == 3
  {
    var location := map["page" := "3"];
    assert IsDigits("3");
    assert TextToInt("3") == 3 by {
      assert "3"[..0] == "";
    }
    var list := new AttendeeList(location);
    list.OnSearchInputChanged("ana");
    statePage := list.page;
    urlPage := InitialPage(list.query);
  }

  /** Searching from page 3 with the corrected handler: both say page 1. */
  method SearchFromThirdPageSynced() returns (statePage: int, urlPage: int)
    ensures statePage == 1 && urlPage == 1
  {
    var location := map["page" := "3"];
    assert IsDigits("3");
    var list := new AttendeeList(location);
    list.OnSearchInputChangedSynced("ana");
    statePage := list.page;
    urlPage := InitialPage(list.query);
  }
}
