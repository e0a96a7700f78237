// The page navigator of the Number Blocks applet: a fixed list of eight pages,
// the page on screen (`currentPage`) and the furthest page unlocked so far
// (`progress`), with the three transitions Next, Previous and go-to-page.

module Navigation {

  /** One entry of the fixed page list: a 1-based id and a title. */
  datatype Page = Page(id: int, title: string)

  const Pages: seq<Page> := [
    Page(1, "Unit Blocks Introduction"),
    Page(2, "First Rod Formation"),
    Page(3, "Two 2-Unit Rods"),
    Page(4, "Combined 4-Unit Rod"),
    Page(5, "Interactive Slider"),
    Page(6, "Even Number Sequence"),
    Page(7, "Multiples Display"),
    Page(8, "Celebration")
  ]

  /** `pages.length` in the application. */
  const PageCount: int := 8

  /** The page with the interactive slider. */
  const SliderPageId: int := 5

  /** Page ids run 1, 2, ..., 8 in list order. */
  lemma PagesAreNumbered()
    ensures |Pages| == PageCount
    ensures forall i :: 0 <= i < |Pages| ==> Pages[i].id == i + 1
  {
  }

  /** The two stored integers of the navigator. */
  datatype NavState = NavState(currentPage: int, progress: int)

  const Initial: NavState := NavState(1, 1)

  /** The navigator's invariant: the page on screen is unlocked, and both lie in 1..8. */
  ghost predicate Inv(s: NavState)
  {
    1 <= s.currentPage <= s.progress <= PageCount
  }

  /** `handleNext`: one page forward, unlocking it; nothing at the last page. */
  function Next(s: NavState): (r: NavState)
    requires Inv(s)
    ensures Inv(r)
    ensures r.progress >= s.progress
    ensures r.progress >= r.currentPage
    ensures s.currentPage == PageCount <==> r == s
    ensures r != s ==> r.currentPage == s.currentPage + 1
    ensures r != s ==> r.progress == Max(s.progress, s.currentPage + 1)
  {
    if s.currentPage < PageCount then
      NavState(s.currentPage + 1, Max(s.progress, s.currentPage + 1))
    else
      s
  }

  /** `handlePrevious`: one page back; nothing at the first page; progress untouched. */
  function Previous(s: NavState): (r: NavState)
    requires Inv(s)
    ensures Inv(r)
    ensures r.progress == s.progress
    ensures s.currentPage == 1 <==> r == s
    ensures r != s ==> r.currentPage == s.currentPage - 1
  {
    if s.currentPage > 1 then NavState(s.currentPage - 1, s.progress) else s
  }

  /** `goToPage`: jump to an unlocked page; a locked page is ignored. */
  function GoTo(s: NavState, pageNum: int): (r: NavState)
    requires Inv(s)
    requires pageNum >= 1
    ensures Inv(r)
    ensures r.progress == s.progress
    ensures r.currentPage == (if pageNum <= s.progress then pageNum else s.currentPage)
  {
    if pageNum <= s.progress then NavState(pageNum, s.progress) else s
  }

  function Max(a: int, b: int): int
  {
    if a >= b then a else b
  }

  /** `pages[currentPage - 1]`: the title shown for the current page is that page's own entry. */
  function CurrentPage(s: NavState): (p: Page)
    requires Inv(s)
    ensures p in Pages
    ensures p.id == s.currentPage
  {
    PagesAreNumbered();
    Pages[s.currentPage - 1]
  }

  // ----- Navigation chrome: progress markers and the Previous/Next buttons -----

  /** The three looks of a progress marker. */
  datatype Marker = Current | Unlocked | Locked

  /** Classification of the marker of page `id`; the current page wins over unlocked. */
  function MarkerOf(id: int, s: NavState): (m: Marker)
    ensures m == Current <==> id == s.currentPage
    ensures Inv(s) ==> (m == Locked <==> id > s.progress)
    ensures Inv(s) && m == Unlocked ==> id < s.currentPage || s.currentPage < id <= s.progress
  {
    if id == s.currentPage then Current
    else if id <= s.progress then Unlocked
    else Locked
  }

  /** A marker button is disabled when its page is beyond the progress. */
  predicate MarkerDisabled(id: int, s: NavState)
    ensures Inv(s) && 1 <= id && MarkerDisabled(id, s) ==> id != s.currentPage && GoTo(s, id) == s
  {
    id > s.progress
  }

  /** The row of markers, one per page in list order. */
  function Markers(s: NavState): (ms: seq<Marker>)
    ensures |ms| == |Pages|
    ensures forall i :: 0 <= i < |ms| ==> ms[i] == MarkerOf(i + 1, s)
  {
    PagesAreNumbered();
    seq(|Pages|, i requires 0 <= i < |Pages| => MarkerOf(Pages[i].id, s))
  }

  /** Exactly one marker, the one at the current page, is in the "current" look. */
  lemma ExactlyOneCurrentMarker(s: NavState)
    requires Inv(s)
    ensures Markers(s)[s.currentPage - 1] == Current
    ensures forall i :: 0 <= i < |Pages| && Markers(s)[i] == Current ==> i == s.currentPage - 1
  {
    PagesAreNumbered();
  }

  /** Under the invariant, a marker looks locked exactly when it is disabled, and
      clicking it changes nothing; clicking any other marker moves to its page. */
  lemma MarkerLockedIffDisabled(s: NavState, id: int)
    requires Inv(s)
    requires 1 <= id <= PageCount
    ensures MarkerOf(id, s) == Locked <==> MarkerDisabled(id, s)
    ensures MarkerDisabled(id, s) ==> GoTo(s, id) == s
    ensures !MarkerDisabled(id, s) ==> GoTo(s, id).currentPage == id
  {
  }

  /** The Previous buttons are disabled on the first page. */
  predicate PreviousDisabled(s: NavState)
    ensures PreviousDisabled(s) <==> s.currentPage == Pages[0].id
  {
    s.currentPage == 1
  }

  /** The Next buttons are disabled on the last page. */
  predicate NextDisabled(s: NavState)
    ensures NextDisabled(s) <==> s.currentPage == Pages[|Pages| - 1].id
  {
    s.currentPage == PageCount
  }

  /** A Previous or Next button is disabled exactly when pressing it would change nothing. */
  lemma DisabledIffNoOp(s: NavState)
    requires Inv(s)
    ensures PreviousDisabled(s) <==> Previous(s) == s
    ensures NextDisabled(s) <==> Next(s) == s
  {
  }

  // ----- Sessions: any sequence of user actions -----

  /** A user action on the navigator; `GoTo` carries the clicked marker's page id. */
  datatype Action = NextAction | PreviousAction | GoToAction(pageId: int)

  predicate ValidAction(a: Action)
  {
    a.GoToAction? ==> a.pageId >= 1
  }

  predicate ValidActions(acts: seq<Action>)
  {
    forall i :: 0 <= i < |acts| ==> ValidAction(acts[i])
  }

  function Step(s: NavState, a: Action): (r: NavState)
    requires Inv(s)
    requires ValidAction(a)
    ensures Inv(r)
  {
    match a
    case NextAction => Next(s)
    case PreviousAction => Previous(s)
    case GoToAction(n) => GoTo(s, n)
  }

  /** The state after performing `acts` in order. */
  function Run(s: NavState, acts: seq<Action>): NavState
    requires Inv(s)
    requires ValidActions(acts)
    decreases |acts|
  {
    if acts == [] then s else Run(Step(s, acts[0]), acts[1..])
  }

  /** The highest page shown during the run, the starting page included. */
  function Peak(s: NavState, acts: seq<Action>): int
    requires Inv(s)
    requires ValidActions(acts)
    decreases |acts|
  {
    if acts == [] then s.currentPage
    else Max(s.currentPage, Peak(Step(s, acts[0]), acts[1..]))
  }

  lemma PeakAtLeastStart(s: NavState, acts: seq<Action>)
    requires Inv(s)
    requires ValidActions(acts)
    ensures Peak(s, acts) >= s.currentPage
    decreases |acts|
  {
  }

  /** Every session keeps the invariant, and progress never goes down. */
  lemma {:induction false} RunKeepsInvariant(s: NavState, acts: seq<Action>)
    requires Inv(s)
    requires ValidActions(acts)
    ensures Inv(Run(s, acts))
    ensures Run(s, acts).progress >= s.progress
    decreases |acts|
  {
    if acts != [] {
      RunKeepsInvariant(Step(s, acts[0]), acts[1..]);
    }
  }

  /** After any session, progress is the larger of the starting progress and the
      highest page that was on screen. */
  lemma {:induction false} ProgressIsPeak(s: NavState, acts: seq<Action>)
    requires Inv(s)
    requires ValidActions(acts)
    ensures Run(s, acts).progress == Max(s.progress, Peak(s, acts))
    decreases |acts|
  {
    if acts != [] {
      var t := Step(s, acts[0]);
      ProgressIsPeak(t, acts[1..]);
      PeakAtLeastStart(t, acts[1..]);
    }
  }

  /** From the start of a session, progress is exactly the furthest page reached. */
  lemma ProgressIsFurthestPageReached(acts: seq<Action>)
    requires ValidActions(acts)
    ensures Run(Initial, acts).progress == Peak(Initial, acts)
    ensures Inv(Run(Initial, acts))
  {
    ProgressIsPeak(Initial, acts);
    PeakAtLeastStart(Initial, acts);
    RunKeepsInvariant(Initial, acts);
  }

  // ----- The stateful component -----

  /** `NumberBlocksApp`'s two pieces of state, updated in place by its handlers. */
  class Navigator {
    var currentPage: int
    var progress: int

    ghost function State(): NavState
      reads this
    {
      NavState(currentPage, progress)
    }

    ghost predicate Valid()
      reads this
    {
      Inv(State())
    }

    constructor ()
      ensures Valid()
      ensures State() == Initial
    {
      currentPage := 1;
      progress := 1;
    }

    method HandleNext()
      requires Valid()
      modifies this
      ensures Valid()
      ensures State() == Next(old(State()))
      ensures progress >= old(progress)
    {
      if currentPage < |Pages| {
        var next := currentPage + 1;
        currentPage := next;
        progress := Max(progress, next);
      }
    }

    method HandlePrevious()
      requires Valid()
      modifies this
      ensures Valid()
      ensures State() == Previous(old(State()))
      ensures progress == old(progress)
    {
      if currentPage > 1 {
        currentPage := currentPage - 1;
      }
    }

    method GoToPage(pageNum: int)
      requires Valid()
      requires pageNum >= 1
      modifies this
      ensures Valid()
      ensures State() == GoTo(old(State()), pageNum)
      ensures progress == old(progress)
    {
      if pageNum <= progress {
        currentPage := pageNum;
      }
    }

    /** The heading `pages[currentPage - 1].title`, rendered on every page but the
        slider page, which shows its own heading instead. */
    method CurrentTitle() returns (title: string)
      requires Valid()
      requires currentPage != SliderPageId
      ensures title == CurrentPage(State()).title
    {
      title := Pages[currentPage - 1].title;
    }
  }

  /** Seven presses of Next from the start reach the last page with everything
      unlocked; a marker then jumps back to page 3 and forward to page 8. */
  method WalkThroughScenario()
  {
    var nav := new Navigator();
    var k := 0;
    while k < 7
      invariant 0 <= k <= 7
      invariant nav.Valid()
      invariant nav.currentPage == nav.progress == k + 1
    {
      nav.HandleNext();
      k := k + 1;
    }
    assert nav.State() == NavState(8, 8);
    nav.HandleNext();
    assert nav.State() == NavState(8, 8);
    nav.GoToPage(3);
    assert nav.State() == NavState(3, 8);
    nav.GoToPage(8);
    assert nav.State() == NavState(8, 8);
  }

  /** A locked marker is ignored: with progress 2, asking for page 5 changes nothing. */
  method LockedJumpScenario()
  {
    var nav := new Navigator();
    nav.HandleNext();
    nav.HandlePrevious();
    assert nav.State() == NavState(1, 2);
    nav.GoToPage(5);
    assert nav.State() == NavState(1, 2);
    nav.HandlePrevious();
    assert nav.State() == NavState(1, 2);
  }
}
