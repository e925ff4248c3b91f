/**
 * The library list (src/pages/LibraryScreen.tsx): a category filter over the
 * built-in articles, pages of ten shown on demand, pull-to-refresh, and one
 * timer slot through which every page arrives.
 *
 * A timer is never waited for here: scheduling one puts its kind in the slot,
 * clearing one empties the slot, and `TimerFired` is the step at which the
 * pending callback runs.  The pure `Feed` state and its transition functions
 * carry the properties; the class `Library` holds the same state in fields
 * and applies the transitions in place.
 */
module LibraryScreen {
  import opened Wrappers
  import opened MockData

  const PageSize: nat := 10
  /** The pseudo-category that shows every article. */
  const AllCategories: string := "全部"
  const Categories: seq<string> :=
    [AllCategories, "Frontend", "System", "Architecture", "DevOps", "AI", "Mysql", "App"]
  /** Distance from the bottom, in pixels, at which scrolling asks for more. */
  const ScrollPadding: real := 200.0

  function Min(a: int, b: int): int
  {
    if a <= b then a else b
  }

  // ---------------------------------------------------------------- filtering

  /** The articles of one category, in library order. */
  function FilterCategory(lib: seq<Article>, c: string): (r: seq<Article>)
    ensures |r| <= |lib|
    ensures forall a :: a in r <==> a in lib && a.category == c
  {
    if lib == [] then []
    else
      assert forall a :: a in lib <==> a == lib[0] || a in lib[1..];
      (if lib[0].category == c then [lib[0]] else []) + FilterCategory(lib[1..], c)
  }

  /** The list a category shows: the whole library under the pseudo-category. */
  function Filtered(lib: seq<Article>, category: string): (f: seq<Article>)
    ensures category == AllCategories ==> f == lib
  {
    if category == AllCategories then lib else FilterCategory(lib, category)
  }

  predicate DistinctIds(s: seq<Article>)
  {
    forall i, j :: 0 <= i < j < |s| ==> s[i].id != s[j].id
  }

  /** Dropping the first article of a list with distinct ids leaves distinct ids, none of them the first's. */
  lemma DistinctIdsTail(lib: seq<Article>)
    requires lib != [] && DistinctIds(lib)
    ensures DistinctIds(lib[1..])
    ensures forall a :: a in lib[1..] ==> a.id != lib[0].id
  {
    var rest := lib[1..];
    forall i, j | 0 <= i < j < |rest|
      ensures rest[i].id != rest[j].id
    {
      assert rest[i] == lib[i + 1] && rest[j] == lib[j + 1];
    }
    forall a | a in rest
      ensures a.id != lib[0].id
    {
      var k :| 0 <= k < |rest| && rest[k] == a;
      assert rest[k] == lib[k + 1];
    }
  }

  /** An article whose id none of a distinct-id list carries can be put in front of it. */
  lemma DistinctIdsCons(x: Article, tail: seq<Article>)
    requires DistinctIds(tail)
    requires forall a :: a in tail ==> a.id != x.id
    ensures DistinctIds([x] + tail)
  {
    var r := [x] + tail;
    forall i, j | 0 <= i < j < |r|
      ensures r[i].id != r[j].id
    {
      assert r[j] == tail[j - 1];
      if i > 0 {
        assert r[i] == tail[i - 1];
      }
    }
  }

  /** Filtering keeps ids distinct. */
  lemma {:induction false} FilterKeepsDistinctIds(lib: seq<Article>, c: string)
    requires DistinctIds(lib)
    ensures DistinctIds(FilterCategory(lib, c))
  {
    if lib != [] {
      var rest := lib[1..];
      DistinctIdsTail(lib);
      FilterKeepsDistinctIds(rest, c);
      var tail := FilterCategory(rest, c);
      if lib[0].category == c {
        assert FilterCategory(lib, c) == [lib[0]] + tail;
        DistinctIdsCons(lib[0], tail);
      } else {
        assert FilterCategory(lib, c) == tail;
      }
    }
  }

  /** The built-in library has pairwise distinct ids. */
  lemma MockDistinctIds()
    ensures DistinctIds(MockLibrary)
  {
    MockIdsDistinct();
  }

  /**
   * Filtering keeps library order: the filter of a concatenation is the
   * concatenation of the filters.
   */
  lemma {:induction false} FilterConcat(a: seq<Article>, b: seq<Article>, c: string)
    ensures FilterCategory(a + b, c) == FilterCategory(a, c) + FilterCategory(b, c)
  {
    if a != [] {
      assert (a + b)[1..] == a[1..] + b;
      FilterConcat(a[1..], b, c);
    } else {
      assert a + b == b;
    }
  }

  /** A list none of whose articles carries the category filters to nothing. */
  lemma NoMatchEmpty(lib: seq<Article>, c: string)
    requires forall i :: 0 <= i < |lib| ==> lib[i].category != c
    ensures FilterCategory(lib, c) == []
  {
  }

  /** No article's category is shorter than six characters, so a shorter one other than "全部" shows nothing. */
  lemma ShortCategoryEmpty(c: string)
    requires |c| < 6 && c != AllCategories
    ensures Filtered(MockLibrary, c) == []
  {
    var lib := MockLibrary;
    MockCategoriesKnown();
    forall i | 0 <= i < |lib|
      ensures lib[i].category != c
    {
      assert |lib[i].category| >= 6;
    }
    NoMatchEmpty(lib, c);
  }

  /** The last three filter tabs name a category no article carries, and show an empty list. */
  lemma EmptyCategories(c: string)
    requires c in Categories[5..]
    ensures Filtered(MockLibrary, c) == []
  {
    assert Categories[5..] == ["AI", "Mysql", "App"];
    assert c != AllCategories by {
      assert c[0] != AllCategories[0];
    }
    ShortCategoryEmpty(c);
  }

  // ---------------------------------------------------------------- paging

  /** `Array.prototype.slice` with non-negative bounds: out-of-range bounds are clamped. */
  function Slice<T>(s: seq<T>, start: nat, end: nat): (r: seq<T>)
    ensures start < end && start < |s| ==> r == s[start..Min(end, |s|)]
    ensures !(start < end && start < |s|) ==> r == []
  {
    if start < end && start < |s| then s[start..Min(end, |s|)] else []
  }

  /** Which callback the single timer slot holds. */
  datatype Timer = NoTimer | FirstPageTimer | NextPageTimer | RefreshTimer

  /** The screen's state. */
  datatype Feed = Feed(
    category: string,
    displayed: seq<Article>,
    isLoading: bool,
    hasMore: bool,
    refreshing: bool,
    timer: Timer)

  /**
   * The first page arrives (the category timer and the refresh timer run the
   * same code): up to ten articles, or none and no more to come.
   */
  function FirstPageLoaded(lib: seq<Article>, s: Feed): (r: Feed)
    ensures r == s.(displayed := r.displayed, hasMore := r.hasMore)
    ensures var f := Filtered(lib, s.category);
      s.displayed == [] ==>
        r.displayed <= f && |r.displayed| == Min(PageSize, |f|) && (r.hasMore <==> |r.displayed| < |f|)
  {
    var f := Filtered(lib, s.category);
    var first := Slice(f, 0, PageSize);
    if |first| > 0 then s.(displayed := first, hasMore := |f| > PageSize)
    else s.(hasMore := false)
  }

  /**
   * The next page arrives: the up to ten articles after those displayed are
   * appended; when there are none, no more are expected.
   */
  function NextPageLoaded(lib: seq<Article>, s: Feed): (r: Feed)
    ensures r == s.(displayed := r.displayed, hasMore := r.hasMore)
    ensures s.displayed <= r.displayed
    ensures var f := Filtered(lib, s.category);
      s.displayed <= f ==>
        r.displayed <= f && |r.displayed| == Min(|s.displayed| + PageSize, |f|)
        && (r.hasMore <==> |r.displayed| < |f|)
  {
    var f := Filtered(lib, s.category);
    var start := |s.displayed|;
    var end := start + PageSize;
    var page := Slice(f, start, end);
    if |page| > 0 then
      assert s.displayed <= f ==> s.displayed + page == f[..Min(end, |f|)] by {
        if s.displayed <= f {
          assert s.displayed == f[..start];
          assert f[..start] + f[start..Min(end, |f|)] == f[..Min(end, |f|)];
        }
      }
      s.(displayed := s.displayed + page, hasMore := end < |f|)
    else
      assert s.displayed <= f ==> s.displayed == f;
      s.(hasMore := false)
  }

  /**
   * A page requested before the first page arrived replaces that timer, and
   * loads the very page the first-page timer would have loaded.
   */
  lemma EarlyLoadGivesFirstPage(lib: seq<Article>, s: Feed)
    requires s.displayed == []
    ensures NextPageLoaded(lib, s) == FirstPageLoaded(lib, s)
  {
  }

  /** The screen as first mounted: the first-page timer is pending. */
  function Mounted(): Feed
  {
    Feed(AllCategories, [], false, true, false, FirstPageTimer)
  }

  /**
   * The reset a category change performs: the pending timer is replaced by
   * a first-page timer, the list is emptied and more is expected.
   */
  function CategoryReset(s: Feed, c: string): Feed
  {
    s.(category := c, isLoading := false, displayed := [], hasMore := true, timer := FirstPageTimer)
  }

  /**
   * A category chosen as the code does it: `refreshing` is left as it was,
   * even when the cleared timer was the refresh timer that would have reset it.
   */
  function CategorySelectedAsWritten(s: Feed, c: string): (r: Feed)
    ensures c == s.category ==> r == s
    ensures c != s.category ==> r == CategorySelected(s, c).(refreshing := s.refreshing)
    ensures r.refreshing == s.refreshing
  {
    if c == s.category then s else CategoryReset(s, c)
  }

  /**
   * A category chosen, corrected: the refresh whose timer the reset clears
   * is also ended.  Choosing the category already shown changes nothing.
   */
  function CategorySelected(s: Feed, c: string): (r: Feed)
    ensures c == s.category ==> r == s
    ensures c != s.category ==> (r.category == c && r.displayed == [] && r.hasMore && !r.isLoading
      && !r.refreshing && r.timer == FirstPageTimer)
  {
    if c == s.category then s else CategoryReset(s, c).(refreshing := false)
  }

  /** `loadMoreArticles`: ignored while loading or when nothing is left, else the next-page timer. */
  function LoadRequested(s: Feed): (r: Feed)
    ensures r == s <==> s.isLoading || !s.hasMore
    ensures r.displayed == s.displayed && r.hasMore == s.hasMore && r.category == s.category
    ensures r.refreshing == s.refreshing
  {
    if s.isLoading || !s.hasMore then s else s.(isLoading := true, timer := NextPageTimer)
  }

  /** `onRefresh`: ignored while refreshing, else empties the list and schedules the refresh. */
  function Refreshed(s: Feed): (r: Feed)
    ensures r == s <==> s.refreshing
    ensures r.refreshing && r.category == s.category
  {
    if s.refreshing then s
    else s.(refreshing := true, isLoading := false, displayed := [], hasMore := true, timer := RefreshTimer)
  }

  /** The visible bottom edge is within the padding of the content's end. */
  predicate NearBottom(layoutHeight: real, offsetY: real, contentHeight: real)
  {
    layoutHeight + offsetY >= contentHeight - ScrollPadding
  }

  /** `handleScroll`: near the bottom, with more to load and nothing in flight, ask for a page. */
  function Scrolled(s: Feed, layoutHeight: real, offsetY: real, contentHeight: real): (r: Feed)
    ensures r != s <==> NearBottom(layoutHeight, offsetY, contentHeight) && s.hasMore && !s.isLoading && !s.refreshing
    ensures r != s ==> r == s.(isLoading := true, timer := NextPageTimer)
  {
    if NearBottom(layoutHeight, offsetY, contentHeight) && s.hasMore && !s.isLoading && !s.refreshing
    then LoadRequested(s) else s
  }

  /** The pending callback runs; afterwards the slot holds nothing to run. */
  function TimerFired(lib: seq<Article>, s: Feed): (r: Feed)
    ensures r.timer == NoTimer
    ensures r.category == s.category
    ensures r.refreshing == (s.refreshing && s.timer != RefreshTimer)
  {
    match s.timer
    case NoTimer => s
    case FirstPageTimer => FirstPageLoaded(lib, s).(timer := NoTimer)
    case NextPageTimer => NextPageLoaded(lib, s).(isLoading := false, timer := NoTimer)
    case RefreshTimer => FirstPageLoaded(lib, s).(refreshing := false, timer := NoTimer)
  }

  /**
   * The consistency of the screen: the list is a prefix of the category's
   * articles; a page is loading exactly while the next-page timer is pending;
   * a pending first page or refresh finds the list empty; with nothing
   * pending, more is expected exactly when articles are missing; and a
   * refresh is shown exactly while its timer is pending.
   */
  predicate Valid(lib: seq<Article>, s: Feed)
  {
    && s.displayed <= Filtered(lib, s.category)
    && (s.isLoading <==> s.timer == NextPageTimer)
    && (s.timer == FirstPageTimer || s.timer == RefreshTimer ==> s.displayed == [] && s.hasMore)
    && (s.timer == NoTimer ==> (s.hasMore <==> |s.displayed| < |Filtered(lib, s.category)|))
    && (s.refreshing <==> s.timer == RefreshTimer)
  }

  /** Mounting and every event of the corrected screen keep it consistent. */
  lemma EventsPreserveValid(lib: seq<Article>, s: Feed, c: string, layoutHeight: real, offsetY: real, contentHeight: real)
    requires Valid(lib, s)
    ensures Valid(lib, Mounted())
    ensures Valid(lib, CategorySelected(s, c))
    ensures !s.refreshing ==> Valid(lib, LoadRequested(s))
    ensures Valid(lib, Refreshed(s))
    ensures Valid(lib, Scrolled(s, layoutHeight, offsetY, contentHeight))
    ensures Valid(lib, TimerFired(lib, s))
  {
    assert [] <= Filtered(lib, c);
    assert [] <= Filtered(lib, s.category);
  }

  /**
   * The consistency the screen keeps as the code is written: that of `Valid`,
   * except that a refresh may outlive its timer, since a category change
   * clears the refresh timer and leaves `refreshing` set.
   */
  predicate ValidAsWritten(lib: seq<Article>, s: Feed)
  {
    && s.displayed <= Filtered(lib, s.category)
    && (s.isLoading <==> s.timer == NextPageTimer)
    && (s.timer == FirstPageTimer || s.timer == RefreshTimer ==> s.displayed == [] && s.hasMore)
    && (s.timer == NoTimer ==> (s.hasMore <==> |s.displayed| < |Filtered(lib, s.category)|))
    && (s.timer == RefreshTimer ==> s.refreshing)
  }

  /** Mounting and every event of the screen as written keep its weaker consistency. */
  lemma EventsPreserveValidAsWritten(lib: seq<Article>, s: Feed, c: string, layoutHeight: real, offsetY: real, contentHeight: real)
    requires ValidAsWritten(lib, s)
    ensures ValidAsWritten(lib, Mounted())
    ensures ValidAsWritten(lib, CategorySelectedAsWritten(s, c))
    ensures ValidAsWritten(lib, CategorySelected(s, c))
    ensures ValidAsWritten(lib, LoadRequested(s))
    ensures ValidAsWritten(lib, Refreshed(s))
    ensures ValidAsWritten(lib, Scrolled(s, layoutHeight, offsetY, contentHeight))
    ensures ValidAsWritten(lib, TimerFired(lib, s))
  {
    assert [] <= Filtered(lib, c);
    assert [] <= Filtered(lib, s.category);
  }

  /** The corrected consistency is the stronger one. */
  lemma ValidIsValidAsWritten(lib: seq<Article>, s: Feed)
    requires Valid(lib, s)
    ensures ValidAsWritten(lib, s)
  {
  }

  /** A near-bottom scroll followed by its timer appends the next page. */
  lemma ScrollLoadsNextPage(lib: seq<Article>, s: Feed, layoutHeight: real, offsetY: real, contentHeight: real)
    requires Valid(lib, s) && s.timer == NoTimer && s.hasMore && !s.refreshing
    requires NearBottom(layoutHeight, offsetY, contentHeight)
    ensures var t := TimerFired(lib, Scrolled(s, layoutHeight, offsetY, contentHeight));
      var f := Filtered(lib, s.category);
      && Valid(lib, t) && t.timer == NoTimer && !t.isLoading
      && s.displayed < t.displayed && t.displayed <= f
      && |t.displayed| == Min(|s.displayed| + PageSize, |f|)
  {
    EventsPreserveValid(lib, s, s.category, layoutHeight, offsetY, contentHeight);
    EventsPreserveValid(lib, LoadRequested(s), s.category, layoutHeight, offsetY, contentHeight);
  }

  /** `k` rounds of asking for a page and letting its timer run. */
  function Rounds(lib: seq<Article>, s: Feed, k: nat): Feed
    decreases k
  {
    if k == 0 then s else Rounds(lib, TimerFired(lib, LoadRequested(s)), k - 1)
  }

  /** One round from a settled state appends the next page and settles again. */
  lemma RoundStep(lib: seq<Article>, s: Feed)
    requires Valid(lib, s) && s.timer == NoTimer && !s.refreshing
    ensures var t := TimerFired(lib, LoadRequested(s));
      && Valid(lib, t) && t.timer == NoTimer && !t.refreshing && t.category == s.category
      && s.displayed <= t.displayed
      && |t.displayed| == Min(|s.displayed| + PageSize, |Filtered(lib, s.category)|)
  {
    EventsPreserveValid(lib, s, s.category, 0.0, 0.0, 0.0);
    EventsPreserveValid(lib, LoadRequested(s), s.category, 0.0, 0.0, 0.0);
  }

  lemma MinShift(d: int, n: int, k: nat)
    requires k > 0
    ensures Min(Min(d + PageSize, n) + (k - 1) * PageSize, n) == Min(d + k * PageSize, n)
  {
  }

  /** After `k` rounds the first `10 k` articles (or all of them) are listed. */
  lemma {:induction false} RoundsLoad(lib: seq<Article>, s: Feed, k: nat)
    requires Valid(lib, s) && s.timer == NoTimer && !s.refreshing
    ensures var t := Rounds(lib, s, k);
      && Valid(lib, t) && t.timer == NoTimer && !t.refreshing && t.category == s.category
      && s.displayed <= t.displayed
      && |t.displayed| == Min(|s.displayed| + k * PageSize, |Filtered(lib, s.category)|)
    decreases k
  {
    if k > 0 {
      var s1 := TimerFired(lib, LoadRequested(s));
      RoundStep(lib, s);
      RoundsLoad(lib, s1, k - 1);
      assert Rounds(lib, s, k) == Rounds(lib, s1, k - 1);
      MinShift(|s.displayed|, |Filtered(lib, s.category)|, k);
    }
  }

  /**
   * Scrolling reaches the end of every category: once as many rounds as
   * there are articles have run, the whole category is listed and no more
   * is expected.
   */
  lemma EveryArticleReachable(lib: seq<Article>, s: Feed)
    requires Valid(lib, s) && s.timer == NoTimer && !s.refreshing
    ensures var t := Rounds(lib, s, |Filtered(lib, s.category)|);
      t.displayed == Filtered(lib, s.category) && !t.hasMore
  {
    RoundsLoad(lib, s, |Filtered(lib, s.category)|);
  }

  /**
   * The whole library pages as ten articles, more expected, then all
   * fourteen and the end of the list.
   */
  lemma LibraryPages()
    ensures var s := TimerFired(MockLibrary, Mounted());
      && s.displayed == MockLibrary[..10] && s.hasMore
      && var t := TimerFired(MockLibrary, LoadRequested(s));
      t.displayed == MockLibrary && !t.hasMore && !t.isLoading
  {
    MockIds();
    var s := TimerFired(MockLibrary, Mounted());
    assert s.displayed == MockLibrary[..10];
    assert MockLibrary[..10] + MockLibrary[10..14] == MockLibrary;
  }

  // ---------------------------------------------------------------- the refresh left hanging

  /** A refresh shown with no timer left to end it. */
  predicate Stuck(s: Feed)
  {
    s.refreshing && s.timer != RefreshTimer
  }

  /** The code as written reaches that state: refresh, then change category before it lands. */
  lemma StuckReachable()
    ensures var s := CategorySelectedAsWritten(Refreshed(TimerFired(MockLibrary, Mounted())), "Frontend");
      Stuck(s) && Stuck(TimerFired(MockLibrary, s))
  {
  }

  /**
   * Once stuck, it stays stuck: refreshing and scrolling are ignored for
   * good, and no timer or category change ends the refresh.
   */
  lemma StuckForever(lib: seq<Article>, s: Feed, c: string, layoutHeight: real, offsetY: real, contentHeight: real)
    requires Stuck(s)
    ensures Refreshed(s) == s
    ensures Scrolled(s, layoutHeight, offsetY, contentHeight) == s
    ensures Stuck(TimerFired(lib, s))
    ensures Stuck(CategorySelectedAsWritten(s, c))
  {
  }

  /** The corrected screen is never stuck. */
  lemma ValidNeverStuck(lib: seq<Article>, s: Feed)
    requires Valid(lib, s)
    ensures !Stuck(s)
  {
  }

  // ---------------------------------------------------------------- the cards

  /** What a card is told: the article, whether it is the one loaded, and whether it plays. */
  datatype CardState = CardState(article: Article, isCurrent: bool, isPlaying: bool)

  function CardStates(displayed: seq<Article>, current: Option<Article>, isPlaying: bool): (cards: seq<CardState>)
    ensures |cards| == |displayed|
    ensures forall i :: 0 <= i < |cards| ==>
      && cards[i].article == displayed[i]
      && (cards[i].isCurrent <==> current.Some? && current.value.id == displayed[i].id)
      && (cards[i].isPlaying <==> cards[i].isCurrent && isPlaying)
  {
    if displayed == [] then []
    else
      var isCurrent := current.Some? && current.value.id == displayed[0].id;
      [CardState(displayed[0], isCurrent, isCurrent && isPlaying)] + CardStates(displayed[1..], current, isPlaying)
  }

  /** In a consistent screen at most one card is marked current, hence at most one playing. */
  lemma AtMostOneCurrent(lib: seq<Article>, s: Feed, current: Option<Article>, isPlaying: bool)
    requires Valid(lib, s) && DistinctIds(lib)
    ensures var cards := CardStates(s.displayed, current, isPlaying);
      forall i, j :: 0 <= i < j < |cards| ==> !(cards[i].isCurrent && cards[j].isCurrent)
  {
    var f := Filtered(lib, s.category);
    FilterKeepsDistinctIds(lib, s.category);
    assert s.displayed == f[..|s.displayed|];
  }

  // ---------------------------------------------------------------- the screen

  class Library {
    /** The list the screen filters: the built-in library. */
    const library: seq<Article>
    var selectedCategory: string
    var displayedArticles: seq<Article>
    var isLoading: bool
    var hasMore: bool
    var refreshing: bool
    var timeout: Timer

    function State(): Feed
      reads this
    {
      Feed(selectedCategory, displayedArticles, isLoading, hasMore, refreshing, timeout)
    }

    ghost predicate Inv()
      reads this
    {
      Valid(library, State())
    }

    /** The weaker consistency the screen keeps as the code is written. */
    ghost predicate InvAsWritten()
      reads this
    {
      ValidAsWritten(library, State())
    }

    /** Mounting: the whole library is selected and its first page is scheduled. */
    constructor ()
      ensures library == MockLibrary && State() == Mounted() && Inv() && InvAsWritten()
    {
      library := MockLibrary;
      selectedCategory := AllCategories;
      displayedArticles := [];
      isLoading, hasMore, refreshing := false, true, false;
      timeout := FirstPageTimer;
    }

    /** A category tapped in the filter bar (with the refresh flag reset). */
    method SelectCategory(c: string)
      requires InvAsWritten()
      modifies this
      ensures State() == CategorySelected(old(State()), c) && InvAsWritten()
      ensures old(Inv()) ==> Inv()
    {
      EventsPreserveValidAsWritten(library, State(), c, 0.0, 0.0, 0.0);
      if Inv() {
        EventsPreserveValid(library, State(), c, 0.0, 0.0, 0.0);
      }
      if c == selectedCategory {
        return;
      }
      selectedCategory := c;
      timeout := NoTimer;
      isLoading := false;
      displayedArticles := [];
      hasMore := true;
      refreshing := false;
      timeout := FirstPageTimer;
    }

    /** A category tapped in the filter bar, as the code does it. */
    method SelectCategoryAsWritten(c: string)
      requires InvAsWritten()
      modifies this
      ensures State() == CategorySelectedAsWritten(old(State()), c) && InvAsWritten()
    {
      EventsPreserveValidAsWritten(library, State(), c, 0.0, 0.0, 0.0);
      if c == selectedCategory {
        return;
      }
      selectedCategory := c;
      timeout := NoTimer;
      isLoading := false;
      displayedArticles := [];
      hasMore := true;
      timeout := FirstPageTimer;
    }

    /**
     * `loadMoreArticles`.  It has no refresh guard of its own; its one caller,
     * the scroll handler, only calls it while not refreshing, and then it
     * keeps the corrected consistency too.
     */
    method LoadMore()
      requires InvAsWritten()
      modifies this
      ensures State() == LoadRequested(old(State())) && InvAsWritten()
      ensures old(Inv()) && !old(refreshing) ==> Inv()
    {
      EventsPreserveValidAsWritten(library, State(), selectedCategory, 0.0, 0.0, 0.0);
      if Inv() {
        EventsPreserveValid(library, State(), selectedCategory, 0.0, 0.0, 0.0);
      }
      if isLoading || !hasMore {
        return;
      }
      isLoading := true;
      timeout := NextPageTimer;
    }

    method Refresh()
      requires InvAsWritten()
      modifies this
      ensures State() == Refreshed(old(State())) && InvAsWritten()
      ensures old(Inv()) ==> Inv()
    {
      EventsPreserveValidAsWritten(library, State(), selectedCategory, 0.0, 0.0, 0.0);
      if Inv() {
        EventsPreserveValid(library, State(), selectedCategory, 0.0, 0.0, 0.0);
      }
      if refreshing {
        return;
      }
      refreshing := true;
      timeout := NoTimer;
      isLoading := false;
      displayedArticles := [];
      hasMore := true;
      timeout := RefreshTimer;
    }

    method Scroll(layoutHeight: real, offsetY: real, contentHeight: real)
      requires InvAsWritten()
      modifies this
      ensures State() == Scrolled(old(State()), layoutHeight, offsetY, contentHeight) && InvAsWritten()
      ensures old(Inv()) ==> Inv()
    {
      EventsPreserveValidAsWritten(library, State(), selectedCategory, layoutHeight, offsetY, contentHeight);
      if Inv() {
        EventsPreserveValid(library, State(), selectedCategory, layoutHeight, offsetY, contentHeight);
      }
      var isCloseToBottom := layoutHeight + offsetY >= contentHeight - ScrollPadding;
      if isCloseToBottom && hasMore && !isLoading && !refreshing {
        LoadMore();
      }
    }

    /** The pending timer's callback runs. */
    method FireTimer()
      requires InvAsWritten()
      modifies this
      ensures State() == TimerFired(library, old(State())) && InvAsWritten()
      ensures old(Inv()) ==> Inv()
    {
      EventsPreserveValidAsWritten(library, State(), selectedCategory, 0.0, 0.0, 0.0);
      if Inv() {
        EventsPreserveValid(library, State(), selectedCategory, 0.0, 0.0, 0.0);
      }
      var filtered := Filtered(library, selectedCategory);
      if timeout == NextPageTimer {
        var startIndex := |displayedArticles|;
        var endIndex := startIndex + PageSize;
        var newArticles := Slice(filtered, startIndex, endIndex);
        if |newArticles| > 0 {
          hasMore := endIndex < |filtered|;
          displayedArticles := displayedArticles + newArticles;
        } else {
          hasMore := false;
        }
        isLoading := false;
      } else if timeout != NoTimer {
        var firstPage := Slice(filtered, 0, PageSize);
        if |firstPage| > 0 {
          displayedArticles := firstPage;
          hasMore := |filtered| > PageSize;
        } else {
          hasMore := false;
        }
        if timeout == RefreshTimer {
          refreshing := false;
        }
      }
      timeout := NoTimer;
    }
  }

  /**
   * The stuck refresh replayed on the screen object: a pull to refresh, then
   * another category before the refresh timer fires.  The new category's
   * first page still arrives, but the refresh flag stays set, and a later
   * pull or a scroll to the very bottom does nothing.
   */
  method ReplayStuck(l: Library, c: string)
    requires l.InvAsWritten() && !l.refreshing && c != l.selectedCategory
    modifies l
    ensures Stuck(l.State()) && l.InvAsWritten() && !l.Inv()
    ensures l.selectedCategory == c && l.timeout == NoTimer && l.displayedArticles == FirstPageLoaded(l.library, CategoryReset(old(l.State()), c)).displayed
  {
    l.Refresh();
    l.SelectCategoryAsWritten(c);
    l.FireTimer();
    var stuck := l.State();
    l.Refresh();
    StuckForever(l.library, stuck, c, 0.0, 0.0, 0.0);
    l.Scroll(0.0, 0.0, 0.0);
  }
}
