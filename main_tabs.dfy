/**
 * The tab host (src/navigation/MainTabs.tsx).  A tab's screen is created the
 * first time the tab is opened and stays mounted afterwards; only the active
 * one is displayed.  The tab host also holds the chosen article, which it
 * hands to the library and player screens, and a playing flag of its own,
 * which only the library screen reads (to mark the current card); the player
 * screen keeps its own playing flag, which selecting an article leaves alone.
 */
module MainTabs {
  import opened Wrappers
  import opened MockData

  datatype Tab = LibraryTab | PlayerTab | ProfileTab

  predicate NoDuplicates<T(==)>(s: seq<T>)
  {
    forall i, j :: 0 <= i < j < |s| ==> s[i] != s[j]
  }

  /** The display flag of each mounted page, in mount order. */
  function Visibility(mounted: seq<Tab>, active: Tab): (v: seq<bool>)
    ensures |v| == |mounted|
    ensures forall i :: 0 <= i < |v| ==> (v[i] <==> mounted[i] == active)
  {
    if mounted == [] then [] else [mounted[0] == active] + Visibility(mounted[1..], active)
  }

  /** How many flags are set. */
  function Shown(v: seq<bool>): nat
  {
    if v == [] then 0 else (if v[0] then 1 else 0) + Shown(v[1..])
  }

  /** No page is displayed when the active tab is not mounted. */
  lemma {:induction false} NoneShown(mounted: seq<Tab>, active: Tab)
    requires active !in mounted
    ensures Shown(Visibility(mounted, active)) == 0
  {
    if mounted != [] {
      NoneShown(mounted[1..], active);
    }
  }

  /**
   * With no tab mounted twice and the active tab mounted, exactly one page is
   * displayed.
   */
  lemma {:induction false} ExactlyOneShown(mounted: seq<Tab>, active: Tab)
    requires NoDuplicates(mounted) && active in mounted
    ensures Shown(Visibility(mounted, active)) == 1
  {
    if mounted[0] == active {
      assert active !in mounted[1..] by {
        forall j | 0 <= j < |mounted[1..]|
          ensures mounted[1..][j] != active
        {
          assert mounted[1..][j] == mounted[j + 1];
        }
      }
      NoneShown(mounted[1..], active);
    } else {
      assert active in mounted[1..] by {
        var k :| 0 <= k < |mounted| && mounted[k] == active;
        assert mounted[1..][k - 1] == active;
      }
      ExactlyOneShown(mounted[1..], active);
    }
  }

  /** A duplicate-free list of tabs has at most three entries, one per kind of tab. */
  lemma AtMostThreeMounted(mounted: seq<Tab>)
    requires NoDuplicates(mounted)
    ensures |mounted| <= 3
  {
    assert |mounted| > 3 ==>
      mounted[0] != mounted[1] && mounted[0] != mounted[2] && mounted[0] != mounted[3]
      && mounted[1] != mounted[2] && mounted[1] != mounted[3] && mounted[2] != mounted[3];
  }

  /** The state of the tab host. */
  class Tabs {
    var activeTab: Tab
    var mountedTabs: seq<Tab>
    var currentArticle: Option<Article>
    var isPlaying: bool

    /** The player page is mounted first, no page twice, and the active page is mounted. */
    ghost predicate Valid()
      reads this
    {
      |mountedTabs| > 0 && mountedTabs[0] == PlayerTab
      && NoDuplicates(mountedTabs) && activeTab in mountedTabs
    }

    /** The display flags of the mounted pages. */
    function Displayed(): (v: seq<bool>)
      reads this
      ensures |v| == |mountedTabs|
    {
      Visibility(mountedTabs, activeTab)
    }

    constructor ()
      ensures Valid()
      ensures activeTab == PlayerTab && mountedTabs == [PlayerTab]
      ensures currentArticle == None && !isPlaying
    {
      activeTab := PlayerTab;
      mountedTabs := [PlayerTab];
      currentArticle := None;
      isPlaying := false;
    }

    /**
     * Switching tabs makes the tab active and mounts it at the end of the
     * list when it is not yet mounted; earlier pages keep their place.
     */
    method HandleTabChange(next: Tab)
      requires Valid()
      modifies this
      ensures Valid()
      ensures activeTab == next
      ensures mountedTabs == if next in old(mountedTabs) then old(mountedTabs) else old(mountedTabs) + [next]
      ensures currentArticle == old(currentArticle) && isPlaying == old(isPlaying)
    {
      activeTab := next;
      if next !in mountedTabs {
        mountedTabs := mountedTabs + [next];
      }
    }

    /**
     * Choosing an article in the library: it becomes current, the tab host's
     * playing flag is set, and the player is shown.
     */
    method HandleArticleSelect(a: Article)
      requires Valid()
      modifies this
      ensures Valid()
      ensures currentArticle == Some(a) && isPlaying
      ensures activeTab == PlayerTab && mountedTabs == old(mountedTabs)
    {
      currentArticle := Some(a);
      isPlaying := true;
      HandleTabChange(PlayerTab);
    }
  }

  /** In any reachable tab state exactly one page is displayed and at most three exist. */
  lemma OnePageShown(t: Tabs)
    requires t.Valid()
    ensures Shown(t.Displayed()) == 1
    ensures |t.mountedTabs| <= 3
  {
    ExactlyOneShown(t.mountedTabs, t.activeTab);
    AtMostThreeMounted(t.mountedTabs);
  }
}
