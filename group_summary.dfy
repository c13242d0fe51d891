// The "View Groups" popup (src/features/GroupSummaryPopup.cpp): the cache of
// groups 1..9999, filtering and search, pagination, and the page controls.
module GroupSummary {
  import opened Wrappers
  import Editor
  import Cocos
  import ObjectIds

  const ITEMS_PER_ROW: nat := 5
  const ITEMS_PER_COLUMN: nat := 4
  const ITEMS_PER_LIST: nat := 8

  datatype Filter = All | Used | Unused | NoTriggers | NoTargets
  datatype View = List | Grid

  /**
   * `ObjectsInGroupID`: a group, its objects (absent when the group dictionary
   * has none) and the triggers acting on it, one occurrence per slot that
   * names the group.
   */
  datatype GroupEntry = GroupEntry(groupId: int, targets: Option<seq<int>>, triggers: multiset<Editor.EffectTrigger>)

  predicate HasTargets(e: GroupEntry)
  {
    e.targets.Some? && |e.targets.value| > 0
  }

  predicate HasTriggers(e: GroupEntry)
  {
    |e.triggers| > 0
  }

  /** The filter switch of `updatePages`. */
  predicate FilterMatches(filter: Filter, hasTargets: bool, hasTriggers: bool)
  {
    match filter
    case All => true
    case Used => hasTargets && hasTriggers
    case Unused => !hasTargets && !hasTriggers
    case NoTargets => !hasTargets && hasTriggers
    case NoTriggers => hasTargets && !hasTriggers
  }

  /** Every group passes exactly one of the four non-`All` filters, and `All` passes every group. */
  lemma FiltersPartition(hasTargets: bool, hasTriggers: bool)
    ensures FilterMatches(All, hasTargets, hasTriggers)
    ensures (if FilterMatches(Used, hasTargets, hasTriggers) then 1 else 0)
          + (if FilterMatches(Unused, hasTargets, hasTriggers) then 1 else 0)
          + (if FilterMatches(NoTargets, hasTargets, hasTriggers) then 1 else 0)
          + (if FilterMatches(NoTriggers, hasTargets, hasTriggers) then 1 else 0) == 1
  {
  }

  predicate IsPrefix(p: string, s: string)
  {
    |p| <= |s| && s[..|p|] == p
  }

  /** An empty query keeps every group; otherwise the group's decimal id must start with it. */
  predicate SearchMatches(search: string, groupId: int)
  {
    search == "" || IsPrefix(search, IntToString(groupId))
  }

  predicate Matches(filter: Filter, search: string, e: GroupEntry)
  {
    FilterMatches(filter, HasTargets(e), HasTriggers(e)) && SearchMatches(search, e.groupId)
  }

  /** The groups of `cache` that pass the filter and the search, in cache order. */
  function MatchingGroups(cache: seq<GroupEntry>, filter: Filter, search: string): (r: seq<GroupEntry>)
    ensures |r| <= |cache|
  {
    if cache == [] then []
    else
      var last := cache[|cache| - 1];
      MatchingGroups(cache[..|cache| - 1], filter, search) + (if Matches(filter, search, last) then [last] else [])
  }

  /** Every listed group is a group of the cache that passes the filter and the search. */
  lemma {:induction false} MatchingGroupsSound(cache: seq<GroupEntry>, filter: Filter, search: string)
    ensures forall e :: e in MatchingGroups(cache, filter, search) ==> e in cache && Matches(filter, search, e)
  {
    if cache != [] {
      var init := cache[..|cache| - 1];
      MatchingGroupsSound(init, filter, search);
      assert forall e :: e in init ==> e in cache;
    }
  }

  /** Every matching group of the cache is listed. */
  lemma {:induction false} MatchingGroupsComplete(cache: seq<GroupEntry>, filter: Filter, search: string, e: GroupEntry)
    requires e in cache && Matches(filter, search, e)
    ensures e in MatchingGroups(cache, filter, search)
  {
    var init := cache[..|cache| - 1];
    if e != cache[|cache| - 1] {
      assert e in init;
      MatchingGroupsComplete(init, filter, search, e);
    }
  }

  lemma MatchingGroupsStep(cache: seq<GroupEntry>, i: nat, filter: Filter, search: string)
    requires i < |cache|
    ensures MatchingGroups(cache[..i + 1], filter, search)
      == MatchingGroups(cache[..i], filter, search) + (if Matches(filter, search, cache[i]) then [cache[i]] else [])
  {
    assert cache[..i + 1][..i] == cache[..i];
  }

  predicate AscendingIds(s: seq<GroupEntry>)
  {
    forall i, j :: 0 <= i < j < |s| ==> s[i].groupId < s[j].groupId
  }

  /** Appending a group whose id exceeds every id so far keeps the order ascending. */
  lemma AscendingAppend(m: seq<GroupEntry>, x: GroupEntry)
    requires AscendingIds(m)
    requires forall k :: 0 <= k < |m| ==> m[k].groupId < x.groupId
    ensures AscendingIds(m + [x])
  {
    var r := m + [x];
    forall i, j | 0 <= i < j < |r|
      ensures r[i].groupId < r[j].groupId
    {
      assert r[i] == m[i];
      if j < |m| {
        assert r[j] == m[j];
      }
    }
  }

  /** Filtering keeps the cache's ascending id order. */
  lemma {:induction false} MatchingGroupsAscending(cache: seq<GroupEntry>, filter: Filter, search: string)
    requires AscendingIds(cache)
    ensures AscendingIds(MatchingGroups(cache, filter, search))
    ensures forall k :: 0 <= k < |MatchingGroups(cache, filter, search)| ==>
      exists i :: 0 <= i < |cache| && cache[i] == MatchingGroups(cache, filter, search)[k]
  {
    if cache != [] {
      var init := cache[..|cache| - 1];
      var last := cache[|cache| - 1];
      assert AscendingIds(init) by {
        forall i, j | 0 <= i < j < |init|
          ensures init[i].groupId < init[j].groupId
        {
          assert init[i] == cache[i] && init[j] == cache[j];
        }
      }
      MatchingGroupsAscending(init, filter, search);
      var m := MatchingGroups(init, filter, search);
      var r := MatchingGroups(cache, filter, search);
      if Matches(filter, search, last) {
        assert r == m + [last];
        forall k | 0 <= k < |m|
          ensures m[k].groupId < last.groupId
        {
          var i :| 0 <= i < |init| && init[i] == m[k];
          assert cache[i] == m[k];
        }
        AscendingAppend(m, last);
      } else {
        assert r == m;
      }
      forall k | 0 <= k < |r|
        ensures exists i :: 0 <= i < |cache| && cache[i] == r[k]
      {
        if k < |m| {
          var i :| 0 <= i < |init| && init[i] == m[k];
          assert cache[i] == r[k];
        } else {
          assert cache[|cache| - 1] == r[k];
        }
      }
    }
  }

  /** Pages per view: a 5 x 4 grid or a list of 8. */
  function GroupsPerPage(view: View): (n: nat)
    ensures n >= 1
    ensures view == View.Grid ==> n == 20
    ensures view == View.List ==> n == 8
  {
    if view == Grid then ITEMS_PER_ROW * ITEMS_PER_COLUMN else ITEMS_PER_LIST
  }

  /** One step of the paging loop: open a new page if there is none or the last is full, then append. */
  function AddToPages<T>(pages: seq<seq<T>>, x: T, perPage: nat): seq<seq<T>>
  {
    if pages == [] || |pages[|pages| - 1]| >= perPage then pages + [[x]]
    else pages[..|pages| - 1] + [pages[|pages| - 1] + [x]]
  }

  /** The pages the paging loop builds from `items`. */
  function PagesOf<T>(items: seq<T>, perPage: nat): seq<seq<T>>
  {
    if items == [] then [] else AddToPages(PagesOf(items[..|items| - 1], perPage), items[|items| - 1], perPage)
  }

  lemma PagesOfSnoc<T>(items: seq<T>, x: T, perPage: nat)
    ensures PagesOf(items + [x], perPage) == AddToPages(PagesOf(items, perPage), x, perPage)
  {
    assert (items + [x])[..|items|] == items;
  }

  /** The pages' contents laid end to end. */
  function Flatten<T>(pages: seq<seq<T>>): seq<T>
  {
    if pages == [] then [] else Flatten(pages[..|pages| - 1]) + pages[|pages| - 1]
  }

  lemma FlattenAppend<T>(pages: seq<seq<T>>, p: seq<T>)
    ensures Flatten(pages + [p]) == Flatten(pages) + p
  {
    assert (pages + [p])[..|pages|] == pages;
  }

  /** Pages hold the items in order; none is empty, none holds more than `perPage`, and all but the last are full. */
  predicate WellPaged<T>(pages: seq<seq<T>>, perPage: nat)
  {
    (forall k :: 0 <= k < |pages| ==> 1 <= |pages[k]| <= perPage)
    && (forall k :: 0 <= k < |pages| - 1 ==> |pages[k]| == perPage)
  }

  /** The paging loop's result lays out the items in order, one full page after another. */
  lemma PagesOfShape<T>(items: seq<T>, perPage: nat)
    requires perPage >= 1
    ensures Flatten(PagesOf(items, perPage)) == items
    ensures WellPaged(PagesOf(items, perPage), perPage)
  {
    PagesOfFlatten(items, perPage);
    PagesOfWellPaged(items, perPage);
  }

  lemma {:induction false} PagesOfFlatten<T>(items: seq<T>, perPage: nat)
    ensures Flatten(PagesOf(items, perPage)) == items
  {
    if items != [] {
      var init := items[..|items| - 1];
      var x := items[|items| - 1];
      PagesOfFlatten(init, perPage);
      AddToPagesFlatten(PagesOf(init, perPage), x, perPage);
      assert items == init + [x];
    }
  }

  lemma AddToPagesFlatten<T>(ps: seq<seq<T>>, x: T, perPage: nat)
    ensures Flatten(AddToPages(ps, x, perPage)) == Flatten(ps) + [x]
  {
    if ps == [] || |ps[|ps| - 1]| >= perPage {
      FlattenAppend(ps, [x]);
    } else {
      var front := ps[..|ps| - 1];
      var lastPage := ps[|ps| - 1];
      assert ps == front + [lastPage];
      FlattenAppend(front, lastPage);
      FlattenAppend(front, lastPage + [x]);
    }
  }

  lemma {:induction false} PagesOfWellPaged<T>(items: seq<T>, perPage: nat)
    requires perPage >= 1
    ensures WellPaged(PagesOf(items, perPage), perPage)
  {
    if items != [] {
      var init := items[..|items| - 1];
      PagesOfWellPaged(init, perPage);
      AddToPagesWellPaged(PagesOf(init, perPage), items[|items| - 1], perPage);
    }
  }

  lemma AddToPagesWellPaged<T>(ps: seq<seq<T>>, x: T, perPage: nat)
    requires perPage >= 1 && WellPaged(ps, perPage)
    ensures WellPaged(AddToPages(ps, x, perPage), perPage)
  {
  }

  /** Well-paged items number the full pages' worth plus the last page's: at most `perPage` per page, and more than fit on one page fewer. */
  lemma {:induction false} PageCount<T>(ps: seq<seq<T>>, perPage: nat)
    requires ps != [] && WellPaged(ps, perPage)
    ensures |Flatten(ps)| == (|ps| - 1) * perPage + |ps[|ps| - 1]|
    ensures (|ps| - 1) * perPage < |Flatten(ps)| <= |ps| * perPage
  {
    var front := ps[..|ps| - 1];
    if |front| > 0 {
      assert WellPaged(front, perPage);
      PageCount(front, perPage);
      assert |front[|front| - 1]| == perPage;
      MulSucc(|front| - 1, perPage);
    }
    MulSucc(|ps| - 1, perPage);
  }

  lemma MulSucc(a: nat, n: nat)
    ensures (a + 1) * n == a * n + n
  {
  }

  /** The page label as written: "Page {page + 1}/{number of pages + 1}". */
  function PageLabel(page: nat, pageCount: nat): string
  {
    "Page " + NatToString(page + 1) + "/" + NatToString(pageCount + 1)
  }

  /** The page label as evidently intended: the denominator is the last reachable page plus one. */
  function PageLabelIntended(page: nat, pageCount: nat): string
  {
    "Page " + NatToString(page + 1) + "/" + NatToString(LastPossiblePage(pageCount) + 1)
  }

  /** The match-count label: "(showing {n} groups)". */
  function MatchesLabel(n: nat): string
  {
    "(showing " + NatToString(n) + " groups)"
  }

  /** `lastPossiblePage`: the index of the last page, 0 when there are none. */
  function LastPossiblePage(pageCount: nat): (last: nat)
    ensures pageCount == 0 ==> last == 0
    ensures pageCount > 0 ==> last < pageCount && last + 1 == pageCount
  {
    if pageCount == 0 then 0 else pageCount - 1
  }

  /** `loadPage`'s clamp: the requested page, cut down to the last possible page. */
  function ClampPage(page: nat, pageCount: nat): (r: nat)
    ensures r <= page && r <= LastPossiblePage(pageCount)
    ensures r == page || r == LastPossiblePage(pageCount)
    ensures pageCount > 0 ==> r < pageCount
  {
    if page < LastPossiblePage(pageCount) then page else LastPossiblePage(pageCount)
  }

  /**
   * With one page of results the label as written claims a second page that
   * the disabled next button cannot reach; the intended label reads "Page 1/1".
   */
  lemma PageLabelOverCounts()
    ensures PageLabel(ClampPage(0, 1), 1) == "Page 1/2"
    ensures !(ClampPage(0, 1) < LastPossiblePage(1))
    ensures PageLabelIntended(ClampPage(0, 1), 1) == "Page 1/1"
  {
    assert NatToString(1) == "1";
    assert NatToString(2) == "2";
  }

  /** In the intended label the shown page never exceeds the page total, and the total is the number of pages (at least 1). */
  lemma PageLabelIntendedBounds(page: nat, pageCount: nat)
    ensures ClampPage(page, pageCount) + 1 <= LastPossiblePage(pageCount) + 1
    ensures pageCount > 0 ==> LastPossiblePage(pageCount) + 1 == pageCount
    ensures PageLabelIntended(ClampPage(page, pageCount), pageCount)
      == "Page " + NatToString(ClampPage(page, pageCount) + 1) + "/" + NatToString(if pageCount == 0 then 1 else pageCount)
  {
  }

  /** `createSpriteForTrigger`'s label: "T" for the target group, "C" for the center group, "T+C" for both. */
  function TriggerLabel(trigger: Editor.EffectTrigger, group: int): (text: string)
    ensures text == "" <==> trigger.targetGroupId != group && trigger.centerGroupId != group
    ensures text == "T+C" <==> trigger.targetGroupId == group && trigger.centerGroupId == group
    ensures text == "T" <==> trigger.targetGroupId == group && trigger.centerGroupId != group
    ensures text == "C" <==> trigger.targetGroupId != group && trigger.centerGroupId == group
  {
    var text := if trigger.targetGroupId == group then "T" else "";
    if trigger.centerGroupId == group then (if |text| > 0 then "T+C" else "C") else text
  }

  /**
   * The badge on a trigger's sprite: only a toggle trigger has one, coloured
   * green when it activates its group and red when it deactivates it.
   */
  function ToggleBadge(objectId: int, activateGroup: bool): (badge: Option<Cocos.Color3B>)
    ensures badge.Some? <==> objectId == ObjectIds.TOGGLE_TRIGGER
    ensures badge.Some? ==> Cocos.ValidColor(badge.value)
    ensures badge.Some? ==> (badge.value.g > badge.value.r <==> activateGroup)
  {
    if objectId != ObjectIds.TOGGLE_TRIGGER then None
    else if activateGroup then Some(Cocos.Color3B(0, 255, 127))
    else Some(Cocos.Color3B(255, 63, 63))
  }

  // ---------------------------------------------------------------------
  // The cache of groups 1..9999

  function Lookup(m: map<int, multiset<Editor.EffectTrigger>>, g: int): multiset<Editor.EffectTrigger>
  {
    if g in m then m[g] else multiset{}
  }

  /** Occurrences of `g` in `groups`. */
  function CountOf(groups: seq<int>, g: int): nat
  {
    if groups == [] then 0 else CountOf(groups[..|groups| - 1], g) + (if groups[|groups| - 1] == g then 1 else 0)
  }

  /** The triggers the multimap files under `g`: each trigger once per slot of it that names `g`. */
  function TriggersTargeting(triggers: seq<Editor.EffectTrigger>, g: int): multiset<Editor.EffectTrigger>
  {
    if triggers == [] then multiset{}
    else
      var t := triggers[|triggers| - 1];
      TriggersTargeting(triggers[..|triggers| - 1], g) + Copies(t, CountOf(Editor.TargetedGroups(t), g))
  }

  /** `n` occurrences of `t`. */
  function Copies(t: Editor.EffectTrigger, n: nat): (m: multiset<Editor.EffectTrigger>)
    ensures m[t] == n && |m| == n
  {
    if n == 0 then multiset{} else Copies(t, n - 1) + multiset{t}
  }

  /** The cache entry of group `g`. */
  function CacheEntry(groupDict: map<int, seq<int>>, triggers: seq<Editor.EffectTrigger>, g: int): GroupEntry
  {
    GroupEntry(g, Editor.ObjectsFromGroupDict(groupDict, g), TriggersTargeting(triggers, g))
  }

  /** File trigger `t` once under each group it targets. */
  method FileTrigger(targeting: map<int, multiset<Editor.EffectTrigger>>, t: Editor.EffectTrigger)
    returns (filed: map<int, multiset<Editor.EffectTrigger>>)
    ensures forall g :: Lookup(filed, g) == Lookup(targeting, g) + Copies(t, CountOf(Editor.TargetedGroups(t), g))
  {
    var groups := Editor.TriggerTargetedGroups(t);
    filed := targeting;
    var j := 0;
    while j < |groups|
      invariant 0 <= j <= |groups|
      invariant forall g :: Lookup(filed, g) == Lookup(targeting, g) + Copies(t, CountOf(groups[..j], g))
    {
      var g := groups[j];
      FileStep(filed, targeting, t, groups, j);
      filed := filed[g := Lookup(filed, g) + multiset{t}];
      j := j + 1;
    }
    assert groups[..j] == groups;
  }

  lemma FileStepAt(before: multiset<Editor.EffectTrigger>, base: multiset<Editor.EffectTrigger>,
                   t: Editor.EffectTrigger, groups: seq<int>, j: nat, h: int)
    requires j < |groups|
    requires before == base + Copies(t, CountOf(groups[..j], h))
    ensures (if h == groups[j] then before + multiset{t} else before) == base + Copies(t, CountOf(groups[..j + 1], h))
  {
    assert groups[..j + 1][..j] == groups[..j];
  }

  /** Filing one more group of the trigger keeps the per-group counts in step with the groups filed so far. */
  lemma FileStep(filed: map<int, multiset<Editor.EffectTrigger>>, targeting: map<int, multiset<Editor.EffectTrigger>>,
                 t: Editor.EffectTrigger, groups: seq<int>, j: nat)
    requires j < |groups|
    requires forall h :: Lookup(filed, h) == Lookup(targeting, h) + Copies(t, CountOf(groups[..j], h))
    ensures forall h :: (Lookup(filed[groups[j] := Lookup(filed, groups[j]) + multiset{t}], h)
      == Lookup(targeting, h) + Copies(t, CountOf(groups[..j + 1], h)))
  {
    var g := groups[j];
    var next := filed[g := Lookup(filed, g) + multiset{t}];
    forall h
      ensures Lookup(next, h) == Lookup(targeting, h) + Copies(t, CountOf(groups[..j + 1], h))
    {
      FileStepAt(Lookup(filed, h), Lookup(targeting, h), t, groups, j, h);
    }
  }

  /** The first setup loop: the multimap from each group to the triggers that target it. */
  method FileTriggers(triggers: seq<Editor.EffectTrigger>) returns (targeting: map<int, multiset<Editor.EffectTrigger>>)
    ensures forall g :: Lookup(targeting, g) == TriggersTargeting(triggers, g)
  {
    targeting := map[];
    var i := 0;
    while i < |triggers|
      invariant 0 <= i <= |triggers|
      invariant forall g :: Lookup(targeting, g) == TriggersTargeting(triggers[..i], g)
    {
      assert triggers[..i + 1][..i] == triggers[..i];
      targeting := FileTrigger(targeting, triggers[i]);
      i := i + 1;
    }
    assert triggers[..i] == triggers;
  }

  /** The setup loops: file each trigger under the groups it targets, then one entry per group 1..9999 in id order. */
  method BuildCache(groupDict: map<int, seq<int>>, triggers: seq<Editor.EffectTrigger>) returns (cache: seq<GroupEntry>)
    ensures |cache| == Editor.MAX_GROUP_ID
    ensures forall k :: 0 <= k < |cache| ==> cache[k] == CacheEntry(groupDict, triggers, k + 1)
  {
    var targeting := FileTriggers(triggers);
    cache := [];
    var group := 1;
    while group < Editor.MAX_GROUP_ID + 1
      invariant 1 <= group <= Editor.MAX_GROUP_ID + 1
      invariant |cache| == group - 1
      invariant forall k :: 0 <= k < |cache| ==> cache[k] == CacheEntry(groupDict, triggers, k + 1)
    {
      cache := cache + [GroupEntry(group, Editor.ObjectsFromGroupDict(groupDict, group), Lookup(targeting, group))];
      group := group + 1;
    }
  }

  /** The cache lists groups 1..9999 in ascending order, the order `std::map` iterates them in. */
  lemma CacheAscending(groupDict: map<int, seq<int>>, triggers: seq<Editor.EffectTrigger>, cache: seq<GroupEntry>)
    requires forall k :: 0 <= k < |cache| ==> cache[k] == CacheEntry(groupDict, triggers, k + 1)
    ensures AscendingIds(cache)
  {
  }

  /** One more cache entry extends the pages and the count exactly when it matches. */
  lemma PaginateStep(cache: seq<GroupEntry>, i: nat, filter: Filter, search: string, perPage: nat)
    requires i < |cache|
    ensures var before := MatchingGroups(cache[..i], filter, search);
      && PagesOf(MatchingGroups(cache[..i + 1], filter, search), perPage)
         == (if Matches(filter, search, cache[i]) then AddToPages(PagesOf(before, perPage), cache[i], perPage) else PagesOf(before, perPage))
      && |MatchingGroups(cache[..i + 1], filter, search)| == |before| + (if Matches(filter, search, cache[i]) then 1 else 0)
  {
    var before := MatchingGroups(cache[..i], filter, search);
    MatchingGroupsStep(cache, i, filter, search);
    if Matches(filter, search, cache[i]) {
      PagesOfSnoc(before, cache[i], perPage);
    } else {
      assert MatchingGroups(cache[..i + 1], filter, search) == before;
    }
  }

  /** The per-group test inside the paging loop: the filter on targets and triggers, then the id-prefix search. */
  method EntryMatches(filter: Filter, search: string, objs: GroupEntry) returns (matches: bool)
    ensures matches == Matches(filter, search, objs)
  {
    var hasTargets := objs.targets.Some? && |objs.targets.value| > 0;
    var hasTriggers := |objs.triggers| > 0;
    matches := FilterMatches(filter, hasTargets, hasTriggers);
    if |search| > 0 && !IsPrefix(search, IntToString(objs.groupId)) {
      matches := false;
    }
  }

  /** The paging loop of `updatePages`, starting from reset pages. */
  method Paginate(cache: seq<GroupEntry>, filter: Filter, search: string, perPage: nat)
    returns (built: seq<seq<GroupEntry>>, count: nat)
    ensures built == PagesOf(MatchingGroups(cache, filter, search), perPage)
    ensures count == |MatchingGroups(cache, filter, search)|
  {
      built, count := [], 0;
      var i := 0;
      assert cache[..i] == [];
      while i < |cache|
        invariant 0 <= i <= |cache|
        invariant built == PagesOf(MatchingGroups(cache[..i], filter, search), perPage)
        invariant count == |MatchingGroups(cache[..i], filter, search)|
      {
        var objs := cache[i];
        var matches := EntryMatches(filter, search, objs);
        PaginateStep(cache, i, filter, search, perPage);
        if matches {
          built := AddToPages(built, objs, perPage);
          count := count + 1;
        }
        i := i + 1;
      }
      assert cache[..i] == cache;
  }

  // ---------------------------------------------------------------------
  // The popup's paging state

  class GroupSummaryPopup {
    const cache: seq<GroupEntry>
    var pages: seq<seq<GroupEntry>>
    var totalMatches: nat
    var page: nat
    var view: View
    var filter: Filter
    var search: string
    /** The groups on screen. */
    var shown: seq<GroupEntry>
    var pageLabel: string
    var matchesLabel: string
    var prevEnabled: bool
    var nextEnabled: bool
    /** `LAST_PAGE`: page, filter and query restored when the popup opens again. */
    var lastPage: (nat, Filter, string)
    /** The saved value "group-summary-view-mode". */
    var savedView: Option<View>
    /**
     * The filter toggle and the view toggle that are switched on (there is one
     * toggle per filter and per view, tagged with it; every other one is off).
     * `None` while no toggle has been switched on.
     */
    var filterToggled: Option<Filter>
    var viewToggled: Option<View>

    /** What `loadPage(p)` leaves on screen: the clamped page, its groups, both labels, both buttons, and only the current filter's and view's toggles on. */
    ghost predicate ShowsPage(p: nat)
      reads this
    {
      && page == ClampPage(p, |pages|)
      && lastPage == (page, filter, search)
      && shown == (if pages == [] then [] else pages[page])
      && pageLabel == PageLabel(page, |pages|)
      && matchesLabel == MatchesLabel(totalMatches)
      && prevEnabled == (page > 0)
      && nextEnabled == (page < LastPossiblePage(|pages|))
      && filterToggled == Some(filter) && viewToggled == Some(view)
    }

    constructor (cache: seq<GroupEntry>, view: View, filter: Filter, search: string, page: nat)
      ensures this.cache == cache && this.view == view && this.filter == filter && this.search == search
      ensures this.page == page && pages == [] && totalMatches == 0
      ensures filterToggled == None && viewToggled == None
    {
      this.cache := cache;
      this.view := view;
      this.filter := filter;
      this.search := search;
      this.page := page;
      pages := [];
      totalMatches := 0;
      shown := [];
      pageLabel := "";
      matchesLabel := "";
      prevEnabled := false;
      nextEnabled := false;
      lastPage := (0, All, "");
      savedView := None;
      filterToggled := None;
      viewToggled := None;
    }

    /** `Pages::reset`: no pages and no matches. */
    method ResetPages()
      modifies this
      ensures pages == [] && totalMatches == 0
      ensures page == old(page) && view == old(view) && filter == old(filter) && search == old(search)
      ensures shown == old(shown) && pageLabel == old(pageLabel) && matchesLabel == old(matchesLabel)
      ensures prevEnabled == old(prevEnabled) && nextEnabled == old(nextEnabled)
      ensures lastPage == old(lastPage) && savedView == old(savedView)
      ensures filterToggled == old(filterToggled) && viewToggled == old(viewToggled)
    {
      pages := [];
      totalMatches := 0;
    }

    /** `loadPage`: clamp the page, record it, switch on only the current filter's and view's toggles, show that page, and set the labels and buttons. */
    method LoadPage(p: nat)
      modifies this
      ensures pages == old(pages) && totalMatches == old(totalMatches)
      ensures view == old(view) && filter == old(filter) && search == old(search)
      ensures savedView == old(savedView)
      ensures ShowsPage(p)
    {
      page := ClampPage(p, |pages|);
      lastPage := (page, filter, search);
      filterToggled, viewToggled := Some(filter), Some(view);
      ShowCurrentPage();
    }

    /** The second half of `loadPage`: the groups of the current page, both labels and both buttons. */
    method ShowCurrentPage()
      requires pages != [] ==> page < |pages|
      modifies this`shown, this`pageLabel, this`matchesLabel, this`prevEnabled, this`nextEnabled
      ensures shown == if pages == [] then [] else pages[page]
      ensures pageLabel == PageLabel(page, |pages|)
      ensures matchesLabel == MatchesLabel(totalMatches)
      ensures prevEnabled == (page > 0)
      ensures nextEnabled == (page < LastPossiblePage(|pages|))
    {
      shown := if pages == [] then [] else pages[page];
      pageLabel := PageLabel(page, |pages|);
      matchesLabel := MatchesLabel(totalMatches);
      prevEnabled, nextEnabled := page > 0, page < LastPossiblePage(|pages|);
    }

    /**
     * `updatePages`: save the view, rebuild the pages from the cache with the
     * current filter, query and view, then load page `p`. The filter and view
     * buttons and the search field's callback call it with page 0.
     */
    method UpdatePages(p: nat)
      modifies this
      ensures savedView == Some(view)
      ensures pages == PagesOf(MatchingGroups(cache, filter, search), GroupsPerPage(view))
      ensures totalMatches == |MatchingGroups(cache, filter, search)|
      ensures view == old(view) && filter == old(filter) && search == old(search)
      ensures ShowsPage(p)
    {
      savedView := Some(view);
      ResetPages();
      var groupsPerPage := if view == Grid then ITEMS_PER_ROW * ITEMS_PER_COLUMN else ITEMS_PER_LIST;
      var built, count := Paginate(cache, filter, search, groupsPerPage);
      pages, totalMatches := built, count;
      LoadPage(p);
    }

    /** `onPage`: move by the tag only when the result is not negative; otherwise nothing changes. */
    method OnPage(tag: int)
      modifies this
      ensures old(page) + tag < 0 ==> unchanged(this)
      ensures old(page) + tag >= 0 ==> ShowsPage(old(page) + tag)
      ensures pages == old(pages) && totalMatches == old(totalMatches)
      ensures view == old(view) && filter == old(filter) && search == old(search) && savedView == old(savedView)
    {
      if page >= -tag {
        LoadPage(page + tag);
      }
    }

    /** `onFilter`: switch the filter and rebuild from page 0. */
    method OnFilter(f: Filter)
      modifies this
      ensures filter == f && view == old(view) && search == old(search) && savedView == Some(view)
      ensures pages == PagesOf(MatchingGroups(cache, f, search), GroupsPerPage(view))
      ensures totalMatches == |MatchingGroups(cache, f, search)|
      ensures ShowsPage(0)
    {
      filter := f;
      UpdatePages(0);
    }

    /** `onView`: switch the view and rebuild from page 0. */
    method OnView(v: View)
      modifies this
      ensures view == v && filter == old(filter) && search == old(search) && savedView == Some(v)
      ensures pages == PagesOf(MatchingGroups(cache, filter, search), GroupsPerPage(v))
      ensures totalMatches == |MatchingGroups(cache, filter, search)|
      ensures ShowsPage(0)
    {
      view := v;
      UpdatePages(0);
    }

    /** The search field's callback: the query becomes the field's text and the pages are rebuilt from page 0. */
    method OnSearch(query: string)
      modifies this
      ensures search == query && filter == old(filter) && view == old(view) && savedView == Some(view)
      ensures pages == PagesOf(MatchingGroups(cache, filter, query), GroupsPerPage(view))
      ensures totalMatches == |MatchingGroups(cache, filter, query)|
      ensures ShowsPage(0)
    {
      search := query;
      UpdatePages(0);
    }
  }

  /** After `updatePages` the pages list every match once, in ascending id order, and the match count is their total size. */
  lemma UpdatePagesListsMatches(cache: seq<GroupEntry>, filter: Filter, search: string, view: View)
    requires AscendingIds(cache)
    ensures var pages := PagesOf(MatchingGroups(cache, filter, search), GroupsPerPage(view));
      Flatten(pages) == MatchingGroups(cache, filter, search)
      && WellPaged(pages, GroupsPerPage(view))
      && |Flatten(pages)| == |MatchingGroups(cache, filter, search)|
      && AscendingIds(Flatten(pages))
  {
    PagesOfShape(MatchingGroups(cache, filter, search), GroupsPerPage(view));
    MatchingGroupsAscending(cache, filter, search);
  }
}
