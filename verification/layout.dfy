/**
 * The dashboard's grid layouts: the default arrangement per breakpoint, the minimum sizes the grid
 * always enforces, and the merge that records a layout edited on screen. A layout item is the grid
 * library's `{ i, x, y, w, h, minW, minH }`; `minW`/`minH` are `None` where an item carries none.
 */
module Layout {
  import opened Wrappers

  datatype LayoutItem = LayoutItem(i: string, x: int, y: int, w: int, h: int, minW: Option<int>, minH: Option<int>)

  /** A layout per breakpoint name (`lg`, `md`, `sm`, `xs`). */
  type Layouts = map<string, seq<LayoutItem>>

  function Item(i: string, x: int, y: int, w: int, h: int, minW: int, minH: int): LayoutItem {
    LayoutItem(i, x, y, w, h, Some(minW), Some(minH))
  }

  const DefaultLg: seq<LayoutItem> := [
    Item("stat-income", 0, 0, 4, 4, 3, 3),
    Item("stat-expense", 4, 0, 4, 4, 3, 3),
    Item("stat-balance", 8, 0, 4, 4, 3, 3),
    Item("spending-flow", 0, 4, 6, 12, 4, 8),
    Item("trend-6m", 6, 4, 6, 12, 4, 8),
    Item("category-trends", 0, 16, 6, 12, 4, 8),
    Item("category-dist", 6, 16, 6, 12, 4, 8),
    Item("weekly-budget", 0, 28, 6, 12, 4, 8),
    Item("cumulative-balance", 6, 28, 6, 12, 4, 8),
    Item("insights", 0, 40, 4, 10, 3, 6),
    Item("salary-limit", 4, 40, 4, 10, 3, 6),
    Item("goal-reward", 8, 40, 4, 10, 3, 6),
    Item("expenses-list", 0, 50, 6, 15, 4, 10),
    Item("incomes-list", 6, 50, 6, 15, 4, 10),
    Item("daily-heatmap", 0, 65, 12, 10, 6, 8),
    Item("year-comparison", 0, 75, 7, 10, 4, 8),
    Item("income-projection", 7, 75, 5, 10, 3, 8),
    Item("expense-forecast", 0, 85, 4, 8, 2, 6),
    Item("budget-depletion", 4, 85, 4, 8, 2, 6),
    Item("goal-prediction", 8, 85, 4, 8, 2, 6)
  ]

  const DefaultMd: seq<LayoutItem> := [
    Item("stat-income", 0, 0, 3, 4, 2, 3),
    Item("stat-expense", 3, 0, 4, 4, 2, 3),
    Item("stat-balance", 7, 0, 3, 4, 2, 3),
    Item("spending-flow", 0, 4, 5, 12, 3, 8),
    Item("trend-6m", 5, 4, 5, 12, 3, 8),
    Item("category-trends", 0, 16, 5, 12, 3, 8),
    Item("category-dist", 5, 16, 5, 12, 3, 8),
    Item("weekly-budget", 0, 28, 5, 12, 3, 8),
    Item("cumulative-balance", 5, 28, 5, 12, 3, 8),
    Item("insights", 0, 40, 3, 10, 2, 6),
    Item("salary-limit", 3, 40, 4, 10, 2, 6),
    Item("goal-reward", 7, 40, 3, 10, 2, 6),
    Item("expenses-list", 0, 50, 5, 15, 3, 10),
    Item("incomes-list", 5, 50, 5, 15, 3, 10),
    Item("daily-heatmap", 0, 65, 10, 10, 5, 8),
    Item("year-comparison", 0, 75, 6, 10, 4, 8),
    Item("income-projection", 6, 75, 4, 10, 3, 8),
    Item("expense-forecast", 0, 85, 3, 8, 2, 6),
    Item("budget-depletion", 3, 85, 4, 8, 2, 6),
    Item("goal-prediction", 7, 85, 3, 8, 2, 6)
  ]

  const DefaultSm: seq<LayoutItem> := [
    Item("stat-income", 0, 0, 2, 4, 2, 3),
    Item("stat-expense", 2, 0, 2, 4, 2, 3),
    Item("stat-balance", 4, 0, 2, 4, 2, 3),
    Item("spending-flow", 0, 4, 6, 12, 3, 8),
    Item("trend-6m", 0, 16, 6, 12, 3, 8),
    Item("category-trends", 0, 28, 6, 12, 3, 8),
    Item("category-dist", 0, 40, 6, 12, 3, 8),
    Item("weekly-budget", 0, 52, 6, 12, 3, 8),
    Item("cumulative-balance", 0, 64, 6, 12, 3, 8),
    Item("insights", 0, 76, 2, 10, 2, 6),
    Item("salary-limit", 2, 76, 2, 10, 2, 6),
    Item("goal-reward", 4, 76, 2, 10, 2, 6),
    Item("expenses-list", 0, 86, 6, 15, 4, 10),
    Item("incomes-list", 0, 101, 6, 15, 4, 10),
    Item("daily-heatmap", 0, 116, 6, 10, 3, 8),
    Item("year-comparison", 0, 126, 6, 10, 3, 8),
    Item("income-projection", 0, 136, 6, 10, 4, 8),
    Item("expense-forecast", 0, 146, 3, 8, 2, 6),
    Item("budget-depletion", 3, 146, 3, 8, 2, 6),
    Item("goal-prediction", 0, 154, 3, 8, 2, 6)
  ]

  const DefaultXs: seq<LayoutItem> := [
    Item("stat-income", 0, 0, 4, 4, 2, 3),
    Item("stat-expense", 0, 4, 4, 4, 2, 3),
    Item("stat-balance", 0, 8, 4, 4, 2, 3),
    Item("spending-flow", 0, 12, 4, 10, 3, 6),
    Item("trend-6m", 0, 22, 4, 10, 3, 6),
    Item("category-trends", 0, 32, 4, 10, 3, 6),
    Item("category-dist", 0, 42, 4, 10, 3, 6),
    Item("weekly-budget", 0, 52, 4, 10, 3, 6),
    Item("cumulative-balance", 0, 62, 4, 10, 3, 6),
    Item("insights", 0, 72, 4, 10, 2, 6),
    Item("salary-limit", 0, 82, 4, 10, 2, 6),
    Item("goal-reward", 0, 92, 4, 10, 2, 6),
    Item("expenses-list", 0, 102, 4, 12, 3, 8),
    Item("incomes-list", 0, 114, 4, 12, 3, 8),
    Item("daily-heatmap", 0, 126, 4, 10, 3, 6),
    Item("year-comparison", 0, 136, 4, 10, 3, 6),
    Item("income-projection", 0, 146, 4, 10, 3, 8),
    Item("expense-forecast", 0, 156, 4, 8, 2, 6),
    Item("budget-depletion", 0, 164, 4, 8, 2, 6),
    Item("goal-prediction", 0, 172, 4, 8, 2, 6)
  ]
  const DefaultLayouts: Layouts := map["lg" := DefaultLg, "md" := DefaultMd, "sm" := DefaultSm, "xs" := DefaultXs]

  /** The widget ids in their default order (`DEFAULT_LAYOUTS.lg.map(w => w.i)`). */
  function Ids(items: seq<LayoutItem>): (ids: seq<string>)
    ensures |ids| == |items| && forall k :: 0 <= k < |items| ==> ids[k] == items[k].i
  {
    if |items| == 0 then [] else Ids(items[..|items| - 1]) + [items[|items| - 1].i]
  }

  /** Every item carries positive minimum sizes that its width and height meet. */
  ghost predicate HasMinimums(items: seq<LayoutItem>) {
    forall k :: 0 <= k < |items| ==>
      items[k].minW.Some? && items[k].minH.Some?
      && 0 < items[k].minW.value <= items[k].w && 0 < items[k].minH.value <= items[k].h
  }

  /** Every default layout lists positive minimum sizes, and every default size meets them. */
  lemma DefaultsHaveMinimums()
    ensures forall bp :: bp in DefaultLayouts ==> HasMinimums(DefaultLayouts[bp])
  {
    LargeHasMinimums();
    MediumHasMinimums();
    SmallHasMinimums();
    TinyHasMinimums();
  }

  lemma LargeHasMinimums() ensures HasMinimums(DefaultLg) {}
  lemma MediumHasMinimums() ensures HasMinimums(DefaultMd) {}
  lemma SmallHasMinimums() ensures HasMinimums(DefaultSm) {}
  lemma TinyHasMinimums() ensures HasMinimums(DefaultXs) {}

  // ---------------------------------------------------------------------------------------------
  // Lookups

  /** `a || b` on optional numbers: `a` when it is present and not 0, otherwise `b`. */
  function Or(a: Option<int>, b: Option<int>): (r: Option<int>)
    ensures a.Some? && a.value != 0 ==> r == a
    ensures a.None? || a.value == 0 ==> r == b
  {
    if a.Some? && a.value != 0 then a else b
  }

  /** `items.find(d => d.i === id)`: the first item with that id. */
  function Find(items: seq<LayoutItem>, id: string): (r: Option<LayoutItem>)
    ensures r.None? <==> forall k :: 0 <= k < |items| ==> items[k].i != id
    ensures r.Some? ==> exists k :: 0 <= k < |items| && items[k] == r.value && r.value.i == id
                                  && forall j :: 0 <= j < k ==> items[j].i != id
  {
    if |items| == 0 then None
    else if items[0].i == id then Some(items[0])
    else
      var r := Find(items[1..], id);
      assert forall k :: 0 <= k < |items| - 1 ==> items[1..][k] == items[k + 1];
      if r.Some? then
        var k :| 0 <= k < |items[1..]| && items[1..][k] == r.value && r.value.i == id
                 && forall j :: 0 <= j < k ==> items[1..][j].i != id;
        assert items[k + 1] == r.value;
        r
      else r
  }

  /** `DEFAULT_LAYOUTS[bp] || DEFAULT_LAYOUTS.lg`: where the minimum sizes of a breakpoint come from. */
  function DefaultsFor(bp: string): seq<LayoutItem> {
    if bp in DefaultLayouts then DefaultLayouts[bp] else DefaultLg
  }

  /** The default minimum width of an item, if the breakpoint's defaults list it. */
  function DefaultMinW(bp: string, id: string): Option<int> {
    match Find(DefaultsFor(bp), id)
    case Some(d) => d.minW
    case None => None
  }

  function DefaultMinH(bp: string, id: string): Option<int> {
    match Find(DefaultsFor(bp), id)
    case Some(d) => d.minH
    case None => None
  }

  /** A default listed for a breakpoint has a positive minimum width and height. */
  lemma DefaultMinimumsPositive(bp: string, id: string)
    ensures Find(DefaultsFor(bp), id).Some? ==>
              DefaultMinW(bp, id).Some? && DefaultMinW(bp, id).value > 0
              && DefaultMinH(bp, id).Some? && DefaultMinH(bp, id).value > 0
  {
    DefaultsHaveMinimums();
    assert DefaultLg == DefaultLayouts["lg"];
    assert HasMinimums(DefaultsFor(bp));
  }

  // ---------------------------------------------------------------------------------------------
  // calculatedLayouts

  function Max(a: int, b: int): int {
    if a >= b then a else b
  }

  /** One item as the grid receives it: the default minimums (or the item's own) and a size raised
    * to at least those defaults. */
  function Enforce(bp: string, item: LayoutItem): (r: LayoutItem)
    ensures r.i == item.i && r.x == item.x && r.y == item.y
    ensures r.w == Max(item.w, Or(DefaultMinW(bp, item.i), Some(0)).value)
    ensures r.h == Max(item.h, Or(DefaultMinH(bp, item.i), Some(0)).value)
    ensures r.minW == Or(DefaultMinW(bp, item.i), item.minW) && r.minH == Or(DefaultMinH(bp, item.i), item.minH)
  {
    var minW := Or(DefaultMinW(bp, item.i), Some(0)).value;
    var minH := Or(DefaultMinH(bp, item.i), Some(0)).value;
    LayoutItem(item.i, item.x, item.y, Max(item.w, minW), Max(item.h, minH),
               Or(DefaultMinW(bp, item.i), item.minW), Or(DefaultMinH(bp, item.i), item.minH))
  }

  function EnforceAll(bp: string, items: seq<LayoutItem>): (r: seq<LayoutItem>)
    ensures |r| == |items| && forall k :: 0 <= k < |items| ==> r[k] == Enforce(bp, items[k])
  {
    seq(|items|, k requires 0 <= k < |items| => Enforce(bp, items[k]))
  }

  /** `calculatedLayouts`: every breakpoint's items with their minimum sizes enforced. */
  function CalculatedLayouts(layouts: Layouts): (r: Layouts)
    ensures r.Keys == layouts.Keys
    ensures forall bp :: bp in r ==> r[bp] == EnforceAll(bp, layouts[bp])
  {
    map bp | bp in layouts :: EnforceAll(bp, layouts[bp])
  }

  /**
   * What the grid is given: the same breakpoints and the same items in the same places, each at
   * least as large as it was and at least as large as the minimum its default lists, and carrying
   * that minimum.
   */
  lemma CalculatedLayoutsMeetMinimums(layouts: Layouts, bp: string, k: int)
    requires bp in layouts && 0 <= k < |layouts[bp]|
    ensures var item := layouts[bp][k];
            var r := CalculatedLayouts(layouts)[bp][k];
            && |CalculatedLayouts(layouts)[bp]| == |layouts[bp]|
            && r.i == item.i && r.x == item.x && r.y == item.y
            && r.w >= item.w && r.h >= item.h
            && (Find(DefaultsFor(bp), item.i).Some? ==>
                  DefaultMinW(bp, item.i).Some? && DefaultMinH(bp, item.i).Some?
                  && r.w >= DefaultMinW(bp, item.i).value && r.h >= DefaultMinH(bp, item.i).value
                  && r.minW == DefaultMinW(bp, item.i) && r.minH == DefaultMinH(bp, item.i))
  {
    DefaultMinimumsPositive(bp, layouts[bp][k].i);
  }

  // ---------------------------------------------------------------------------------------------
  // onLayoutChange

  /** `layoutMap`: items by id, with the ids in the order they were first set. */
  datatype Entries = Entries(ids: seq<string>, byId: map<string, LayoutItem>)

  ghost predicate WellKeyed(e: Entries) {
    (forall i, j :: 0 <= i < j < |e.ids| ==> e.ids[i] != e.ids[j])
    && forall id :: id in e.byId <==> id in e.ids
  }

  /** `layoutMap[item.i] = item`. */
  function Put(e: Entries, item: LayoutItem): Entries {
    if item.i in e.byId then Entries(e.ids, e.byId[item.i := item])
    else Entries(e.ids + [item.i], e.byId[item.i := item])
  }

  /** `items.forEach(item => { layoutMap[item.i] = item })`. */
  function PutAll(e: Entries, items: seq<LayoutItem>): Entries {
    if |items| == 0 then e else Put(PutAll(e, items[..|items| - 1]), items[|items| - 1])
  }

  /** `Object.values(layoutMap)`. */
  function Values(e: Entries): (r: seq<LayoutItem>)
    requires WellKeyed(e)
    ensures |r| == |e.ids| && forall k :: 0 <= k < |r| ==> r[k] == e.byId[e.ids[k]]
  {
    seq(|e.ids|, k requires 0 <= k < |e.ids| => e.byId[e.ids[k]])
  }

  /** The last item with that id, if any: the one a run of assignments leaves in place. */
  function LastWith(items: seq<LayoutItem>, id: string): (r: Option<LayoutItem>)
    ensures r.Some? ==> r.value in items && r.value.i == id
    ensures r.None? ==> forall k :: 0 <= k < |items| ==> items[k].i != id
  {
    if |items| == 0 then None
    else if items[|items| - 1].i == id then Some(items[|items| - 1])
    else LastWith(items[..|items| - 1], id)
  }

  function Lookup(e: Entries, id: string): Option<LayoutItem> {
    if id in e.byId then Some(e.byId[id]) else None
  }

  /** Assigning a run of items keeps the map well keyed, and each id then holds the last item
    * assigned to it, or what it held before when none was. */
  lemma {:induction false} PutAllLookup(e: Entries, items: seq<LayoutItem>, id: string)
    requires WellKeyed(e)
    ensures WellKeyed(PutAll(e, items))
    ensures Lookup(PutAll(e, items), id) == if LastWith(items, id).Some? then LastWith(items, id) else Lookup(e, id)
    ensures forall k :: 0 <= k < |e.ids| ==> k < |PutAll(e, items).ids| && PutAll(e, items).ids[k] == e.ids[k]
  {
    if |items| > 0 {
      PutAllLookup(e, items[..|items| - 1], id);
    }
  }

  /** An incoming item with the minimum sizes of its default, or its own where the default has none. */
  function Stamp(bp: string, item: LayoutItem): (r: LayoutItem)
    ensures r.i == item.i && r.x == item.x && r.y == item.y && r.w == item.w && r.h == item.h
    ensures r.minW == Or(DefaultMinW(bp, item.i), item.minW) && r.minH == Or(DefaultMinH(bp, item.i), item.minH)
  {
    item.(minW := Or(DefaultMinW(bp, item.i), item.minW), minH := Or(DefaultMinH(bp, item.i), item.minH))
  }

  function StampAll(bp: string, items: seq<LayoutItem>): (r: seq<LayoutItem>)
    ensures |r| == |items| && forall k :: 0 <= k < |items| ==> r[k] == Stamp(bp, items[k])
  {
    seq(|items|, k requires 0 <= k < |items| => Stamp(bp, items[k]))
  }

  /** `prev[bp] || DEFAULT_LAYOUTS[bp] || []`: the layout an edit is merged into. */
  function PreviousLayout(prev: Layouts, bp: string): seq<LayoutItem> {
    if bp in prev then prev[bp] else if bp in DefaultLayouts then DefaultLayouts[bp] else []
  }

  /** The entries of one breakpoint after an edit: the previous items, then the incoming ones. */
  function MergedEntries(prevItems: seq<LayoutItem>, bp: string, incoming: seq<LayoutItem>): Entries {
    PutAll(PutAll(Entries([], map[]), prevItems), StampAll(bp, incoming))
  }

  /**
   * One breakpoint's merged layout is well keyed; an id the edit mentions holds the edit's last item
   * for it with the default minimums; an id it does not mention keeps its previous item; and the
   * previous ids keep their places at the front.
   */
  lemma MergeKeepsAndStamps(prevItems: seq<LayoutItem>, bp: string, incoming: seq<LayoutItem>, id: string)
    ensures var e := MergedEntries(prevItems, bp, incoming);
            var before := PutAll(Entries([], map[]), prevItems);
            && WellKeyed(e)
            && (LastWith(incoming, id).Some? ==> Lookup(e, id) == Some(Stamp(bp, LastWith(incoming, id).value)))
            && (LastWith(incoming, id).None? ==> Lookup(e, id) == LastWith(prevItems, id))
            && forall k :: 0 <= k < |before.ids| ==> k < |e.ids| && e.ids[k] == before.ids[k]
  {
    var edit := StampAll(bp, incoming);
    MergeWellKeyed(prevItems, edit);
    MergeLookup(prevItems, edit, id);
    var before := PutAll(Entries([], map[]), prevItems);
    assert WellKeyed(before) by {
      PutAllLookup(Entries([], map[]), prevItems, id);
    }
    PutAllLookup(before, edit, id);
    StampedLast(bp, incoming, id);
  }

  /** Assigning a previous layout and then an edit leaves the map well keyed. */
  lemma MergeWellKeyed(prevItems: seq<LayoutItem>, edit: seq<LayoutItem>)
    ensures WellKeyed(PutAll(PutAll(Entries([], map[]), prevItems), edit))
  {
    PutAllLookup(Entries([], map[]), prevItems, "");
    PutAllLookup(PutAll(Entries([], map[]), prevItems), edit, "");
  }

  /** After a previous layout and then an edit, an id holds the edit's last item for it, or else
    * the previous layout's. */
  lemma MergeLookup(prevItems: seq<LayoutItem>, edit: seq<LayoutItem>, id: string)
    ensures Lookup(PutAll(PutAll(Entries([], map[]), prevItems), edit), id)
            == if LastWith(edit, id).Some? then LastWith(edit, id) else LastWith(prevItems, id)
  {
    PutAllLookup(Entries([], map[]), prevItems, id);
    PutAllLookup(PutAll(Entries([], map[]), prevItems), edit, id);
  }

  /** Stamping keeps ids, so the last stamped item for an id is the stamp of the last item for it. */
  lemma {:induction false} StampedLast(bp: string, items: seq<LayoutItem>, id: string)
    ensures LastWith(StampAll(bp, items), id) ==
              if LastWith(items, id).Some? then Some(Stamp(bp, LastWith(items, id).value)) else None
  {
    if |items| > 0 {
      assert StampAll(bp, items)[..|items| - 1] == StampAll(bp, items[..|items| - 1]);
      StampedLast(bp, items[..|items| - 1], id);
    }
  }

  /** `onLayoutChange`'s update of one breakpoint, as a loop over the two `forEach`es. */
  method MergeBreakpoint(prevItems: seq<LayoutItem>, bp: string, incoming: seq<LayoutItem>) returns (merged: seq<LayoutItem>)
    ensures WellKeyed(MergedEntries(prevItems, bp, incoming))
    ensures merged == Values(MergedEntries(prevItems, bp, incoming))
  {
    var layoutMap := PutEach(Entries([], map[]), prevItems);
    var stamped := StampAll(bp, incoming);
    layoutMap := PutEach(layoutMap, stamped);
    MergeKeepsAndStamps(prevItems, bp, incoming, "");
    merged := Values(layoutMap);
  }

  /** One `forEach(item => { layoutMap[item.i] = item })` over the items, in order. */
  method PutEach(start: Entries, items: seq<LayoutItem>) returns (layoutMap: Entries)
    ensures layoutMap == PutAll(start, items)
  {
    layoutMap := start;
    for k := 0 to |items|
      invariant layoutMap == PutAll(start, items[..k])
    {
      layoutMap := Put(layoutMap, items[k]);
      assert items[..k + 1][..k] == items[..k];
    }
    assert items[..|items|] == items;
  }

  /** All breakpoints named by an edit, in order, each merged into the previous layouts. */
  function ChangedLayouts(prev: Layouts, all: seq<(string, seq<LayoutItem>)>): Layouts {
    if |all| == 0 then prev
    else
      var (bp, incoming) := all[|all| - 1];
      ChangedLayouts(prev, all[..|all| - 1])[bp := MergedLayout(prev, bp, incoming)]
  }

  /** One breakpoint of an edit merged into the previous layouts (`Object.values(layoutMap)`). */
  function MergedLayout(prev: Layouts, bp: string, incoming: seq<LayoutItem>): seq<LayoutItem> {
    MergeKeepsAndStamps(PreviousLayout(prev, bp), bp, incoming, "");
    Values(MergedEntries(PreviousLayout(prev, bp), bp, incoming))
  }

  /** A breakpoint the edit does not name keeps its layout; a named one holds its last merge. */
  lemma {:induction false} ChangedLayoutsFrame(prev: Layouts, all: seq<(string, seq<LayoutItem>)>, bp: string)
    ensures (forall k :: 0 <= k < |all| ==> all[k].0 != bp) ==>
              (bp in ChangedLayouts(prev, all) <==> bp in prev)
              && (bp in prev ==> ChangedLayouts(prev, all)[bp] == prev[bp])
    ensures forall k :: 0 <= k < |all| && all[k].0 == bp ==> bp in ChangedLayouts(prev, all)
  {
    if forall k :: 0 <= k < |all| ==> all[k].0 != bp {
      ChangedLayoutsKeep(prev, all, bp);
    }
    ChangedLayoutsNamed(prev, all, bp);
  }

  lemma {:induction false} ChangedLayoutsKeep(prev: Layouts, all: seq<(string, seq<LayoutItem>)>, bp: string)
    requires forall k :: 0 <= k < |all| ==> all[k].0 != bp
    ensures bp in ChangedLayouts(prev, all) <==> bp in prev
    ensures bp in prev ==> ChangedLayouts(prev, all)[bp] == prev[bp]
  {
    if |all| > 0 {
      var init := all[..|all| - 1];
      assert forall k :: 0 <= k < |init| ==> init[k] == all[k];
      ChangedLayoutsKeep(prev, init, bp);
    }
  }

  lemma {:induction false} ChangedLayoutsNamed(prev: Layouts, all: seq<(string, seq<LayoutItem>)>, bp: string)
    ensures forall k :: 0 <= k < |all| && all[k].0 == bp ==> bp in ChangedLayouts(prev, all)
  {
    if |all| > 0 {
      var init := all[..|all| - 1];
      ChangedLayoutsNamed(prev, init, bp);
      forall k | 0 <= k < |all| && all[k].0 == bp
        ensures bp in ChangedLayouts(prev, all)
      {
        if k < |init| {
          assert init[k] == all[k];
        }
      }
    }
  }
}
