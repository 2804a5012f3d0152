/**
 * The dashboard's own state: the selected month, edit mode, the layout version that re-mounts the
 * grid, the visible widgets and the saved layouts. The widget list never shrinks below three by a
 * removal, an added widget resets the layouts, and a layout edit is recorded only in edit mode.
 */
module Dashboard {
  import opened Wrappers
  import opened Calendar
  import opened Layout

  const MinWidgets: int := 3

  predicate NoDuplicates(ws: seq<string>) {
    forall i, j :: 0 <= i < j < |ws| ==> ws[i] != ws[j]
  }

  /** `ws.filter(w => w !== id)`: the other widgets, in order. */
  function Without(ws: seq<string>, id: string): (r: seq<string>)
    ensures forall w :: w in r <==> w in ws && w != id
    ensures NoDuplicates(ws) ==> NoDuplicates(r)
    ensures NoDuplicates(ws) && id in ws ==> |r| == |ws| - 1
    ensures id !in ws ==> r == ws
    ensures |ws| == 1 ==> r == if ws[0] != id then ws else []
  {
    if |ws| == 0 then []
    else
      var rest := Without(ws[..|ws| - 1], id);
      assert ws == ws[..|ws| - 1] + [ws[|ws| - 1]];
      var last := ws[|ws| - 1];
      if last == id then rest
      else
        assert NoDuplicates(ws) ==> last !in ws[..|ws| - 1];
        rest + [last]
  }

  /** The filter keeps the other widgets in their order and with their multiplicity: it
    * distributes over concatenation (and keeps or drops a single widget). */
  lemma {:induction false} WithoutAppend(a: seq<string>, b: seq<string>, id: string)
    ensures Without(a + b, id) == Without(a, id) + Without(b, id)
  {
    if |b| == 0 {
      assert a + b == a;
    } else {
      var init, last := b[..|b| - 1], b[|b| - 1];
      assert (a + b)[..|a + b| - 1] == a + init;
      assert (a + b)[|a + b| - 1] == last;
      WithoutAppend(a, init, id);
    }
  }

  class DashboardState {
    var selectedMonth: MonthRef
    var isEditMode: bool
    var layoutVersion: int
    var visibleWidgets: seq<string>
    var layouts: Layouts

    /**
     * The state a dashboard starts in at the moment `now`: the current month, not editing, and the
     * saved widget list and layouts when there are any, else all widgets and the default layouts.
     */
    constructor(now: Now, savedWidgets: Option<seq<string>>, savedLayouts: Option<Layouts>)
      ensures selectedMonth == MonthRef(now.month, now.year)
      ensures !isEditMode && layoutVersion == 0
      ensures visibleWidgets == if savedWidgets.Some? then savedWidgets.value else Ids(DefaultLg)
      ensures layouts == if savedLayouts.Some? then savedLayouts.value else DefaultLayouts
    {
      selectedMonth := MonthRef(now.month, now.year);
      isEditMode := false;
      layoutVersion := 0;
      visibleWidgets := if savedWidgets.Some? then savedWidgets.value else Ids(DefaultLg);
      layouts := if savedLayouts.Some? then savedLayouts.value else DefaultLayouts;
    }

    /**
     * `toggleWidget(id)`: a visible widget is removed unless only three or fewer are visible (then
     * the call is refused, as the alert says, and nothing changes); a hidden one is appended, and
     * the layouts go back to the defaults with a new layout version. A list without duplicates
     * keeps none and, once it holds three or more, keeps three or more.
     */
    method ToggleWidget(id: string) returns (refused: bool)
      modifies this
      ensures selectedMonth == old(selectedMonth) && isEditMode == old(isEditMode)
      ensures refused <==> id in old(visibleWidgets) && |old(visibleWidgets)| <= MinWidgets
      ensures refused ==> visibleWidgets == old(visibleWidgets) && layouts == old(layouts)
                          && layoutVersion == old(layoutVersion)
      ensures !refused && id in old(visibleWidgets) ==>
                visibleWidgets == Without(old(visibleWidgets), id)
                && layouts == old(layouts) && layoutVersion == old(layoutVersion)
      ensures id !in old(visibleWidgets) ==>
                visibleWidgets == old(visibleWidgets) + [id]
                && layouts == DefaultLayouts && layoutVersion == old(layoutVersion) + 1
      ensures NoDuplicates(old(visibleWidgets)) ==> NoDuplicates(visibleWidgets)
      ensures NoDuplicates(old(visibleWidgets)) && |old(visibleWidgets)| >= MinWidgets ==>
                |visibleWidgets| >= MinWidgets
    {
      var isRemoving := id in visibleWidgets;
      if isRemoving && |visibleWidgets| <= MinWidgets {
        return true;
      }
      var next := if isRemoving then Without(visibleWidgets, id) else visibleWidgets + [id];
      if !isRemoving {
        layouts := DefaultLayouts;
        layoutVersion := layoutVersion + 1;
      }
      visibleWidgets := next;
      refused := false;
    }

    /**
     * `removeWidget(id)` with the user's answer to the confirmation: refused outright at three or
     * fewer visible widgets; otherwise a toggle when confirmed, and nothing when not. A confirmed
     * id that is not visible is therefore appended, as `toggleWidget` does.
     */
    method RemoveWidget(id: string, confirmed: bool) returns (refused: bool)
      modifies this
      ensures selectedMonth == old(selectedMonth) && isEditMode == old(isEditMode)
      ensures refused <==> |old(visibleWidgets)| <= MinWidgets
      ensures (refused || !confirmed) ==>
                visibleWidgets == old(visibleWidgets) && layouts == old(layouts) && layoutVersion == old(layoutVersion)
      ensures !refused && confirmed && id in old(visibleWidgets) ==>
                visibleWidgets == Without(old(visibleWidgets), id) && layouts == old(layouts)
                && layoutVersion == old(layoutVersion)
      ensures !refused && confirmed && id !in old(visibleWidgets) ==>
                visibleWidgets == old(visibleWidgets) + [id]
                && layouts == DefaultLayouts && layoutVersion == old(layoutVersion) + 1
      ensures NoDuplicates(old(visibleWidgets)) && |old(visibleWidgets)| >= MinWidgets ==>
                |visibleWidgets| >= MinWidgets
    {
      if |visibleWidgets| <= MinWidgets {
        return true;
      }
      refused := false;
      if confirmed {
        var _ := ToggleWidget(id);
      }
    }

    /**
     * `onLayoutChange(currentLayout, allLayouts)`: outside edit mode nothing changes; in edit mode
     * each breakpoint the grid reports is merged into the previous layouts.
     */
    method OnLayoutChange(allLayouts: seq<(string, seq<LayoutItem>)>)
      modifies this
      ensures selectedMonth == old(selectedMonth) && isEditMode == old(isEditMode)
      ensures visibleWidgets == old(visibleWidgets) && layoutVersion == old(layoutVersion)
      ensures !old(isEditMode) ==> layouts == old(layouts)
      ensures old(isEditMode) ==> layouts == ChangedLayouts(old(layouts), allLayouts)
    {
      if !isEditMode {
        return;
      }
      layouts := MergeLayouts(layouts, allLayouts);
    }

    /** `resetLayout()` with the user's answer: when confirmed, the default layouts, a new layout
      * version and edit mode off. */
    method ResetLayout(confirmed: bool)
      modifies this
      ensures selectedMonth == old(selectedMonth) && visibleWidgets == old(visibleWidgets)
      ensures confirmed ==> layouts == DefaultLayouts && layoutVersion == old(layoutVersion) + 1 && !isEditMode
      ensures !confirmed ==> layouts == old(layouts) && layoutVersion == old(layoutVersion) && isEditMode == old(isEditMode)
    {
      if confirmed {
        layouts := DefaultLayouts;
        layoutVersion := layoutVersion + 1;
        isEditMode := false;
      }
    }

    method SetEditMode(on: bool)
      modifies this
      ensures isEditMode == on
      ensures selectedMonth == old(selectedMonth) && visibleWidgets == old(visibleWidgets)
      ensures layouts == old(layouts) && layoutVersion == old(layoutVersion)
    {
      isEditMode := on;
    }

    /** `goToPrevMonth()`: the previous month, December of the year before after January. */
    method GoToPrevMonth()
      modifies this
      ensures selectedMonth == PrevMonth(old(selectedMonth))
      ensures old(selectedMonth).Valid() ==> selectedMonth.Valid()
      ensures isEditMode == old(isEditMode) && visibleWidgets == old(visibleWidgets)
      ensures layouts == old(layouts) && layoutVersion == old(layoutVersion)
    {
      if selectedMonth.month == 0 {
        selectedMonth := MonthRef(11, selectedMonth.year - 1);
      } else {
        selectedMonth := MonthRef(selectedMonth.month - 1, selectedMonth.year);
      }
    }

    /** `goToNextMonth()`: the next month, January of the year after after December. */
    method GoToNextMonth()
      modifies this
      ensures selectedMonth == NextMonth(old(selectedMonth))
      ensures old(selectedMonth).Valid() ==> selectedMonth.Valid()
      ensures isEditMode == old(isEditMode) && visibleWidgets == old(visibleWidgets)
      ensures layouts == old(layouts) && layoutVersion == old(layoutVersion)
    {
      if selectedMonth.month == 11 {
        selectedMonth := MonthRef(0, selectedMonth.year + 1);
      } else {
        selectedMonth := MonthRef(selectedMonth.month + 1, selectedMonth.year);
      }
    }
  }

  /** The `setLayouts` updater of `onLayoutChange`: `next = { ...prev }`, then each reported
    * breakpoint merged into `prev`'s layout. */
  method MergeLayouts(prev: Layouts, allLayouts: seq<(string, seq<LayoutItem>)>) returns (next: Layouts)
    ensures next == ChangedLayouts(prev, allLayouts)
  {
    next := prev;
    for k := 0 to |allLayouts|
      invariant next == ChangedLayouts(prev, allLayouts[..k])
    {
      var (bp, incoming) := allLayouts[k];
      var merged := MergeBreakpoint(PreviousLayout(prev, bp), bp, incoming);
      next := next[bp := merged];
      assert allLayouts[..k + 1][..k] == allLayouts[..k];
    }
    assert allLayouts[..|allLayouts|] == allLayouts;
  }

  /** Filtering out a widget that was just appended (and was not visible before) restores the
    * list of visible widgets. */
  lemma AddThenRemove(ws: seq<string>, id: string)
    requires id !in ws
    ensures Without(ws + [id], id) == ws
  {
    assert (ws + [id])[..|ws + [id]| - 1] == ws;
  }
}
