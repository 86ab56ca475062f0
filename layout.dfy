/** The widget-layout store (src/stores/layout.ts). On load it reconciles the saved widget
    list with the store's own default list: default widgets whose id is missing are
    appended, a widget whose row drifted more than five rows from its default is snapped
    back to the default geometry, and the saved top-level keys are overlaid on the
    default ones. The store also moves, resizes and shows or hides one widget at a time. */
module Layout {
  import opened Wrappers
  import opened Types
  import Storage

  /** The layout store's default layout (not the storage module's one). */
  const DefaultLayout: LayoutConfig := LayoutConfig(
    [ Widget("search", "search", "搜索", 2, 2, 8, 5, true),
      Widget("navigation", "navigation", "快速导航", 2, 8, 8, 3, true),
      Widget("github", "github", "GitHub趋势", 0, 12, 4, 8, true),
      Widget("zhihu", "zhihu", "知乎热榜", 4, 12, 4, 8, true),
      Widget("v2ex", "v2ex", "V2EX热议", 8, 12, 4, 8, true) ],
    12, 45, 16, Some(0.85))

  /** How far a saved widget's row may be from its default row before it is snapped back. */
  const MaxDrift: int := 5

  function Abs(n: int): nat { if n < 0 then -n else n }

  // ---------------------------------------------------------------------------
  // Lookup by id
  // ---------------------------------------------------------------------------

  /** `ws.some(w => w.id === id)`. */
  predicate HasId(ws: seq<Widget>, id: string)
  {
    exists i :: 0 <= i < |ws| && ws[i].id == id
  }

  predicate DistinctIds(ws: seq<Widget>)
  {
    forall i, j :: 0 <= i < j < |ws| ==> ws[i].id != ws[j].id
  }

  /** The index `ws.find(w => w.id === id)` lands on: the first widget with that id. */
  function FindById(ws: seq<Widget>, id: string): (r: Option<nat>)
    ensures r.Some? ==> r.value < |ws| && ws[r.value].id == id
    ensures r.Some? ==> forall j :: 0 <= j < r.value ==> ws[j].id != id
    ensures r.None? <==> !HasId(ws, id)
  {
    if ws == [] then None
    else if ws[0].id == id then Some(0)
    else match FindById(ws[1..], id)
      case None => None
      case Some(i) => Some(i + 1)
  }

  /** Lists whose ids agree position by position find the same index for every id. */
  lemma FindBySameIds(a: seq<Widget>, b: seq<Widget>, id: string)
    requires |a| == |b| && forall i :: 0 <= i < |a| ==> a[i].id == b[i].id
    ensures FindById(a, id) == FindById(b, id)
  {
  }

  // ---------------------------------------------------------------------------
  // loadLayout: the reconciliation, as specification functions
  // ---------------------------------------------------------------------------

  /** The first loop of loadLayout: walk the defaults in order and append a copy of each
      whose id is not yet in the list. The list only grows at its end. */
  function AppendMissing(merged: seq<Widget>, defaults: seq<Widget>): (r: seq<Widget>)
    ensures |merged| <= |r| && r[..|merged|] == merged
    decreases |defaults|
  {
    if defaults == [] then merged
    else
      var next := if HasId(merged, defaults[0].id) then merged else merged + [defaults[0]];
      AppendMissing(next, defaults[1..])
  }

  /** The defaults whose id does not occur in `saved`, in their order. */
  function MissingDefaults(saved: seq<Widget>, defaults: seq<Widget>): seq<Widget>
  {
    if defaults == [] then []
    else (if HasId(saved, defaults[0].id) then [] else [defaults[0]]) + MissingDefaults(saved, defaults[1..])
  }

  /** A widget is among the missing defaults exactly when it is a default whose id does
      not occur in `saved`. */
  lemma {:induction false} MissingDefaultsMembers(saved: seq<Widget>, defaults: seq<Widget>)
    ensures forall w :: w in MissingDefaults(saved, defaults) <==> w in defaults && !HasId(saved, w.id)
    decreases |defaults|
  {
    if defaults != [] {
      MissingDefaultsMembers(saved, defaults[1..]);
      assert defaults == [defaults[0]] + defaults[1..];
    }
  }

  /** The widget whose row is more than MaxDrift rows away from the first default with its
      id has drifted. */
  predicate Drifted(widget: Widget, defaults: seq<Widget>)
  {
    var d := FindById(defaults, widget.id);
    d.Some? && Abs(widget.y - defaults[d.value].y) > MaxDrift
  }

  /** Everything but the geometry: id, type, title and visibility. */
  predicate SameIdentity(a: Widget, b: Widget)
  {
    a.id == b.id && a.kind == b.kind && a.title == b.title && a.visible == b.visible
  }

  /** The second loop's step for one widget: a drifted widget takes its default's x, y, w
      and h and keeps everything else; any other widget is left as it is. */
  function Snap(widget: Widget, defaults: seq<Widget>): (r: Widget)
    ensures SameIdentity(r, widget)
    ensures Drifted(widget, defaults) ==>
      var d := defaults[FindById(defaults, widget.id).value];
      r.x == d.x && r.y == d.y && r.w == d.w && r.h == d.h
    ensures !Drifted(widget, defaults) ==> r == widget
  {
    if Drifted(widget, defaults) then
      var d := defaults[FindById(defaults, widget.id).value];
      widget.(x := d.x, y := d.y, w := d.w, h := d.h)
    else widget
  }

  function SnapAll(ws: seq<Widget>, defaults: seq<Widget>): (r: seq<Widget>)
    ensures |r| == |ws| && forall i :: 0 <= i < |ws| ==> r[i] == Snap(ws[i], defaults)
  {
    seq(|ws|, i requires 0 <= i < |ws| => Snap(ws[i], defaults))
  }

  /** The widget list loadLayout builds from the saved list. */
  function MergeWidgets(saved: seq<Widget>, defaults: seq<Widget>): (r: seq<Widget>)
    ensures |saved| <= |r|
    ensures forall i :: 0 <= i < |saved| ==> r[i] == Snap(saved[i], defaults)
  {
    SnapAll(AppendMissing(saved, defaults), defaults)
  }

  /** `{ ...DEFAULT_LAYOUT, ...saved, widgets: merged }`, where `saved` is what getLayout
      returned: every key of it wins, `widgetOpacity` only when it is set. */
  function LoadedLayout(saved: LayoutConfig): (r: LayoutConfig)
    ensures r.widgets == MergeWidgets(saved.widgets, DefaultLayout.widgets)
    ensures r.gridCols == saved.gridCols && r.gridRowHeight == saved.gridRowHeight && r.gap == saved.gap
    ensures r.widgetOpacity == if saved.widgetOpacity.Some? then saved.widgetOpacity else DefaultLayout.widgetOpacity
  {
    LayoutConfig(
      MergeWidgets(saved.widgets, DefaultLayout.widgets),
      saved.gridCols, saved.gridRowHeight, saved.gap,
      if saved.widgetOpacity.Some? then saved.widgetOpacity else DefaultLayout.widgetOpacity)
  }

  // ---------------------------------------------------------------------------
  // loadLayout: what the reconciliation guarantees
  // ---------------------------------------------------------------------------

  lemma {:induction false} AppendMissingCovers(merged: seq<Widget>, defaults: seq<Widget>)
    ensures forall d :: d in defaults ==> HasId(AppendMissing(merged, defaults), d.id)
    ensures forall id :: HasId(merged, id) ==> HasId(AppendMissing(merged, defaults), id)
    decreases |defaults|
  {
    if defaults != [] {
      var next := if HasId(merged, defaults[0].id) then merged else merged + [defaults[0]];
      assert HasId(next, defaults[0].id) by {
        if !HasId(merged, defaults[0].id) {
          assert next[|merged|] == defaults[0];
        }
      }
      assert forall id :: HasId(merged, id) ==> HasId(next, id) by {
        forall id | HasId(merged, id) ensures HasId(next, id) {
          var i :| 0 <= i < |merged| && merged[i].id == id;
          assert next[i] == merged[i];
        }
      }
      AppendMissingCovers(next, defaults[1..]);
      forall d | d in defaults ensures HasId(AppendMissing(merged, defaults), d.id) {
        if d != defaults[0] {
          assert d in defaults[1..];
        }
      }
    }
  }

  /** Coverage: after the merge every default id occurs. */
  lemma MergeCoversDefaults(saved: seq<Widget>, defaults: seq<Widget>)
    ensures forall d :: d in defaults ==> HasId(MergeWidgets(saved, defaults), d.id)
  {
    var appended := AppendMissing(saved, defaults);
    AppendMissingCovers(saved, defaults);
    forall d | d in defaults ensures HasId(MergeWidgets(saved, defaults), d.id) {
      var i :| 0 <= i < |appended| && appended[i].id == d.id;
      assert MergeWidgets(saved, defaults)[i].id == d.id;
    }
  }

  /** Appending `w` changes no answer for the defaults after it when their ids differ
      from `w`'s. */
  lemma {:induction false} MissingDefaultsAppend(merged: seq<Widget>, w: Widget, defaults: seq<Widget>)
    requires forall d :: d in defaults ==> d.id != w.id
    ensures MissingDefaults(merged + [w], defaults) == MissingDefaults(merged, defaults)
    decreases |defaults|
  {
    if defaults != [] {
      var id := defaults[0].id;
      assert HasId(merged + [w], id) == HasId(merged, id) by {
        if HasId(merged + [w], id) {
          var i :| 0 <= i < |merged + [w]| && (merged + [w])[i].id == id;
          assert i < |merged| && merged[i].id == id;
        }
        if HasId(merged, id) {
          var i :| 0 <= i < |merged| && merged[i].id == id;
          assert (merged + [w])[i].id == id;
        }
      }
      MissingDefaultsAppend(merged, w, defaults[1..]);
    }
  }

  /** With distinct default ids, the appending loop adds exactly the missing defaults. */
  lemma {:induction false} AppendMissingIsFilter(merged: seq<Widget>, defaults: seq<Widget>)
    requires DistinctIds(defaults)
    ensures AppendMissing(merged, defaults) == merged + MissingDefaults(merged, defaults)
    decreases |defaults|
  {
    if defaults == [] {
      assert merged + [] == merged;
    } else {
      var d := defaults[0];
      var rest := defaults[1..];
      DistinctTail(defaults);
      var next := if HasId(merged, d.id) then merged else merged + [d];
      assert AppendMissing(merged, defaults) == AppendMissing(next, rest);
      AppendMissingIsFilter(next, rest);
      AppendMissingStep(merged, defaults);
    }
  }

  /** One turn of the appending loop keeps "the list so far followed by what is still
      missing" the same, when no later default shares the first default's id. */
  lemma AppendMissingStep(merged: seq<Widget>, defaults: seq<Widget>)
    requires defaults != []
    requires forall e :: e in defaults[1..] ==> e.id != defaults[0].id
    ensures var next := if HasId(merged, defaults[0].id) then merged else merged + [defaults[0]];
      next + MissingDefaults(next, defaults[1..]) == merged + MissingDefaults(merged, defaults)
  {
    var d := defaults[0];
    var rest := defaults[1..];
    if HasId(merged, d.id) {
      assert MissingDefaults(merged, defaults) == MissingDefaults(merged, rest);
    } else {
      assert MissingDefaults(merged, defaults) == [d] + MissingDefaults(merged, rest);
      MissingDefaultsAppend(merged, d, rest);
      assert merged + [d] + MissingDefaults(merged, rest) == merged + ([d] + MissingDefaults(merged, rest));
    }
  }

  /** Without its first widget a list with distinct ids still has distinct ids, none of
      them the first widget's. */
  lemma DistinctTail(defaults: seq<Widget>)
    requires DistinctIds(defaults) && defaults != []
    ensures DistinctIds(defaults[1..])
    ensures forall e :: e in defaults[1..] ==> e.id != defaults[0].id
  {
    var rest := defaults[1..];
    forall i, j | 0 <= i < j < |rest| ensures rest[i].id != rest[j].id {
      assert rest[i] == defaults[i + 1] && rest[j] == defaults[j + 1];
    }
    forall e | e in rest ensures e.id != defaults[0].id {
      var k :| 0 <= k < |rest| && rest[k] == e;
      assert defaults[k + 1] == e;
    }
  }

  /** The merged list is the saved list, each widget snapped, followed by the missing
      defaults in their order; so its length is the saved length plus the number of
      missing defaults. A missing default is appended as it is. */
  lemma MergeShape(saved: seq<Widget>, defaults: seq<Widget>)
    requires DistinctIds(defaults)
    ensures var m := MergeWidgets(saved, defaults); var missing := MissingDefaults(saved, defaults);
      && |m| == |saved| + |missing|
      && (forall i :: 0 <= i < |saved| ==> m[i] == Snap(saved[i], defaults))
      && (forall j :: 0 <= j < |missing| ==> m[|saved| + j] == missing[j])
  {
    var missing := MissingDefaults(saved, defaults);
    AppendMissingIsFilter(saved, defaults);
    MissingDefaultsMembers(saved, defaults);
    var appended := saved + missing;
    forall j | 0 <= j < |missing| ensures Snap(missing[j], defaults) == missing[j] {
      var d := missing[j];
      assert d in defaults;
      var k :| 0 <= k < |defaults| && defaults[k] == d;
      assert FindById(defaults, d.id) == Some(k);
    }
    forall j | 0 <= j < |missing| ensures MergeWidgets(saved, defaults)[|saved| + j] == missing[j] {
      assert appended[|saved| + j] == missing[j];
    }
  }

  /** The missing defaults repeat no id when the defaults repeat none. */
  lemma {:induction false} MissingDefaultsDistinct(saved: seq<Widget>, defaults: seq<Widget>)
    requires DistinctIds(defaults)
    ensures DistinctIds(MissingDefaults(saved, defaults))
    decreases |defaults|
  {
    if defaults != [] {
      var rest := defaults[1..];
      DistinctTail(defaults);
      MissingDefaultsDistinct(saved, rest);
      MissingDefaultsMembers(saved, rest);
      var tail := MissingDefaults(saved, rest);
      if !HasId(saved, defaults[0].id) {
        PrependDistinct(defaults[0], tail);
      }
    }
  }

  /** A widget whose id no widget of a distinct list has can go in front of it. */
  lemma PrependDistinct(w: Widget, ws: seq<Widget>)
    requires DistinctIds(ws) && forall v :: v in ws ==> v.id != w.id
    ensures DistinctIds([w] + ws)
  {
    var r := [w] + ws;
    forall i, j | 0 <= i < j < |r| ensures r[i].id != r[j].id {
      assert r[j] == ws[j - 1];
      if i > 0 {
        assert r[i] == ws[i - 1];
      }
    }
  }

  /** A saved list without repeated ids merges into a list without repeated ids. */
  lemma MergeKeepsDistinct(saved: seq<Widget>, defaults: seq<Widget>)
    requires DistinctIds(saved) && DistinctIds(defaults)
    ensures DistinctIds(MergeWidgets(saved, defaults))
  {
    var m := MergeWidgets(saved, defaults);
    var missing := MissingDefaults(saved, defaults);
    MergeShape(saved, defaults);
    MissingDefaultsDistinct(saved, defaults);
    MissingDefaultsMembers(saved, defaults);
    forall i, j | 0 <= i < j < |m| ensures m[i].id != m[j].id {
      if j < |saved| {
        assert m[i].id == saved[i].id && m[j].id == saved[j].id;
      } else if i < |saved| {
        var w := missing[j - |saved|];
        assert m[j] == w && w in missing;
        assert m[i].id == saved[i].id;
      } else {
        assert m[i] == missing[i - |saved|] && m[j] == missing[j - |saved|];
      }
    }
  }

  /** Once every default id is present, the appending loop adds nothing. */
  lemma {:induction false} AppendMissingNothing(merged: seq<Widget>, defaults: seq<Widget>)
    requires forall d :: d in defaults ==> HasId(merged, d.id)
    ensures AppendMissing(merged, defaults) == merged
    decreases |defaults|
  {
    if defaults != [] {
      assert defaults[0] in defaults;
      AppendMissingNothing(merged, defaults[1..]);
    }
  }

  /** A snapped widget no longer drifts, so snapping it again changes nothing. */
  lemma SnapIdempotent(widget: Widget, defaults: seq<Widget>)
    ensures Snap(Snap(widget, defaults), defaults) == Snap(widget, defaults)
  {
  }

  /** Idempotence: merging the merged list again gives the same list. */
  lemma MergeIdempotent(saved: seq<Widget>, defaults: seq<Widget>)
    ensures MergeWidgets(MergeWidgets(saved, defaults), defaults) == MergeWidgets(saved, defaults)
  {
    var m := MergeWidgets(saved, defaults);
    MergeCoversDefaults(saved, defaults);
    AppendMissingNothing(m, defaults);
    forall i | 0 <= i < |m| ensures Snap(m[i], defaults) == m[i] {
      SnapIdempotent(AppendMissing(saved, defaults)[i], defaults);
    }
  }

  /** Loading a loaded layout again, or saving it and loading it back through storage,
      gives the same layout. */
  lemma LoadedLayoutIdempotent(saved: LayoutConfig)
    ensures LoadedLayout(LoadedLayout(saved)) == LoadedLayout(saved)
    ensures LoadedLayout(Storage.LayoutFrom(Storage.Stored(Storage.SavedFrom(LoadedLayout(saved))))) == LoadedLayout(saved)
  {
    MergeIdempotent(saved.widgets, DefaultLayout.widgets);
    Storage.LayoutRoundTrip(LoadedLayout(saved));
  }

  /** Both default lists have distinct ids, so every lookup by id in them is unambiguous. */
  lemma DefaultIdsDistinct()
    ensures DistinctIds(DefaultLayout.widgets)
    ensures DistinctIds(Storage.DefaultLayout.widgets)
  {
  }

  /** Where each id sits in the store's default list. */
  lemma DefaultIndices()
    ensures FindById(DefaultLayout.widgets, "search") == Some(0)
    ensures FindById(DefaultLayout.widgets, "navigation") == Some(1)
    ensures FindById(DefaultLayout.widgets, "github") == Some(2)
    ensures FindById(DefaultLayout.widgets, "zhihu") == Some(3)
    ensures FindById(DefaultLayout.widgets, "v2ex") == Some(4)
  {
    var ds := DefaultLayout.widgets;
    DefaultIdsDistinct();
    assert ds[0].id == "search" && ds[1].id == "navigation" && ds[2].id == "github" && ds[3].id == "zhihu" && ds[4].id == "v2ex";
  }

  /** When exactly one default's id is absent from `saved`, the missing defaults are that
      one default. */
  lemma {:induction false} OnlyOneMissing(saved: seq<Widget>, defaults: seq<Widget>, k: nat)
    requires k < |defaults|
    requires !HasId(saved, defaults[k].id)
    requires forall j :: 0 <= j < |defaults| && j != k ==> HasId(saved, defaults[j].id)
    ensures MissingDefaults(saved, defaults) == [defaults[k]]
    decreases |defaults|
  {
    if k == 0 {
      NoneMissing(saved, defaults[1..]);
    } else {
      OnlyOneMissing(saved, defaults[1..], k - 1);
    }
  }

  lemma {:induction false} NoneMissing(saved: seq<Widget>, defaults: seq<Widget>)
    requires forall j :: 0 <= j < |defaults| ==> HasId(saved, defaults[j].id)
    ensures MissingDefaults(saved, defaults) == []
    decreases |defaults|
  {
    if defaults != [] {
      NoneMissing(saved, defaults[1..]);
    }
  }

  /** The storage module's default list has every id of the store's defaults but
      navigation. */
  lemma StorageDefaultIds()
    ensures HasId(Storage.DefaultLayout.widgets, "search")
    ensures HasId(Storage.DefaultLayout.widgets, "github")
    ensures HasId(Storage.DefaultLayout.widgets, "zhihu")
    ensures HasId(Storage.DefaultLayout.widgets, "v2ex")
    ensures !HasId(Storage.DefaultLayout.widgets, "navigation")
  {
    var saved := Storage.DefaultLayout.widgets;
    assert saved[0].id == "search" && saved[1].id == "github" && saved[2].id == "zhihu" && saved[3].id == "v2ex";
  }

  /** With the storage defaults as the saved list, only navigation is missing. */
  lemma FirstLoadMissing()
    ensures MissingDefaults(Storage.DefaultLayout.widgets, DefaultLayout.widgets) == [DefaultLayout.widgets[1]]
  {
    var saved := Storage.DefaultLayout.widgets;
    var defaults := DefaultLayout.widgets;
    StorageDefaultIds();
    assert defaults[0].id == "search" && defaults[1].id == "navigation" && defaults[2].id == "github";
    assert defaults[3].id == "zhihu" && defaults[4].id == "v2ex";
    OnlyOneMissing(saved, defaults, 1);
  }

  /** With nothing saved, getLayout returns the storage module's defaults; against the
      store's defaults the github, zhihu and v2ex widgets have drifted seven rows and are
      snapped back, search keeps its storage geometry (same row), and navigation is
      appended at the end. */
  lemma FirstLoad()
    ensures LoadedLayout(Storage.LayoutFrom(Storage.Missing)) == LayoutConfig(
      [ Widget("search", "search", "搜索", 2, 2, 8, 2, true),
        Widget("github", "github", "GitHub趋势", 0, 12, 4, 8, true),
        Widget("zhihu", "zhihu", "知乎热榜", 4, 12, 4, 8, true),
        Widget("v2ex", "v2ex", "V2EX热议", 8, 12, 4, 8, true),
        Widget("navigation", "navigation", "快速导航", 2, 8, 8, 3, true) ],
      12, 50, 16, Some(0.85))
  {
    FirstLoadWidgets();
    assert Storage.LayoutFrom(Storage.Missing) == Storage.DefaultLayout;
  }

  /** The merged widget list of the first load, by position: the storage default's search
      widget, the store's github, zhihu and v2ex widgets, then the store's navigation. */
  lemma FirstLoadWidgets()
    ensures var defaults := DefaultLayout.widgets;
      MergeWidgets(Storage.DefaultLayout.widgets, defaults)
        == [Storage.DefaultLayout.widgets[0], defaults[2], defaults[3], defaults[4], defaults[1]]
  {
    var defaults := DefaultLayout.widgets;
    var saved := Storage.DefaultLayout.widgets;
    FirstLoadMissing();
    DefaultIdsDistinct();
    MergeOfFour(saved, defaults);
    DefaultIndices();
    SnapKeeps(saved[0], defaults, 0);
    SnapToDefault(saved[1], defaults, 2);
    SnapToDefault(saved[2], defaults, 3);
    SnapToDefault(saved[3], defaults, 4);
  }

  /** Four saved widgets with one default missing merge into the four snapped widgets
      followed by that default. */
  lemma MergeOfFour(saved: seq<Widget>, defaults: seq<Widget>)
    requires |saved| == 4 && DistinctIds(defaults) && |MissingDefaults(saved, defaults)| == 1
    ensures MergeWidgets(saved, defaults) ==
      [Snap(saved[0], defaults), Snap(saved[1], defaults), Snap(saved[2], defaults), Snap(saved[3], defaults),
       MissingDefaults(saved, defaults)[0]]
  {
    MergeShape(saved, defaults);
  }


  /** A widget within MaxDrift rows of its default is kept as it is. */
  lemma SnapKeeps(widget: Widget, defaults: seq<Widget>, k: nat)
    requires k < |defaults| && FindById(defaults, widget.id) == Some(k)
    requires Abs(widget.y - defaults[k].y) <= MaxDrift
    ensures Snap(widget, defaults) == widget
  {
  }

  /** A drifted widget that agrees with its default on everything but geometry becomes
      that default. */
  lemma SnapToDefault(widget: Widget, defaults: seq<Widget>, k: nat)
    requires k < |defaults| && FindById(defaults, widget.id) == Some(k)
    requires Abs(widget.y - defaults[k].y) > MaxDrift && SameIdentity(widget, defaults[k])
    ensures Snap(widget, defaults) == defaults[k]
  {
  }

  // ---------------------------------------------------------------------------
  // Per-widget updates and the visible filter
  // ---------------------------------------------------------------------------

  predicate SamePosition(a: Widget, b: Widget) { a.x == b.x && a.y == b.y }

  predicate SameSize(a: Widget, b: Widget) { a.w == b.w && a.h == b.h }

  /** updateWidgetPosition's effect on the list: the first widget with `id` gets the new
      x and y; nothing else changes, and an unknown id changes nothing. */
  function Moved(ws: seq<Widget>, id: string, x: int, y: int): (r: seq<Widget>)
    ensures |r| == |ws|
    ensures !HasId(ws, id) ==> r == ws
    ensures forall i :: 0 <= i < |ws| ==> SameIdentity(r[i], ws[i]) && SameSize(r[i], ws[i])
    ensures forall i :: 0 <= i < |ws| && FindById(ws, id) != Some(i) ==> r[i] == ws[i]
    ensures HasId(ws, id) ==> r[FindById(ws, id).value].x == x && r[FindById(ws, id).value].y == y
  {
    match FindById(ws, id)
    case None => ws
    case Some(i) => ws[i := ws[i].(x := x, y := y)]
  }

  /** updateWidgetSize's effect on the list: the first widget with `id` gets the new w and
      h; nothing else changes, and an unknown id changes nothing. */
  function Resized(ws: seq<Widget>, id: string, w: int, h: int): (r: seq<Widget>)
    ensures |r| == |ws|
    ensures !HasId(ws, id) ==> r == ws
    ensures forall i :: 0 <= i < |ws| ==> SameIdentity(r[i], ws[i]) && SamePosition(r[i], ws[i])
    ensures forall i :: 0 <= i < |ws| && FindById(ws, id) != Some(i) ==> r[i] == ws[i]
    ensures HasId(ws, id) ==> r[FindById(ws, id).value].w == w && r[FindById(ws, id).value].h == h
  {
    match FindById(ws, id)
    case None => ws
    case Some(i) => ws[i := ws[i].(w := w, h := h)]
  }

  /** toggleWidgetVisibility's effect on the list: the first widget with `id` flips its
      visibility; nothing else changes, and an unknown id changes nothing. */
  function Toggled(ws: seq<Widget>, id: string): (r: seq<Widget>)
    ensures |r| == |ws|
    ensures !HasId(ws, id) ==> r == ws
    ensures forall i :: 0 <= i < |ws| ==>
      && r[i].id == ws[i].id && r[i].kind == ws[i].kind && r[i].title == ws[i].title
      && SamePosition(r[i], ws[i]) && SameSize(r[i], ws[i])
    ensures forall i :: 0 <= i < |ws| && FindById(ws, id) != Some(i) ==> r[i] == ws[i]
    ensures HasId(ws, id) ==> r[FindById(ws, id).value].visible == !ws[FindById(ws, id).value].visible
  {
    match FindById(ws, id)
    case None => ws
    case Some(i) => ws[i := ws[i].(visible := !ws[i].visible)]
  }

  /** Toggling the same widget twice restores the list. */
  lemma ToggleTwice(ws: seq<Widget>, id: string)
    ensures Toggled(Toggled(ws, id), id) == ws
  {
    FindBySameIds(Toggled(ws, id), ws, id);
  }

  /** The updates never change which ids are present, so the reconciliation's coverage
      survives them. */
  lemma UpdatesKeepIds(ws: seq<Widget>, id: string, other: string, a: int, b: int)
    ensures HasId(Moved(ws, id, a, b), other) == HasId(ws, other)
    ensures HasId(Resized(ws, id, a, b), other) == HasId(ws, other)
    ensures HasId(Toggled(ws, id), other) == HasId(ws, other)
  {
    FindBySameIds(Moved(ws, id, a, b), ws, other);
    FindBySameIds(Resized(ws, id, a, b), ws, other);
    FindBySameIds(Toggled(ws, id), ws, other);
  }

  /** `ws.filter(w => w.visible)`. */
  function VisibleOf(ws: seq<Widget>): (r: seq<Widget>)
    ensures forall w :: w in r <==> w in ws && w.visible
    ensures |r| <= |ws|
  {
    if ws == [] then [] else (if ws[0].visible then [ws[0]] else []) + VisibleOf(ws[1..])
  }

  /** The filter keeps order: filtering a concatenation concatenates the filtered parts. */
  lemma {:induction false} VisibleOfConcat(a: seq<Widget>, b: seq<Widget>)
    ensures VisibleOf(a + b) == VisibleOf(a) + VisibleOf(b)
    decreases |a|
  {
    if a == [] {
      assert a + b == b;
    } else {
      assert (a + b)[0] == a[0];
      assert (a + b)[1..] == a[1..] + b;
      VisibleOfConcat(a[1..], b);
    }
  }

  // ---------------------------------------------------------------------------
  // The store
  // ---------------------------------------------------------------------------

  /** loadLayout's two loops: append the missing defaults, then snap drifted widgets back. */
  method ReconcileWidgets(saved: seq<Widget>, defaults: seq<Widget>) returns (merged: seq<Widget>)
    ensures merged == MergeWidgets(saved, defaults)
  {
    var appended := AddMissingDefaults(saved, defaults);
    merged := SnapDrifted(appended, defaults);
  }

  /** The first loop: push a copy of every default whose id the list lacks. */
  method AddMissingDefaults(saved: seq<Widget>, defaults: seq<Widget>) returns (merged: seq<Widget>)
    ensures merged == AppendMissing(saved, defaults)
  {
    merged := saved;
    var i := 0;
    while i < |defaults|
      invariant 0 <= i <= |defaults|
      invariant AppendMissing(merged, defaults[i..]) == AppendMissing(saved, defaults)
    {
      assert defaults[i..][1..] == defaults[i + 1..];
      if !HasId(merged, defaults[i].id) {
        merged := merged + [defaults[i]];
      }
      i := i + 1;
    }
  }

  /** The second loop: move every drifted widget back to its default's geometry. */
  method SnapDrifted(ws: seq<Widget>, defaults: seq<Widget>) returns (merged: seq<Widget>)
    ensures merged == SnapAll(ws, defaults)
  {
    merged := ws;
    var j := 0;
    while j < |merged|
      invariant 0 <= j <= |merged| == |ws|
      invariant forall k :: 0 <= k < j ==> merged[k] == Snap(ws[k], defaults)
      invariant forall k :: j <= k < |merged| ==> merged[k] == ws[k]
    {
      var d := FindById(defaults, merged[j].id);
      if d.Some? && Abs(merged[j].y - defaults[d.value].y) > MaxDrift {
        var def := defaults[d.value];
        merged := merged[j := merged[j].(x := def.x, y := def.y, w := def.w, h := def.h)];
      }
      assert merged[j] == Snap(ws[j], defaults);
      j := j + 1;
    }
  }


  class LayoutStore {
    var layout: LayoutConfig
    var isEditing: bool

    /** The store starts from its own default layout, not editing. */
    constructor ()
      ensures layout == DefaultLayout && !isEditing
    {
      layout := DefaultLayout;
      isEditing := false;
    }

    /** The `visibleWidgets` computed value. */
    function VisibleWidgets(): (r: seq<Widget>)
      reads this
      ensures forall w :: w in r <==> w in layout.widgets && w.visible
      ensures r == VisibleOf(layout.widgets)
    {
      VisibleOf(layout.widgets)
    }

    method LoadLayout(storage: Storage.ChromeStorage)
      modifies this`layout
      ensures layout == LoadedLayout(Storage.LayoutFrom(storage.layout))
    {
      var saved := storage.GetLayout();
      var merged := ReconcileWidgets(saved.widgets, DefaultLayout.widgets);
      layout := LayoutConfig(
        merged, saved.gridCols, saved.gridRowHeight, saved.gap,
        if saved.widgetOpacity.Some? then saved.widgetOpacity else DefaultLayout.widgetOpacity);
    }

    method SaveLayout(storage: Storage.ChromeStorage)
      modifies storage`layout
      ensures storage.layout == Storage.Stored(Storage.SavedFrom(layout))
    {
      storage.SetLayout(layout);
    }

    method UpdateWidgetPosition(id: string, x: int, y: int)
      modifies this`layout
      ensures layout == old(layout).(widgets := Moved(old(layout.widgets), id, x, y))
    {
      var found := FindById(layout.widgets, id);
      if found.Some? {
        var i := found.value;
        layout := layout.(widgets := layout.widgets[i := layout.widgets[i].(x := x, y := y)]);
      }
    }

    method UpdateWidgetSize(id: string, w: int, h: int)
      modifies this`layout
      ensures layout == old(layout).(widgets := Resized(old(layout.widgets), id, w, h))
    {
      var found := FindById(layout.widgets, id);
      if found.Some? {
        var i := found.value;
        layout := layout.(widgets := layout.widgets[i := layout.widgets[i].(w := w, h := h)]);
      }
    }

    method ToggleWidgetVisibility(id: string)
      modifies this`layout
      ensures layout == old(layout).(widgets := Toggled(old(layout.widgets), id))
    {
      var found := FindById(layout.widgets, id);
      if found.Some? {
        var i := found.value;
        layout := layout.(widgets := layout.widgets[i := layout.widgets[i].(visible := !layout.widgets[i].visible)]);
      }
    }

    /** resetLayout: back to the store's default layout, which is also saved. */
    method ResetLayout(storage: Storage.ChromeStorage)
      modifies this`layout, storage`layout
      ensures layout == DefaultLayout
      ensures storage.layout == Storage.Stored(Storage.SavedFrom(DefaultLayout))
    {
      layout := DefaultLayout;
      SaveLayout(storage);
    }

    method StartEditing()
      modifies this`isEditing
      ensures isEditing
    {
      isEditing := true;
    }

    /** stopEditing ends the editing mode and saves the layout. */
    method StopEditing(storage: Storage.ChromeStorage)
      modifies this`isEditing, storage`layout
      ensures !isEditing
      ensures storage.layout == Storage.Stored(Storage.SavedFrom(layout))
    {
      isEditing := false;
      SaveLayout(storage);
    }

    method UpdateWidgetOpacity(opacity: real)
      modifies this`layout
      ensures layout == old(layout).(widgetOpacity := Some(opacity))
    {
      layout := layout.(widgetOpacity := Some(opacity));
    }
  }
}
