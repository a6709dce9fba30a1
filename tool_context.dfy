/**
 * The splat-editing tool context of the scene view: the drag-rectangle helper,
 * the keyboard command dispatcher, the mouse down / drag / up handling keyed on
 * the GUI's hot control, and, on release, the scan of the selection flags that
 * turns the selected splats into one recorded centre.
 *
 * The renderer is a collaborator whose code is not part of this model: every
 * call the tool makes on it is recorded, in order, in SplatRenderer.trace.
 */
module ToolContext {
  import opened Wrappers
  import opened Vectors
  import opened SelectionFlags
  import opened CenterStore

  /** The fields of one exported splat that the tool reads. */
  datatype Splat = Splat(pos: Vec3, scale: Vec3)

  /** The renderer calls the tool makes. */
  datatype RendererAction =
    | DeselectAll
    | SelectAll
    | DeleteSelected
    | InvertSelection
    | StoreSelectionMouseDown
    | UpdateSelection(rectMin: Vec2, rectMax: Vec2, subtract: bool)

  datatype EventType =
    | ValidateCommand
    | ExecuteCommand
    | MouseDown
    | MouseDrag
    | MouseUp
    | Layout
    | Repaint
    | Used
    | Other

  /** The renderer, seen only through the calls made on it. */
  class SplatRenderer {
    var trace: seq<RendererAction>

    constructor ()
      ensures trace == []
    {
      trace := [];
    }

    method Call(action: RendererAction)
      modifies this
      ensures trace == old(trace) + [action]
    {
      trace := trace + [action];
    }
  }

  /** The GUI's global state: `GUIUtility.hotControl`, 0 when no control owns the mouse. */
  class Gui {
    var hotControl: int

    constructor ()
      ensures hotControl == 0
    {
      hotControl := 0;
    }
  }

  /** The current GUI event. `actionKey` is `EditorGUI.actionKey` (command or control). */
  class GuiEvent {
    var kind: EventType
    const button: int
    const shift: bool
    const control: bool
    const actionKey: bool
    const mousePosition: Vec2
    const commandName: string

    constructor (kind: EventType, button: int, shift: bool, control: bool, actionKey: bool,
                 mousePosition: Vec2, commandName: string)
      ensures this.kind == kind && this.button == button
      ensures this.shift == shift && this.control == control && this.actionKey == actionKey
      ensures this.mousePosition == mousePosition && this.commandName == commandName
    {
      this.kind := kind;
      this.button := button;
      this.shift := shift;
      this.control := control;
      this.actionKey := actionKey;
      this.mousePosition := mousePosition;
      this.commandName := commandName;
    }

    /** `Event.Use()`: the event is consumed and no later handler sees its type. */
    method Use()
      modifies this
      ensures kind == Used
    {
      kind := Used;
    }
  }

  // ---------------------------------------------------------------- drag rectangle

  /**
   * FromToRect: the rectangle spanned by two corners given in either order.
   * Its corner is the component-wise minimum, its far corner the component-wise
   * maximum, so its size is never negative.
   */
  function FromToRect(from: Vec2, to: Vec2): (r: Rect)
    ensures r.width >= 0.0 && r.height >= 0.0
    ensures RectMin(r) == Vec2(Min(from.x, to.x), Min(from.y, to.y))
    ensures RectMax(r) == Vec2(Max(from.x, to.x), Max(from.y, to.y))
  {
    var (x0, x1) := if from.x > to.x then (to.x, from.x) else (from.x, to.x);
    var (y0, y1) := if from.y > to.y then (to.y, from.y) else (from.y, to.y);
    Rect(x0, y0, x1 - x0, y1 - y0)
  }

  /** Swapping the corners gives the same rectangle. */
  lemma FromToRectSymmetric(a: Vec2, b: Vec2)
    ensures FromToRect(a, b) == FromToRect(b, a)
  {
  }

  /**
   * The rectangle covers exactly the points lying between the two corners on
   * both axes, whichever corner comes first.
   */
  lemma FromToRectCovers(from: Vec2, to: Vec2, p: Vec2)
    ensures Contains(FromToRect(from, to), p) <==>
      ((from.x <= p.x <= to.x || to.x <= p.x <= from.x) &&
       (from.y <= p.y <= to.y || to.y <= p.y <= from.y))
  {
  }

  // ---------------------------------------------------------------- keyboard commands

  /** The renderer edit a command name stands for; None for names the tool ignores. */
  function CommandAction(name: string): (r: Option<RendererAction>)
    ensures r.Some? <==> name in {"SoftDelete", "Delete", "SelectAll", "DeselectAll", "InvertSelection"}
    ensures r.Some? ==> r.value in {DeleteSelected, SelectAll, DeselectAll, InvertSelection}
  {
    match name
    case "SoftDelete" => Some(DeleteSelected)
    case "Delete" => Some(DeleteSelected)
    case "SelectAll" => Some(SelectAll)
    case "DeselectAll" => Some(DeselectAll)
    case "InvertSelection" => Some(InvertSelection)
    case _ => None
  }

  /**
   * What HandleKeyboardCommands does with an event: whether it consumes it, and
   * the renderer calls it makes.
   */
  function KeyboardEffect(kind: EventType, name: string): (bool, seq<RendererAction>)
  {
    if kind != ValidateCommand && kind != ExecuteCommand then (false, [])
    else match CommandAction(name)
      case None => (false, [])
      case Some(action) => (true, if kind == ExecuteCommand then [action] else [])
  }

  /**
   * The two phases agree on which commands are handled; only the execute phase
   * acts, with exactly the one edit the command stands for; every other event is
   * left alone.
   */
  lemma KeyboardPhases(name: string, kind: EventType)
    ensures KeyboardEffect(ValidateCommand, name).0 == KeyboardEffect(ExecuteCommand, name).0
    ensures KeyboardEffect(ValidateCommand, name).1 == []
    ensures KeyboardEffect(ExecuteCommand, name).0 ==>
      KeyboardEffect(ExecuteCommand, name).1 == [CommandAction(name).value]
    ensures kind != ValidateCommand && kind != ExecuteCommand ==> KeyboardEffect(kind, name) == (false, [])
  {
  }

  /** HandleKeyboardCommands: the validate/execute dispatcher for the editing commands. */
  method HandleKeyboardCommands(evt: GuiEvent, gs: SplatRenderer)
    modifies evt, gs
    ensures var (used, actions) := KeyboardEffect(old(evt.kind), evt.commandName);
      && evt.kind == (if used then Used else old(evt.kind))
      && gs.trace == old(gs.trace) + actions
  {
    if evt.kind != ValidateCommand && evt.kind != ExecuteCommand {
      return;
    }
    var execute := evt.kind == ExecuteCommand;
    var action := CommandAction(evt.commandName);
    if action.Some? {
      if execute {
        gs.Call(action.value);
      }
      evt.Use();
    }
  }

  // ---------------------------------------------------------------- selection scan

  /** The positions of the selected splats among the first n, in index order. */
  function SelectedPositions(data: seq<Splat>, flags: seq<bv32>, n: nat): seq<Vec3>
    requires n <= |data| && n <= 32 * |flags|
  {
    var idx := SelectedIndices(flags, n);
    SelectedIndicesBelow(flags, n);
    seq(|idx|, k requires 0 <= k < |idx| => data[idx[k]].pos)
  }

  /** One more scanned splat adds its position exactly when it is selected. */
  lemma SelectedPositionsStep(data: seq<Splat>, flags: seq<bv32>, i: nat)
    requires i < |data| && i < 32 * |flags|
    ensures SelectedPositions(data, flags, i + 1) ==
      SelectedPositions(data, flags, i) + (if IsSelected(flags, i) then [data[i].pos] else [])
  {
  }

  /** The number of lines the selection log prints at most. */
  const DebugPrintLimit: nat := 10

  datatype PrintOutcome = Printed(indices: seq<nat>) | PrintIndexOutOfRange

  /**
   * The debug loop: logs the first selected splats, at most DebugPrintLimit of
   * them, returning the indices it logged. Indexing past the flag array throws,
   * which it does only when it runs out of flags before it has logged enough.
   */
  method DebugPrintSelected(data: seq<Splat>, flags: seq<bv32>) returns (r: PrintOutcome)
    ensures var reach := if |data| <= 32 * |flags| then |data| else 32 * |flags|;
      var sel := SelectedIndices(flags, reach);
      if |data| <= 32 * |flags| || |sel| >= DebugPrintLimit
      then r == Printed(sel[..if |sel| < DebugPrintLimit then |sel| else DebugPrintLimit])
      else r == PrintIndexOutOfRange
    ensures r.Printed? ==> |r.indices| <= DebugPrintLimit
    ensures r.Printed? ==> forall k :: 0 <= k < |r.indices| ==>
      r.indices[k] < |data| && r.indices[k] < 32 * |flags| && IsSelected(flags, r.indices[k])
  {
    ghost var reach := if |data| <= 32 * |flags| then |data| else 32 * |flags|;
    var printed: seq<nat> := [];
    var i := 0;
    while i < |data|
      invariant i <= |data| && i <= 32 * |flags|
      invariant printed == SelectedIndices(flags, i)
      invariant |printed| < DebugPrintLimit
    {
      if WordIndex(i) >= |flags| {
        // selectionFlags[wordIdx] throws IndexOutOfRangeException
        return PrintIndexOutOfRange;
      }
      if IsSelected(flags, i) {
        printed := printed + [i];
        if |printed| >= DebugPrintLimit {
          SelectedIndicesPrefix(flags, i + 1, reach);
          SelectedIndicesExact(flags, i + 1);
          return Printed(printed);
        }
      }
      i := i + 1;
    }
    SelectedIndicesExact(flags, i);
    return Printed(printed);
  }

  datatype ScanOutcome = Scanned(count: nat, sum: Vec3) | ScanIndexOutOfRange

  /**
   * The centroid loop: counts the selected splats and sums their positions.
   * Indexing past the flag array throws, which happens exactly when the flags
   * cover fewer splats than the data.
   */
  method AccumulateSelected(data: seq<Splat>, flags: seq<bv32>) returns (r: ScanOutcome)
    ensures |data| <= 32 * |flags| ==>
      && r.Scanned?
      && r.count == |SelectedSet(flags, |data|)|
      && r.count == |SelectedPositions(data, flags, |data|)|
      && r.sum == Sum(SelectedPositions(data, flags, |data|))
    ensures |data| > 32 * |flags| ==> r == ScanIndexOutOfRange
  {
    var center := Zero3;
    var selectedCount := 0;
    var i := 0;
    while i < |data|
      invariant i <= |data| && i <= 32 * |flags|
      invariant selectedCount == |SelectedIndices(flags, i)|
      invariant center == Sum(SelectedPositions(data, flags, i))
    {
      if WordIndex(i) >= |flags| {
        // selectionFlags[wordIdx] throws IndexOutOfRangeException
        return ScanIndexOutOfRange;
      }
      ghost var prev := SelectedPositions(data, flags, i);
      SelectedPositionsStep(data, flags, i);
      if IsSelected(flags, i) {
        assert SelectedPositions(data, flags, i + 1) == prev + [data[i].pos];
        SumAppend(prev, data[i].pos);
        center := Add(center, data[i].pos);
        selectedCount := selectedCount + 1;
      } else {
        assert SelectedPositions(data, flags, i + 1) == prev;
      }
      i := i + 1;
    }
    SelectedCount(flags, |data|);
    return Scanned(selectedCount, center);
  }

  // ---------------------------------------------------------------- mouse handling

  /** What releasing the mouse came to. */
  datatype MouseUpOutcome =
    | NotReleased           // not this tool's drag, or not the primary button
    | NothingSelected       // the renderer reports no selected splats
    | ExportFailed          // the renderer could not export its splats
    | NoSelectionFlags      // the renderer has no selection flags
    | FlagIndexOutOfRange   // the flags cover fewer splats than the export: an exception
    | EmptySelection        // no flag set among the exported splats: nothing stored
    | Stored(center: Vec3, count: nat)

  /**
   * The outcome of a mouse release, given whether this tool owned the drag, the
   * renderer's selected-splat count, and what the export and the flag query return.
   */
  function ReleaseOutcome(released: bool, editSelectedSplats: int,
                          exported: Option<seq<Splat>>, flags: Option<seq<bv32>>): MouseUpOutcome
  {
    if !released then NotReleased
    else if editSelectedSplats <= 0 then NothingSelected
    else if exported.None? then ExportFailed
    else if flags.None? then NoSelectionFlags
    else if |exported.value| > 32 * |flags.value| then FlagIndexOutOfRange
    else
      var positions := SelectedPositions(exported.value, flags.value, |exported.value|);
      if |positions| == 0 then EmptySelection
      else Stored(Centroid(positions), |positions|)
  }

  /**
   * A stored centre is the mean of the positions of exactly the selected
   * splats, over a positive count; an empty selection stores nothing.
   */
  lemma ReleaseOutcomeStored(released: bool, editSelectedSplats: int, data: seq<Splat>, flags: seq<bv32>)
    requires |data| <= 32 * |flags|
    ensures var r := ReleaseOutcome(released, editSelectedSplats, Some(data), Some(flags));
      (r.Stored? <==> released && editSelectedSplats > 0 && SelectedSet(flags, |data|) != {})
      && (r.Stored? ==>
            && r.count == |SelectedSet(flags, |data|)| > 0
            && r.center == Div(Sum(SelectedPositions(data, flags, |data|)), r.count as real))
  {
    SelectedCount(flags, |data|);
  }

  /** A release over a single selected splat records that splat's own position. */
  lemma ReleaseOfOneSplat(data: seq<Splat>, flags: seq<bv32>, k: nat)
    requires |data| <= 32 * |flags| && k < |data|
    requires SelectedIndices(flags, |data|) == [k]
    ensures ReleaseOutcome(true, 1, Some(data), Some(flags)) == Stored(data[k].pos, 1)
  {
    assert SelectedPositions(data, flags, |data|) == [data[k].pos];
    CentroidOfOne(data[k].pos);
  }

  /** The drag state: this tool owns the mouse while a drag is in progress. */
  predicate Dragging(gui: Gui, id: int)
    reads gui
  {
    gui.hotControl == id
  }

  class GaussianToolContext {
    var mouseStartDragPos: Vec2

    constructor ()
      ensures mouseStartDragPos == Zero2
    {
      mouseStartDragPos := Zero2;
    }

    /** OnWillBeDeactivated: leaving the tool clears the selection of its target, if any. */
    method OnWillBeDeactivated(gs: SplatRenderer?)
      modifies gs
      ensures gs != null ==> gs.trace == old(gs.trace) + [DeselectAll]
    {
      if gs == null {
        return;
      }
      gs.Call(DeselectAll);
    }

    /**
     * MouseDown: a primary press on this tool, with no view tool active, starts a
     * drag. Without shift, action key or control it first clears the selection;
     * it then records the selection state, takes the hot control and remembers
     * the press position.
     */
    method OnMouseDown(evt: GuiEvent, gs: SplatRenderer, gui: Gui, id: int,
                       viewToolActive: bool, nearestControl: int)
      modifies this, evt, gs, gui
      ensures var starts := !viewToolActive && nearestControl == id && evt.button == 0;
        if starts then
          && gs.trace == old(gs.trace)
               + (if !evt.shift && !evt.actionKey && !evt.control then [DeselectAll] else [])
               + [StoreSelectionMouseDown]
          && Dragging(gui, id)
          && mouseStartDragPos == evt.mousePosition
          && evt.kind == Used
        else
          && gs.trace == old(gs.trace)
          && gui.hotControl == old(gui.hotControl)
          && mouseStartDragPos == old(mouseStartDragPos)
          && evt.kind == old(evt.kind)
    {
      if viewToolActive {
        return;
      }
      if nearestControl == id && evt.button == 0 {
        if !evt.shift && !evt.actionKey && !evt.control {
          gs.Call(DeselectAll);
        }
        gs.Call(StoreSelectionMouseDown);
        gui.hotControl := id;
        mouseStartDragPos := evt.mousePosition;
        evt.Use();
      }
    }

    /**
     * MouseDrag: during this tool's drag, updates the selection from the
     * rectangle between the press position and the pointer, control meaning
     * subtract. `toScreen` is the GUI-to-screen-pixel conversion.
     */
    method OnMouseDrag(evt: GuiEvent, gs: SplatRenderer, gui: Gui, id: int, toScreen: Vec2 -> Vec2)
      modifies evt, gs
      ensures var dragging := Dragging(gui, id) && evt.button == 0;
        var rect := FromToRect(mouseStartDragPos, evt.mousePosition);
        if dragging then
          && gs.trace == old(gs.trace)
               + [UpdateSelection(toScreen(RectMin(rect)), toScreen(RectMax(rect)), evt.control)]
          && evt.kind == Used
        else
          gs.trace == old(gs.trace) && evt.kind == old(evt.kind)
    {
      if gui.hotControl == id && evt.button == 0 {
        var rect := FromToRect(mouseStartDragPos, evt.mousePosition);
        var rectMin := toScreen(RectMin(rect));
        var rectMax := toScreen(RectMax(rect));
        gs.Call(UpdateSelection(rectMin, rectMax, evt.control));
        evt.Use();
      }
    }

    /**
     * MouseUp: ends this tool's drag (hot control 0, press position zero) and,
     * when the renderer has a selection, exports the splats, reads the flags,
     * runs the debug loop and the centroid loop, and records the centroid of the
     * selected splats in the store when there is at least one.
     * `editSelectedSplats`, `exported` and `flags` are what the renderer reports.
     */
    method OnMouseUp(evt: GuiEvent, gui: Gui, store: GaussianToolContextCenterStore, id: int,
                     editSelectedSplats: int, exported: Option<seq<Splat>>, flags: Option<seq<bv32>>)
      returns (r: MouseUpOutcome)
      modifies this, evt, gui, store.centers
      ensures var released := old(gui.hotControl) == id && evt.button == 0;
        && r == ReleaseOutcome(released, editSelectedSplats, exported, flags)
        && (if released then
              && gui.hotControl == 0
              && mouseStartDragPos == Zero2
              && evt.kind == Used
            else
              && gui.hotControl == old(gui.hotControl)
              && mouseStartDragPos == old(mouseStartDragPos)
              && evt.kind == old(evt.kind))
      ensures store.centers.items == old(store.centers.items) + (if r.Stored? then [r.center] else [])
    {
      if !(gui.hotControl == id && evt.button == 0) {
        return NotReleased;
      }
      mouseStartDragPos := Zero2;
      gui.hotControl := 0;
      evt.Use();
      if editSelectedSplats <= 0 {
        return NothingSelected;
      }
      if exported.None? {
        return ExportFailed;
      }
      var data := exported.value;
      if flags.None? {
        return NoSelectionFlags;
      }
      var selectionFlags := flags.value;
      var printed := DebugPrintSelected(data, selectionFlags);
      if printed.PrintIndexOutOfRange? {
        return FlagIndexOutOfRange;
      }
      var scan := AccumulateSelected(data, selectionFlags);
      if scan.ScanIndexOutOfRange? {
        return FlagIndexOutOfRange;
      }
      if scan.count > 0 {
        var center := Div(scan.sum, scan.count as real);
        var _ := store.AddCenter(center);
        return Stored(center, scan.count);
      }
      return EmptySelection;
    }
  }
}
