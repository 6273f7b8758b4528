/**
 * The canvas editor of components/Editor.tsx: the scene's object list, the
 * document size, the selected object, and the snapshot history behind undo
 * and redo.
 *
 * Every state change is written twice, as is usual for a class: a pure step
 * function on the value `Session` (what the change means) and a method of
 * `EditorSession` that performs it on fields (what the component does),
 * whose postcondition ties the two together.  Module EditorLaws states the
 * history and geometry laws of the step functions.
 */
module Editor {
  import opened Optional

  /** `slice(-30)` in saveState: the undo stack keeps its 30 newest entries. */
  const MaxHistory := 30
  const DefaultWidth := 800
  const DefaultHeight := 600
  /** The clone is moved this far right and down from its source. */
  const CloneOffset: real := 10.0

  // ---------------------------------------------------------------- objects

  datatype FilterKind = Brightness | Contrast | Saturation
  datatype Filter = Filter(kind: FilterKind, value: real)
  datatype Point = Point(x: real, y: real)

  /** The text-style fields of a textbox. */
  datatype TextStyle = TextStyle(
    fontFamily: string, fontSize: int, fontWeight: string,
    fontStyle: string, underline: bool, textAlign: string)

  /** What distinguishes one kind of scene object from another (fabric's `type`). */
  datatype Shape =
    | Textbox(text: string, style: TextStyle)
    | Rect
    | Circle(radius: real)
    | Triangle
    | Polygon(points: seq<Point>)
    | Path
    | Image(src: string, filters: seq<Filter>)

  /** One object on the canvas: position, intrinsic size, scale and fill, plus its kind. */
  datatype SceneObject = SceneObject(
    shape: Shape,
    left: real, top: real,
    width: real, height: real,
    scaleX: real, scaleY: real,
    fill: string)

  /** A serialised scene.  `canvasWidth`/`canvasHeight` are present only when saveState added them. */
  datatype Snapshot = Snapshot(objects: seq<SceneObject>, canvasWidth: Option<int>, canvasHeight: Option<int>)

  /**
   * The whole editor state as a value.  `width`/`height` are the document
   * size held in React state; `elementWidth`/`elementHeight` are the fabric
   * canvas's own `width`/`height`, which `setDimensions` sets and
   * alignObject reads.  They are `None` once undo or redo has set them to
   * `undefined` from a snapshot without a size.
   */
  datatype Session = Session(
    objects: seq<SceneObject>,
    width: int, height: int,
    active: Option<nat>,
    undo: seq<Snapshot>,
    redo: seq<Snapshot>,
    last: Option<Snapshot>,
    pending: bool,
    elementWidth: Option<int>, elementHeight: Option<int>)

  /**
   * The session invariant: the selection names an object of the scene, and
   * undo and redo together never hold more than 30 snapshots (saving caps
   * undo and empties redo; undo and redo only move one entry across).
   * Every redo entry is a bare `canvas.toJSON()`, without the document size,
   * because only undo pushes onto redo.
   */
  predicate Valid(s: Session) {
    && (s.active.Some? ==> s.active.value < |s.objects|)
    && |s.undo| + |s.redo| <= MaxHistory
    && (forall e :: e in s.redo ==> e.canvasWidth.None? && e.canvasHeight.None?)
  }

  /** The editor as first mounted: empty 800x600 canvas, no history, nothing recorded yet. */
  function Initial(): (s: Session)
    ensures Valid(s)
  {
    Session([], DefaultWidth, DefaultHeight, None, [], [], None, false, Some(DefaultWidth), Some(DefaultHeight))
  }

  // --------------------------------------------------------- serialisation

  /** `canvas.toJSON()`: the objects only, without the document size. */
  function Serialise(objects: seq<SceneObject>): Snapshot {
    Snapshot(objects, None, None)
  }

  /**
   * The snapshot saveState builds: `canvas.toJSON()` with canvasWidth and
   * canvasHeight added.  saveState is memoised on the canvas alone, and the
   * canvas is created in the render where the size is still the initial
   * 800x600, so those are the sizes every capture carries, whatever the
   * document's current size.
   */
  function Capture(s: Session): (c: Snapshot)
    ensures c.objects == s.objects
    ensures c.canvasWidth == Some(DefaultWidth) && c.canvasHeight == Some(DefaultHeight)
  {
    Snapshot(s.objects, Some(DefaultWidth), Some(DefaultHeight))
  }

  /** `stack.slice(-n)`: the newest `n` entries, the oldest evicted first. */
  function Newest(stack: seq<Snapshot>, n: nat): (r: seq<Snapshot>)
    ensures |r| == if |stack| <= n then |stack| else n
    ensures r == stack[|stack| - |r|..]
  {
    if |stack| <= n then stack else stack[|stack| - n..]
  }

  // --------------------------------------------------------------- history

  /** saveState: record the current document unless it equals the last recorded one. */
  function Save(s: Session): (r: Session)
    requires Valid(s)
    ensures Valid(r)
    ensures r.objects == s.objects && r.width == s.width && r.height == s.height
    ensures r.active == s.active && r.pending == s.pending
  {
    var current := Capture(s);
    if s.last == Some(current) then s
    else
      var undo := if s.last.Some? then Newest(s.undo + [s.last.value], MaxHistory) else s.undo;
      s.(undo := undo, redo := [], last := Some(current))
  }

  /** debounceSaveState: (re)schedule the capture; a new schedule replaces a pending one. */
  function Schedule(s: Session): Session {
    s.(pending := true)
  }

  /** The 300 ms timer fires: the pending capture runs once. */
  function Flush(s: Session): (r: Session)
    requires Valid(s)
    ensures Valid(r) && !r.pending
  {
    if s.pending then Save(s.(pending := false)) else s
  }

  /**
   * Whether replacing the scene `before` by `after` fires canvas events:
   * loadFromJSON removes every old object (`object:removed`) and adds every
   * new one (`object:added`), and both events call debounceSaveState.
   */
  predicate ReloadFiresEvents(before: seq<SceneObject>, after: seq<SceneObject>) {
    before != [] || after != []
  }

  /**
   * Undo's and redo's reload: `setDimensions` takes the snapshot's size
   * (`undefined` when it has none) as the canvas element's; then, as
   * loadFromJSON completes, the scene becomes the snapshot's objects, the
   * snapshot becomes the last recorded state, nothing is selected (clearing
   * the canvas clears the selection), and the events of the reload schedule
   * a capture.  The document size in React state is not touched.
   */
  function Restore(s: Session, snapshot: Snapshot): Session {
    s.(objects := snapshot.objects, active := None, last := Some(snapshot),
       pending := s.pending || ReloadFiresEvents(s.objects, snapshot.objects),
       elementWidth := snapshot.canvasWidth, elementHeight := snapshot.canvasHeight)
  }

  /** undo: load the newest undo entry and put the pre-undo scene at the front of redo. */
  function UndoStep(s: Session): (r: Session)
    requires Valid(s)
    ensures Valid(r)
    ensures r.width == s.width && r.height == s.height
    ensures r.pending == (s.pending || (s.undo != [] && ReloadFiresEvents(s.objects, r.objects)))
  {
    if s.undo == [] then s
    else
      var previous := s.undo[|s.undo| - 1];
      Restore(s, previous).(undo := s.undo[..|s.undo| - 1], redo := [Serialise(s.objects)] + s.redo)
  }

  /** redo: load the front redo entry and append the pre-redo scene to undo (no cap here). */
  function RedoStep(s: Session): (r: Session)
    requires Valid(s)
    ensures Valid(r)
    ensures r.width == s.width && r.height == s.height
    ensures r.pending == (s.pending || (s.redo != [] && ReloadFiresEvents(s.objects, r.objects)))
  {
    if s.redo == [] then s
    else
      var next := s.redo[0];
      Restore(s, next).(redo := s.redo[1..], undo := s.undo + [Serialise(s.objects)])
  }

  /** `value || fallback` for a number read from parsed JSON or an input field. */
  function OrDefault(value: Option<int>, fallback: int): (r: int)
    ensures value.None? || value == Some(0) ==> r == fallback
    ensures value.Some? && value.value != 0 ==> r == value.value
  {
    if value.None? || value.value == 0 then fallback else value.value
  }

  /**
   * The initial-load effect.  `initialData` is the prop; `parsed` is what
   * `JSON.parse` made of it, `None` when it threw.
   */
  function Load(s: Session, initialData: string, parsed: Option<Snapshot>): (r: Session)
    requires Valid(s)
    ensures Valid(r)
  {
    if initialData == "" || parsed.None? then s else Loaded(s, parsed.value)
  }

  /** The load of a parsed document `data`. */
  function Loaded(s: Session, data: Snapshot): (r: Session)
    ensures Valid(r)
  {
    var width := OrDefault(data.canvasWidth, DefaultWidth);
    var height := OrDefault(data.canvasHeight, DefaultHeight);
    s.(width := width, height := height,
       elementWidth := Some(width), elementHeight := Some(height),
       objects := data.objects, active := None,
       last := Some(Serialise(data.objects)),
       undo := [], redo := [],
       pending := s.pending || ReloadFiresEvents(s.objects, data.objects))
  }

  // ------------------------------------------------------- document editing

  /** updateCanvasSize: new dimensions for the document and the canvas element, objects untouched, a capture scheduled. */
  function Resize(s: Session, width: int, height: int): (r: Session)
    requires Valid(s)
    ensures Valid(r)
  {
    Schedule(s.(width := width, height := height, elementWidth := Some(width), elementHeight := Some(height)))
  }

  datatype Preset = Preset(name: string, width: int, height: int)

  /** presetSizes. */
  const Presets: seq<Preset> := [
    Preset("Facebook Post", 1200, 630),
    Preset("Facebook Cover", 820, 312),
    Preset("Instagram Post", 1080, 1080),
    Preset("Instagram Story", 1080, 1920),
    Preset("YouTube Thumbnail", 1280, 720)
  ]

  /**
   * The width/height inputs: `parseInt(value) || 800` (or 600); no capture
   * is scheduled.  `None` means that field was not edited; an input that
   * parses to NaN is passed as `Some(0)`, since NaN and 0 both fall back to
   * the default.  The size effect passes the new document size to the
   * canvas element, but only when the size state actually changed.
   */
  function SizeInput(s: Session, width: Option<int>, height: Option<int>): (r: Session)
    requires Valid(s)
    ensures Valid(r)
  {
    var w := if width.Some? then OrDefault(width, DefaultWidth) else s.width;
    var h := if height.Some? then OrDefault(height, DefaultHeight) else s.height;
    if w == s.width && h == s.height then s
    else s.(width := w, height := h, elementWidth := Some(w), elementHeight := Some(h))
  }

  /** canvas.add + setActiveObject + debounceSaveState. */
  function Add(s: Session, o: SceneObject): (r: Session)
    requires Valid(s)
    ensures Valid(r)
  {
    Schedule(s.(objects := s.objects + [o], active := Some(|s.objects|)))
  }

  const FabricDefaultFill := "rgb(0,0,0)"

  function Shape100(shape: Shape, fill: string): SceneObject {
    SceneObject(shape, 100.0, 100.0, 100.0, 100.0, 1.0, 1.0, fill)
  }

  /** addText; the box's width and height come from fabric's text layout. */
  function NewText(measuredWidth: real, measuredHeight: real): SceneObject {
    SceneObject(
      Textbox("Edit this text", TextStyle("Arial", 20, "normal", "normal", false, "left")),
      100.0, 100.0, measuredWidth, measuredHeight, 1.0, 1.0, "#000000")
  }

  function NewRectangle(): SceneObject { Shape100(Rect, "#FF5733") }

  /** A circle of radius 50 spans 100x100. */
  function NewCircle(): SceneObject { Shape100(Circle(50.0), "#33A1FF") }

  function NewTriangle(): SceneObject { Shape100(Triangle, "#33FF57") }

  /** The pentagon's points span 0..100 on both axes. */
  function NewPolygon(): SceneObject {
    Shape100(Polygon([Point(50.0, 0.0), Point(100.0, 50.0), Point(75.0, 100.0), Point(25.0, 100.0), Point(0.0, 50.0)]), "#FF33A1")
  }

  /** handleImageUpload after the upload: the image at the origin at half scale. */
  function NewImage(url: string, naturalWidth: real, naturalHeight: real): SceneObject {
    SceneObject(Image(url, []), 0.0, 0.0, naturalWidth, naturalHeight, 0.5, 0.5, FabricDefaultFill)
  }

  /** The filter list applyFilter installs: exactly one filter of the named kind, or none. */
  function FiltersFor(filter: string, value: real): (r: seq<Filter>)
    ensures |r| <= 1
    ensures r == [] <==> filter !in {"brightness", "contrast", "saturation"}
  {
    match filter
    case "brightness" => [Filter(Brightness, value)]
    case "contrast" => [Filter(Contrast, value)]
    case "saturation" => [Filter(Saturation, value)]
    case _ => []
  }

  /** Replace the selected object with `f` of it, when something is selected. */
  function UpdateActive(s: Session, f: SceneObject -> SceneObject): (r: Session)
    requires Valid(s)
    ensures Valid(r) && |r.objects| == |s.objects| && r.active == s.active
    ensures forall j :: 0 <= j < |s.objects| && Some(j) != s.active ==> r.objects[j] == s.objects[j]
    ensures s.active.Some? ==> r.objects[s.active.value] == f(s.objects[s.active.value])
    ensures r.(objects := s.objects) == s
  {
    if s.active.None? then s
    else s.(objects := s.objects[s.active.value := f(s.objects[s.active.value])])
  }

  predicate ActiveIs(s: Session, isKind: Shape -> bool)
    requires Valid(s)
  {
    s.active.Some? && isKind(s.objects[s.active.value].shape)
  }

  function WithFilters(o: SceneObject, filters: seq<Filter>): SceneObject {
    if o.shape.Image? then o.(shape := o.shape.(filters := filters)) else o
  }

  /** applyFilter: only a selected image is affected; its filter list is replaced, not extended. */
  function FilterStep(s: Session, filter: string, value: real): (r: Session)
    requires Valid(s)
    ensures Valid(r)
  {
    if !ActiveIs(s, (sh: Shape) => sh.Image?) then s
    else Schedule(UpdateActive(s, (o: SceneObject) => WithFilters(o, FiltersFor(filter, value))))
  }

  /** formatText on one textbox: bold and italic flip against "normal", underline flips. */
  function Formatted(o: SceneObject, format: string): (r: SceneObject)
    requires o.shape.Textbox?
    ensures r.shape.Textbox? && r.shape.text == o.shape.text
    ensures r.(shape := o.shape) == o
  {
    var st := o.shape.style;
    var st' := match format
      case "bold" => st.(fontWeight := if st.fontWeight == "bold" then "normal" else "bold")
      case "italic" => st.(fontStyle := if st.fontStyle == "italic" then "normal" else "italic")
      case "underline" => st.(underline := !st.underline)
      case _ => st;
    o.(shape := o.shape.(style := st'))
  }

  function FormatIfText(o: SceneObject, format: string): SceneObject {
    if o.shape.Textbox? then Formatted(o, format) else o
  }

  /** formatText: a selected textbox only; a capture is scheduled even for an unknown format. */
  function FormatStep(s: Session, format: string): (r: Session)
    requires Valid(s)
    ensures Valid(r)
  {
    if !ActiveIs(s, (sh: Shape) => sh.Textbox?) then s
    else Schedule(UpdateActive(s, (o: SceneObject) => FormatIfText(o, format)))
  }

  function AlignedText(o: SceneObject, alignment: string): SceneObject {
    if o.shape.Textbox? then o.(shape := o.shape.(style := o.shape.style.(textAlign := alignment))) else o
  }

  /** alignText: sets the selected textbox's textAlign to the given string. */
  function AlignTextStep(s: Session, alignment: string): (r: Session)
    requires Valid(s)
    ensures Valid(r)
  {
    if !ActiveIs(s, (sh: Shape) => sh.Textbox?) then s
    else Schedule(UpdateActive(s, (o: SceneObject) => AlignedText(o, alignment)))
  }

  /**
   * alignObject on one object in a canvasWidth x canvasHeight document:
   * one edge or the centre of its scaled box is placed on the document's.
   */
  function Aligned(o: SceneObject, alignment: string, canvasWidth: real, canvasHeight: real): SceneObject {
    match alignment
    case "left" => o.(left := 0.0)
    case "center" => o.(left := (canvasWidth - o.width * o.scaleX) / 2.0)
    case "right" => o.(left := canvasWidth - o.width * o.scaleX)
    case "top" => o.(top := 0.0)
    case "middle" => o.(top := (canvasHeight - o.height * o.scaleY) / 2.0)
    case "bottom" => o.(top := canvasHeight - o.height * o.scaleY)
    case _ => o
  }

  /**
   * Whether the canvas element's size that `alignment` reads is defined:
   * centre and right read its width, middle and bottom its height.
   */
  predicate Measured(s: Session, alignment: string) {
    && (alignment in {"center", "right"} ==> s.elementWidth.Some?)
    && (alignment in {"middle", "bottom"} ==> s.elementHeight.Some?)
  }

  /** A defined element dimension as a number (the other case is never read). */
  function Dimension(d: Option<int>): real {
    if d.Some? then d.value as real else 0.0
  }

  /**
   * alignObject: moves the selected object against the canvas element's
   * size (not the document size); a capture is scheduled even for an
   * unknown alignment.  With the dimension it reads undefined, the object
   * is left where it is.
   */
  function AlignStep(s: Session, alignment: string): (r: Session)
    requires Valid(s)
    ensures Valid(r)
  {
    if s.active.None? then s
    else if !Measured(s, alignment) then Schedule(s)
    else Schedule(UpdateActive(s, (o: SceneObject) => Aligned(o, alignment, Dimension(s.elementWidth), Dimension(s.elementHeight))))
  }

  /** deleteObject: the selected object leaves the scene and the selection is cleared. */
  function Delete(s: Session): (r: Session)
    requires Valid(s)
    ensures Valid(r)
  {
    if s.active.None? then s
    else
      var i := s.active.value;
      Schedule(s.(objects := s.objects[..i] + s.objects[i + 1..], active := None))
  }

  /** The copy cloneObject adds: everything equal but the position, moved by +10/+10. */
  function Cloned(o: SceneObject): SceneObject {
    o.(left := o.left + CloneOffset, top := o.top + CloneOffset)
  }

  /** cloneObject: the copy is appended (front-most) and becomes the selection. */
  function Clone(s: Session): (r: Session)
    requires Valid(s)
    ensures Valid(r)
  {
    if s.active.None? then s
    else Add(s, Cloned(s.objects[s.active.value]))
  }

  /** Exchange the objects at `i` and `j`. */
  function Swap(objects: seq<SceneObject>, i: nat, j: nat): (r: seq<SceneObject>)
    requires i < |objects| && j < |objects|
    ensures |r| == |objects| && multiset(r) == multiset(objects)
  {
    objects[i := objects[j]][j := objects[i]]
  }

  /** "Bring Forward": one step towards the front, nothing at the front end. */
  function BringForward(s: Session): (r: Session)
    requires Valid(s)
    ensures Valid(r)
  {
    if s.active.None? then s
    else
      var i := s.active.value;
      if i + 1 < |s.objects| then Schedule(s.(objects := Swap(s.objects, i, i + 1), active := Some(i + 1)))
      else Schedule(s)
  }

  /** "Send Backward": one step towards the back, nothing at the back end. */
  function SendBackwards(s: Session): (r: Session)
    requires Valid(s)
    ensures Valid(r)
  {
    if s.active.None? then s
    else
      var i := s.active.value;
      if i > 0 then Schedule(s.(objects := Swap(s.objects, i, i - 1), active := Some(i - 1)))
      else Schedule(s)
  }

  // --------------------------------------------------------------- the class

  /** The editor component's state, held in fields and changed step by step. */
  class EditorSession {
    var objects: seq<SceneObject>
    var canvasWidth: int
    var canvasHeight: int
    var activeObject: Option<nat>
    var undoStack: seq<Snapshot>
    var redoStack: seq<Snapshot>
    var lastSavedState: Option<Snapshot>
    var savePending: bool
    /** `canvas.width` and `canvas.height` of the fabric canvas. */
    var elementWidth: Option<int>
    var elementHeight: Option<int>

    function State(): Session
      reads this
    {
      Session(objects, canvasWidth, canvasHeight, activeObject, undoStack, redoStack, lastSavedState, savePending,
              elementWidth, elementHeight)
    }

    predicate Inv()
      reads this
    {
      Valid(State())
    }

    constructor ()
      ensures Inv() && State() == Initial()
    {
      objects, canvasWidth, canvasHeight, activeObject := [], DefaultWidth, DefaultHeight, None;
      undoStack, redoStack, lastSavedState, savePending := [], [], None, false;
      elementWidth, elementHeight := Some(DefaultWidth), Some(DefaultHeight);
    }

    method SaveState()
      requires Inv()
      modifies this
      ensures Inv() && State() == Save(old(State()))
    {
      ghost var s := State();
      var currentState := Capture(State());
      if Some(currentState) != lastSavedState {
        var undo := undoStack;
        if lastSavedState.Some? {
          undo := Newest(undoStack + [lastSavedState.value], MaxHistory);
        }
        undoStack, redoStack, lastSavedState := undo, [], Some(currentState);
        assert State() == s.(undo := undo, redo := [], last := Some(currentState));
      }
    }

    method DebounceSaveState()
      requires Inv()
      modifies this
      ensures Inv() && State() == Schedule(old(State()))
    {
      savePending := true;
    }

    /** The debounce timer elapses. */
    method SaveTimerFires()
      requires Inv()
      modifies this
      ensures Inv() && State() == Flush(old(State()))
    {
      if savePending {
        savePending := false;
        SaveState();
      }
    }

    method Undo()
      requires Inv()
      modifies this
      ensures Inv() && State() == UndoStep(old(State()))
    {
      if |undoStack| > 0 {
        var previousState := undoStack[|undoStack| - 1];
        elementWidth, elementHeight := previousState.canvasWidth, previousState.canvasHeight;
        var preUndo := Serialise(objects);
        if objects != [] || previousState.objects != [] {
          savePending := true;
        }
        objects, activeObject := previousState.objects, None;
        lastSavedState := Some(previousState);
        undoStack := undoStack[..|undoStack| - 1];
        redoStack := [preUndo] + redoStack;
      }
    }

    method Redo()
      requires Inv()
      modifies this
      ensures Inv() && State() == RedoStep(old(State()))
    {
      if |redoStack| > 0 {
        var nextState := redoStack[0];
        elementWidth, elementHeight := nextState.canvasWidth, nextState.canvasHeight;
        var preRedo := Serialise(objects);
        if objects != [] || nextState.objects != [] {
          savePending := true;
        }
        objects, activeObject := nextState.objects, None;
        lastSavedState := Some(nextState);
        redoStack := redoStack[1..];
        undoStack := undoStack + [preRedo];
      }
    }

    method LoadInitialData(initialData: string, parsed: Option<Snapshot>)
      requires Inv()
      modifies this
      ensures Inv() && State() == Load(old(State()), initialData, parsed)
    {
      if initialData != "" && parsed.Some? {
        LoadParsed(parsed.value);
      }
    }

    /** The effect's body once `JSON.parse` succeeded. */
    method LoadParsed(parsedData: Snapshot)
      modifies this
      ensures Inv() && State() == Loaded(old(State()), parsedData)
    {
      var width := OrDefault(parsedData.canvasWidth, DefaultWidth);
      var height := OrDefault(parsedData.canvasHeight, DefaultHeight);
      var fires := ReloadFiresEvents(objects, parsedData.objects);
      objects, canvasWidth, canvasHeight, activeObject := parsedData.objects, width, height, None;
      undoStack, redoStack, lastSavedState, savePending := [], [], Some(Serialise(parsedData.objects)), savePending || fires;
      elementWidth, elementHeight := Some(width), Some(height);
    }

    method UpdateCanvasSize(newWidth: int, newHeight: int)
      requires Inv()
      modifies this
      ensures Inv() && State() == Resize(old(State()), newWidth, newHeight)
    {
      elementWidth, elementHeight := Some(newWidth), Some(newHeight);
      DebounceSaveState();
      canvasWidth, canvasHeight := newWidth, newHeight;
    }

    method ApplyPreset(i: nat)
      requires Inv() && i < |Presets|
      modifies this
      ensures Inv() && State() == Resize(old(State()), Presets[i].width, Presets[i].height)
    {
      UpdateCanvasSize(Presets[i].width, Presets[i].height);
    }

    /**
     * The width and height inputs; `None` leaves that input untouched.  The
     * size effect then runs if the size state changed.
     */
    method SetSizeInputs(width: Option<int>, height: Option<int>)
      requires Inv()
      modifies this
      ensures Inv() && State() == SizeInput(old(State()), width, height)
    {
      var oldWidth, oldHeight := canvasWidth, canvasHeight;
      if width.Some? { canvasWidth := OrDefault(width, DefaultWidth); }
      if height.Some? { canvasHeight := OrDefault(height, DefaultHeight); }
      if canvasWidth != oldWidth || canvasHeight != oldHeight {
        elementWidth, elementHeight := Some(canvasWidth), Some(canvasHeight);
      }
    }

    method AddObject(o: SceneObject)
      requires Inv()
      modifies this
      ensures Inv() && State() == Add(old(State()), o)
    {
      objects := objects + [o];
      activeObject := Some(|objects| - 1);
      DebounceSaveState();
    }

    method AddText(measuredWidth: real, measuredHeight: real)
      requires Inv()
      modifies this
      ensures Inv() && State() == Add(old(State()), NewText(measuredWidth, measuredHeight))
    {
      AddObject(NewText(measuredWidth, measuredHeight));
    }

    method AddRectangle()
      requires Inv()
      modifies this
      ensures Inv() && State() == Add(old(State()), NewRectangle())
    {
      AddObject(NewRectangle());
    }

    method AddCircle()
      requires Inv()
      modifies this
      ensures Inv() && State() == Add(old(State()), NewCircle())
    {
      AddObject(NewCircle());
    }

    method AddTriangle()
      requires Inv()
      modifies this
      ensures Inv() && State() == Add(old(State()), NewTriangle())
    {
      AddObject(NewTriangle());
    }

    method AddPolygon()
      requires Inv()
      modifies this
      ensures Inv() && State() == Add(old(State()), NewPolygon())
    {
      AddObject(NewPolygon());
    }

    /** The part of handleImageUpload after the asset upload returned `url`. */
    method AddUploadedImage(url: string, naturalWidth: real, naturalHeight: real)
      requires Inv()
      modifies this
      ensures Inv() && State() == Add(old(State()), NewImage(url, naturalWidth, naturalHeight))
    {
      AddObject(NewImage(url, naturalWidth, naturalHeight));
    }

    /** selection:created / selection:updated. */
    method Select(i: nat)
      requires Inv() && i < |objects|
      modifies this
      ensures Inv() && State() == old(State()).(active := Some(i))
    {
      activeObject := Some(i);
    }

    /** selection:cleared. */
    method ClearSelection()
      requires Inv()
      modifies this
      ensures Inv() && State() == old(State()).(active := None)
    {
      activeObject := None;
    }

    method ApplyFilter(filter: string, value: real)
      requires Inv()
      modifies this
      ensures Inv() && State() == FilterStep(old(State()), filter, value)
    {
      if activeObject.Some? && objects[activeObject.value].shape.Image? {
        var i := activeObject.value;
        var imgObj := objects[i];
        imgObj := imgObj.(shape := imgObj.shape.(filters := []));
        imgObj := imgObj.(shape := imgObj.shape.(filters := FiltersFor(filter, value)));
        objects := objects[i := imgObj];
        DebounceSaveState();
      }
    }

    method FormatText(format: string)
      requires Inv()
      modifies this
      ensures Inv() && State() == FormatStep(old(State()), format)
    {
      if activeObject.Some? && objects[activeObject.value].shape.Textbox? {
        var i := activeObject.value;
        objects := objects[i := Formatted(objects[i], format)];
        DebounceSaveState();
      }
    }

    method AlignText(alignment: string)
      requires Inv()
      modifies this
      ensures Inv() && State() == AlignTextStep(old(State()), alignment)
    {
      if activeObject.Some? && objects[activeObject.value].shape.Textbox? {
        var i := activeObject.value;
        objects := objects[i := AlignedText(objects[i], alignment)];
        DebounceSaveState();
      }
    }

    method AlignObject(alignment: string)
      requires Inv()
      modifies this
      ensures Inv() && State() == AlignStep(old(State()), alignment)
    {
      if activeObject.Some? {
        if Measured(State(), alignment) {
          var i := activeObject.value;
          objects := objects[i := Aligned(objects[i], alignment, Dimension(elementWidth), Dimension(elementHeight))];
        }
        DebounceSaveState();
      }
    }

    method DeleteObject()
      requires Inv()
      modifies this
      ensures Inv() && State() == Delete(old(State()))
    {
      if activeObject.Some? {
        var i := activeObject.value;
        objects := objects[..i] + objects[i + 1..];
        activeObject := None;
        DebounceSaveState();
      }
    }

    method CloneObject()
      requires Inv()
      modifies this
      ensures Inv() && State() == Clone(old(State()))
    {
      if activeObject.Some? {
        var cloned := Cloned(objects[activeObject.value]);
        AddObject(cloned);
      }
    }

    method BringObjectForward()
      requires Inv()
      modifies this
      ensures Inv() && State() == BringForward(old(State()))
    {
      if activeObject.Some? {
        var i := activeObject.value;
        if i + 1 < |objects| {
          objects := Swap(objects, i, i + 1);
          activeObject := Some(i + 1);
        }
        DebounceSaveState();
      }
    }

    method SendObjectBackwards()
      requires Inv()
      modifies this
      ensures Inv() && State() == SendBackwards(old(State()))
    {
      if activeObject.Some? {
        var i := activeObject.value;
        if i > 0 {
          objects := Swap(objects, i, i - 1);
          activeObject := Some(i - 1);
        }
        DebounceSaveState();
      }
    }
  }
}
