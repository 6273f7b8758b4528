/**
 * What the editor's step functions guarantee: the history laws of saveState,
 * undo, redo, the debounce and the initial load, and the geometry and
 * styling laws of the object operations.
 */
module EditorLaws {
  import opened Optional
  import opened Editor

  // ------------------------------------------------------------- saveState

  /** A capture identical to the last recorded state changes nothing. */
  lemma SaveSkipsIdentical(s: Session)
    requires Valid(s) && s.last == Some(Capture(s))
    ensures Save(s) == s
  {
  }

  /**
   * A capture that differs is recorded: redo is emptied, the capture becomes
   * the last recorded state, and the previous one (if any) is pushed onto
   * undo, which then keeps only its 30 newest entries.
   */
  lemma SaveRecordsChange(s: Session)
    requires Valid(s) && s.last != Some(Capture(s))
    ensures Save(s).redo == [] && Save(s).last == Some(Capture(s))
    ensures s.last.None? ==> Save(s).undo == s.undo
    ensures s.last.Some? ==>
      && |Save(s).undo| == (if |s.undo| < MaxHistory then |s.undo| + 1 else MaxHistory)
      && Save(s).undo[|Save(s).undo| - 1] == s.last.value
      && (|s.undo| < MaxHistory ==> Save(s).undo == s.undo + [s.last.value])
      && (|s.undo| == MaxHistory ==> Save(s).undo == s.undo[1..] + [s.last.value])
  {
    if s.last.Some? {
      var pushed := s.undo + [s.last.value];
      if |s.undo| == MaxHistory {
        assert pushed[1..] == s.undo[1..] + [s.last.value];
      }
    }
  }

  /** After a save the undo stack never holds more than 30 entries. */
  lemma SaveBoundsUndo(s: Session)
    requires Valid(s)
    ensures |Save(s).undo| <= MaxHistory
  {
  }

  /** Saving twice in a row records no more than saving once. */
  lemma SaveIdempotent(s: Session)
    requires Valid(s)
    ensures Save(Save(s)) == Save(s)
  {
  }

  /**
   * A fresh editor (no initial data) records its first change without
   * anything to undo: lastSavedState starts empty, so nothing is pushed and
   * the first change cannot be undone.
   */
  lemma FirstChangeIsNotUndoable()
    ensures var s := Flush(Add(Initial(), NewRectangle()));
      && s.objects == [NewRectangle()]
      && s.undo == []
      && UndoStep(s) == s
  {
  }

  // --------------------------------------------------------------- debounce

  /**
   * The user's edits, each an operation that changes the scene or the size
   * and calls debounceSaveState.
   */
  datatype Edit =
    | AddEdit(o: SceneObject)
    | ResizeEdit(width: int, height: int)
    | FilterEdit(filter: string, value: real)
    | FormatEdit(format: string)
    | AlignTextEdit(textAlignment: string)
    | AlignEdit(alignment: string)
    | DeleteEdit
    | CloneEdit
    | ForwardEdit
    | BackwardEdit

  function ApplyEdit(s: Session, e: Edit): (r: Session)
    requires Valid(s)
    ensures Valid(r)
  {
    match e
    case AddEdit(o) => Add(s, o)
    case ResizeEdit(w, h) => Resize(s, w, h)
    case FilterEdit(f, v) => FilterStep(s, f, v)
    case FormatEdit(f) => FormatStep(s, f)
    case AlignTextEdit(a) => AlignTextStep(s, a)
    case AlignEdit(a) => AlignStep(s, a)
    case DeleteEdit => Delete(s)
    case CloneEdit => Clone(s)
    case ForwardEdit => BringForward(s)
    case BackwardEdit => SendBackwards(s)
  }

  /** The edits in order, with no timer firing in between. */
  function ApplyEdits(s: Session, edits: seq<Edit>): (r: Session)
    requires Valid(s)
    ensures Valid(r)
    decreases |edits|
  {
    if edits == [] then s else ApplyEdits(ApplyEdit(s, edits[0]), edits[1..])
  }

  /**
   * An edit leaves the history alone (undo, redo and the last recorded
   * state), keeps a scheduled capture scheduled, and schedules one whenever
   * it changes the scene or the size.
   */
  lemma EditKeepsHistory(s: Session, e: Edit)
    requires Valid(s)
    ensures var r := ApplyEdit(s, e);
      && r.undo == s.undo && r.redo == s.redo && r.last == s.last
      && (s.pending ==> r.pending)
      && (r.objects != s.objects || r.width != s.width || r.height != s.height ==> r.pending)
  {
  }

  /** The same for a burst of edits. */
  lemma {:induction false} EditsKeepHistory(s: Session, edits: seq<Edit>)
    requires Valid(s)
    ensures var r := ApplyEdits(s, edits);
      && r.undo == s.undo && r.redo == s.redo && r.last == s.last
      && (s.pending ==> r.pending)
      && (r.objects != s.objects || r.width != s.width || r.height != s.height ==> r.pending)
    decreases |edits|
  {
    if edits != [] {
      EditKeepsHistory(s, edits[0]);
      EditsKeepHistory(ApplyEdit(s, edits[0]), edits[1..]);
    }
  }

  /**
   * Debouncing coalesces a burst of edits: when the timer fires after them,
   * at most one undo entry is added, and if the history was in step with the
   * scene before the burst, that entry is the scene before the burst and the
   * scene after it becomes the last recorded state.
   */
  lemma EditsCoalesce(s: Session, edits: seq<Edit>)
    requires Valid(s)
    ensures var r := ApplyEdits(s, edits);
      && |Flush(r).undo| <= |s.undo| + 1
      && (s.last == Some(Capture(s)) && r.objects != s.objects ==>
            && Flush(r).undo == Newest(s.undo + [Capture(s)], MaxHistory)
            && Flush(r).redo == []
            && Flush(r).last == Some(Capture(r)))
  {
    EditsKeepHistory(s, edits);
  }

  /** So one undo after a burst of edits and the timer brings back the scene from before the burst. */
  lemma UndoRevertsBurst(s: Session, edits: seq<Edit>)
    requires Valid(s) && s.last == Some(Capture(s))
    requires ApplyEdits(s, edits).objects != s.objects
    ensures UndoStep(Flush(ApplyEdits(s, edits))).objects == s.objects
  {
    EditsCoalesce(s, edits);
    var f := Flush(ApplyEdits(s, edits));
    assert f.undo[|f.undo| - 1] == Capture(s);
  }

  /** One timer firing adds at most one undo entry. */
  lemma FlushAddsAtMostOne(s: Session)
    requires Valid(s)
    ensures |Flush(s).undo| <= |s.undo| + 1
  {
  }

  // ------------------------------------------------------------- undo, redo

  /** Undo with an empty undo stack and redo with an empty redo stack change nothing. */
  lemma EmptyStacksAreNoOps(s: Session)
    requires Valid(s)
    ensures s.undo == [] ==> UndoStep(s) == s
    ensures s.redo == [] ==> RedoStep(s) == s
  {
  }

  /**
   * Undo loads the newest undo entry, which becomes the last recorded
   * state, and the scene as it was before the undo goes to the front of redo.
   */
  lemma UndoMovesNewestEntry(s: Session)
    requires Valid(s) && s.undo != []
    ensures var r := UndoStep(s);
      && r.objects == s.undo[|s.undo| - 1].objects
      && r.last == Some(s.undo[|s.undo| - 1])
      && r.undo == s.undo[..|s.undo| - 1]
      && r.redo == [Serialise(s.objects)] + s.redo
      && r.active == None
  {
  }

  /**
   * Redo loads the front redo entry and appends the scene before the redo
   * to undo.
   */
  lemma RedoMovesFrontEntry(s: Session)
    requires Valid(s) && s.redo != []
    ensures var r := RedoStep(s);
      && r.objects == s.redo[0].objects
      && r.last == Some(s.redo[0])
      && r.redo == s.redo[1..]
      && r.undo == s.undo + [Serialise(s.objects)]
  {
  }

  /**
   * Undo followed by redo restores the scene and both stack lengths; the
   * redo stack is exactly as before, and the undo entry that went round
   * comes back as a bare serialisation (without the document size).
   */
  lemma UndoThenRedo(s: Session)
    requires Valid(s) && s.undo != []
    ensures var t := RedoStep(UndoStep(s));
      && t.objects == s.objects
      && t.redo == s.redo
      && |t.undo| == |s.undo|
      && t.undo == s.undo[..|s.undo| - 1] + [Serialise(s.undo[|s.undo| - 1].objects)]
  {
  }

  /** Redo followed by undo restores the scene and the undo stack exactly. */
  lemma RedoThenUndo(s: Session)
    requires Valid(s) && s.redo != []
    ensures var t := UndoStep(RedoStep(s));
      && t.objects == s.objects
      && t.undo == s.undo
      && |t.redo| == |s.redo|
      && t.redo[1..] == s.redo[1..]
  {
    var r := RedoStep(s);
    assert r.undo[..|r.undo| - 1] == s.undo;
  }

  function Undos(s: Session, k: nat): (r: Session)
    requires Valid(s)
    ensures Valid(r)
    decreases k
  {
    if k == 0 then s else Undos(UndoStep(s), k - 1)
  }

  function Redos(s: Session, k: nat): (r: Session)
    requires Valid(s)
    ensures Valid(r)
    decreases k
  {
    if k == 0 then s else RedoStep(Redos(s, k - 1))
  }

  /**
   * k undos followed by k redos (k no larger than the undo stack) bring back
   * the scene, the redo stack and the undo stack's length.
   */
  lemma {:induction false} UndosThenRedos(s: Session, k: nat)
    requires Valid(s) && k <= |s.undo|
    ensures Redos(Undos(s, k), k).objects == s.objects
    ensures Redos(Undos(s, k), k).redo == s.redo
    ensures |Redos(Undos(s, k), k).undo| == |s.undo|
    decreases k
  {
    if k > 0 {
      var u := UndoStep(s);
      UndosThenRedos(u, k - 1);
      var v := Undos(u, k - 1);
      assert Undos(s, k) == v;
      var t := Redos(v, k - 1);
      RedoAfter(v, k - 1);
      RedoOnUndoneStacks(s, t);
    }
  }

  /** A redo from a state whose stacks are those an undo of `s` leaves restores `s`'s scene and stacks. */
  lemma RedoOnUndoneStacks(s: Session, t: Session)
    requires Valid(s) && s.undo != [] && Valid(t)
    requires t.redo == UndoStep(s).redo && |t.undo| == |UndoStep(s).undo|
    ensures RedoStep(t).objects == s.objects
    ensures RedoStep(t).redo == s.redo
    ensures |RedoStep(t).undo| == |s.undo|
  {
    UndoMovesNewestEntry(s);
  }

  /** Unfolding `Redos` one step further. */
  lemma RedoAfter(s: Session, k: nat)
    requires Valid(s)
    ensures Redos(s, k + 1) == RedoStep(Redos(s, k))
  {
  }

  /**
   * After a redo, the next capture is always recorded, even if nothing was
   * edited: the redo entry is a bare serialisation and the capture carries
   * the document size.  That capture empties the redo stack.
   */
  lemma CaptureAfterRedoClearsRedo(s: Session)
    requires Valid(s) && s.redo != []
    ensures RedoStep(s).last != Some(Capture(RedoStep(s)))
    ensures Save(RedoStep(s)).redo == []
  {
    assert s.redo[0] in s.redo;
  }

  /**
   * Undo and redo reload the canvas, and the reload's events schedule a
   * capture.  When the entry undone was itself a capture, the timer that
   * follows finds nothing new, so redo stays available.
   */
  lemma TimerAfterUndoKeepsRedo(s: Session)
    requires Valid(s) && s.undo != []
    requires s.undo[|s.undo| - 1] == Capture(s.(objects := s.undo[|s.undo| - 1].objects))
    ensures Flush(UndoStep(s)) == UndoStep(s).(pending := false)
    ensures Flush(UndoStep(s)).redo == [Serialise(s.objects)] + s.redo
  {
  }

  /**
   * After a redo that reloads any object, the timer that follows records the
   * redone scene and empties redo, so a second redo once the timer has fired
   * does nothing.
   */
  lemma TimerAfterRedoEndsRedo(s: Session)
    requires Valid(s) && s.redo != [] && ReloadFiresEvents(s.objects, s.redo[0].objects)
    ensures RedoStep(s).pending
    ensures Flush(RedoStep(s)).redo == []
    ensures RedoStep(Flush(RedoStep(s))) == Flush(RedoStep(s))
  {
    CaptureAfterRedoClearsRedo(s);
  }

  /** The undo stack can pass 30 only by redo's uncapped append, and never does. */
  lemma UndoNeverExceedsCap(s: Session)
    requires Valid(s)
    ensures |RedoStep(s).undo| <= MaxHistory && |UndoStep(s).undo| <= MaxHistory
  {
  }

  // ------------------------------------------------------------ initial load

  /**
   * A successful load takes the size from the data (800/600 when missing or
   * 0), empties both stacks, clears the selection, records the loaded scene
   * and, when objects were removed or added, schedules a capture; an empty
   * prop or a parse failure changes nothing.
   */
  lemma LoadOutcome(s: Session, initialData: string, parsed: Option<Snapshot>)
    requires Valid(s)
    ensures initialData == "" || parsed.None? ==> Load(s, initialData, parsed) == s
    ensures initialData != "" && parsed.Some? ==>
      var r := Load(s, initialData, parsed);
      && r.objects == parsed.value.objects
      && r.undo == [] && r.redo == [] && r.active == None
      && r.last == Some(Serialise(parsed.value.objects))
      && (parsed.value.canvasWidth.Some? && parsed.value.canvasWidth.value != 0 ==>
            r.width == parsed.value.canvasWidth.value)
      && (parsed.value.canvasWidth.None? || parsed.value.canvasWidth == Some(0) ==> r.width == DefaultWidth)
      && (parsed.value.canvasHeight.Some? && parsed.value.canvasHeight.value != 0 ==>
            r.height == parsed.value.canvasHeight.value)
      && (parsed.value.canvasHeight.None? || parsed.value.canvasHeight == Some(0) ==> r.height == DefaultHeight)
      && r.pending == (s.pending || ReloadFiresEvents(s.objects, parsed.value.objects))
      && r.elementWidth == Some(r.width) && r.elementHeight == Some(r.height)
  {
  }

  /**
   * After a load, the first capture is recorded even with no edit, because
   * the loaded state was recorded without the document size; the loaded
   * scene is then the one undo entry.
   */
  lemma FirstCaptureAfterLoad(s: Session, initialData: string, data: Snapshot)
    requires Valid(s) && initialData != ""
    ensures var r := Save(Load(s, initialData, Some(data)));
      && r.undo == [Serialise(data.objects)]
      && r.objects == data.objects
  {
  }

  /**
   * The worked example: load an empty 800x600 document, add a rectangle and
   * a text (the timer firing after each), undo: only the rectangle is left;
   * redo: the rectangle and the text, in that order.
   */
  lemma RectangleTextUndoRedo(textWidth: real, textHeight: real)
    ensures
      var loaded := Load(Initial(), "saved", Some(Snapshot([], Some(800), Some(600))));
      var withRect := Flush(Add(loaded, NewRectangle()));
      var withText := Flush(Add(withRect, NewText(textWidth, textHeight)));
      var undone := UndoStep(withText);
      && undone.objects == [NewRectangle()]
      && undone.width == 800 && undone.height == 600
      && RedoStep(undone).objects == [NewRectangle(), NewText(textWidth, textHeight)]
  {
    var rect, text := NewRectangle(), NewText(textWidth, textHeight);
    var loaded := Load(Initial(), "saved", Some(Snapshot([], Some(800), Some(600))));
    assert loaded == Session([], 800, 600, None, [], [], Some(Serialise([])), false, Some(800), Some(600));
    AddThenFlush(loaded, rect);
    var withRect := Flush(Add(loaded, rect));
    assert withRect.objects == [rect];
    assert withRect.undo == [Serialise([])];
    assert withRect.last == Some(Snapshot([rect], Some(800), Some(600)));
    AddThenFlush(withRect, text);
    var withText := Flush(Add(withRect, text));
    assert withText.objects == [rect, text];
    assert withText.undo == [Serialise([]), Snapshot([rect], Some(800), Some(600))];
    var undone := UndoStep(withText);
    assert undone.objects == [rect] && undone.redo == [Serialise([rect, text])];
  }

  /** Adding an object and letting the timer fire records the new scene when it differs from the last one. */
  lemma AddThenFlush(s: Session, o: SceneObject)
    requires Valid(s) && !s.pending && s.last.Some?
    requires s.last != Some(Snapshot(s.objects + [o], Some(DefaultWidth), Some(DefaultHeight)))
    ensures Flush(Add(s, o)) == s.(objects := s.objects + [o], active := Some(|s.objects|),
                                   undo := Newest(s.undo + [s.last.value], MaxHistory), redo := [],
                                   last := Some(Snapshot(s.objects + [o], Some(DefaultWidth), Some(DefaultHeight))))
  {
  }

  // ----------------------------------------------------------- alignment

  /**
   * alignObject places one edge or the centre of the object's scaled box on
   * the document's: left/top at 0, right/bottom edge at the width/height,
   * centre/middle at half of it.  Exactly one of left and top moves, nothing
   * else changes, and an unknown alignment changes nothing.
   */
  lemma AlignedPlacesBox(o: SceneObject, alignment: string, w: real, h: real)
    ensures var r := Aligned(o, alignment, w, h);
      && r.(left := o.left, top := o.top) == o
      && (r.left == o.left || r.top == o.top)
      && (alignment == "left" ==> r.left == 0.0 && r.top == o.top)
      && (alignment == "center" ==> r.left + o.width * o.scaleX / 2.0 == w / 2.0 && r.top == o.top)
      && (alignment == "right" ==> r.left + o.width * o.scaleX == w && r.top == o.top)
      && (alignment == "top" ==> r.top == 0.0 && r.left == o.left)
      && (alignment == "middle" ==> r.top + o.height * o.scaleY / 2.0 == h / 2.0 && r.left == o.left)
      && (alignment == "bottom" ==> r.top + o.height * o.scaleY == h && r.left == o.left)
      && (alignment !in {"left", "center", "right", "top", "middle", "bottom"} ==> r == o)
  {
  }

  /** A 100x100 object centred in an 800x600 document lands at left 350. */
  lemma CenterExample(o: SceneObject)
    requires o.width == 100.0 && o.scaleX == 1.0
    ensures Aligned(o, "center", 800.0, 600.0).left == 350.0
  {
  }

  /** alignObject moves only the selected object. */
  lemma AlignTouchesOnlySelection(s: Session, alignment: string)
    requires Valid(s) && s.active.Some?
    ensures var r := AlignStep(s, alignment);
      && |r.objects| == |s.objects|
      && (Measured(s, alignment) ==>
            r.objects[s.active.value] ==
              Aligned(s.objects[s.active.value], alignment, Dimension(s.elementWidth), Dimension(s.elementHeight)))
      && (!Measured(s, alignment) ==> r.objects == s.objects)
      && (forall j :: 0 <= j < |s.objects| && j != s.active.value ==> r.objects[j] == s.objects[j])
      && r.pending
  {
  }

  /**
   * Undo and redo give the canvas element the size of the snapshot they
   * load, and leave the document size alone: an undo to a capture makes it
   * 800x600, and a redo (whose entries never carry a size) makes it
   * undefined.
   */
  lemma ReloadSetsElementSize(s: Session)
    requires Valid(s)
    ensures s.undo != [] ==>
      && UndoStep(s).elementWidth == s.undo[|s.undo| - 1].canvasWidth
      && UndoStep(s).elementHeight == s.undo[|s.undo| - 1].canvasHeight
    ensures s.redo != [] ==> RedoStep(s).elementWidth.None? && RedoStep(s).elementHeight.None?
    ensures UndoStep(s).width == s.width && RedoStep(s).width == s.width
  {
    if s.redo != [] {
      assert s.redo[0] in s.redo;
    }
  }

  /**
   * After an undo to a capture, a new rectangle aligned right lands at
   * 800 - 100 = 700, whatever the document size: the element, not the
   * document, is measured.
   */
  lemma AlignRightAfterUndo(s: Session)
    requires Valid(s) && s.undo != [] && s.undo[|s.undo| - 1] == Capture(s.(objects := s.undo[|s.undo| - 1].objects))
    ensures var r := AlignStep(Add(UndoStep(s), NewRectangle()), "right");
      r.objects[|r.objects| - 1].left == 700.0
  {
    var added := Add(UndoStep(s), NewRectangle());
    assert added.elementWidth == Some(DefaultWidth);
    assert added.objects[|added.objects| - 1] == NewRectangle();
  }

  /**
   * After a redo, selecting an object and aligning it to the right, centre,
   * bottom or middle leaves every object in place (where the source writes
   * NaN), though a capture is still scheduled.
   */
  lemma AlignAfterRedoMovesNothing(s: Session, i: nat, alignment: string)
    requires Valid(s) && s.redo != [] && i < |s.redo[0].objects|
    requires alignment in {"center", "right", "middle", "bottom"}
    ensures var t := RedoStep(s).(active := Some(i));
      AlignStep(t, alignment) == t.(pending := true)
  {
    ReloadSetsElementSize(s);
  }

  // ------------------------------------------------------------------- clone

  /**
   * cloneObject appends a copy 10 right and 10 down of the selected object,
   * selects it, and leaves every existing object, the source included, as it was.
   */
  lemma CloneAppendsOffsetCopy(s: Session)
    requires Valid(s) && s.active.Some?
    ensures var r := Clone(s); var src := s.objects[s.active.value];
      && |r.objects| == |s.objects| + 1
      && r.objects[..|s.objects|] == s.objects
      && r.objects[|s.objects|].left == src.left + 10.0
      && r.objects[|s.objects|].top == src.top + 10.0
      && r.objects[|s.objects|].(left := src.left, top := src.top) == src
      && r.active == Some(|s.objects|)
  {
  }

  // ----------------------------------------------------------------- filters

  /**
   * applyFilter acts only on a selected image, whose filter list becomes
   * exactly one filter of the requested kind with the requested value, or
   * empty for an unknown kind.
   */
  lemma FilterReplacesList(s: Session, filter: string, value: real)
    requires Valid(s)
    ensures !(s.active.Some? && s.objects[s.active.value].shape.Image?) ==> FilterStep(s, filter, value) == s
    ensures s.active.Some? && s.objects[s.active.value].shape.Image? ==>
      var img := FilterStep(s, filter, value).objects[s.active.value];
      && img.shape.Image?
      && img.shape.src == s.objects[s.active.value].shape.src
      && (filter == "brightness" ==> img.shape.filters == [Filter(Brightness, value)])
      && (filter == "contrast" ==> img.shape.filters == [Filter(Contrast, value)])
      && (filter == "saturation" ==> img.shape.filters == [Filter(Saturation, value)])
      && (filter !in {"brightness", "contrast", "saturation"} ==> img.shape.filters == [])
  {
  }

  /** Applying the same filter with the same value twice equals applying it once. */
  lemma FilterIdempotent(s: Session, filter: string, value: real)
    requires Valid(s)
    ensures FilterStep(FilterStep(s, filter, value), filter, value) == FilterStep(s, filter, value)
  {
  }

  // -------------------------------------------------------------- text style

  /**
   * Underline toggled twice is back where it started; bold and italic are
   * too when the weight or style was "normal" or "bold"/"italic" to begin with
   * (any other weight, such as "600", becomes "bold" and then "normal").
   */
  lemma FormatTwiceRestores(o: SceneObject, format: string)
    requires o.shape.Textbox?
    requires format == "bold" ==> o.shape.style.fontWeight in {"normal", "bold"}
    requires format == "italic" ==> o.shape.style.fontStyle in {"normal", "italic"}
    ensures Formatted(Formatted(o, format), format) == o
  {
  }

  /** A weight other than "normal" or "bold" does not survive two bold toggles. */
  lemma BoldTwiceFromOtherWeight(o: SceneObject)
    requires o.shape.Textbox? && o.shape.style.fontWeight !in {"normal", "bold"}
    ensures Formatted(Formatted(o, "bold"), "bold").shape.style.fontWeight == "normal"
  {
  }

  // ---------------------------------------------- delete, reorder, resize

  /** deleteObject removes exactly the selected object and clears the selection. */
  lemma DeleteRemovesSelection(s: Session)
    requires Valid(s) && s.active.Some?
    ensures var r := Delete(s); var i := s.active.value;
      && r.objects == s.objects[..i] + s.objects[i + 1..]
      && multiset(r.objects) + multiset{s.objects[i]} == multiset(s.objects)
      && r.active == None
  {
    var i := s.active.value;
    assert s.objects == s.objects[..i] + [s.objects[i]] + s.objects[i + 1..];
  }

  /** Bringing an object forward and sending it back again restores the order and the selection. */
  lemma ForwardThenBackward(s: Session)
    requires Valid(s) && s.active.Some? && s.active.value + 1 < |s.objects|
    ensures SendBackwards(BringForward(s)).objects == s.objects
    ensures SendBackwards(BringForward(s)).active == s.active
  {
  }

  /** Reordering never changes which objects are on the canvas; at the front end it moves nothing. */
  lemma ReorderKeepsObjects(s: Session)
    requires Valid(s)
    ensures multiset(BringForward(s).objects) == multiset(s.objects)
    ensures multiset(SendBackwards(s).objects) == multiset(s.objects)
    ensures s.active == Some(|s.objects| - 1) ==> BringForward(s).objects == s.objects
    ensures s.active == Some(0) ==> SendBackwards(s).objects == s.objects
  {
  }

  /** Resizing the document does not rescale or move any object. */
  lemma ResizeKeepsObjects(s: Session, width: int, height: int)
    requires Valid(s)
    ensures Resize(s, width, height).objects == s.objects
    ensures Resize(s, width, height).width == width && Resize(s, width, height).height == height
    ensures Resize(s, width, height).elementWidth == Some(width) && Resize(s, width, height).elementHeight == Some(height)
  {
  }

  /** Every preset has positive dimensions and the five names are distinct. */
  lemma PresetsWellFormed()
    ensures |Presets| == 5
    ensures forall i :: 0 <= i < |Presets| ==> Presets[i].width > 0 && Presets[i].height > 0
    ensures forall i, j :: 0 <= i < j < |Presets| ==> Presets[i].name != Presets[j].name
  {
  }
}
