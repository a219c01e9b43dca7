/**
 Properties of the editor's event handlers over runs of events: drawing,
 gating by the selection, deletion, navigation with and without saving,
 in-place edits and the list handed to the renderer.
 */
module AppProperties {
  import opened Geometry
  import opened AppState

  // ---------------------------------------------------------------------
  // Runs of pointer events

  /** Handling `a + b` is handling `a`, then `b`. */
  lemma {:induction false} RunPointerAppend(s: State, a: seq<PointerEvent>, b: seq<PointerEvent>)
    ensures RunPointer(s, a + b) == RunPointer(RunPointer(s, a), b)
    decreases |a|
  {
    if a != [] {
      assert (a + b)[0] == a[0];
      assert (a + b)[1..] == a[1..] + b;
      RunPointerAppend(Pointer(s, a[0]), a[1..], b);
    } else {
      assert a + b == b;
    }
  }

  /** While a shape is selected, no run of pointer events changes anything:
      no rectangle is started, stretched or appended. */
  lemma {:induction false} SelectionBlocksDrawing(s: State, events: seq<PointerEvent>)
    requires s.selectedId.Some?
    ensures RunPointer(s, events) == s
    decreases |events|
  {
    if events != [] {
      assert Pointer(s, events[0]) == s;
      SelectionBlocksDrawing(s, events[1..]);
    }
  }

  /** No run of pointer events leads to more than one rectangle being drawn. */
  lemma {:induction false} RunPointerKeepsOneDraft(s: State, events: seq<PointerEvent>)
    requires |s.newAnnotation| <= 1
    ensures |RunPointer(s, events).newAnnotation| <= 1
    decreases |events|
  {
    if events != [] {
      RunPointerKeepsOneDraft(Pointer(s, events[0]), events[1..]);
    }
  }

  /** Pointer events never touch the saved lists, the displayed image or the
      selection. */
  lemma {:induction false} RunPointerFrame(s: State, events: seq<PointerEvent>)
    ensures RunPointer(s, events).annotations == s.annotations
    ensures RunPointer(s, events).currentImageIndex == s.currentImageIndex
    ensures RunPointer(s, events).selectedId == s.selectedId
    decreases |events|
  {
    if events != [] {
      RunPointerFrame(Pointer(s, events[0]), events[1..]);
    }
  }

  predicate AllMoves(events: seq<PointerEvent>)
  {
    forall k :: 0 <= k < |events| ==> events[k].MouseMove?
  }

  /** While drawing, a run of moves keeps the anchor and leaves the rectangle
      stretched to the last pointer position, with the last fresh identifier. */
  lemma {:induction false} MovesStretchFromAnchor(s: State, moves: seq<PointerEvent>)
    requires DrawingEnabled(s) && |s.newAnnotation| == 1
    requires AllMoves(moves)
    ensures moves == [] ==> RunPointer(s, moves) == s
    ensures moves != [] ==>
              var last := moves[|moves| - 1];
              RunPointer(s, moves) ==
                s.(newAnnotation := [Redrawn(s.newAnnotation[0], last.at, last.freshId)])
    decreases |moves|
  {
    if moves != [] {
      var s' := Pointer(s, moves[0]);
      assert s' == s.(newAnnotation := [Redrawn(s.newAnnotation[0], moves[0].at, moves[0].freshId)]);
      assert AllMoves(moves[1..]) by {
        forall k | 0 <= k < |moves[1..]| ensures moves[1..][k].MouseMove? {
          assert moves[1..][k] == moves[k + 1];
        }
      }
      MovesStretchFromAnchor(s', moves[1..]);
    }
  }

  /** The rectangle a complete gesture appends: anchored at the press point
      `a`, sized by the signed distance to the last pointer position. */
  function GestureResult(a: Point, id: Id, moves: seq<PointerEvent>): Annotation
    requires AllMoves(moves)
  {
    if moves == [] then Annotation(id, a.x, a.y, 0.0, 0.0)
    else
      var last := moves[|moves| - 1];
      Annotation(last.freshId, a.x, a.y, last.at.x - a.x, last.at.y - a.y)
  }

  /** With nothing selected and nothing being drawn, a press at `a`, any
      number of moves and a release append exactly one rectangle, anchored
      at `a` and reaching the last pointer position, to the end of the list
      being edited; nothing else changes. */
  lemma {:induction false} DrawGesture(s: State, a: Point, id: Id, moves: seq<PointerEvent>)
    requires DrawingEnabled(s) && s.newAnnotation == []
    requires AllMoves(moves)
    ensures RunPointer(s, [MouseDown(a, id)] + moves + [MouseUp]) ==
              s.(currentAnnotations := s.currentAnnotations + [GestureResult(a, id, moves)])
  {
    var down := [MouseDown(a, id)];
    RunPointerAppend(s, down + moves, [MouseUp]);
    RunPointerAppend(s, down, moves);
    var s1 := RunPointer(s, down);
    assert s1 == s.(newAnnotation := [Annotation(id, a.x, a.y, 0.0, 0.0)]);
    MovesStretchFromAnchor(s1, moves);
    var s2 := RunPointer(s1, moves);
    assert s2 == s.(newAnnotation := [GestureResult(a, id, moves)]);
    assert RunPointer(s2, [MouseUp]) == HandleMouseUp(s2);
  }

  // ---------------------------------------------------------------------
  // What is drawn

  /** The renderer is given the list being edited followed by at most one
      rectangle being drawn. */
  lemma RenderListBound(urls: seq<Url>, s: State)
    requires Valid(urls, s)
    ensures |s.currentAnnotations| <= |AnnotationsToDraw(s)| <= |s.currentAnnotations| + 1
    ensures AnnotationsToDraw(s)[..|s.currentAnnotations|] == s.currentAnnotations
  {
  }

  /** Releasing the pointer moves the rectangle being drawn into the list
      being edited without changing what is drawn. */
  lemma MouseUpKeepsRenderList(s: State)
    ensures AnnotationsToDraw(HandleMouseUp(s)) == AnnotationsToDraw(s)
  {
  }

  // ---------------------------------------------------------------------
  // Deleting by identifier

  /** Removing an identifier that no entry carries changes nothing. */
  lemma {:induction false} RemoveIdAbsent(list: seq<Annotation>, id: Id)
    requires forall k :: 0 <= k < |list| ==> list[k].id != id
    ensures RemoveId(list, id) == list
    decreases |list|
  {
    if list != [] {
      RemoveIdAbsent(list[1..], id);
      assert list == [list[0]] + list[1..];
    }
  }

  /** Removal works piecewise, so the kept entries stay in their order. */
  lemma {:induction false} RemoveIdAppend(a: seq<Annotation>, b: seq<Annotation>, id: Id)
    ensures RemoveId(a + b, id) == RemoveId(a, id) + RemoveId(b, id)
    decreases |a|
  {
    if a != [] {
      assert (a + b)[0] == a[0];
      assert (a + b)[1..] == a[1..] + b;
      RemoveIdAppend(a[1..], b, id);
    } else {
      assert a + b == b;
    }
  }

  /** Removing the identifier of the middle entry `x`, which no entry of
      `pre` or `post` carries, joins `pre` and `post`. */
  lemma RemoveIdMiddle(pre: seq<Annotation>, x: Annotation, post: seq<Annotation>, id: Id)
    requires x.id == id
    requires forall j :: 0 <= j < |pre| ==> pre[j].id != id
    requires forall j :: 0 <= j < |post| ==> post[j].id != id
    ensures RemoveId(pre + ([x] + post), id) == pre + post
  {
    assert RemoveId([x], id) == [] by {
      assert [x][1..] == [];
    }
    calc {
      RemoveId(pre + ([x] + post), id);
    == { RemoveIdAppend(pre, [x] + post, id); }
      RemoveId(pre, id) + RemoveId([x] + post, id);
    == { RemoveIdAppend([x], post, id); }
      RemoveId(pre, id) + ([] + RemoveId(post, id));
    == { RemoveIdAbsent(pre, id); RemoveIdAbsent(post, id); }
      pre + ([] + post);
    }
    assert [] + post == post;
  }

  /** When exactly one entry, at `k`, carries the identifier, removal takes
      out that entry and keeps all others, unchanged and in order. */
  lemma RemoveIdSingle(list: seq<Annotation>, id: Id, k: nat)
    requires k < |list| && list[k].id == id
    requires forall j :: 0 <= j < |list| && j != k ==> list[j].id != id
    ensures RemoveId(list, id) == list[..k] + list[k + 1..]
  {
    var pre, post := list[..k], list[k + 1..];
    assert list == pre + ([list[k]] + post) by {
      assert list[k..] == [list[k]] + post;
      assert list == pre + list[k..];
    }
    forall j | 0 <= j < |pre| ensures pre[j].id != id {
      assert pre[j] == list[j];
    }
    forall j | 0 <= j < |post| ensures post[j].id != id {
      assert post[j] == list[k + 1 + j];
    }
    RemoveIdMiddle(pre, list[k], post, id);
  }

  /** Removing the same identifier twice is the same as removing it once. */
  lemma RemoveIdIdempotent(list: seq<Annotation>, id: Id)
    ensures RemoveId(RemoveId(list, id), id) == RemoveId(list, id)
  {
    var r := RemoveId(list, id);
    forall k | 0 <= k < |r| ensures r[k].id != id {
      assert r[k] in r;
    }
    RemoveIdAbsent(r, id);
  }

  /** Identifiers are unique within a list. */
  predicate UniqueIds(list: seq<Annotation>)
  {
    forall i, j :: 0 <= i < j < |list| ==> list[i].id != list[j].id
  }

  /** Removal keeps identifiers unique. */
  lemma {:induction false} RemoveIdKeepsUnique(list: seq<Annotation>, id: Id)
    requires UniqueIds(list)
    ensures UniqueIds(RemoveId(list, id))
    decreases |list|
  {
    if list != [] {
      var rest := RemoveId(list[1..], id);
      assert UniqueIds(list[1..]) by {
        forall i, j | 0 <= i < j < |list[1..]| ensures list[1..][i].id != list[1..][j].id {
          assert list[1..][i] == list[i + 1] && list[1..][j] == list[j + 1];
        }
      }
      RemoveIdKeepsUnique(list[1..], id);
      if list[0].id != id {
        forall j | 0 <= j < |rest| ensures rest[j].id != list[0].id {
          assert rest[j] in list[1..];
          var m :| 0 <= m < |list[1..]| && list[1..][m] == rest[j];
          assert list[m + 1] == rest[j];
        }
        assert RemoveId(list, id) == [list[0]] + rest;
      }
    }
  }

  /** Backspace or Delete with a unique selected entry at `k` removes that
      entry and no other, and the selection stays set. */
  lemma DeleteRemovesSelected(s: State, keyCode: int, k: nat)
    requires IsDeleteKey(keyCode) && s.selectedId.Some?
    requires k < |s.currentAnnotations| && s.currentAnnotations[k].id == s.selectedId.value
    requires forall j :: 0 <= j < |s.currentAnnotations| && j != k ==>
               s.currentAnnotations[j].id != s.selectedId.value
    ensures HandleKeyDown(s, keyCode) ==
              s.(currentAnnotations := s.currentAnnotations[..k] + s.currentAnnotations[k + 1..])
  {
    RemoveIdSingle(s.currentAnnotations, s.selectedId.value, k);
  }

  /** Because the selection survives a delete, a second delete finds nothing
      left to remove, and drawing stays blocked until a deselect. */
  lemma DeleteTwiceIsDeleteOnce(s: State, keyCode: int, events: seq<PointerEvent>)
    ensures HandleKeyDown(HandleKeyDown(s, keyCode), keyCode) == HandleKeyDown(s, keyCode)
    ensures IsDeleteKey(keyCode) && s.selectedId.Some? ==>
              RunPointer(HandleKeyDown(s, keyCode), events) == HandleKeyDown(s, keyCode)
  {
    if IsDeleteKey(keyCode) && s.selectedId.Some? {
      RemoveIdIdempotent(s.currentAnnotations, s.selectedId.value);
      SelectionBlocksDrawing(HandleKeyDown(s, keyCode), events);
    }
  }

  // ---------------------------------------------------------------------
  // Navigation and saving

  /** Saving, moving to the next image and coming back shows the saved list
      again. */
  lemma SaveNextPreviousRestores(urls: seq<Url>, s: State)
    requires Valid(urls, s) && s.currentImageIndex < |urls| - 1
    ensures var r := HandlePrevious(urls, HandleNext(urls, HandleSave(urls, s)));
            r.currentAnnotations == s.currentAnnotations &&
            r.currentImageIndex == s.currentImageIndex
  {
  }

  /** Saving, moving to the previous image and coming back shows the saved
      list again. */
  lemma SavePreviousNextRestores(urls: seq<Url>, s: State)
    requires Valid(urls, s) && s.currentImageIndex > 0
    ensures var r := HandleNext(urls, HandlePrevious(urls, HandleSave(urls, s)));
            r.currentAnnotations == s.currentAnnotations &&
            r.currentImageIndex == s.currentImageIndex
  {
  }

  /** Moving away and back without saving drops the unsaved edits: the list
      being edited is whatever was last saved for the image, or empty. The
      rectangle being drawn and the selection are carried along. */
  lemma NextPreviousDiscardsUnsaved(urls: seq<Url>, s: State)
    requires Valid(urls, s) && s.currentImageIndex < |urls| - 1
    ensures HandlePrevious(urls, HandleNext(urls, s)) ==
              s.(currentAnnotations := Saved(s.annotations, urls[s.currentImageIndex]))
  {
  }

  /** The same when moving to the previous image and back. */
  lemma PreviousNextDiscardsUnsaved(urls: seq<Url>, s: State)
    requires Valid(urls, s) && s.currentImageIndex > 0
    ensures HandleNext(urls, HandlePrevious(urls, s)) ==
              s.(currentAnnotations := Saved(s.annotations, urls[s.currentImageIndex]))
  {
  }

  /** Saving twice in a row is saving once. */
  lemma SaveIdempotent(urls: seq<Url>, s: State)
    requires Valid(urls, s)
    ensures HandleSave(urls, HandleSave(urls, s)) == HandleSave(urls, s)
  {
  }

  /** Any run of Previous and Next presses either changes nothing at all
      (no press moved) or leaves the list being edited equal to what was
      saved for the image finally shown, or empty; the saved lists, the
      rectangle being drawn and the selection are never touched. */
  lemma {:induction false} RunNavigationShowsSaved(urls: seq<Url>, s: State, events: seq<NavigationEvent>)
    requires Valid(urls, s)
    ensures var r := RunNavigation(urls, s, events);
            r.annotations == s.annotations && r.newAnnotation == s.newAnnotation &&
            r.selectedId == s.selectedId
    ensures !MovedDuring(urls, s, events) ==> RunNavigation(urls, s, events) == s
    ensures MovedDuring(urls, s, events) ==>
              var r := RunNavigation(urls, s, events);
              r.currentAnnotations == Saved(s.annotations, urls[r.currentImageIndex])
    decreases |events|
  {
    if events != [] {
      var s' := Navigate(urls, s, events[0]);
      assert s'.annotations == s.annotations;
      assert s'.currentImageIndex == s.currentImageIndex ==> s' == s;
      RunNavigationShowsSaved(urls, s', events[1..]);
    }
  }

  /** Save, then move away by any number of presses and come back to the
      same image: the saved list is shown again. */
  lemma SaveAwayAndBackRestores(urls: seq<Url>, s: State, events: seq<NavigationEvent>)
    requires Valid(urls, s)
    requires RunNavigation(urls, HandleSave(urls, s), events).currentImageIndex == s.currentImageIndex
    ensures RunNavigation(urls, HandleSave(urls, s), events).currentAnnotations == s.currentAnnotations
  {
    RunNavigationShowsSaved(urls, HandleSave(urls, s), events);
  }

  /** Move away by any number of presses without saving and come back to
      the same image: the edits are gone, and the list being edited is the
      last saved one for that image, or empty. */
  lemma AwayAndBackDiscardsUnsaved(urls: seq<Url>, s: State, events: seq<NavigationEvent>)
    requires Valid(urls, s) && MovedDuring(urls, s, events)
    requires RunNavigation(urls, s, events).currentImageIndex == s.currentImageIndex
    ensures RunNavigation(urls, s, events) ==
              s.(currentAnnotations := Saved(s.annotations, urls[s.currentImageIndex]))
  {
    RunNavigationShowsSaved(urls, s, events);
  }

  // ---------------------------------------------------------------------
  // Editing one entry

  /** Writing back the old attributes undoes an edit. */
  lemma OnChangeUndo(s: State, i: nat, attrs: Annotation)
    requires i < |s.currentAnnotations|
    ensures OnChange(OnChange(s, i, attrs), i, s.currentAnnotations[i]) == s
  {
  }

  /** Dragging the entry at `i` changes only its position; the list keeps
      its length and every identifier. */
  lemma DragKeepsIds(s: State, i: nat, nodeX: real, nodeY: real)
    requires i < |s.currentAnnotations|
    ensures var r := OnChange(s, i, Dragged(s.currentAnnotations[i], nodeX, nodeY));
            forall j :: 0 <= j < |s.currentAnnotations| ==>
              r.currentAnnotations[j].id == s.currentAnnotations[j].id &&
              r.currentAnnotations[j].width == s.currentAnnotations[j].width &&
              r.currentAnnotations[j].height == s.currentAnnotations[j].height
  {
  }

  // ---------------------------------------------------------------------
  // Unique identifiers

  /** Identifiers are unique in the list being edited and in every saved
      list. Deletion relies on it: `RemoveId` takes out every entry that
      carries the selected identifier. */
  predicate IdsUnique(s: State)
  {
    UniqueIds(s.currentAnnotations) &&
    forall u :: u in s.annotations ==> UniqueIds(s.annotations[u])
  }

  /** No entry of `list` carries `id`. */
  predicate IdAbsent(id: Id, list: seq<Annotation>)
  {
    forall j :: 0 <= j < |list| ==> list[j].id != id
  }

  /** The identifier of the rectangle being drawn is new to the list being
      edited, as a fresh uuid is. */
  predicate DraftFresh(s: State)
  {
    forall k :: 0 <= k < |s.newAnnotation| ==> IdAbsent(s.newAnnotation[k].id, s.currentAnnotations)
  }

  /** Releasing the pointer keeps identifiers unique when the draft's
      identifier is fresh; when it is not, the append makes them clash. */
  lemma MouseUpKeepsUnique(s: State)
    requires IdsUnique(s)
    ensures DraftFresh(s) ==> IdsUnique(HandleMouseUp(s))
    ensures DrawingEnabled(s) && |s.newAnnotation| == 1 && IdsUnique(HandleMouseUp(s)) ==> DraftFresh(s)
  {
    if DrawingEnabled(s) && |s.newAnnotation| == 1 {
      var list := s.currentAnnotations;
      var r := HandleMouseUp(s).currentAnnotations;
      assert r == list + [s.newAnnotation[0]];
      if DraftFresh(s) {
        forall i, j | 0 <= i < j < |r| ensures r[i].id != r[j].id {
          if j == |list| {
            assert r[i] == list[i] && r[j] == s.newAnnotation[0];
          } else {
            assert r[i] == list[i] && r[j] == list[j];
          }
        }
      }
      if UniqueIds(r) {
        forall j | 0 <= j < |list| ensures list[j].id != s.newAnnotation[0].id {
          assert r[j] == list[j] && r[|list|] == s.newAnnotation[0];
        }
      }
    }
  }

  /** In a state whose identifiers are unique, deleting the selected entry
      at `k` takes out that entry alone. */
  lemma DeleteUniqueSelected(s: State, keyCode: int, k: nat)
    requires IdsUnique(s) && IsDeleteKey(keyCode) && s.selectedId.Some?
    requires k < |s.currentAnnotations| && s.currentAnnotations[k].id == s.selectedId.value
    ensures HandleKeyDown(s, keyCode) ==
              s.(currentAnnotations := s.currentAnnotations[..k] + s.currentAnnotations[k + 1..])
  {
    forall j | 0 <= j < |s.currentAnnotations| && j != k
      ensures s.currentAnnotations[j].id != s.selectedId.value
    {
      if j < k {
        assert s.currentAnnotations[j].id != s.currentAnnotations[k].id;
      } else {
        assert s.currentAnnotations[k].id != s.currentAnnotations[j].id;
      }
    }
    DeleteRemovesSelected(s, keyCode, k);
  }

  /** Replacing an entry by attributes with the same identifier keeps
      identifiers unique. */
  lemma OnChangeKeepsUnique(s: State, i: nat, attrs: Annotation)
    requires i < |s.currentAnnotations| && IdsUnique(s)
    requires attrs.id == s.currentAnnotations[i].id
    ensures IdsUnique(OnChange(s, i, attrs))
  {
    var r := OnChange(s, i, attrs).currentAnnotations;
    forall j, k | 0 <= j < k < |r| ensures r[j].id != r[k].id {
      assert r[j].id == s.currentAnnotations[j].id && r[k].id == s.currentAnnotations[k].id;
    }
  }

  /** The attributes a drag or a resize reports for the entry at `i` keep
      its identifier, so storing them keeps identifiers unique. */
  lemma DragAndResizeKeepUnique(s: State, i: nat, nodeX: real, nodeY: real,
                                nodeWidth: real, nodeHeight: real, scaleX: real, scaleY: real)
    requires i < |s.currentAnnotations| && IdsUnique(s)
    ensures IdsUnique(OnChange(s, i, Dragged(s.currentAnnotations[i], nodeX, nodeY)))
    ensures IdsUnique(OnChange(s, i, Resized(s.currentAnnotations[i], nodeX, nodeY,
                                             nodeWidth, nodeHeight, scaleX, scaleY)))
  {
    OnChangeKeepsUnique(s, i, Dragged(s.currentAnnotations[i], nodeX, nodeY));
    OnChangeKeepsUnique(s, i, Resized(s.currentAnnotations[i], nodeX, nodeY,
                                      nodeWidth, nodeHeight, scaleX, scaleY));
  }

  /** Saving and moving between images keep identifiers unique: a save
      stores a unique list, and navigation loads a saved one. */
  lemma SaveAndNavigationKeepUnique(urls: seq<Url>, s: State, e: NavigationEvent)
    requires Valid(urls, s) && IdsUnique(s)
    ensures IdsUnique(HandleSave(urls, s))
    ensures IdsUnique(Navigate(urls, s, e))
  {
    var r := HandleSave(urls, s);
    forall u | u in r.annotations ensures UniqueIds(r.annotations[u]) {
      if u != urls[s.currentImageIndex] {
        assert r.annotations[u] == s.annotations[u];
      }
    }
    var n := Navigate(urls, s, e);
    assert UniqueIds(n.currentAnnotations) by {
      if n.currentImageIndex != s.currentImageIndex {
        var url := urls[n.currentImageIndex];
        assert n.currentAnnotations == Saved(s.annotations, url);
        if url in s.annotations {
          assert UniqueIds(s.annotations[url]);
        }
      }
    }
  }

  /** Any run of navigation presses keeps identifiers unique. */
  lemma {:induction false} RunNavigationKeepsUnique(urls: seq<Url>, s: State, events: seq<NavigationEvent>)
    requires Valid(urls, s) && IdsUnique(s)
    ensures IdsUnique(RunNavigation(urls, s, events))
    decreases |events|
  {
    if events != [] {
      SaveAndNavigationKeepUnique(urls, s, events[0]);
      RunNavigationKeepsUnique(urls, Navigate(urls, s, events[0]), events[1..]);
    }
  }

  /** Deleting, selecting and deselecting keep identifiers unique. */
  lemma DeleteAndSelectionKeepUnique(s: State, keyCode: int, id: Id)
    requires IdsUnique(s)
    ensures IdsUnique(HandleKeyDown(s, keyCode))
    ensures IdsUnique(SelectAnnotation(s, id)) && IdsUnique(Deselect(s))
  {
    if IsDeleteKey(keyCode) && s.selectedId.Some? {
      RemoveIdKeepsUnique(s.currentAnnotations, s.selectedId.value);
    }
  }

  /** The identifiers a run of pointer events would generate are fresh: they
      differ from each other, from every entry of the list being edited and
      from the rectangle being drawn, which is itself fresh. */
  predicate FreshIds(s: State, events: seq<PointerEvent>)
  {
    DraftFresh(s) &&
    (forall i :: 0 <= i < |events| && !events[i].MouseUp? ==>
       IdAbsent(events[i].freshId, s.currentAnnotations + s.newAnnotation)) &&
    (forall i, j :: 0 <= i < j < |events| && !events[i].MouseUp? && !events[j].MouseUp? ==>
       events[i].freshId != events[j].freshId)
  }

  /** One pointer event keeps identifiers unique and leaves the remaining
      events' identifiers fresh. */
  lemma PointerKeepsFresh(s: State, events: seq<PointerEvent>)
    requires events != [] && IdsUnique(s) && FreshIds(s, events)
    ensures IdsUnique(Pointer(s, events[0])) && FreshIds(Pointer(s, events[0]), events[1..])
  {
    var e := events[0];
    var t := Pointer(s, e);
    var rest := events[1..];
    assert forall i :: 0 <= i < |rest| ==> rest[i] == events[i + 1];
    match e
    case MouseUp =>
      MouseUpKeepsUnique(s);
      if DrawingEnabled(s) && |s.newAnnotation| == 1 {
        assert t.currentAnnotations + t.newAnnotation == s.currentAnnotations + s.newAnnotation;
      }
    case MouseDown(p, f) =>
      if t != s {
        assert t.newAnnotation[0].id == f && t.currentAnnotations == s.currentAnnotations;
        assert IdAbsent(f, s.currentAnnotations + s.newAnnotation);
        forall j | 0 <= j < |t.currentAnnotations| ensures t.currentAnnotations[j].id != f {
          assert (s.currentAnnotations + s.newAnnotation)[j] == t.currentAnnotations[j];
        }
        forall i | 0 <= i < |rest| && !rest[i].MouseUp?
          ensures IdAbsent(rest[i].freshId, t.currentAnnotations + t.newAnnotation)
        {
          assert rest[i] == events[i + 1];
          assert IdAbsent(rest[i].freshId, s.currentAnnotations + s.newAnnotation);
          forall j | 0 <= j < |t.currentAnnotations| ensures t.currentAnnotations[j].id != rest[i].freshId {
            assert (s.currentAnnotations + s.newAnnotation)[j] == t.currentAnnotations[j];
          }
        }
      }
    case MouseMove(p, f) =>
      if t != s {
        assert t.newAnnotation[0].id == f && t.currentAnnotations == s.currentAnnotations;
        assert IdAbsent(f, s.currentAnnotations + s.newAnnotation);
        forall j | 0 <= j < |t.currentAnnotations| ensures t.currentAnnotations[j].id != f {
          assert (s.currentAnnotations + s.newAnnotation)[j] == t.currentAnnotations[j];
        }
        forall i | 0 <= i < |rest| && !rest[i].MouseUp?
          ensures IdAbsent(rest[i].freshId, t.currentAnnotations + t.newAnnotation)
        {
          assert rest[i] == events[i + 1];
          assert IdAbsent(rest[i].freshId, s.currentAnnotations + s.newAnnotation);
          forall j | 0 <= j < |t.currentAnnotations| ensures t.currentAnnotations[j].id != rest[i].freshId {
            assert (s.currentAnnotations + s.newAnnotation)[j] == t.currentAnnotations[j];
          }
        }
      }
  }

  /** With fresh identifiers from uuid generation, any run of pointer events
      keeps identifiers unique. */
  lemma {:induction false} RunPointerKeepsUnique(s: State, events: seq<PointerEvent>)
    requires IdsUnique(s) && FreshIds(s, events)
    ensures IdsUnique(RunPointer(s, events))
    decreases |events|
  {
    if events != [] {
      PointerKeepsFresh(s, events);
      RunPointerKeepsUnique(Pointer(s, events[0]), events[1..]);
    }
  }
}
