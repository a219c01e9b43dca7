/**
 The state of the annotation editor (src/App.js) as a value, and each event
 handler as a function from the state before the event to the state after it.
 Events run one at a time to completion, so a run of events is the
 composition of these functions.
 */
module AppState {
  import opened Geometry

  /** Image locators; used only as keys of the saved annotations. */
  type Url = string

  datatype Option<T> = None | Some(value: T)

  /** The images the editor steps through, in order. */
  const ImageUrls: seq<Url> := [
    "/assets/Image 1.jpg",
    "/assets/Image 2.jpg",
    "/assets/Image 3.webp",
    "/assets/Image 4.jpg",
    "/assets/Image 5.jpg"
  ]

  /** The five pieces of editor state:
      `annotations` the saved lists per image, `currentAnnotations` the list
      being edited for the displayed image, `currentImageIndex` the displayed
      image, `newAnnotation` the rectangle being drawn (empty or one element),
      `selectedId` the selected annotation, if any. */
  datatype State = State(
    annotations: map<Url, seq<Annotation>>,
    currentAnnotations: seq<Annotation>,
    currentImageIndex: nat,
    newAnnotation: seq<Annotation>,
    selectedId: Option<Id>)

  /** The invariant every reachable state keeps: the index names an image
      and at most one rectangle is being drawn. */
  predicate Valid(urls: seq<Url>, s: State)
  {
    s.currentImageIndex < |urls| && |s.newAnnotation| <= 1
  }

  /** The state when the editor starts: nothing saved, nothing drawn, first
      image shown, nothing selected. */
  function Initial(urls: seq<Url>): (s: State)
    requires |urls| > 0
    ensures Valid(urls, s)
  {
    State(map[], [], 0, [], None)
  }

  /** The list saved for an image, or the empty list if none was saved. */
  function Saved(annotations: map<Url, seq<Annotation>>, url: Url): seq<Annotation>
  {
    if url in annotations then annotations[url] else []
  }

  /** `handlePrevious`: show the previous image, if there is one, and replace
      the list being edited by what was saved for it. */
  function HandlePrevious(urls: seq<Url>, s: State): (r: State)
    requires Valid(urls, s)
    ensures Valid(urls, r)
    ensures r.annotations == s.annotations && r.newAnnotation == s.newAnnotation
    ensures r.selectedId == s.selectedId
    ensures s.currentImageIndex == 0 ==> r == s
    ensures s.currentImageIndex > 0 ==>
              r.currentImageIndex + 1 == s.currentImageIndex &&
              r.currentAnnotations == Saved(s.annotations, urls[r.currentImageIndex])
  {
    if s.currentImageIndex > 0 then
      var i := s.currentImageIndex - 1;
      s.(currentImageIndex := i, currentAnnotations := Saved(s.annotations, urls[i]))
    else s
  }

  /** `handleNext`: show the next image, if there is one, and replace the list
      being edited by what was saved for it. */
  function HandleNext(urls: seq<Url>, s: State): (r: State)
    requires Valid(urls, s)
    ensures Valid(urls, r)
    ensures r.annotations == s.annotations && r.newAnnotation == s.newAnnotation
    ensures r.selectedId == s.selectedId
    ensures s.currentImageIndex == |urls| - 1 ==> r == s
    ensures s.currentImageIndex < |urls| - 1 ==>
              r.currentImageIndex == s.currentImageIndex + 1 &&
              r.currentAnnotations == Saved(s.annotations, urls[r.currentImageIndex])
  {
    if s.currentImageIndex < |urls| - 1 then
      var i := s.currentImageIndex + 1;
      s.(currentImageIndex := i, currentAnnotations := Saved(s.annotations, urls[i]))
    else s
  }

  /** `handleSave`: store the list being edited under the displayed image's
      locator, leaving every other saved list as it was. */
  function HandleSave(urls: seq<Url>, s: State): (r: State)
    requires Valid(urls, s)
    ensures Valid(urls, r)
    ensures r.annotations.Keys == s.annotations.Keys + {urls[s.currentImageIndex]}
    ensures r.annotations[urls[s.currentImageIndex]] == s.currentAnnotations
    ensures forall u :: u in s.annotations && u != urls[s.currentImageIndex] ==>
              r.annotations[u] == s.annotations[u]
    ensures r.currentAnnotations == s.currentAnnotations && r.newAnnotation == s.newAnnotation
    ensures r.currentImageIndex == s.currentImageIndex && r.selectedId == s.selectedId
  {
    s.(annotations := s.annotations[urls[s.currentImageIndex] := s.currentAnnotations])
  }

  /** Drawing is possible only while nothing is selected. */
  predicate DrawingEnabled(s: State)
  {
    s.selectedId.None?
  }

  /** `handleMouseDown`: with nothing selected and nothing being drawn, start
      a rectangle of size zero at the pointer; otherwise do nothing. */
  function HandleMouseDown(s: State, p: Point, freshId: Id): (r: State)
    ensures r.annotations == s.annotations && r.currentAnnotations == s.currentAnnotations
    ensures r.currentImageIndex == s.currentImageIndex && r.selectedId == s.selectedId
    ensures DrawingEnabled(s) && s.newAnnotation == [] ==>
              r.newAnnotation == [Annotation(freshId, p.x, p.y, 0.0, 0.0)]
    ensures !(DrawingEnabled(s) && s.newAnnotation == []) ==> r == s
  {
    if DrawingEnabled(s) && |s.newAnnotation| == 0 then
      s.(newAnnotation := [Annotation(freshId, p.x, p.y, 0.0, 0.0)])
    else s
  }

  /** The rectangle being drawn after the pointer moved to `p`: its corner
      stays at the anchor, its size is the signed distance to the pointer,
      and it gets a new identifier. */
  function Redrawn(draft: Annotation, p: Point, freshId: Id): (r: Annotation)
    ensures r.x == draft.x && r.y == draft.y && r.id == freshId
    ensures r.x + r.width == p.x && r.y + r.height == p.y
  {
    Annotation(freshId, draft.x, draft.y, p.x - draft.x, p.y - draft.y)
  }

  /** `handleMouseMove`: with nothing selected and a rectangle being drawn,
      stretch it to the pointer; otherwise do nothing. */
  function HandleMouseMove(s: State, p: Point, freshId: Id): (r: State)
    ensures r.annotations == s.annotations && r.currentAnnotations == s.currentAnnotations
    ensures r.currentImageIndex == s.currentImageIndex && r.selectedId == s.selectedId
    ensures DrawingEnabled(s) && |s.newAnnotation| == 1 ==>
              r.newAnnotation == [Redrawn(s.newAnnotation[0], p, freshId)]
    ensures !(DrawingEnabled(s) && |s.newAnnotation| == 1) ==> r == s
  {
    if DrawingEnabled(s) && |s.newAnnotation| == 1 then
      s.(newAnnotation := [Redrawn(s.newAnnotation[0], p, freshId)])
    else s
  }

  /** `handleMouseUp`: with nothing selected and a rectangle being drawn,
      append it to the list being edited and stop drawing; otherwise do
      nothing. */
  function HandleMouseUp(s: State): (r: State)
    ensures r.annotations == s.annotations && r.currentImageIndex == s.currentImageIndex
    ensures r.selectedId == s.selectedId
    ensures DrawingEnabled(s) && |s.newAnnotation| == 1 ==>
              r.newAnnotation == [] &&
              |r.currentAnnotations| == |s.currentAnnotations| + 1 &&
              r.currentAnnotations[..|s.currentAnnotations|] == s.currentAnnotations &&
              r.currentAnnotations[|s.currentAnnotations|] == s.newAnnotation[0]
    ensures !(DrawingEnabled(s) && |s.newAnnotation| == 1) ==> r == s
  {
    if DrawingEnabled(s) && |s.newAnnotation| == 1 then
      s.(currentAnnotations := s.currentAnnotations + s.newAnnotation, newAnnotation := [])
    else s
  }

  /** The list without the entries whose identifier is `id`, in the original
      order (`Array.prototype.filter`). */
  function RemoveId(list: seq<Annotation>, id: Id): (r: seq<Annotation>)
    ensures forall a :: a in r <==> a in list && a.id != id
    ensures |r| <= |list|
  {
    if list == [] then []
    else (if list[0].id == id then [] else [list[0]]) + RemoveId(list[1..], id)
  }

  /** A key code that deletes the selection: Backspace (8) or Delete (46). */
  predicate IsDeleteKey(keyCode: int)
  {
    keyCode == 8 || keyCode == 46
  }

  /** `handleKeyDown`: Backspace or Delete with a selection removes every
      entry carrying the selected identifier from the list being edited.
      The selection itself is kept. Other keys, or no selection, do nothing. */
  function HandleKeyDown(s: State, keyCode: int): (r: State)
    ensures r.annotations == s.annotations && r.newAnnotation == s.newAnnotation
    ensures r.currentImageIndex == s.currentImageIndex && r.selectedId == s.selectedId
    ensures IsDeleteKey(keyCode) && s.selectedId.Some? ==>
              r.currentAnnotations == RemoveId(s.currentAnnotations, s.selectedId.value)
    ensures !(IsDeleteKey(keyCode) && s.selectedId.Some?) ==> r == s
  {
    if IsDeleteKey(keyCode) && s.selectedId.Some? then
      s.(currentAnnotations := RemoveId(s.currentAnnotations, s.selectedId.value))
    else s
  }

  /** A pointer-down on a shape selects it. */
  function SelectAnnotation(s: State, id: Id): (r: State)
    ensures r.selectedId == Some(id) && !DrawingEnabled(r)
    ensures r.(selectedId := s.selectedId) == s
  {
    s.(selectedId := Some(id))
  }

  /** A pointer-down on the image background clears the selection. */
  function Deselect(s: State): (r: State)
    ensures r.selectedId == None && DrawingEnabled(r)
    ensures r.(selectedId := s.selectedId) == s
  {
    s.(selectedId := None)
  }

  /** `onChange` of the shape drawn at position `i`: replace that entry of
      the list being edited with the attributes the shape reports. */
  function OnChange(s: State, i: nat, attrs: Annotation): (r: State)
    requires i < |s.currentAnnotations|
    ensures |r.currentAnnotations| == |s.currentAnnotations|
    ensures r.currentAnnotations[i] == attrs
    ensures forall j :: 0 <= j < |s.currentAnnotations| && j != i ==>
              r.currentAnnotations[j] == s.currentAnnotations[j]
    ensures r.annotations == s.annotations && r.newAnnotation == s.newAnnotation
    ensures r.currentImageIndex == s.currentImageIndex && r.selectedId == s.selectedId
  {
    s.(currentAnnotations := s.currentAnnotations[i := attrs])
  }

  /** `annotationsToDraw`: the list being edited, then the rectangle being
      drawn, if any. */
  function AnnotationsToDraw(s: State): (r: seq<Annotation>)
    ensures |r| == |s.currentAnnotations| + |s.newAnnotation|
    ensures r[..|s.currentAnnotations|] == s.currentAnnotations
    ensures r[|s.currentAnnotations|..] == s.newAnnotation
  {
    s.currentAnnotations + s.newAnnotation
  }

  /** The pointer events the drawing handlers react to; each carries the
      fresh identifier the handler would generate. */
  datatype PointerEvent =
    | MouseDown(at: Point, freshId: Id)
    | MouseMove(at: Point, freshId: Id)
    | MouseUp

  /** One pointer event, dispatched to its handler. */
  function Pointer(s: State, e: PointerEvent): State
  {
    match e
    case MouseDown(p, id) => HandleMouseDown(s, p, id)
    case MouseMove(p, id) => HandleMouseMove(s, p, id)
    case MouseUp => HandleMouseUp(s)
  }

  /** A run of pointer events, each handled to completion before the next. */
  function RunPointer(s: State, events: seq<PointerEvent>): State
    decreases |events|
  {
    if events == [] then s else RunPointer(Pointer(s, events[0]), events[1..])
  }

  /** The two navigation buttons. */
  datatype NavigationEvent = Previous | Next

  /** One navigation button press, dispatched to its handler. */
  function Navigate(urls: seq<Url>, s: State, e: NavigationEvent): (r: State)
    requires Valid(urls, s)
    ensures Valid(urls, r)
  {
    match e
    case Previous => HandlePrevious(urls, s)
    case Next => HandleNext(urls, s)
  }

  /** A run of navigation button presses, each handled to completion. */
  function RunNavigation(urls: seq<Url>, s: State, events: seq<NavigationEvent>): (r: State)
    requires Valid(urls, s)
    ensures Valid(urls, r)
    decreases |events|
  {
    if events == [] then s else RunNavigation(urls, Navigate(urls, s, events[0]), events[1..])
  }

  /** Whether some press of the run actually changed the displayed image
      (a press at the first or last image does nothing). */
  function MovedDuring(urls: seq<Url>, s: State, events: seq<NavigationEvent>): bool
    requires Valid(urls, s)
    decreases |events|
  {
    if events == [] then false
    else
      var s' := Navigate(urls, s, events[0]);
      s'.currentImageIndex != s.currentImageIndex || MovedDuring(urls, s', events[1..])
  }
}
