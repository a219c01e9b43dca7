# Image annotation editor: state machine and rectangle geometry

This project models the core of a small browser tool for drawing bounding-box
annotations over a fixed list of images. The user draws rectangles with the
pointer, selects them, drags and resizes them, and deletes them with
Backspace or Delete. The list being edited belongs to the displayed image.
It is kept across image changes only if the user saves it.

- `geometry.dfy` (module `Geometry`, from `src/Annotation.js`): the annotation
  record and the attributes a shape reports after a drag (`Dragged`) and after
  a resize (`Resized`). JavaScript's `Math.max` is modelled as `MathMax` over
  its argument list. The width is computed with two arguments, so it has a
  floor of 5. The height is computed with one argument, so it is not clamped.
  The class `ShapeNode` is the rendered rectangle. Its `OnTransformEnd` resets
  the node's scale to 1 in place.
- `app_state.dfy` (module `AppState`, from `src/App.js`): the editor's five
  annotation state variables as one value `State`. Each handler is a function from the
  state before the event to the state after it. `RunPointer` handles a
  sequence of pointer events, one at a time.
- `app_properties.dfy` (module `AppProperties`): lemmas over those functions.
  They cover drawing gestures, gating by the selection, deletion by identifier,
  navigation with and without saving, in-place edits, the render list and
  the uniqueness of identifiers.
- `editor.dfy` (module `Editor`): the component as a class `App` whose fields
  are those five state variables. It has one method per event. Each method updates
  the fields in place and is proved to yield the state that the matching
  `AppState` function gives. Three client methods replay concrete sessions.

Identifiers are strings, and each event that would generate a uuid takes it as
a parameter. Coordinates and scale factors are `real`. Events run strictly one
after another, and each runs to completion.

Moving to the previous or next image does not clear the rectangle being
drawn: `src/App.js:30-45` never calls `setNewAnnotation`, so `HandlePrevious`
and `HandleNext` keep `newAnnotation` unchanged.
`NextPreviousDiscardsUnsaved` states this.

## Model

| member | source | states |
|---|---|---|
| `Geometry.MathMax` | src/Annotation.js:64-65 | `Math.max` returns one of its arguments, and no argument is larger |
| `Geometry.DraggedChangesOnlyPosition` | src/Annotation.js:41-47 | after a drag, x and y are the node's position; id, width and height are the shape's own |
| `Geometry.DragRoundTrip` | src/Annotation.js:41-47 | dragging back to the old position restores the attributes; of two drags only the last position counts |
| `Geometry.ResizedWidthClamped` | src/Annotation.js:64 | the resized width is `width * scaleX` when that is at least 5, and otherwise exactly 5; it is never below 5 |
| `Geometry.ResizedHeightUnclamped` | src/Annotation.js:65 | the resized height is exactly `height * scaleY`, so zero and negative heights pass through |
| `Geometry.ResizedKeepsIdentity` | src/Annotation.js:59-62 | a resize takes x and y from the node and keeps the identifier |
| `Geometry.ResizeFromCleanBaseline` | src/Annotation.js:54-66 | with the scale reset to 1, resizing the resized shape again without scaling changes nothing |
| `Geometry.ShapeNode.constructor` | src/Annotation.js:31-38 | a shape node starts with the annotation's position and size at unit scale |
| `Geometry.ShapeNode.Render` | src/Annotation.js:37 | redrawing sets the node's position and size from the attributes and leaves its scale alone |
| `Geometry.ShapeNode.OnDragEnd` | src/Annotation.js:41-47 | the reported attributes are the shape's own with the node's position |
| `Geometry.ShapeNode.OnTransformEnd` | src/Annotation.js:48-67 | the node's scale is 1 afterwards, and the report is the resize computed from the scale before the reset |
| `Geometry.ResizeTwice` | src/Annotation.js:48-67 | the first report is the resize computed from the node's position, size and scale at the start; the scale is 1 afterwards; a redraw and a second resize without scaling report the same attributes, and the width is at least 5 |
| `AppState.Initial` | src/App.js:19-23 | the starting state keeps the invariant: the index names an image and at most one rectangle is being drawn |
| `AppState.HandlePrevious` | src/App.js:30-36 | at index 0 nothing changes; otherwise the index drops by one and the list being edited becomes the one saved for that image; the index stays in bounds |
| `AppState.HandleNext` | src/App.js:39-45 | at the last image nothing changes; otherwise the index rises by one and the list being edited becomes the one saved for that image; the index stays in bounds |
| `AppState.HandleSave` | src/App.js:48-53 | the current locator now maps to the list being edited; every other saved list and all other state are unchanged |
| `AppState.HandleMouseDown` | src/App.js:69-75 | with no selection and nothing drawn, a zero-size rectangle starts at the pointer; otherwise the state is unchanged |
| `AppState.Redrawn` | src/App.js:80-92 | a stretched rectangle keeps its anchor corner, and its far corner is at the pointer, whatever the sign |
| `AppState.HandleMouseMove` | src/App.js:78-94 | while drawing with no selection, the rectangle is stretched to the pointer; otherwise the state is unchanged |
| `AppState.HandleMouseUp` | src/App.js:97-103 | while drawing with no selection, the rectangle is appended to the list being edited (old prefix kept, length plus one) and drawing stops; otherwise the state is unchanged |
| `AppState.RemoveId` | src/App.js:114-116 | an entry is in the result exactly when it is in the list and carries another identifier |
| `AppState.HandleKeyDown` | src/App.js:111-120 | keys 8 and 46 with a selection filter the selected id out of the list being edited and keep the selection; any other key, or no selection, changes nothing |
| `AppState.SelectAnnotation` | src/App.js:151-153 | selecting sets the selection and disables drawing; nothing else changes |
| `AppState.Deselect` | src/App.js:140-143 | clicking the background clears the selection and enables drawing; nothing else changes |
| `AppState.OnChange` | src/App.js:154-158 | only position `i` of the list being edited is replaced, and its length is kept |
| `AppState.AnnotationsToDraw` | src/App.js:123 | the render list is the list being edited followed by the rectangle being drawn |
| `AppProperties.RunPointerAppend` | src/App.js:130-133 | handling two runs of pointer events one after the other is handling their concatenation |
| `AppProperties.SelectionBlocksDrawing` | src/App.js:69-103 | while something is selected, no sequence of down, move and up events changes any state |
| `AppProperties.RunPointerKeepsOneDraft` | src/App.js:69-103 | no sequence of pointer events leads to more than one rectangle being drawn |
| `AppProperties.RunPointerFrame` | src/App.js:69-103 | pointer events never change the saved lists, the displayed image or the selection |
| `AppProperties.MovesStretchFromAnchor` | src/App.js:78-94 | while drawing, a run of moves keeps the anchor and leaves the rectangle stretched to the last pointer position |
| `AppProperties.DrawGesture` | src/App.js:69-103 | with no selection and nothing drawn, press, any moves and release append exactly that rectangle to the end of the list being edited and change nothing else |
| `AppProperties.RenderListBound` | src/App.js:123 | the render list starts with the list being edited and has at most one more entry |
| `AppProperties.MouseUpKeepsRenderList` | src/App.js:97-103 | releasing the pointer does not change the render list |
| `AppProperties.RemoveIdAbsent` | src/App.js:114-116 | removing an identifier that no entry carries changes nothing |
| `AppProperties.RemoveIdAppend` | src/App.js:114-116 | removal distributes over concatenation, so the kept entries keep their order |
| `AppProperties.RemoveIdMiddle` | src/App.js:114-116 | removing the identifier carried only by a middle entry joins the parts before and after it |
| `AppProperties.RemoveIdSingle` | src/App.js:114-116 | if exactly one entry carries the identifier, removal takes out just that entry and keeps the rest in order |
| `AppProperties.RemoveIdIdempotent` | src/App.js:114-116 | removing the same identifier twice is removing it once |
| `AppProperties.RemoveIdKeepsUnique` | src/App.js:114-116 | removal keeps identifiers unique |
| `AppProperties.DeleteRemovesSelected` | src/App.js:111-120 | deleting a uniquely identified selected entry at `k` leaves the list without position `k` and everything else as it was |
| `AppProperties.DeleteTwiceIsDeleteOnce` | src/App.js:111-120 | a second delete changes nothing; the selection survives the delete and keeps drawing blocked |
| `AppProperties.SaveNextPreviousRestores` | src/App.js:30-53 | save, next, previous shows the saved list again on the same image |
| `AppProperties.SavePreviousNextRestores` | src/App.js:30-53 | save, previous, next shows the saved list again on the same image |
| `AppProperties.NextPreviousDiscardsUnsaved` | src/App.js:30-45 | next then previous without saving replaces the list being edited by the last saved one (or empty) and changes nothing else |
| `AppProperties.PreviousNextDiscardsUnsaved` | src/App.js:30-45 | previous then next without saving replaces the list being edited by the last saved one (or empty) and changes nothing else |
| `AppState.Navigate` | src/App.js:30-45 | a press of Previous or Next keeps the index within the images and at most one rectangle drawn |
| `AppState.RunNavigation` | src/App.js:30-45 | any run of Previous and Next presses keeps the index within the images |
| `AppProperties.RunNavigationShowsSaved` | src/App.js:30-45 | a run of presses that moves leaves the list being edited equal to the saved list of the final image (or empty); one that does not move changes nothing; saved lists, draft and selection are never touched |
| `AppProperties.SaveAwayAndBackRestores` | src/App.js:30-53 | save, then any run of presses that returns to the same image, shows the saved list again |
| `AppProperties.AwayAndBackDiscardsUnsaved` | src/App.js:30-45 | any run of presses that moves away and returns without saving reloads the last saved list (or empty) and changes nothing else |
| `AppProperties.SaveIdempotent` | src/App.js:48-53 | saving twice is saving once |
| `AppProperties.OnChangeUndo` | src/App.js:154-158 | writing back the old entry undoes an edit |
| `AppProperties.DragKeepsIds` | src/App.js:154-158 | a drag stored through `onChange` keeps every identifier, width and height in the list |
| `AppProperties.MouseUpKeepsUnique` | src/App.js:97-103 | releasing the pointer keeps identifiers unique when the drawn rectangle's identifier is new to the list; while drawing, the append keeps them unique only then |
| `AppProperties.DeleteUniqueSelected` | src/App.js:111-120 | with unique identifiers, deleting the selected entry at `k` leaves the list without position `k` and everything else as it was |
| `AppProperties.OnChangeKeepsUnique` | src/App.js:154-158 | replacing an entry by attributes with the same identifier keeps identifiers unique in the list being edited and in the saved lists |
| `AppProperties.DragAndResizeKeepUnique` | src/App.js:154-158 | storing what a drag or a resize reports keeps identifiers unique |
| `AppProperties.SaveAndNavigationKeepUnique` | src/App.js:30-53 | saving and a press of Previous or Next keep identifiers unique in the list being edited and in every saved list |
| `AppProperties.RunNavigationKeepsUnique` | src/App.js:30-45 | any run of Previous and Next presses keeps identifiers unique |
| `AppProperties.DeleteAndSelectionKeepUnique` | src/App.js:111-120 | deleting, selecting and deselecting keep identifiers unique |
| `AppProperties.PointerKeepsFresh` | src/App.js:69-103 | one pointer event keeps identifiers unique and leaves the identifiers of the later events fresh |
| `AppProperties.RunPointerKeepsUnique` | src/App.js:69-103 | when every generated identifier is fresh, any run of pointer events keeps identifiers unique |
| `Editor.App.constructor` | src/App.js:19-23 | the component starts in the initial state |
| `Editor.App.HandlePrevious` | src/App.js:30-36 | updates the fields in place to the state `AppState.HandlePrevious` gives |
| `Editor.App.HandleNext` | src/App.js:39-45 | updates the fields in place to the state `AppState.HandleNext` gives |
| `Editor.App.HandleSave` | src/App.js:48-53 | updates the saved map in place as `AppState.HandleSave` says |
| `Editor.App.HandleMouseDown` | src/App.js:69-75 | updates the fields in place as `AppState.HandleMouseDown` says |
| `Editor.App.HandleMouseMove` | src/App.js:78-94 | updates the fields in place as `AppState.HandleMouseMove` says |
| `Editor.App.HandleMouseUp` | src/App.js:97-103 | updates the fields in place as `AppState.HandleMouseUp` says |
| `Editor.App.HandleKeyDown` | src/App.js:111-120 | updates the fields in place as `AppState.HandleKeyDown` says |
| `Editor.App.SelectAnnotation` | src/App.js:151-153 | sets the selection in place |
| `Editor.App.Deselect` | src/App.js:140-143 | clears the selection in place |
| `Editor.App.OnChange` | src/App.js:154-158 | copies the list, assigns position `i` and stores the copy, as `AppState.OnChange` says |
| `Editor.App.AnnotationsToDraw` | src/App.js:123 | returns the render list, at most one entry longer than the list being edited |
| `Editor.UnsavedDrawingIsDiscarded` | src/App.js:30-45 | a rectangle drawn on the first image and not saved is gone after next and previous |
| `Editor.SavedDrawingIsRestored` | src/App.js:30-53 | a rectangle drawn from (10,10) to (30,40) and saved returns with the same identifier and geometry after next and previous |
| `Editor.DrawingBlockedWhileSelected` | src/App.js:69-103 | after a selection, press, move and release start no rectangle and leave the render list unchanged |

## Left out

- `src/ImageFromUrl.js` is not part of this model. It loads the image, listens for its load event and sizes the canvas from the window. That is I/O and browser plumbing.
- The export (`handleSubmit`, `src/App.js:56-66`) is not modelled. It serializes to JSON, builds a Blob and object URL, and clicks a link. What it writes is the saved map `annotations`, never the list being edited.
- Cursor changes (`src/App.js:106-108`, `src/Annotation.js:19-26`) and attaching the transformer in `useEffect` (`src/Annotation.js:9-16`) are not modelled. They are rendering side effects.
- uuid generation is not modelled. Each handler that would generate an identifier takes it as a parameter instead.
- React's batched state updates, stale closures and Konva's event bubbling are not modelled. Events are sequential and run to completion.
- IEEE floating point is not modelled. Coordinates and scales are exact reals, and `Math.max` never sees NaN. With no arguments `Math.max` returns minus infinity; `MathMax` requires a non-empty list because both call sites pass one.
- How the user moves or scales a node during a drag or transform belongs to the rendering library. `ShapeNode` takes whatever position and scale the node has when the drag or transform ends.
- `Editor.App.OnChange`: requires `i < |currentAnnotations|`, like `AppState.OnChange`, for the same reason: the draft's render slot, where JavaScript's `rects[i] = newAttrs` would make the list one entry longer, is not modelled.
- `AppState.OnChange`: requires `i < |currentAnnotations|`. The shape at render position `|currentAnnotations|` is the rectangle being drawn. In JavaScript an `onChange` from it would extend the array by one. That case is not modelled.
- `canvasMeasures` (`src/App.js:24-27`), the sixth state variable, only sizes the stage and is not modelled.
- `AppProperties.MouseUpKeepsUnique`, `AppProperties.RunPointerKeepsUnique`: identifiers stay unique only if each generated uuid is new. The model takes that freshness as a premise (`DraftFresh`, `FreshIds`) and does not prove it.
