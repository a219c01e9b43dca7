/**
 The editor component of src/App.js as an object: its five annotation state
 variables are fields, and each event handler is a method that updates them
 in place. Every
 method is proved to produce the state the matching function of `AppState`
 describes, so the properties proved there hold of the object.
 */
module Editor {
  import opened Geometry
  import opened AppState

  class App {
    /** The images to step through, fixed when the editor starts. */
    const imageUrls: seq<Url>
    var annotations: map<Url, seq<Annotation>>
    var currentAnnotations: seq<Annotation>
    var currentImageIndex: nat
    var newAnnotation: seq<Annotation>
    var selectedId: Option<Id>

    /** The editor's state as a value. */
    function Snapshot(): State
      reads this
    {
      State(annotations, currentAnnotations, currentImageIndex, newAnnotation, selectedId)
    }

    predicate Valid()
      reads this
    {
      AppState.Valid(imageUrls, Snapshot())
    }

    constructor (urls: seq<Url>)
      requires |urls| > 0
      ensures imageUrls == urls
      ensures Valid() && Snapshot() == Initial(urls)
    {
      imageUrls := urls;
      annotations := map[];
      currentAnnotations := [];
      currentImageIndex := 0;
      newAnnotation := [];
      selectedId := None;
    }

    method HandlePrevious()
      requires Valid()
      modifies this
      ensures Valid() && Snapshot() == AppState.HandlePrevious(imageUrls, old(Snapshot()))
    {
      if currentImageIndex > 0 {
        currentImageIndex := currentImageIndex - 1;
        currentAnnotations := if imageUrls[currentImageIndex] in annotations
                              then annotations[imageUrls[currentImageIndex]] else [];
      }
    }

    method HandleNext()
      requires Valid()
      modifies this
      ensures Valid() && Snapshot() == AppState.HandleNext(imageUrls, old(Snapshot()))
    {
      if currentImageIndex < |imageUrls| - 1 {
        currentImageIndex := currentImageIndex + 1;
        currentAnnotations := if imageUrls[currentImageIndex] in annotations
                              then annotations[imageUrls[currentImageIndex]] else [];
      }
    }

    method HandleSave()
      requires Valid()
      modifies this
      ensures Valid() && Snapshot() == AppState.HandleSave(imageUrls, old(Snapshot()))
    {
      annotations := annotations[imageUrls[currentImageIndex] := currentAnnotations];
    }

    /** Pointer pressed at `p`; `freshId` is the identifier a new rectangle gets. */
    method HandleMouseDown(p: Point, freshId: Id)
      requires Valid()
      modifies this
      ensures Valid() && Snapshot() == AppState.HandleMouseDown(old(Snapshot()), p, freshId)
    {
      if selectedId == None && |newAnnotation| == 0 {
        newAnnotation := [Annotation(freshId, p.x, p.y, 0.0, 0.0)];
      }
    }

    method HandleMouseMove(p: Point, freshId: Id)
      requires Valid()
      modifies this
      ensures Valid() && Snapshot() == AppState.HandleMouseMove(old(Snapshot()), p, freshId)
    {
      if selectedId == None && |newAnnotation| == 1 {
        var sx := newAnnotation[0].x;
        var sy := newAnnotation[0].y;
        newAnnotation := [Annotation(freshId, sx, sy, p.x - sx, p.y - sy)];
      }
    }

    method HandleMouseUp()
      requires Valid()
      modifies this
      ensures Valid() && Snapshot() == AppState.HandleMouseUp(old(Snapshot()))
    {
      if selectedId == None && |newAnnotation| == 1 {
        currentAnnotations := currentAnnotations + newAnnotation;
        newAnnotation := [];
      }
    }

    method HandleKeyDown(keyCode: int)
      requires Valid()
      modifies this
      ensures Valid() && Snapshot() == AppState.HandleKeyDown(old(Snapshot()), keyCode)
    {
      if keyCode == 8 || keyCode == 46 {
        if selectedId != None {
          currentAnnotations := RemoveId(currentAnnotations, selectedId.value);
        }
      }
    }

    /** The `onSelect` of a shape. */
    method SelectAnnotation(id: Id)
      requires Valid()
      modifies this
      ensures Valid() && Snapshot() == AppState.SelectAnnotation(old(Snapshot()), id)
    {
      selectedId := Some(id);
    }

    /** The pointer-down handler of the background image. */
    method Deselect()
      requires Valid()
      modifies this
      ensures Valid() && Snapshot() == AppState.Deselect(old(Snapshot()))
    {
      selectedId := None;
    }

    /** The `onChange` of the shape at position `i` of the list being edited. */
    method OnChange(i: nat, attrs: Annotation)
      requires Valid() && i < |currentAnnotations|
      modifies this
      ensures Valid() && Snapshot() == AppState.OnChange(old(Snapshot()), i, attrs)
    {
      var rects := currentAnnotations;
      rects := rects[i := attrs];
      currentAnnotations := rects;
    }

    /** The list handed to the renderer. */
    method AnnotationsToDraw() returns (toDraw: seq<Annotation>)
      requires Valid()
      ensures |currentAnnotations| <= |toDraw| <= |currentAnnotations| + 1
      ensures toDraw == AppState.AnnotationsToDraw(Snapshot())
    {
      toDraw := currentAnnotations + newAnnotation;
    }
  }

  /** Draw one rectangle on the first image without saving, go to the next
      image and back: the list being edited is empty again. */
  method UnsavedDrawingIsDiscarded() returns (drawn: seq<Annotation>, restored: seq<Annotation>)
    ensures |drawn| == 1 && restored == []
  {
    var app := new App(ImageUrls);
    app.HandleMouseDown(Point(10.0, 10.0), "a");
    app.HandleMouseMove(Point(30.0, 40.0), "b");
    app.HandleMouseUp();
    drawn := app.currentAnnotations;
    app.HandleNext();
    app.HandlePrevious();
    restored := app.currentAnnotations;
  }

  /** Draw one rectangle on the first image, save, go to the next image and
      back: the saved rectangle is shown again, identifier and geometry
      unchanged. */
  method SavedDrawingIsRestored() returns (drawn: seq<Annotation>, restored: seq<Annotation>)
    ensures drawn == [Annotation("b", 10.0, 10.0, 20.0, 30.0)]
    ensures restored == drawn
  {
    var app := new App(ImageUrls);
    app.HandleMouseDown(Point(10.0, 10.0), "a");
    app.HandleMouseMove(Point(30.0, 40.0), "b");
    app.HandleMouseUp();
    drawn := app.currentAnnotations;
    app.HandleSave();
    app.HandleNext();
    app.HandlePrevious();
    restored := app.currentAnnotations;
  }

  /** Select a shape, then press, move and release the pointer: no rectangle
      is started and the list handed to the renderer does not change. */
  method DrawingBlockedWhileSelected(id: Id) returns (before: seq<Annotation>, after: seq<Annotation>, drafts: nat)
    ensures after == before && drafts == 0
  {
    var app := new App(ImageUrls);
    app.SelectAnnotation(id);
    before := app.AnnotationsToDraw();
    app.HandleMouseDown(Point(1.0, 2.0), "a");
    app.HandleMouseMove(Point(5.0, 7.0), "b");
    drafts := |app.newAnnotation|;
    app.HandleMouseUp();
    after := app.AnnotationsToDraw();
  }
}
