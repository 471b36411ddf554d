/**
 * The document store: one object whose fields are the document state, and
 * one method per action that overwrites those fields. Each method ends in
 * exactly the state the matching DocumentModel function gives for the state
 * it started in, and keeps the undo/redo flags in step with the stacks.
 */
module Store {
  import opened Types
  import opened ElementFactory
  import opened ElementList
  import DM = DocumentModel

  class DocumentStore {
    var title: string
    var elements: seq<Element>
    var selectedElement: Option<Element>
    var paperFormat: PaperFormat
    var history: DM.History
    var canUndo: bool
    var canRedo: bool

    /** The state the fields hold, as a value. */
    function State(): DM.Document
      reads this
    {
      DM.Document(title, elements, selectedElement, paperFormat, history, canUndo, canRedo)
    }

    /** The flags say whether each history stack is non-empty. */
    ghost predicate Valid()
      reads this
    {
      DM.FlagsTrack(State())
    }

    /** A fresh store: an untitled A4 document with no elements and no history. */
    constructor ()
      ensures State() == DM.InitialDocument
      ensures Valid()
    {
      title := "Untitled Document";
      elements := [];
      selectedElement := None;
      paperFormat := A4;
      history := DM.History([], []);
      canUndo := false;
      canRedo := false;
    }

    method SetTitle(newTitle: string)
      modifies this
      ensures State() == DM.SetTitle(old(State()), newTitle)
      ensures old(Valid()) ==> Valid()
    {
      title := newTitle;
    }

    method SetPaperFormat(format: PaperFormat)
      modifies this
      ensures State() == DM.SetPaperFormat(old(State()), format)
      ensures old(Valid()) ==> Valid()
    {
      paperFormat := format;
    }

    method SetSelectedElement(element: Option<Element>)
      modifies this
      ensures State() == DM.SetSelectedElement(old(State()), element)
      ensures old(Valid()) ==> Valid()
    {
      selectedElement := element;
    }

    /**
     * Adds an element of the named kind with `freshId` as its id. `threw`
     * reports the RangeError a table with an impossible row or column count
     * raises; the state is then, as for an unknown kind, unchanged.
     */
    method AddElement(kind: string, options: ElementOptions, freshId: string) returns (threw: bool)
      modifies this
      ensures State() == DM.AddElement(old(State()), kind, options, freshId)
      ensures threw <==> CreateNewElement(kind, options, freshId).InvalidArrayLength?
      ensures old(Valid()) ==> Valid()
    {
      var before := elements;
      var created := CreateNewElement(kind, options, freshId);
      threw := created.InvalidArrayLength?;
      if created.Created? {
        var newElement := created.element;
        elements := elements + [newElement];
        selectedElement := Some(newElement);
        history := DM.History(history.past + [before], []);
        canUndo := true;
        canRedo := false;
      }
    }

    method UpdateElement(id: string, updated: Element)
      modifies this
      ensures State() == DM.UpdateElement(old(State()), id, updated)
      ensures Valid()
    {
      var before := elements;
      elements := ReplaceById(elements, id, updated);
      if selectedElement.Some? && selectedElement.value.id == id {
        selectedElement := Some(updated);
      }
      history := DM.History(history.past + [before], []);
      canUndo := true;
      canRedo := false;
    }

    method RemoveElement(id: string)
      modifies this
      ensures State() == DM.RemoveElement(old(State()), id)
      ensures Valid()
    {
      var before := elements;
      elements := RemoveById(elements, id);
      if selectedElement.Some? && selectedElement.value.id == id {
        selectedElement := None;
      }
      history := DM.History(history.past + [before], []);
      canUndo := true;
      canRedo := false;
    }

    /** Moves the first element with the id by `delta`; an absent id changes nothing. */
    method MoveElement(id: string, delta: Position)
      modifies this
      ensures State() == DM.MoveElement(old(State()), id, delta)
      ensures old(Valid()) ==> Valid()
    {
      var before := elements;
      var index := FindIndex(before, id);
      if index == -1 {
        return;
      }
      var updatedElements := before;
      var element := updatedElements[index];
      element := element.(position := Position(element.position.x + delta.x, element.position.y + delta.y));
      updatedElements := updatedElements[index := element];
      elements := updatedElements;
      if selectedElement.Some? && selectedElement.value.id == id {
        selectedElement := Some(element);
      }
      history := DM.History(history.past + [before], []);
      canUndo := true;
      canRedo := false;
    }

    /** Pops the newest snapshot off `past` into the elements; nothing to undo changes nothing. */
    method Undo()
      modifies this
      ensures State() == DM.Undo(old(State()))
      ensures old(Valid()) ==> Valid()
    {
      if |history.past| == 0 {
        return;
      }
      var newPast := history.past;
      var previousElements := newPast[|newPast| - 1];
      newPast := newPast[..|newPast| - 1];
      var current := elements;
      elements := previousElements;
      selectedElement := None;
      history := DM.History(newPast, [current] + history.future);
      canUndo := |newPast| > 0;
      canRedo := true;
    }

    /** Shifts the first snapshot off `future` into the elements; nothing to redo changes nothing. */
    method Redo()
      modifies this
      ensures State() == DM.Redo(old(State()))
      ensures old(Valid()) ==> Valid()
    {
      if |history.future| == 0 {
        return;
      }
      var newFuture := history.future;
      var nextElements := newFuture[0];
      newFuture := newFuture[1..];
      var current := elements;
      elements := nextElements;
      selectedElement := None;
      history := DM.History(history.past + [current], newFuture);
      canUndo := true;
      canRedo := |newFuture| > 0;
    }
  }

  /** A session: select an element, remove it, undo and redo, as a caller of the store sees it. */
  method RemoveUndoRedoSession()
  {
    var store := new DocumentStore();
    var threw := store.AddElement("text", NoOptions, "a");
    assert !threw && |store.elements| == 1;
    var e := store.elements[0];
    store.SetSelectedElement(Some(e));
    store.RemoveElement("a");
    assert store.elements == [] && store.selectedElement == None && store.canUndo;
    store.Undo();
    assert store.elements == [e] && store.canRedo && store.selectedElement == None;
    store.Redo();
    assert store.elements == [] && !store.canRedo;
    threw := store.AddElement("bogus", NoOptions, "b");
    assert !threw && store.elements == [] && |store.history.past| == 2;
  }
}
