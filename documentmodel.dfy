/**
 * The document state as a value, and one function per store action giving
 * the state the action leaves behind. History is two stacks of snapshots of
 * the top-level element sequence: `past` (oldest first, newest last) and
 * `future` (the next redo first). The lemmas here state what the store
 * promises about undo and redo.
 */
module DocumentModel {
  import opened Types
  import opened ElementFactory
  import opened ElementList

  datatype History = History(past: seq<seq<Element>>, future: seq<seq<Element>>)

  datatype Document = Document(
    title: string,
    elements: seq<Element>,
    selectedElement: Option<Element>,
    paperFormat: PaperFormat,
    history: History,
    canUndo: bool,
    canRedo: bool)

  const InitialDocument := Document("Untitled Document", [], None, A4, History([], []), false, false)

  /** The two flags say whether each history stack is non-empty. */
  predicate FlagsTrack(d: Document)
  {
    d.canUndo == (|d.history.past| > 0) && d.canRedo == (|d.history.future| > 0)
  }

  predicate IsSelected(d: Document, id: string)
  {
    d.selectedElement.Some? && d.selectedElement.value.id == id
  }

  /**
   * What a recorded content edit does to the rest of the state: the
   * pre-edit elements are pushed on `past`, `future` is emptied, the flags
   * follow, and the title and paper format stay.
   */
  predicate RecordedFrom(d: Document, r: Document)
  {
    r.history == History(d.history.past + [d.elements], []) &&
    r.canUndo && !r.canRedo &&
    r.title == d.title && r.paperFormat == d.paperFormat
  }

  /** The state a content edit leaves: new elements and selection, history recorded. */
  function Record(d: Document, elements: seq<Element>, selected: Option<Element>): (r: Document)
    ensures RecordedFrom(d, r) && FlagsTrack(r)
  {
    d.(elements := elements,
       selectedElement := selected,
       history := History(d.history.past + [d.elements], []),
       canUndo := true,
       canRedo := false)
  }

  function SetTitle(d: Document, title: string): (r: Document)
    ensures r.title == title && r.(title := d.title) == d
  {
    d.(title := title)
  }

  function SetPaperFormat(d: Document, format: PaperFormat): (r: Document)
    ensures r.paperFormat == format && r.(paperFormat := d.paperFormat) == d
  {
    d.(paperFormat := format)
  }

  function SetSelectedElement(d: Document, selected: Option<Element>): (r: Document)
    ensures r.selectedElement == selected && r.(selectedElement := d.selectedElement) == d
  {
    d.(selectedElement := selected)
  }

  /**
   * Adds a new element of the named kind. A kind the factory does not build
   * (unknown, or a table grid that raises) leaves the state as it is.
   * Otherwise the new element goes last, becomes the selection, and the edit
   * is recorded.
   */
  function AddElement(d: Document, kind: string, options: ElementOptions, freshId: string): (r: Document)
    ensures ParseKind(kind).None? ==> r == d
    ensures !CreateNewElement(kind, options, freshId).Created? ==> r == d
    ensures CreateNewElement(kind, options, freshId).Created? ==>
      |r.elements| == |d.elements| + 1 &&
      r.elements[..|d.elements|] == d.elements &&
      r.elements[|d.elements|].id == freshId &&
      r.selectedElement == Some(r.elements[|d.elements|]) &&
      RecordedFrom(d, r)
    ensures CreateNewElement(kind, options, freshId).Created? ==>
      r.elements[|d.elements|] == CreateNewElement(kind, options, freshId).element
  {
    match CreateNewElement(kind, options, freshId)
    case Created(e) =>
      assert (d.elements + [e])[..|d.elements|] == d.elements;
      Record(d, d.elements + [e], Some(e))
    case _ => d
  }

  /**
   * Replaces every element with the id by `e`, keeping the others and the
   * order. The edit is recorded even when no element has the id. The
   * selection becomes `e` only if the selected element had the id.
   */
  function UpdateElement(d: Document, id: string, e: Element): (r: Document)
    ensures |r.elements| == |d.elements|
    ensures forall i :: 0 <= i < |d.elements| ==>
      (d.elements[i].id == id ==> r.elements[i] == e) &&
      (d.elements[i].id != id ==> r.elements[i] == d.elements[i])
    ensures !HasId(d.elements, id) ==> r.elements == d.elements
    ensures r.selectedElement == if IsSelected(d, id) then Some(e) else d.selectedElement
    ensures RecordedFrom(d, r)
  {
    Record(d, ReplaceById(d.elements, id, e),
           if IsSelected(d, id) then Some(e) else d.selectedElement)
  }

  /** Adding a 2 x 4 table appends two rows of four placeholder cells, 80 high, and selects it. */
  lemma AddTwoByFourTable(d: Document, freshId: string)
    ensures var r := AddElement(d, "table", NoOptions.(rows := Some(2), columns := Some(4)), freshId);
      var e := r.elements[|d.elements|];
      |r.elements| == |d.elements| + 1 && r.selectedElement == Some(e) &&
      e.Table? && e.id == freshId && |e.data| == 2 &&
      (forall i :: 0 <= i < 2 ==> e.data[i] == ["Click to edit", "Click to edit", "Click to edit", "Click to edit"]) &&
      e.size == Some(Size(Px(400), 80))
  {
    TwoByFourTable(freshId);
  }

  /**
   * Drops every element with the id, keeping the others, and clears the
   * selection exactly when the selected element had the id. Always recorded.
   */
  function RemoveElement(d: Document, id: string): (r: Document)
    ensures r.elements == RemoveById(d.elements, id)
    ensures forall x :: x in r.elements <==> x in d.elements && x.id != id
    ensures !HasId(r.elements, id)
    ensures r.selectedElement == if IsSelected(d, id) then None else d.selectedElement
    ensures RecordedFrom(d, r)
  {
    Record(d, RemoveById(d.elements, id),
           if IsSelected(d, id) then None else d.selectedElement)
  }

  /**
   * Moves the first element with the id by `delta`. An id no element has
   * leaves the state as it is, history included. Otherwise only that
   * element's position changes, a selected element with the id becomes the
   * moved element, and the edit is recorded.
   */
  function MoveElement(d: Document, id: string, delta: Position): (r: Document)
    ensures !HasId(d.elements, id) ==> r == d
    ensures HasId(d.elements, id) ==>
      var i := FindIndex(d.elements, id);
      |r.elements| == |d.elements| &&
      r.elements[i].position == Translate(d.elements[i].position, delta) &&
      r.elements[i].(position := d.elements[i].position) == d.elements[i] &&
      (forall j :: 0 <= j < |d.elements| && j != i ==> r.elements[j] == d.elements[j]) &&
      r.selectedElement == (if IsSelected(d, id) then Some(r.elements[i]) else d.selectedElement) &&
      RecordedFrom(d, r)
  {
    var i := FindIndex(d.elements, id);
    if i == -1 then d
    else
      var moved := Moved(d.elements[i], delta);
      Record(d, d.elements[i := moved], if IsSelected(d, id) then Some(moved) else d.selectedElement)
  }

  /**
   * Steps back: with an empty `past` nothing happens; otherwise the newest
   * snapshot becomes the elements, the current elements go to the front of
   * `future`, and the selection is cleared.
   */
  function Undo(d: Document): (r: Document)
    ensures |d.history.past| == 0 ==> r == d
    ensures |d.history.past| > 0 ==>
      r.history.past + [r.elements] == d.history.past &&
      r.history.future == [d.elements] + d.history.future &&
      r.selectedElement == None && r.canRedo &&
      r.title == d.title && r.paperFormat == d.paperFormat
    ensures FlagsTrack(d) ==> FlagsTrack(r)
  {
    var past := d.history.past;
    if |past| == 0 then d
    else
      assert past[..|past| - 1] + [past[|past| - 1]] == past;
      d.(elements := past[|past| - 1],
         selectedElement := None,
         history := History(past[..|past| - 1], [d.elements] + d.history.future),
         canUndo := |past| - 1 > 0,
         canRedo := true)
  }

  /**
   * Steps forward: with an empty `future` nothing happens; otherwise the
   * first future snapshot becomes the elements, the current elements go on
   * top of `past`, and the selection is cleared.
   */
  function Redo(d: Document): (r: Document)
    ensures |d.history.future| == 0 ==> r == d
    ensures |d.history.future| > 0 ==>
      [r.elements] + r.history.future == d.history.future &&
      r.history.past == d.history.past + [d.elements] &&
      r.selectedElement == None && r.canUndo &&
      r.title == d.title && r.paperFormat == d.paperFormat
    ensures FlagsTrack(d) ==> FlagsTrack(r)
  {
    var future := d.history.future;
    if |future| == 0 then d
    else
      assert [future[0]] + future[1..] == future;
      d.(elements := future[0],
         selectedElement := None,
         history := History(d.history.past + [d.elements], future[1..]),
         canUndo := true,
         canRedo := |future| - 1 > 0)
  }

  /** An undo followed by a redo restores everything but the selection. */
  lemma UndoThenRedo(d: Document)
    requires FlagsTrack(d) && |d.history.past| > 0
    ensures Redo(Undo(d)) == d.(selectedElement := None)
  {
  }

  /** A redo followed by an undo restores everything but the selection. */
  lemma RedoThenUndo(d: Document)
    requires FlagsTrack(d) && |d.history.future| > 0
    ensures Undo(Redo(d)) == d.(selectedElement := None)
  {
    var past := d.history.past + [d.elements];
    assert past[..|past| - 1] == d.history.past;
  }

  /** The content edits a user can make. */
  datatype Edit =
    | AddEdit(kind: string, options: ElementOptions, freshId: string)
    | UpdateEdit(id: string, element: Element)
    | RemoveEdit(id: string)
    | MoveEdit(id: string, delta: Position)

  function Apply(d: Document, edit: Edit): Document
  {
    match edit
    case AddEdit(kind, options, freshId) => AddElement(d, kind, options, freshId)
    case UpdateEdit(id, e) => UpdateElement(d, id, e)
    case RemoveEdit(id) => RemoveElement(d, id)
    case MoveEdit(id, delta) => MoveElement(d, id, delta)
  }

  /** Whether an edit records a history entry (the others change nothing at all). */
  predicate Records(d: Document, edit: Edit)
  {
    match edit
    case AddEdit(kind, options, freshId) => CreateNewElement(kind, options, freshId).Created?
    case UpdateEdit(_, _) => true
    case RemoveEdit(_) => true
    case MoveEdit(id, _) => HasId(d.elements, id)
  }

  /**
   * Every content edit either changes nothing or records the pre-edit
   * elements and empties `future`, so a redo right after it does nothing.
   */
  lemma EditTruncatesRedo(d: Document, edit: Edit)
    ensures Records(d, edit) ==> RecordedFrom(d, Apply(d, edit))
    ensures !Records(d, edit) ==> Apply(d, edit) == d
    ensures Records(d, edit) ==> Redo(Apply(d, edit)) == Apply(d, edit)
    ensures FlagsTrack(d) ==> FlagsTrack(Apply(d, edit))
  {
  }

  /** After an undo, a new edit that records leaves nothing to redo. */
  lemma UndoThenEditThenRedo(d: Document, edit: Edit)
    requires Records(Undo(d), edit)
    ensures var e := Apply(Undo(d), edit);
      !e.canRedo && Redo(e) == e
  {
    EditTruncatesRedo(Undo(d), edit);
  }

  function ApplyAll(d: Document, edits: seq<Edit>): Document
    decreases |edits|
  {
    if edits == [] then d else ApplyAll(Apply(d, edits[0]), edits[1..])
  }

  /** How many of the edits record a history entry when applied in turn. */
  function RecordedCount(d: Document, edits: seq<Edit>): nat
    decreases |edits|
  {
    if edits == [] then 0
    else (if Records(d, edits[0]) then 1 else 0) + RecordedCount(Apply(d, edits[0]), edits[1..])
  }

  /**
   * A run of edits keeps the old `past` as a prefix and pushes one snapshot
   * per recorded edit, the first of them the elements before the run; after
   * any recorded edit `future` is empty. A run that records nothing changes
   * nothing.
   */
  lemma {:induction false} ApplyAllHistory(d: Document, edits: seq<Edit>)
    ensures var t := ApplyAll(d, edits);
      var n := RecordedCount(d, edits);
      |t.history.past| == |d.history.past| + n &&
      t.history.past[..|d.history.past|] == d.history.past &&
      (n > 0 ==> t.history.past[|d.history.past|] == d.elements && t.history.future == []) &&
      (n == 0 ==> t == d) &&
      (FlagsTrack(d) ==> FlagsTrack(t))
    decreases |edits|
  {
    if edits != [] {
      var d1 := Apply(d, edits[0]);
      EditTruncatesRedo(d, edits[0]);
      ApplyAllHistory(d1, edits[1..]);
      var t := ApplyAll(d, edits);
      assert t == ApplyAll(d1, edits[1..]);
      if Records(d, edits[0]) {
        var k := |d.history.past|;
        assert d1.history.past == d.history.past + [d.elements];
        assert t.history.past[..k + 1] == d1.history.past;
        assert t.history.past[..k] == t.history.past[..k + 1][..k];
        assert t.history.past[k] == t.history.past[..k + 1][k];
      }
    }
  }

  function UndoTimes(d: Document, k: nat): Document
    decreases k
  {
    if k == 0 then d else UndoTimes(Undo(d), k - 1)
  }

  function RedoTimes(d: Document, k: nat): Document
  {
    if k == 0 then d else Redo(RedoTimes(d, k - 1))
  }

  /**
   * k undos (k at most the depth of `past`) bring back the k-th newest
   * snapshot, leave the older snapshots as `past`, and clear the selection.
   */
  lemma {:induction false} UndoTimesRestores(d: Document, k: nat)
    requires k <= |d.history.past|
    ensures var u := UndoTimes(d, k);
      var m := |d.history.past| - k;
      u.history.past == d.history.past[..m] &&
      (k > 0 ==> u.elements == d.history.past[m] && u.selectedElement == None) &&
      u.title == d.title && u.paperFormat == d.paperFormat
    decreases k
  {
    if k > 0 {
      var d1 := Undo(d);
      var n := |d.history.past|;
      assert d1.history.past == d.history.past[..n - 1] by {
        assert d1.history.past + [d1.elements] == d.history.past;
        assert d.history.past[..n - 1] == (d1.history.past + [d1.elements])[..n - 1];
      }
      assert d1.elements == d.history.past[n - 1] by {
        assert d1.history.past + [d1.elements] == d.history.past;
      }
      UndoTimesRestores(d1, k - 1);
      if k > 1 {
        assert d1.history.past[..n - k] == d.history.past[..n - k];
        assert d1.history.past[n - k] == d.history.past[n - k];
      }
    }
  }

  /** k redos after k undos give back the state, except that nothing is selected. */
  lemma {:induction false} RedoTimesAfterUndoTimes(d: Document, k: nat)
    requires FlagsTrack(d) && 0 < k <= |d.history.past|
    ensures RedoTimes(UndoTimes(d, k), k) == d.(selectedElement := None)
    decreases k
  {
    var d1 := Undo(d);
    UndoThenRedo(d);
    if k > 1 {
      RedoTimesAfterUndoTimes(d1, k - 1);
      assert RedoTimes(UndoTimes(d1, k - 1), k - 1) == d1;
    }
  }

  /**
   * The undo half of the inverse law: after any run of edits, undoing once
   * per recorded edit brings back the elements and the `past` from before
   * the run.
   */
  lemma {:induction false} UndoAllEdits(d: Document, edits: seq<Edit>)
    ensures var u := UndoTimes(ApplyAll(d, edits), RecordedCount(d, edits));
      u.elements == d.elements && u.history.past == d.history.past
  {
    var t := ApplyAll(d, edits);
    var n := RecordedCount(d, edits);
    ApplyAllHistory(d, edits);
    UndoTimesRestores(t, n);
  }

  /**
   * The redo half of the inverse law: from a state whose flags track its
   * stacks, redoing as many times as the undos above gives back the
   * elements and the whole history the run of edits ended with.
   */
  lemma {:induction false} RedoAllEdits(d: Document, edits: seq<Edit>)
    requires FlagsTrack(d)
    ensures var t := ApplyAll(d, edits);
      var n := RecordedCount(d, edits);
      var v := RedoTimes(UndoTimes(t, n), n);
      v.elements == t.elements && v.history == t.history
  {
    var t := ApplyAll(d, edits);
    var n := RecordedCount(d, edits);
    ApplyAllHistory(d, edits);
    if n > 0 {
      RedoTimesAfterUndoTimes(t, n);
    }
  }

  /**
   * Removing an element whose id is unique removes it together with all of
   * its descendants in one recorded step, and one undo brings them all back.
   */
  lemma RemoveTakesSubtree(d: Document, i: nat)
    requires i < |d.elements| && UniqueIds(d.elements)
    ensures var r := RemoveElement(d, d.elements[i].id);
      CountAll(r.elements) == CountAll(d.elements) - Count(d.elements[i]) &&
      |r.history.past| == |d.history.past| + 1 &&
      Undo(r).elements == d.elements
  {
    var s := d.elements;
    RemoveSoleMatch(s, i, s[i].id);
    assert s == s[..i] + [s[i]] + s[i + 1..];
    CountAllAppend(s[..i] + [s[i]], s[i + 1..]);
    CountAllAppend(s[..i], [s[i]]);
    CountAllAppend(s[..i], s[i + 1..]);
    var r := RemoveElement(d, s[i].id);
    assert r.history.past == d.history.past + [d.elements];
  }

  /** Whether an edit keeps top-level ids unique: a fresh id to add, an id kept by an update. */
  predicate KeepsIds(d: Document, edit: Edit)
  {
    match edit
    case AddEdit(_, _, freshId) => !HasId(d.elements, freshId)
    case UpdateEdit(id, e) => e.id == id
    case RemoveEdit(_) => true
    case MoveEdit(_, _) => true
  }

  /** Every snapshot, current or in history, has unique top-level ids. */
  predicate AllUnique(d: Document)
  {
    UniqueIds(d.elements) &&
    (forall k :: 0 <= k < |d.history.past| ==> UniqueIds(d.history.past[k])) &&
    (forall k :: 0 <= k < |d.history.future| ==> UniqueIds(d.history.future[k]))
  }

  /** Edits with fresh ids, undo and redo all keep every snapshot's ids unique. */
  lemma ActionsKeepUniqueIds(d: Document, edit: Edit)
    requires AllUnique(d)
    ensures KeepsIds(d, edit) ==> AllUnique(Apply(d, edit))
    ensures AllUnique(Undo(d)) && AllUnique(Redo(d))
  {
    var r := Apply(d, edit);
    if KeepsIds(d, edit) && Records(d, edit) {
      match edit
      case AddEdit(kind, options, freshId) =>
        var s := r.elements;
        assert s[..|d.elements|] == d.elements;
        forall i, j | 0 <= i < j < |s| ensures s[i].id != s[j].id {
          if j == |d.elements| {
            assert s[i] == d.elements[i];
          } else {
            assert s[i] == d.elements[i] && s[j] == d.elements[j];
          }
        }
      case UpdateEdit(id, e) =>
        ReplaceKeepsUniqueIds(d.elements, id, e);
      case RemoveEdit(id) =>
        RemoveKeepsUniqueIds(d.elements, id);
      case MoveEdit(id, delta) =>
        MoveKeepsOthers(d.elements, FindIndex(d.elements, id), delta);
    }
    if |d.history.past| > 0 {
      var u := Undo(d);
      assert u.history.past + [u.elements] == d.history.past;
      assert forall k :: 0 <= k < |u.history.past| ==> u.history.past[k] == d.history.past[k];
      assert u.elements == d.history.past[|d.history.past| - 1];
      assert forall k :: 0 < k < |u.history.future| ==> u.history.future[k] == d.history.future[k - 1];
    }
    if |d.history.future| > 0 {
      var v := Redo(d);
      assert [v.elements] + v.history.future == d.history.future;
      assert v.elements == d.history.future[0];
      assert forall k :: 0 <= k < |v.history.future| ==> v.history.future[k] == d.history.future[k + 1];
    }
  }
}
