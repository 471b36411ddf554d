/**
 * The operations the store applies to its top-level element sequence:
 * replace by id, remove by id, find the first index of an id, and move one
 * element by a delta. Only top-level elements are looked at; a template's
 * children travel inside the template value.
 */
module ElementList {
  import opened Types

  predicate HasId(s: seq<Element>, id: string)
  {
    exists i :: 0 <= i < |s| && s[i].id == id
  }

  /** No two top-level elements share an id. */
  predicate UniqueIds(s: seq<Element>)
  {
    forall i, j :: 0 <= i < j < |s| ==> s[i].id != s[j].id
  }

  /**
   * `elements.map(el => el.id === id ? e : el)`: every element with the id is
   * replaced by `e`; every other element keeps its value and its place.
   */
  function ReplaceById(s: seq<Element>, id: string, e: Element): (r: seq<Element>)
    ensures |r| == |s|
    ensures forall i :: 0 <= i < |s| ==> r[i] == (if s[i].id == id then e else s[i])
  {
    if s == [] then []
    else [if s[0].id == id then e else s[0]] + ReplaceById(s[1..], id, e)
  }

  /** Replacing an id no element has changes nothing. */
  lemma ReplaceAbsentId(s: seq<Element>, id: string, e: Element)
    requires !HasId(s, id)
    ensures ReplaceById(s, id, e) == s
  {
  }

  /** Replacing an id with an element that keeps the id keeps ids unique. */
  lemma ReplaceKeepsUniqueIds(s: seq<Element>, id: string, e: Element)
    requires UniqueIds(s) && e.id == id
    ensures UniqueIds(ReplaceById(s, id, e))
  {
  }

  /**
   * `elements.filter(el => el.id !== id)`: exactly the elements with the id
   * are dropped; the others are kept (their order is kept by RemoveByIdAppend).
   */
  function RemoveById(s: seq<Element>, id: string): (r: seq<Element>)
    ensures |r| <= |s|
    ensures forall x :: x in r <==> x in s && x.id != id
    ensures !HasId(r, id)
  {
    if s == [] then []
    else if s[0].id == id then RemoveById(s[1..], id)
    else [s[0]] + RemoveById(s[1..], id)
  }

  /** Removal works piecewise, so the kept elements stay in their order. */
  lemma {:induction false} RemoveByIdAppend(a: seq<Element>, b: seq<Element>, id: string)
    ensures RemoveById(a + b, id) == RemoveById(a, id) + RemoveById(b, id)
    decreases |a|
  {
    if a == [] {
      assert a + b == b;
    } else {
      assert (a + b)[0] == a[0];
      assert (a + b)[1..] == a[1..] + b;
      RemoveByIdAppend(a[1..], b, id);
    }
  }

  /** Removing an id no element has changes nothing. */
  lemma {:induction false} RemoveAbsentId(s: seq<Element>, id: string)
    requires !HasId(s, id)
    ensures RemoveById(s, id) == s
    decreases |s|
  {
    if s != [] {
      assert !HasId(s[1..], id) by {
        forall i | 0 <= i < |s[1..]| ensures s[1..][i].id != id {
          assert s[1..][i] == s[i + 1];
        }
      }
      RemoveAbsentId(s[1..], id);
    }
  }

  /** When only s[i] has the id, removal cuts out exactly s[i]. */
  lemma RemoveSoleMatch(s: seq<Element>, i: nat, id: string)
    requires i < |s| && s[i].id == id
    requires forall j :: 0 <= j < |s| && j != i ==> s[j].id != id
    ensures RemoveById(s, id) == s[..i] + s[i + 1..]
  {
    assert s == s[..i] + ([s[i]] + s[i + 1..]);
    RemoveByIdAppend(s[..i], [s[i]] + s[i + 1..], id);
    RemoveByIdAppend([s[i]], s[i + 1..], id);
    assert !HasId(s[..i], id) by {
      forall j | 0 <= j < i ensures s[..i][j].id != id {
        assert s[..i][j] == s[j];
      }
    }
    var tail := s[i + 1..];
    assert !HasId(tail, id) by {
      forall j | 0 <= j < |tail| ensures tail[j].id != id {
        assert tail[j] == s[i + 1 + j];
      }
    }
    RemoveAbsentId(s[..i], id);
    RemoveAbsentId(s[i + 1..], id);
  }

  /** Removal keeps ids unique. */
  lemma {:induction false} RemoveKeepsUniqueIds(s: seq<Element>, id: string)
    requires UniqueIds(s)
    ensures UniqueIds(RemoveById(s, id))
    decreases |s|
  {
    if s != [] {
      RemoveKeepsUniqueIds(s[1..], id);
      var rest := RemoveById(s[1..], id);
      forall k | 0 <= k < |rest| ensures rest[k].id != s[0].id {
        assert rest[k] in s[1..];
      }
    }
  }

  /**
   * `elements.findIndex(el => el.id === id)`: the index of the first element
   * with the id, or -1 when there is none.
   */
  function FindIndex(s: seq<Element>, id: string): (r: int)
    ensures -1 <= r < |s|
    ensures r == -1 <==> !HasId(s, id)
    ensures r >= 0 ==> s[r].id == id && forall j :: 0 <= j < r ==> s[j].id != id
  {
    if s == [] then -1
    else if s[0].id == id then 0
    else
      var k := FindIndex(s[1..], id);
      if k == -1 then -1 else k + 1
  }

  function Translate(p: Position, delta: Position): (q: Position)
    ensures q.x - p.x == delta.x && q.y - p.y == delta.y
  {
    Position(p.x + delta.x, p.y + delta.y)
  }

  /**
   * The element at index i moved by delta: `{ ...el, position: ... }`, so
   * every other field is kept.
   */
  function Moved(e: Element, delta: Position): (m: Element)
    ensures m.position == Translate(e.position, delta)
    ensures m.(position := e.position) == e
  {
    e.(position := Translate(e.position, delta))
  }

  /** Moving the element at index i keeps every other element and every id. */
  lemma MoveKeepsOthers(s: seq<Element>, i: nat, delta: Position)
    requires i < |s|
    ensures var r := s[i := Moved(s[i], delta)];
      |r| == |s| && r[i].id == s[i].id &&
      (forall j :: 0 <= j < |s| && j != i ==> r[j] == s[j]) &&
      (UniqueIds(s) ==> UniqueIds(r))
  {
  }
}
