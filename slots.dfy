/** The drag-and-drop boards of the sorting, word-building and sequence games: a row of slots that
    each take one dropped tile, and the tiles not yet placed. */
module Slots {
  import opened Basics

  /** The tiles placed so far, slot by slot. */
  function Filled<T>(slots: seq<Option<T>>): (r: seq<T>)
    ensures |r| <= |slots|
  {
    if slots == [] then []
    else (if slots[0].Some? then [slots[0].value] else []) + Filled(slots[1..])
  }

  /** `every(el => el.textContent)`: no slot is empty. */
  predicate AllFilled<T>(slots: seq<Option<T>>) {
    forall i :: 0 <= i < |slots| ==> slots[i].Some?
  }

  /** With every slot filled, the placed tiles are read off slot by slot. */
  lemma {:induction false} FilledAll<T>(slots: seq<Option<T>>)
    requires AllFilled(slots)
    ensures |Filled(slots)| == |slots|
    ensures forall i :: 0 <= i < |slots| ==> Filled(slots)[i] == slots[i].value
  {
    if slots != [] {
      FilledAll(slots[1..]);
    }
  }

  /** Every slot filled means one placed tile per slot. */
  lemma {:induction false} FilledCount<T>(slots: seq<Option<T>>)
    ensures AllFilled(slots) ==> |Filled(slots)| == |slots|
  {
    if slots != [] {
      FilledCount(slots[1..]);
      assert AllFilled(slots) ==> AllFilled(slots[1..]);
    }
  }

  lemma {:induction false} NoneFilled<T>(slots: seq<Option<T>>)
    requires forall i :: 0 <= i < |slots| ==> slots[i].None?
    ensures Filled(slots) == []
  {
    if slots != [] {
      NoneFilled(slots[1..]);
    }
  }

  lemma {:induction false} FilledAppend<T>(a: seq<Option<T>>, b: seq<Option<T>>)
    ensures Filled(a + b) == Filled(a) + Filled(b)
  {
    if a == [] {
      assert a + b == b;
    } else {
      assert (a + b)[0] == a[0] && (a + b)[1..] == a[1..] + b;
      FilledAppend(a[1..], b);
    }
  }

  /** Filling an empty slot adds exactly its tile to the placed ones. */
  lemma FillSlot<T>(slots: seq<Option<T>>, j: nat, v: T)
    requires j < |slots| && slots[j].None?
    ensures multiset(Filled(slots[j := Some(v)])) == multiset(Filled(slots)) + multiset{v}
  {
    var pre, post := slots[..j], slots[j + 1..];
    assert slots == pre + [slots[j]] + post;
    assert slots[j := Some(v)] == pre + [Some(v)] + post;
    FilledAppend(pre + [slots[j]], post);
    FilledAppend(pre, [slots[j]]);
    FilledAppend(pre + [Some(v)], post);
    FilledAppend(pre, [Some(v)]);
    assert Filled([slots[j]]) == [] && Filled([Some(v)]) == [v];
  }

  /** The tile taken off the tiles row: the first one carrying the dropped value
      (`Array.from(container.children).find(...)` then `removeChild`). */
  function RemoveFirst<T(==)>(xs: seq<T>, x: T): (r: seq<T>)
    ensures x in xs ==> multiset(r) == multiset(xs) - multiset{x} && |r| == |xs| - 1
    ensures x !in xs ==> r == xs
  {
    if xs == [] then []
    else if xs[0] == x then
      assert xs == [xs[0]] + xs[1..];
      xs[1..]
    else
      assert xs == [xs[0]] + xs[1..];
      [xs[0]] + RemoveFirst(xs[1..], x)
  }

  /** A board on screen: the tiles it was laid out with, the slots as filled so far, and the tiles not
      yet placed. */
  datatype Row<T> = Row(tiles: seq<T>, slots: seq<Option<T>>, items: seq<T>)

  /** One slot per tile, and the placed tiles and the tiles left are together exactly the laid-out ones. */
  predicate Kept<T(==)>(r: Row<T>) {
    |r.slots| == |r.tiles| && multiset(Filled(r.slots)) + multiset(r.items) == multiset(r.tiles)
  }

  /** The layout: one empty slot per tile and every tile on the tiles row. */
  function LayRow<T(==)>(tiles: seq<T>): (r: Row<T>)
    ensures Kept(r) && r.tiles == tiles && r.items == tiles && |r.slots| == |tiles|
    ensures forall i :: 0 <= i < |r.slots| ==> r.slots[i].None?
  {
    var empty: seq<Option<T>> := seq(|tiles|, i => None);
    NoneFilled(empty);
    Row(tiles, empty, tiles)
  }

  /** A slot's drop handler: an empty slot takes the tile and the first tile carrying it leaves the
      tiles row; a filled slot ignores the drop. */
  function PlaceRow<T(==)>(r: Row<T>, j: nat, v: T): (r': Row<T>)
    requires Kept(r) && j < |r.slots| && v in r.items
    ensures Kept(r') && r'.tiles == r.tiles && |r'.slots| == |r.slots|
    ensures r.slots[j].None? ==> r'.slots == r.slots[j := Some(v)] && r'.items == RemoveFirst(r.items, v)
    ensures r.slots[j].Some? ==> r' == r
  {
    if r.slots[j].Some? then r
    else
      FillSlot(r.slots, j, v);
      r.(slots := r.slots[j := Some(v)], items := RemoveFirst(r.items, v))
  }

  /** A full board holds every laid-out tile, so no tile is left to drag: nothing can be dropped on it
      any more. */
  lemma FullRow<T>(r: Row<T>)
    requires Kept(r) && AllFilled(r.slots)
    ensures r.items == [] && multiset(Filled(r.slots)) == multiset(r.tiles)
    ensures |Filled(r.slots)| == |r.tiles| && forall i :: 0 <= i < |r.slots| ==> Filled(r.slots)[i] == r.slots[i].value
  {
    FilledAll(r.slots);
    assert |multiset(Filled(r.slots))| + |multiset(r.items)| == |multiset(r.tiles)|;
    assert |multiset(r.items)| == 0;
  }

  /** While a tile is left to drag, some slot is still empty. */
  lemma RoomLeft<T>(r: Row<T>, v: T)
    requires Kept(r) && v in r.items
    ensures !AllFilled(r.slots)
  {
    FilledCount(r.slots);
    assert |multiset(Filled(r.slots))| + |multiset(r.items)| == |multiset(r.tiles)|;
  }

  /** On a full board the tiles read off the slots are the laid-out ones exactly when every slot holds
      the tile of its own position. */
  lemma InPlace<T>(r: Row<T>)
    requires Kept(r) && AllFilled(r.slots)
    ensures Filled(r.slots) == r.tiles <==> forall i :: 0 <= i < |r.slots| ==> r.slots[i] == Some(r.tiles[i])
  {
    FullRow(r);
    if forall i :: 0 <= i < |r.slots| ==> r.slots[i] == Some(r.tiles[i]) {
      assert forall i :: 0 <= i < |r.tiles| ==> Filled(r.slots)[i] == r.tiles[i];
    }
  }
}
