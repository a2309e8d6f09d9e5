/**
 * The cart store: the one persisted slot, and the operations that load the
 * cart from it, find a line, change the cart and write it back.
 */
module CartStore {
  import opened Catalogue
  import opened CartLines

  /** The first index whose line holds the key, or -1 (Array.prototype.findIndex). */
  method FindLine(cart: seq<LineItem>, id: string, branch: string) returns (idx: int)
    ensures idx == IndexOf(cart, id, branch)
  {
    idx := 0;
    while idx < |cart| && !HasKey(cart[idx], id, branch)
      invariant 0 <= idx <= |cart|
      invariant forall j :: 0 <= j < idx ==> !HasKey(cart[j], id, branch)
    {
      idx := idx + 1;
    }
    if idx == |cart| {
      idx := -1;
    }
  }

  class Store {
    /** The storage entry under the key 'cart'. */
    var slot: Slot

    constructor (persisted: Slot)
      ensures slot == persisted
      ensures !persisted.Lines? ==> Valid()
    {
      slot := persisted;
    }

    /** The cart as the page reads it. */
    function Snapshot(): (cart: seq<LineItem>)
      reads this
      ensures slot.Lines? ==> cart == slot.lines
      ensures !slot.Lines? ==> cart == []
    {
      Load(slot)
    }

    ghost predicate Valid()
      reads this
    {
      WellFormed(Snapshot())
    }

    /** Reads the cart; a missing or unreadable entry gives the empty cart. */
    method GetCart() returns (cart: seq<LineItem>)
      ensures cart == Snapshot()
      ensures !slot.Lines? ==> cart == []
    {
      cart := Load(slot);
    }

    method AddToCart(book: Book, branch: string)
      modifies this
      ensures slot == Save(Added(old(Snapshot()), book, branch))
      ensures old(Valid()) ==> Valid()
    {
      var cart := GetCart();
      var idx := FindLine(cart, book.id, branch);
      if idx >= 0 {
        cart := cart[idx := cart[idx].(qty := EffectiveQty(cart[idx].qty) + 1)];
      } else {
        cart := cart + [NewLine(book, branch)];
      }
      slot := Save(cart);
      if old(Valid()) {
        AddPreservesWellFormed(old(Snapshot()), book, branch);
      }
    }

    /** The add button: look the book up in its branch, add it if found. */
    method AddFromCatalogue(id: string, branch: string)
      modifies this
      ensures FindBook(BooksFor(branch), id).None? ==> slot == old(slot)
      ensures FindBook(BooksFor(branch), id).Some? ==>
                slot == Save(Added(old(Snapshot()), FindBook(BooksFor(branch), id).value, branch))
      ensures old(Valid()) ==> Valid()
    {
      var found := FindBook(BooksFor(branch), id);
      if found.Some? {
        AddToCart(found.value, branch);
      }
    }

    /** Writes back only when the key is present; a missing key leaves the slot untouched. */
    method ChangeQty(id: string, branch: string, delta: int)
      modifies this
      ensures Contains(old(Snapshot()), id, branch) ==>
                slot == Save(QtyChanged(old(Snapshot()), id, branch, delta))
      ensures !Contains(old(Snapshot()), id, branch) ==> slot == old(slot)
      ensures Snapshot() == QtyChanged(old(Snapshot()), id, branch, delta)
      ensures old(Valid()) ==> Valid()
    {
      var cart := GetCart();
      var idx := FindLine(cart, id, branch);
      if idx >= 0 {
        cart := cart[idx := cart[idx].(qty := Max(1, EffectiveQty(cart[idx].qty) + delta))];
        slot := Save(cart);
      } else {
        ChangeQtyAbsent(cart, id, branch, delta);
      }
      if old(Valid()) {
        ChangeQtyPreservesWellFormed(old(Snapshot()), id, branch, delta);
      }
    }

    /** Always writes back, even when nothing was removed. */
    method RemoveItem(id: string, branch: string)
      modifies this
      ensures slot == Save(Removed(old(Snapshot()), id, branch))
      ensures old(Valid()) ==> Valid()
    {
      var cart := GetCart();
      slot := Save(Removed(cart, id, branch));
      if old(Valid()) {
        RemovePreservesWellFormed(old(Snapshot()), id, branch);
      }
    }

    method ClearCart()
      modifies this
      ensures slot == Save([])
      ensures Snapshot() == [] && Valid()
    {
      slot := Save([]);
    }
  }
}
