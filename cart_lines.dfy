/**
 * The cart as a value: an ordered sequence of line items keyed by the pair
 * (id, branch), the persisted slot it is read from and written to, and the
 * specification of every cart operation as a function of the old cart.
 */
module CartLines {
  import opened Catalogue

  /**
   * One cart line. The display fields and the price are copies of the book
   * taken when the line was created. A quantity of 0 stands for a quantity
   * that is missing from the stored record.
   */
  datatype LineItem = LineItem(
    id: string,
    title: string,
    price: real,
    qty: int,
    author: string,
    publisher: string,
    img: string,
    branch: string)

  /**
   * The durable storage entry under the key 'cart'. Absent covers a missing
   * entry and one whose text parses to a falsy value; Malformed is text the
   * parser rejects.
   */
  datatype Slot = Absent | Malformed | Lines(lines: seq<LineItem>)

  /** Reading the cart: anything but a stored list reads as the empty cart. */
  function Load(slot: Slot): (r: seq<LineItem>)
    ensures slot.Lines? ==> r == slot.lines
    ensures !slot.Lines? ==> r == []
  {
    if slot.Lines? then slot.lines else []
  }

  /** Writing the cart. */
  function Save(cart: seq<LineItem>): (slot: Slot)
    ensures Load(slot) == cart
  {
    Lines(cart)
  }

  /** Both round trips: a written cart reads back as itself, and a readable slot is rewritten unchanged. */
  lemma LoadSaveRoundTrip(cart: seq<LineItem>, slot: Slot)
    ensures Load(Save(cart)) == cart
    ensures slot.Lines? ==> Save(Load(slot)) == slot
  {
  }

  /** The page sees an empty cart exactly when nothing readable, or an empty list, is stored. */
  lemma LoadUnreadableIsEmpty(slot: Slot)
    ensures !slot.Lines? ==> Load(slot) == []
    ensures Load(slot) == [] <==> !slot.Lines? || slot.lines == []
  {
  }

  /** The quantity a line counts as: a missing or zero quantity reads as 1. */
  function EffectiveQty(qty: int): (q: int)
    ensures qty == 0 ==> q == 1
    ensures q != 0
    ensures qty != 0 ==> q == qty
    ensures qty >= 0 ==> q >= 1
  {
    if qty == 0 then 1 else qty
  }

  predicate HasKey(line: LineItem, id: string, branch: string)
  {
    line.id == id && line.branch == branch
  }

  predicate Contains(cart: seq<LineItem>, id: string, branch: string)
  {
    exists j :: 0 <= j < |cart| && HasKey(cart[j], id, branch)
  }

  /** No two lines share the same (id, branch) key. */
  predicate UniqueKeys(cart: seq<LineItem>)
  {
    forall i, j :: 0 <= i < j < |cart| ==> !HasKey(cart[j], cart[i].id, cart[i].branch)
  }

  /** The cart invariant the operations keep: unique keys, every quantity at least 1. */
  predicate WellFormed(cart: seq<LineItem>)
  {
    UniqueKeys(cart) && forall j :: 0 <= j < |cart| ==> cart[j].qty >= 1
  }

  /** The index of the first line with the key, or -1 when there is none. */
  function IndexOf(cart: seq<LineItem>, id: string, branch: string): (r: int)
    ensures -1 <= r < |cart|
    ensures 0 <= r ==> HasKey(cart[r], id, branch)
    ensures forall j :: 0 <= j < |cart| && (r < 0 || j < r) ==> !HasKey(cart[j], id, branch)
  {
    if cart == [] then -1
    else if HasKey(cart[0], id, branch) then 0
    else
      var k := IndexOf(cart[1..], id, branch);
      assert forall j :: 1 <= j < |cart| ==> cart[j] == cart[1..][j - 1];
      if k < 0 then -1 else k + 1
  }

  /** In a cart with unique keys, any line holding the key is the one IndexOf finds. */
  lemma IndexOfUnique(cart: seq<LineItem>, i: nat)
    requires UniqueKeys(cart)
    requires i < |cart|
    ensures IndexOf(cart, cart[i].id, cart[i].branch) == i
  {
  }

  /** A slice of a well-keyed cart is well keyed. */
  lemma UniqueKeysSlice(cart: seq<LineItem>, lo: nat, hi: nat)
    requires UniqueKeys(cart)
    requires lo <= hi <= |cart|
    ensures UniqueKeys(cart[lo..hi])
  {
    var s := cart[lo..hi];
    forall a, b | 0 <= a < b < |s| ensures !HasKey(s[b], s[a].id, s[a].branch) {
      assert s[a] == cart[lo + a] && s[b] == cart[lo + b];
    }
  }

  /** A slice whose lines all miss the key does not contain it. */
  lemma NotContainsSlice(cart: seq<LineItem>, id: string, branch: string, lo: nat, hi: nat)
    requires lo <= hi <= |cart|
    requires forall j :: lo <= j < hi ==> !HasKey(cart[j], id, branch)
    ensures !Contains(cart[lo..hi], id, branch)
  {
    var s := cart[lo..hi];
    forall k | 0 <= k < |s| ensures !HasKey(s[k], id, branch) {
      assert s[k] == cart[lo + k];
    }
  }

  /** The line a book makes on its first add, with quantity 1. */
  function NewLine(book: Book, branch: string): (line: LineItem)
    ensures HasKey(line, book.id, branch) && line.qty == 1 && line.price == book.price
  {
    LineItem(book.id, book.title, book.price, 1, book.author, book.publisher, book.img, branch)
  }

  /** The cart after adding one copy of the book for the branch. */
  function Added(cart: seq<LineItem>, book: Book, branch: string): (r: seq<LineItem>)
    ensures Contains(cart, book.id, branch) ==> |r| == |cart|
    ensures !Contains(cart, book.id, branch) ==> |r| == |cart| + 1
    ensures Contains(r, book.id, branch)
  {
    var i := IndexOf(cart, book.id, branch);
    if i >= 0 then
      var r := cart[i := cart[i].(qty := EffectiveQty(cart[i].qty) + 1)];
      assert HasKey(r[i], book.id, branch);
      r
    else
      var r := cart + [NewLine(book, branch)];
      assert HasKey(r[|cart|], book.id, branch);
      r
  }

  /** The cart after changing the quantity of the keyed line by delta, never below 1. */
  function QtyChanged(cart: seq<LineItem>, id: string, branch: string, delta: int): (r: seq<LineItem>)
    ensures |r| == |cart|
    ensures forall j :: 0 <= j < |r| ==> HasKey(r[j], cart[j].id, cart[j].branch)
    ensures forall j :: 0 <= j < |r| && r[j] != cart[j] ==> HasKey(cart[j], id, branch) && r[j].qty >= 1
  {
    var i := IndexOf(cart, id, branch);
    if i >= 0 then cart[i := cart[i].(qty := Max(1, EffectiveQty(cart[i].qty) + delta))]
    else cart
  }

  function Max(a: int, b: int): int
  {
    if a >= b then a else b
  }

  /** The cart without the lines that hold the key, the rest in their order. */
  function Removed(cart: seq<LineItem>, id: string, branch: string): (r: seq<LineItem>)
    ensures |r| <= |cart|
  {
    if cart == [] then []
    else (if HasKey(cart[0], id, branch) then [] else [cart[0]]) + Removed(cart[1..], id, branch)
  }

  // ---------------------------------------------------------------------------
  // Adding
  // ---------------------------------------------------------------------------

  /**
   * Adding a key already in the cart raises the quantity of the first line
   * holding it by one; nothing else changes. In a well-keyed cart that line
   * is the only one (IndexOfUnique).
   */
  lemma AddExistingIncrements(cart: seq<LineItem>, book: Book, branch: string, i: nat)
    requires i < |cart| && HasKey(cart[i], book.id, branch)
    requires forall j :: 0 <= j < i ==> !HasKey(cart[j], book.id, branch)
    ensures |Added(cart, book, branch)| == |cart|
    ensures Added(cart, book, branch)[i] == cart[i].(qty := EffectiveQty(cart[i].qty) + 1)
    ensures forall j :: 0 <= j < |cart| && j != i ==> Added(cart, book, branch)[j] == cart[j]
  {
    assert IndexOf(cart, book.id, branch) == i;
  }

  /** Adding a new key appends one line copied from the book with quantity 1; existing lines stay. */
  lemma AddNewAppends(cart: seq<LineItem>, book: Book, branch: string)
    requires !Contains(cart, book.id, branch)
    ensures |Added(cart, book, branch)| == |cart| + 1
    ensures Added(cart, book, branch)[..|cart|] == cart
    ensures var line := Added(cart, book, branch)[|cart|];
            line.id == book.id && line.title == book.title && line.price == book.price
            && line.qty == 1 && line.author == book.author && line.publisher == book.publisher
            && line.img == book.img && line.branch == branch
  {
    assert IndexOf(cart, book.id, branch) < 0;
  }

  /** Adding keeps the cart invariant. */
  lemma AddPreservesWellFormed(cart: seq<LineItem>, book: Book, branch: string)
    requires WellFormed(cart)
    ensures WellFormed(Added(cart, book, branch))
    ensures Contains(Added(cart, book, branch), book.id, branch)
  {
    var i := IndexOf(cart, book.id, branch);
    var r := Added(cart, book, branch);
    if i < 0 {
      assert r[|cart|] == NewLine(book, branch);
      forall a, b | 0 <= a < b < |r| ensures !HasKey(r[b], r[a].id, r[a].branch) {
        if b < |cart| { assert r[a] == cart[a] && r[b] == cart[b]; }
      }
    } else {
      assert HasKey(r[i], book.id, branch);
    }
  }

  /** n adds of the same book id, one after the other. */
  function AddedAll(cart: seq<LineItem>, books: seq<Book>, branch: string): seq<LineItem>
    decreases |books|
  {
    if books == [] then cart
    else Added(AddedAll(cart, books[..|books| - 1], branch), books[|books| - 1], branch)
  }

  /**
   * Repeated adds of one key to a cart without it leave one appended line
   * whose quantity is the number of adds and whose fields and price are
   * those captured by the first add, whatever the later books carry.
   */
  lemma {:induction false} RepeatedAddsOneLine(cart: seq<LineItem>, books: seq<Book>, branch: string)
    requires |books| >= 1
    requires forall k :: 0 <= k < |books| ==> books[k].id == books[0].id
    requires !Contains(cart, books[0].id, branch)
    ensures |AddedAll(cart, books, branch)| == |cart| + 1
    ensures AddedAll(cart, books, branch)[..|cart|] == cart
    ensures AddedAll(cart, books, branch)[|cart|] == NewLine(books[0], branch).(qty := |books|)
  {
    var n := |books|;
    var prefix := books[..n - 1];
    if n == 1 {
      assert prefix == [];
      AddNewAppends(cart, books[0], branch);
    } else {
      RepeatedAddsOneLine(cart, prefix, branch);
      var r' := AddedAll(cart, prefix, branch);
      forall j | 0 <= j < |cart| ensures !HasKey(r'[j], books[n - 1].id, branch) {
        assert r'[j] == r'[..|cart|][j];
      }
      assert IndexOf(r', books[n - 1].id, branch) == |cart|;
      var r := AddedAll(cart, books, branch);
      assert r == r'[|cart| := r'[|cart|].(qty := n)];
      assert r[..|cart|] == r'[..|cart|];
    }
  }

  // ---------------------------------------------------------------------------
  // Changing a quantity
  // ---------------------------------------------------------------------------

  /**
   * On a present key the quantity of the first line holding it becomes
   * max(1, quantity + delta); every other line stays.
   */
  lemma ChangeQtyPresent(cart: seq<LineItem>, id: string, branch: string, delta: int, i: nat)
    requires i < |cart| && HasKey(cart[i], id, branch)
    requires forall j :: 0 <= j < i ==> !HasKey(cart[j], id, branch)
    ensures |QtyChanged(cart, id, branch, delta)| == |cart|
    ensures QtyChanged(cart, id, branch, delta)[i]
            == cart[i].(qty := Max(1, EffectiveQty(cart[i].qty) + delta))
    ensures QtyChanged(cart, id, branch, delta)[i].qty >= 1
    ensures forall j :: 0 <= j < |cart| && j != i ==> QtyChanged(cart, id, branch, delta)[j] == cart[j]
  {
    assert IndexOf(cart, id, branch) == i;
  }

  /** On an absent key the cart is left as it was. */
  lemma ChangeQtyAbsent(cart: seq<LineItem>, id: string, branch: string, delta: int)
    requires !Contains(cart, id, branch)
    ensures QtyChanged(cart, id, branch, delta) == cart
  {
    assert IndexOf(cart, id, branch) < 0;
  }

  /** Changing a quantity keeps the cart invariant, for any delta. */
  lemma ChangeQtyPreservesWellFormed(cart: seq<LineItem>, id: string, branch: string, delta: int)
    requires WellFormed(cart)
    ensures WellFormed(QtyChanged(cart, id, branch, delta))
  {
    var r := QtyChanged(cart, id, branch, delta);
    assert forall j :: 0 <= j < |cart| ==> HasKey(r[j], cart[j].id, cart[j].branch);
  }

  /** A run of quantity changes on one key. */
  function QtyChangedAll(cart: seq<LineItem>, id: string, branch: string, deltas: seq<int>): seq<LineItem>
    decreases |deltas|
  {
    if deltas == [] then cart
    else QtyChanged(QtyChangedAll(cart, id, branch, deltas[..|deltas| - 1]), id, branch, deltas[|deltas| - 1])
  }

  /** However negative the deltas, no quantity drops below 1 and keys stay unique. */
  lemma {:induction false} QtyChangesKeepWellFormed(cart: seq<LineItem>, id: string, branch: string, deltas: seq<int>)
    requires WellFormed(cart)
    ensures WellFormed(QtyChangedAll(cart, id, branch, deltas))
    decreases |deltas|
  {
    if deltas != [] {
      QtyChangesKeepWellFormed(cart, id, branch, deltas[..|deltas| - 1]);
      ChangeQtyPreservesWellFormed(QtyChangedAll(cart, id, branch, deltas[..|deltas| - 1]),
                                   id, branch, deltas[|deltas| - 1]);
    }
  }

  // ---------------------------------------------------------------------------
  // Removing
  // ---------------------------------------------------------------------------

  /** Removal distributes over concatenation: it is a filter. */
  lemma {:induction false} RemovedConcat(a: seq<LineItem>, b: seq<LineItem>, id: string, branch: string)
    ensures Removed(a + b, id, branch) == Removed(a, id, branch) + Removed(b, id, branch)
  {
    if a == [] {
      assert a + b == b;
    } else {
      assert (a + b)[1..] == a[1..] + b;
      RemovedConcat(a[1..], b, id, branch);
      var head: seq<LineItem> := if HasKey(a[0], id, branch) then [] else [a[0]];
      assert Removed(a + b, id, branch) == head + Removed(a[1..] + b, id, branch);
      assert Removed(a, id, branch) == head + Removed(a[1..], id, branch);
    }
  }

  /** On a single line, removal drops it exactly when it holds the key. */
  lemma RemovedSingle(line: LineItem, id: string, branch: string)
    ensures Removed([line], id, branch) == if HasKey(line, id, branch) then [] else [line]
  {
    assert [line][1..] == [];
  }

  /** Every line left by removal comes from the cart and misses the key. */
  lemma {:induction false} RemovedOnlyOthers(cart: seq<LineItem>, id: string, branch: string)
    ensures forall line :: line in Removed(cart, id, branch) ==> line in cart && !HasKey(line, id, branch)
  {
    if cart != [] {
      RemovedOnlyOthers(cart[1..], id, branch);
    }
  }

  /** Every line whose key differs survives removal. */
  lemma {:induction false} RemovedKeepsOthers(cart: seq<LineItem>, id: string, branch: string)
    ensures forall line :: line in cart && !HasKey(line, id, branch) ==> line in Removed(cart, id, branch)
  {
    if cart != [] {
      RemovedKeepsOthers(cart[1..], id, branch);
      assert forall line :: line in cart ==> line == cart[0] || line in cart[1..];
    }
  }

  /** Removing a missing key, or removing from the empty cart, changes nothing. */
  lemma {:induction false} RemoveAbsentIsIdentity(cart: seq<LineItem>, id: string, branch: string)
    requires !Contains(cart, id, branch)
    ensures Removed(cart, id, branch) == cart
  {
    if cart != [] {
      assert !HasKey(cart[0], id, branch);
      assert !Contains(cart[1..], id, branch) by {
        forall j | 0 <= j < |cart| - 1 ensures !HasKey(cart[1..][j], id, branch) {
          assert cart[1..][j] == cart[j + 1];
        }
      }
      RemoveAbsentIsIdentity(cart[1..], id, branch);
      assert cart == [cart[0]] + cart[1..];
    }
  }

  /** In a well-keyed cart, the line at i is the only line with its key. */
  lemma KeyOnlyAt(cart: seq<LineItem>, i: nat)
    requires UniqueKeys(cart)
    requires i < |cart|
    ensures !Contains(cart[..i], cart[i].id, cart[i].branch)
    ensures !Contains(cart[i + 1..], cart[i].id, cart[i].branch)
  {
    NotContainsSlice(cart, cart[i].id, cart[i].branch, 0, i);
    assert cart[0..i] == cart[..i];
    forall j | i + 1 <= j < |cart| ensures !HasKey(cart[j], cart[i].id, cart[i].branch) {
      assert !HasKey(cart[j], cart[i].id, cart[i].branch);
    }
    NotContainsSlice(cart, cart[i].id, cart[i].branch, i + 1, |cart|);
    assert cart[i + 1..|cart|] == cart[i + 1..];
  }

  /** In a well-keyed cart, removing a present key cuts out exactly that one line. */
  lemma RemovePresentCutsLine(cart: seq<LineItem>, id: string, branch: string, i: nat)
    requires UniqueKeys(cart)
    requires i < |cart| && HasKey(cart[i], id, branch)
    ensures Removed(cart, id, branch) == cart[..i] + cart[i + 1..]
  {
    var before, after := cart[..i], cart[i + 1..];
    KeyOnlyAt(cart, i);
    RemoveAbsentIsIdentity(before, id, branch);
    RemoveAbsentIsIdentity(after, id, branch);
    CutLine(before, cart[i], after, id, branch);
    assert cart == before + [cart[i]] + after;
  }

  lemma CutLine(before: seq<LineItem>, line: LineItem, after: seq<LineItem>, id: string, branch: string)
    requires HasKey(line, id, branch)
    requires Removed(before, id, branch) == before
    requires Removed(after, id, branch) == after
    ensures Removed(before + [line] + after, id, branch) == before + after
  {
    RemovedSingle(line, id, branch);
    RemovedConcat(before + [line], after, id, branch);
    RemovedConcat(before, [line], id, branch);
    assert Removed(before + [line], id, branch) == before + [];
    assert before + [] == before;
  }

  /** The kept head of a removal differs in key from every line of the removed tail. */
  lemma HeadKeyNotInRemovedTail(cart: seq<LineItem>, id: string, branch: string)
    requires UniqueKeys(cart) && cart != []
    ensures !Contains(Removed(cart[1..], id, branch), cart[0].id, cart[0].branch)
  {
    var rest := Removed(cart[1..], id, branch);
    RemovedOnlyOthers(cart[1..], id, branch);
    forall b | 0 <= b < |rest| ensures !HasKey(rest[b], cart[0].id, cart[0].branch) {
      assert rest[b] in rest;
      var k :| 0 <= k < |cart| - 1 && cart[1..][k] == rest[b];
      assert cart[1..][k] == cart[k + 1];
    }
  }

  /** Removal keeps keys unique. */
  lemma {:induction false} RemovedKeepsUniqueKeys(cart: seq<LineItem>, id: string, branch: string)
    requires UniqueKeys(cart)
    ensures UniqueKeys(Removed(cart, id, branch))
  {
    if cart != [] {
      var tail := cart[1..];
      UniqueKeysSlice(cart, 1, |cart|);
      assert cart[1..|cart|] == tail;
      RemovedKeepsUniqueKeys(tail, id, branch);
      var r, rest := Removed(cart, id, branch), Removed(tail, id, branch);
      if !HasKey(cart[0], id, branch) {
        assert r == [cart[0]] + rest;
        HeadKeyNotInRemovedTail(cart, id, branch);
        forall a, b | 0 <= a < b < |r| ensures !HasKey(r[b], r[a].id, r[a].branch) {
          assert r[b] == rest[b - 1];
          if a > 0 { assert r[a] == rest[a - 1]; }
        }
      } else {
        assert r == rest;
      }
    }
  }

  /** Every line left by a removal keeps a quantity of at least 1 when every line had one. */
  lemma {:induction false} RemovedKeepsQuantities(cart: seq<LineItem>, id: string, branch: string)
    requires forall j :: 0 <= j < |cart| ==> cart[j].qty >= 1
    ensures forall j :: 0 <= j < |Removed(cart, id, branch)| ==> Removed(cart, id, branch)[j].qty >= 1
  {
    if cart != [] {
      var tail := cart[1..];
      assert forall j :: 0 <= j < |tail| ==> tail[j] == cart[j + 1];
      RemovedKeepsQuantities(tail, id, branch);
      var head: seq<LineItem> := if HasKey(cart[0], id, branch) then [] else [cart[0]];
      assert Removed(cart, id, branch) == head + Removed(tail, id, branch);
    }
  }

  /** Removing keeps the cart invariant and leaves no line with the key. */
  lemma RemovePreservesWellFormed(cart: seq<LineItem>, id: string, branch: string)
    requires WellFormed(cart)
    ensures WellFormed(Removed(cart, id, branch))
    ensures !Contains(Removed(cart, id, branch), id, branch)
  {
    var r := Removed(cart, id, branch);
    RemovedKeepsUniqueKeys(cart, id, branch);
    RemovedKeepsQuantities(cart, id, branch);
    RemovedOnlyOthers(cart, id, branch);
    assert forall j :: 0 <= j < |r| ==> r[j] in r;
  }

  /** Clearing yields the empty cart, which satisfies the invariant. */
  lemma ClearedIsEmptyWellFormed()
    ensures Load(Save([])) == [] && WellFormed([])
  {
  }
}
