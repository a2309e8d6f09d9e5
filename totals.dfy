/**
 * The totals shown under the cart: the subtotal summed line by line, a
 * fixed 5% tax on it, and the grand total. Arithmetic is exact here.
 */
module TotalsCalculator {
  import opened Catalogue
  import opened CartLines

  const TAX_RATE: real := 0.05

  datatype Totals = Totals(subtotal: real, tax: real, grand: real)

  /** What one line adds to the subtotal: its quantity (missing reads as 1) times its price. */
  function LineTotal(line: LineItem): (r: real)
    ensures line.qty == 0 ==> r == line.price
    ensures line.qty >= 0 && line.price >= 0.0 ==> r >= line.price
  {
    EffectiveQty(line.qty) as real * line.price
  }

  /** No line has a negative quantity or a negative price. */
  predicate NoNegatives(cart: seq<LineItem>)
  {
    forall j :: 0 <= j < |cart| ==> cart[j].qty >= 0 && cart[j].price >= 0.0
  }

  /** The subtotal, summed front to back as the rendering loop does. */
  function Subtotal(cart: seq<LineItem>): (r: real)
    ensures NoNegatives(cart) ==> r >= 0.0
  {
    if cart == [] then 0.0 else Subtotal(cart[..|cart| - 1]) + LineTotal(cart[|cart| - 1])
  }

  function TotalsOf(cart: seq<LineItem>): (t: Totals)
    ensures t.subtotal == Subtotal(cart)
    ensures t.tax == t.subtotal * TAX_RATE && t.grand == t.subtotal + t.tax
    ensures t.grand == t.subtotal * 1.05
  {
    var subtotal := Subtotal(cart);
    Totals(subtotal, subtotal * TAX_RATE, subtotal + subtotal * TAX_RATE)
  }

  /** The totals loop of the cart view. */
  method ComputeTotals(cart: seq<LineItem>) returns (t: Totals)
    ensures t == TotalsOf(cart)
    ensures t.tax == t.subtotal * TAX_RATE && t.grand == t.subtotal + t.tax
  {
    var subtotal := 0.0;
    var i := 0;
    while i < |cart|
      invariant 0 <= i <= |cart|
      invariant subtotal == Subtotal(cart[..i])
    {
      var line := EffectiveQty(cart[i].qty) as real * cart[i].price;
      subtotal := subtotal + line;
      assert cart[..i + 1][..i] == cart[..i];
      i := i + 1;
    }
    assert cart[..i] == cart;
    var tax := subtotal * TAX_RATE;
    var grand := subtotal + tax;
    t := Totals(subtotal, tax, grand);
  }

  /** The subtotal of two carts one after the other is the sum of their subtotals. */
  lemma {:induction false} SubtotalAppend(a: seq<LineItem>, b: seq<LineItem>)
    ensures Subtotal(a + b) == Subtotal(a) + Subtotal(b)
    decreases |b|
  {
    if b == [] {
      assert a + b == a;
    } else {
      var n := |b|;
      assert (a + b)[..|a + b| - 1] == a + b[..n - 1];
      SubtotalAppend(a, b[..n - 1]);
    }
  }

  lemma SubtotalSingle(line: LineItem)
    ensures Subtotal([line]) == LineTotal(line)
  {
    assert [line][..0] == [];
  }

  /** Replacing one line changes the subtotal by the difference of the two line totals. */
  lemma SubtotalUpdate(cart: seq<LineItem>, i: nat, line: LineItem)
    requires i < |cart|
    ensures Subtotal(cart[i := line]) == Subtotal(cart) - LineTotal(cart[i]) + LineTotal(line)
  {
    var before, after := cart[..i], cart[i + 1..];
    assert cart == before + [cart[i]] + after;
    assert cart[i := line] == before + [line] + after;
    SubtotalAppend(before + [cart[i]], after);
    SubtotalAppend(before, [cart[i]]);
    SubtotalAppend(before + [line], after);
    SubtotalAppend(before, [line]);
    SubtotalSingle(cart[i]);
    SubtotalSingle(line);
  }

  /** The subtotal does not depend on the order of the lines. */
  lemma {:induction false} SubtotalPermutation(a: seq<LineItem>, b: seq<LineItem>)
    requires multiset(a) == multiset(b)
    ensures Subtotal(a) == Subtotal(b)
    decreases |a|
  {
    if a == [] {
      assert |multiset(b)| == 0;
    } else {
      var n := |a|;
      var x := a[n - 1];
      assert a == a[..n - 1] + [x];
      assert x in multiset(b);
      var j :| 0 <= j < |b| && b[j] == x;
      var rest := b[..j] + b[j + 1..];
      assert b == b[..j] + [x] + b[j + 1..];
      calc {
        multiset(a[..n - 1]) + multiset{x};
        multiset(a);
        multiset(b);
        multiset(b[..j]) + multiset{x} + multiset(b[j + 1..]);
        multiset(rest) + multiset{x};
      }
      assert multiset(a[..n - 1]) == multiset(a[..n - 1]) + multiset{x} - multiset{x};
      assert multiset(rest) == multiset(rest) + multiset{x} - multiset{x};
      SubtotalPermutation(a[..n - 1], rest);
      SubtotalAppend(b[..j] + [x], b[j + 1..]);
      SubtotalAppend(b[..j], [x]);
      SubtotalAppend(b[..j], b[j + 1..]);
      SubtotalSingle(x);
    }
  }

  /** Permuting the lines gives the same subtotal, tax and grand total. */
  lemma TotalsPermutation(a: seq<LineItem>, b: seq<LineItem>)
    requires multiset(a) == multiset(b)
    ensures TotalsOf(a) == TotalsOf(b)
  {
    SubtotalPermutation(a, b);
  }

  /** With no negative price or quantity, 0 <= subtotal <= grand total. */
  lemma {:induction false} TotalsBounds(cart: seq<LineItem>)
    requires forall j :: 0 <= j < |cart| ==> cart[j].qty >= 0 && cart[j].price >= 0.0
    ensures 0.0 <= TotalsOf(cart).subtotal <= TotalsOf(cart).grand
    ensures TotalsOf(cart).tax >= 0.0
    decreases |cart|
  {
    if cart != [] {
      var n := |cart|;
      TotalsBounds(cart[..n - 1]);
      var last := cart[n - 1];
      assert EffectiveQty(last.qty) as real >= 1.0;
      assert LineTotal(last) >= 0.0;
    }
  }

  /** One more copy on a line of positive quantity adds one unit price. */
  lemma LineTotalIncrement(line: LineItem)
    requires line.qty >= 1
    ensures LineTotal(line.(qty := EffectiveQty(line.qty) + 1)) == LineTotal(line) + line.price
  {
    var q := line.qty as real;
    calc {
      LineTotal(line.(qty := EffectiveQty(line.qty) + 1));
      (q + 1.0) * line.price;
      q * line.price + line.price;
    }
  }

  /** Adding a book to a well-formed cart raises the subtotal by one unit price: the captured one, or the book's on a new line. */
  lemma AddRaisesSubtotal(cart: seq<LineItem>, book: Book, branch: string)
    requires WellFormed(cart)
    ensures Contains(cart, book.id, branch) ==>
              Subtotal(Added(cart, book, branch))
              == Subtotal(cart) + cart[IndexOf(cart, book.id, branch)].price
    ensures !Contains(cart, book.id, branch) ==>
              Subtotal(Added(cart, book, branch)) == Subtotal(cart) + book.price
  {
    var i := IndexOf(cart, book.id, branch);
    if i >= 0 {
      var line := cart[i];
      assert line.qty >= 1;
      assert Added(cart, book, branch) == cart[i := line.(qty := EffectiveQty(line.qty) + 1)];
      LineTotalIncrement(line);
      SubtotalUpdate(cart, i, line.(qty := EffectiveQty(line.qty) + 1));
    } else {
      assert Added(cart, book, branch) == cart + [NewLine(book, branch)];
      SubtotalAppend(cart, [NewLine(book, branch)]);
      SubtotalSingle(NewLine(book, branch));
    }
  }

  /** Removing a present key from a well-keyed cart lowers the subtotal by exactly that line's total. */
  lemma RemoveLowersSubtotal(cart: seq<LineItem>, id: string, branch: string, i: nat)
    requires UniqueKeys(cart)
    requires i < |cart| && HasKey(cart[i], id, branch)
    ensures Subtotal(Removed(cart, id, branch)) == Subtotal(cart) - LineTotal(cart[i])
  {
    RemovePresentCutsLine(cart, id, branch, i);
    assert cart == cart[..i] + [cart[i]] + cart[i + 1..];
    SubtotalAppend(cart[..i] + [cart[i]], cart[i + 1..]);
    SubtotalAppend(cart[..i], [cart[i]]);
    SubtotalAppend(cart[..i], cart[i + 1..]);
    SubtotalSingle(cart[i]);
  }

  /**
   * Adding the CSE book "ai" (63.00) twice to an empty cart gives one line of
   * quantity 2 and totals 126.00, 6.30 and 132.30.
   */
  lemma TwoAddsScenario()
    ensures FindBook(BooksFor("CSE"), "ai").Some?
    ensures var ai := FindBook(BooksFor("CSE"), "ai").value;
            var cart := Added(Added([], ai, "CSE"), ai, "CSE");
            cart == [NewLine(ai, "CSE").(qty := 2)]
            && TotalsOf(cart) == Totals(126.0, 6.3, 132.3)
  {
    var ai := BooksFor("CSE")[0];
    assert FindBook(BooksFor("CSE"), "ai") == Some(ai);
    var once := Added([], ai, "CSE");
    assert once == [NewLine(ai, "CSE")];
    assert IndexOf(once, "ai", "CSE") == 0;
    var twice := Added(once, ai, "CSE");
    assert twice == [NewLine(ai, "CSE").(qty := 2)];
    SubtotalSingle(twice[0]);
  }
}
