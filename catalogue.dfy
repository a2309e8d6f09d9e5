/**
 * The static catalogue: a constant map from branch name to the ordered list
 * of books offered to that branch, and the lookup of a book by its id.
 */
module Catalogue {

  datatype Option<T> = None | Some(value: T)

  /** A catalogue entry. Prices are exact decimals here, not floats. */
  datatype Book = Book(
    id: string,
    title: string,
    author: string,
    publisher: string,
    price: real,
    img: string)

  /** The branches the catalogue knows about. */
  const Branches: set<string> := {"CSE", "ECE", "EEE", "CIVIL"}

  /** The demo data, branch by branch, in display order. */
  const BOOKS: map<string, seq<Book>> := map[
    "CSE" := [
      Book("ai", "AI", "S. Russel", "Prentice Hall", 63.0, "https://picsum.photos/seed/ai/80/100"),
      Book("java-2", "Java 2", "Watson", "BPB Publications", 35.5, "https://picsum.photos/seed/java/80/100"),
      Book("html-24", "HTML in 24 Hours", "Sam Peter", "Sam Publication", 50.0, "https://picsum.photos/seed/html/80/100"),
      Book("xml-bible", "XML Bible", "Winston", "Wiley", 40.5, "https://picsum.photos/seed/xml/80/100")
    ],
    "ECE" := [
      Book("dsp", "Digital Signal Processing", "Proakis", "McGraw-Hill", 48.0, "https://picsum.photos/seed/dsp/80/100"),
      Book("vlsi", "VLSI Design", "S. Kang", "Tata McGraw-Hill", 45.0, "https://picsum.photos/seed/vlsi/80/100")
    ],
    "EEE" := [
      Book("machines", "Electrical Machines", "P. S. Bimbhra", "Khanna", 50.0, "https://picsum.photos/seed/machines/80/100"),
      Book("power", "Power Systems", "C. L. Wadhwa", "New Age", 55.0, "https://picsum.photos/seed/power/80/100")
    ],
    "CIVIL" := [
      Book("struct", "Structural Analysis", "R. C. Hibbeler", "Pearson", 60.0, "https://picsum.photos/seed/struct/80/100"),
      Book("concrete", "Concrete Technology", "M. S. Shetty", "S. Chand", 40.0, "https://picsum.photos/seed/concrete/80/100")
    ]
  ]

  /** The books shown for a branch; an unknown branch shows nothing. */
  function BooksFor(branch: string): (r: seq<Book>)
    ensures branch !in Branches ==> r == []
    ensures branch in Branches ==> r == BOOKS[branch] && r != []
  {
    if branch in BOOKS then BOOKS[branch] else []
  }

  /** Ids are unique within one list of books. */
  predicate UniqueIds(books: seq<Book>)
  {
    forall i, j :: 0 <= i < j < |books| ==> books[i].id != books[j].id
  }

  /** Every price in the list is non-negative. */
  predicate NonNegativePrices(books: seq<Book>)
  {
    forall i :: 0 <= i < |books| ==> books[i].price >= 0.0
  }

  /** The first book of the list with the given id, if there is one. */
  function FindBook(books: seq<Book>, id: string): (r: Option<Book>)
    ensures r.None? <==> forall k :: 0 <= k < |books| ==> books[k].id != id
    ensures r.Some? ==> exists k :: 0 <= k < |books| && books[k] == r.value && r.value.id == id
                                    && forall j :: 0 <= j < k ==> books[j].id != id
  {
    if books == [] then None
    else if books[0].id == id then Some(books[0])
    else
      var r := FindBook(books[1..], id);
      assert r.Some? ==> exists k :: 0 < k < |books| && books[k] == r.value && r.value.id == id
                                      && forall j :: 0 <= j < k ==> books[j].id != id by {
        if r.Some? {
          var k :| 0 <= k < |books| - 1 && books[1..][k] == r.value && r.value.id == id
                   && forall j :: 0 <= j < k ==> books[1..][j].id != id;
          assert books[k + 1] == r.value;
          forall j | 0 <= j < k + 1 ensures books[j].id != id {
            if j > 0 { assert books[j] == books[1..][j - 1]; }
          }
        }
      }
      r
  }

  /** Within a list of unique ids, the lookup finds the one book with that id. */
  lemma FindBookUnique(books: seq<Book>, k: nat)
    requires UniqueIds(books)
    requires k < |books|
    ensures FindBook(books, books[k].id) == Some(books[k])
  {
    var r := FindBook(books, books[k].id);
    var m :| 0 <= m < |books| && books[m] == r.value && r.value.id == books[k].id
             && forall j :: 0 <= j < m ==> books[j].id != books[k].id;
    assert m == k;
  }

  /** The catalogue data itself: every branch lists unique ids and non-negative prices. */
  lemma CatalogueWellFormed(branch: string)
    ensures UniqueIds(BooksFor(branch))
    ensures NonNegativePrices(BooksFor(branch))
  {
  }
}
