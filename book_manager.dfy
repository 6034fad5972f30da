/** The owner's book-lending desk (AdminBookManager.tsx): the tabs that list books by status
    and the one forward move each tab offers. */
module BookManager {
  import opened Types
  import opened Lists
  import opened AppStore

  function HasBookId(id: string): Book -> bool {
    (b: Book) => b.id == id
  }

  function WithStatus(next: BookStatus): Book -> Book {
    (b: Book) => b.(status := next)
  }

  /** `updateStatus`: the books with that id take the new status; every other book and every
      other field stays, and the list keeps its length and order. */
  function UpdateStatus(books: seq<Book>, id: string, next: BookStatus): (r: seq<Book>)
    ensures |r| == |books|
    ensures forall i :: 0 <= i < |books| ==>
      r[i] == (if books[i].id == id then books[i].(status := next) else books[i])
  {
    MapWhere(books, HasBookId(id), WithStatus(next))
  }

  /** The store update the desk issues. */
  function UpdateStatusAction(books: seq<Book>, id: string, next: BookStatus): Action {
    SetBooks(UpdateStatus(books, id, next))
  }

  /** The desk's tabs; the last four hold no book actions. */
  datatype Tab = Requests | Buying | Active | Library | Returns | Borrowers | Rules | Reports

  /** The status whose books a tab lists with a button. */
  function TabStatus(t: Tab): Option<BookStatus> {
    match t
    case Requests => Some(BookStatus.Requested)
    case Buying => Some(BookStatus.Approved)
    case Active => Some(BookStatus.Borrowed)
    case Library => Some(BookStatus.Purchased)
    case _ => None
  }

  /** The status each tab's button moves its books to. */
  function TabTarget(t: Tab): Option<BookStatus> {
    match t
    case Requests => Some(BookStatus.Approved)
    case Buying => Some(BookStatus.Purchased)
    case Active => Some(BookStatus.Returned)
    case Library => Some(BookStatus.Borrowed)
    case _ => None
  }

  function HasStatus(st: BookStatus): Book -> bool {
    (b: Book) => b.status == st
  }

  /** The books a tab lists: exactly those of its status, in order. */
  function Listed(books: seq<Book>, st: BookStatus): (r: seq<Book>)
    ensures forall i :: 0 <= i < |r| ==> r[i] in books && r[i].status == st
    ensures forall i :: 0 <= i < |books| && books[i].status == st ==> books[i] in r
  {
    Filter(books, HasStatus(st))
  }

  /** The lending path Requested, Approved, Purchased, Borrowed, Returned. */
  function Stage(st: BookStatus): nat {
    match st
    case Requested => 0
    case Approved => 1
    case Purchased => 2
    case Borrowed => 3
    case Returned => 4
  }

  /** Every tab that acts moves its books exactly one stage on, and no tab acts on a returned
      book: BookStatus.Returned is terminal. */
  lemma TabsMoveOneStage(t: Tab)
    ensures TabStatus(t).Some? <==> TabTarget(t).Some?
    ensures TabStatus(t).Some? ==> Stage(TabTarget(t).value) == Stage(TabStatus(t).value) + 1
    ensures TabStatus(t) != Some(BookStatus.Returned)
  {
  }

  /** Each stage but the last has exactly one tab that acts on it. */
  lemma EveryStageHasOneTab(st: BookStatus)
    requires st != BookStatus.Returned
    ensures exists t :: TabStatus(t) == Some(st)
    ensures forall t, u :: TabStatus(t) == Some(st) && TabStatus(u) == Some(st) ==> t == u
  {
    match st
    case Requested => assert TabStatus(Requests) == Some(st);
    case Approved => assert TabStatus(Buying) == Some(st);
    case Purchased => assert TabStatus(Library) == Some(st);
    case Borrowed => assert TabStatus(Active) == Some(st);
  }

  /** Pressing a tab's button on a listed book advances that book one stage and leaves the
      other books alone, book ids being unique. */
  lemma {:induction false} ButtonAdvancesOneBook(books: seq<Book>, t: Tab, k: nat)
    requires TabStatus(t).Some? && k < |books| && books[k].status == TabStatus(t).value
    requires UniqueKeys(books, BookId)
    ensures var after := UpdateStatus(books, books[k].id, TabTarget(t).value);
      && Stage(after[k].status) == Stage(books[k].status) + 1
      && forall i :: 0 <= i < |books| && i != k ==> after[i] == books[i]
  {
    TabsMoveOneStage(t);
    forall i | 0 <= i < |books| && i != k
      ensures books[i].id != books[k].id
    {
      assert BookId(books[i]) != BookId(books[k]) by {
        if i < k { } else { }
      }
    }
  }

  function BookId(b: Book): string { b.id }
}
