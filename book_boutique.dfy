/** The customer's reading corner (BookBoutique.tsx): the request form, the shelf of the
    customer's own requests and the five-stage progress bar on each. */
module BookBoutique {
  import opened Types
  import opened Lists
  import BookManager

  /** The borrowing periods the form offers. */
  predicate OfferedDuration(d: int) {
    d == 7 || d == 14 || d == 30
  }

  /** The request form's state. */
  class RequestForm {
    var showForm: bool
    var title: string
    var author: string
    var duration: int

    predicate Valid()
      reads this
    {
      OfferedDuration(duration)
    }

    constructor ()
      ensures Valid() && !showForm && title == "" && author == "" && duration == 14
    {
      showForm := false;
      title := "";
      author := "";
      duration := 14;
    }

    /** "Request a Book" opens and closes the form. */
    method ToggleForm()
      modifies this`showForm
      ensures showForm == !old(showForm)
    {
      showForm := !showForm;
    }

    method SetTitle(value: string)
      modifies this`title
      ensures title == value
    {
      title := value;
    }

    method SetAuthor(value: string)
      modifies this`author
      ensures author == value
    {
      author := value;
    }

    /** The 7, 14 and 30 day buttons. */
    method ChooseDuration(d: int)
      requires OfferedDuration(d)
      modifies this`duration
      ensures duration == d && Valid()
    {
      duration := d;
    }

    /** `handleSubmit`. The title and author inputs are required, so the browser submits only when
        both are filled in. The request is `Requested` with the chosen period, under the
        signed-in user's name and e-mail or the guest ones, and the form is emptied and
        closed. */
    method Submit(freshId: string, today: string, user: Option<UserProfile>) returns (request: Option<Book>)
      requires Valid()
      modifies this
      ensures Valid()
      ensures request.None? <==> old(title) == "" || old(author) == ""
      ensures request.None? ==> title == old(title) && author == old(author) && duration == old(duration) && showForm == old(showForm)
      ensures request.Some? ==>
        && request.value == Book(freshId, old(title), old(author),
                                 if user.Some? && user.value.name != "" then user.value.name else "Guest User",
                                 if user.Some? && user.value.email != "" then user.value.email else "guest@skillio.com",
                                 BookStatus.Requested, old(duration), today)
        && OfferedDuration(request.value.borrowDuration)
        && title == "" && author == "" && duration == 14 && !showForm
    {
      if title == "" || author == "" {
        return None;
      }
      var name := if user.Some? && user.value.name != "" then user.value.name else "Guest User";
      var email := if user.Some? && user.value.email != "" then user.value.email else "guest@skillio.com";
      request := Some(Book(freshId, title, author, name, email, BookStatus.Requested, duration, today));
      title, author, duration := "", "", 14;
      showForm := false;
    }
  }

  /** `b.customerEmail === userProfile?.email`: nobody's books without a signed-in user. */
  predicate OnShelf(user: Option<UserProfile>, b: Book) {
    user.Some? && b.customerEmail == user.value.email
  }

  function OnShelfOf(user: Option<UserProfile>): Book -> bool {
    (b: Book) => OnShelf(user, b)
  }

  /** `myBooks`: exactly the books requested under the user's e-mail, in order. */
  function MyBooks(books: seq<Book>, user: Option<UserProfile>): (r: seq<Book>)
    ensures forall i :: 0 <= i < |r| ==> r[i] in books && user.Some? && r[i].customerEmail == user.value.email
    ensures forall i :: 0 <= i < |books| && OnShelf(user, books[i]) ==> books[i] in r
  {
    Filter(books, OnShelfOf(user))
  }

  /** A signed-in user's new request, once the store prepends it, heads their shelf. */
  lemma NewRequestHeadsShelf(books: seq<Book>, user: UserProfile, request: Book)
    requires request.customerEmail == user.email
    ensures MyBooks([request] + books, Some(user)) == [request] + MyBooks(books, Some(user))
  {
    assert ([request] + books)[1..] == books;
  }

  /** The progress bar lights segment `i` (0 to 4) when `i` is at most the stage of the book. */
  predicate Lit(b: Book, i: nat) {
    i <= BookManager.Stage(b.status)
  }

  /** The number of lit segments is the stage plus one: one for a new request, all five for a
      returned book, one more for each move the desk makes. */
  lemma LitSegments(b: Book, next: BookStatus)
    ensures forall i :: 0 <= i < 5 ==> (Lit(b, i) <==> i < BookManager.Stage(b.status) + 1)
    ensures b.status == BookStatus.Requested ==> Lit(b, 0) && !Lit(b, 1)
    ensures b.status == BookStatus.Returned ==> forall i :: 0 <= i < 5 ==> Lit(b, i)
    ensures BookManager.Stage(next) == BookManager.Stage(b.status) + 1 ==>
      Lit(b.(status := next), BookManager.Stage(next)) && !Lit(b, BookManager.Stage(next))
  {
  }
}
