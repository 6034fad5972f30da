/** The owner's view of one customer (AdminCustomerProfile.tsx): the favourite service, the
    automatic segment, the average booking value and the account controls. */
module AdminCustomerProfile {
  import opened Types
  import opened Lists

  function HasTitle(t: string): Booking -> bool {
    (b: Booking) => b.serviceTitle == t
  }

  /** How many of the bookings are for the service titled `t`, counted from the front. */
  function Count(bookings: seq<Booking>, t: string): nat
    decreases |bookings|
  {
    if bookings == [] then 0
    else Count(bookings[..|bookings| - 1], t) + (if bookings[|bookings| - 1].serviceTitle == t then 1 else 0)
  }

  /** One more booking adds one to its own title's count and nothing to any other. */
  lemma CountStep(bookings: seq<Booking>, b: Booking)
    ensures forall t :: Count(bookings + [b], t) == Count(bookings, t) + (if b.serviceTitle == t then 1 else 0)
  {
    assert (bookings + [b])[..|bookings|] == bookings;
  }

  /** The count is the "Booked N times" figure: the length of the bookings filtered by title. */
  lemma {:induction false} CountIsBookedTimes(bookings: seq<Booking>, t: string)
    ensures Count(bookings, t) == |Filter(bookings, HasTitle(t))|
    decreases |bookings|
  {
    if bookings != [] {
      var n := |bookings| - 1;
      CountIsBookedTimes(bookings[..n], t);
      FilterConcat(bookings[..n], [bookings[n]], HasTitle(t));
      assert bookings[..n] + [bookings[n]] == bookings;
      assert Filter([bookings[n]], HasTitle(t)) == (if bookings[n].serviceTitle == t then [bookings[n]] else []);
    }
  }

  /** Booking `k` carries the favourite title: no title is booked more often, and every booking
      before `k` has a title booked strictly less often. Counting the titles in an object and
      sorting its entries by count with a stable sort keeps ties in first-booking order, so the
      winner is the most booked title that was booked first. */
  ghost predicate IsFavouriteAt(bookings: seq<Booking>, k: int) {
    && 0 <= k < |bookings|
    && (forall m :: 0 <= m < |bookings| ==>
          Count(bookings, bookings[m].serviceTitle) <= Count(bookings, bookings[k].serviceTitle))
    && (forall m :: 0 <= m < k ==>
          Count(bookings, bookings[m].serviceTitle) < Count(bookings, bookings[k].serviceTitle))
  }

  /** `... || 'N/A'`: an empty winning title shows as "N/A". */
  function OrNotAvailable(t: string): (r: string)
    ensures r != ""
    ensures t != "" ==> r == t
  {
    if t == "" then "N/A" else t
  }

  /** A title's entry in the tally; a title never seen counts zero. */
  function Tally(counts: map<string, nat>, t: string): nat {
    if t in counts then counts[t] else 0
  }

  /** Adding one to the tally of the next booking's title keeps the tally equal to the count. */
  lemma TallyStep(prefix: seq<Booking>, b: Booking, counts: map<string, nat>)
    requires forall t :: Count(prefix, t) == Tally(counts, t)
    ensures forall t :: Count(prefix + [b], t) == Tally(counts[b.serviceTitle := Tally(counts, b.serviceTitle) + 1], t)
  {
    CountStep(prefix, b);
  }

  /** The first pass of `favoriteService`: one entry per booked title holding its count. */
  method CountByTitle(bookings: seq<Booking>) returns (counts: map<string, nat>)
    ensures forall j :: 0 <= j < |bookings| ==> bookings[j].serviceTitle in counts
    ensures forall t :: Count(bookings, t) == Tally(counts, t)
  {
    counts := map[];
    var i := 0;
    while i < |bookings|
      invariant 0 <= i <= |bookings|
      invariant forall j :: 0 <= j < i ==> bookings[j].serviceTitle in counts
      invariant forall t :: Count(bookings[..i], t) == Tally(counts, t)
    {
      var t := bookings[i].serviceTitle;
      TallyStep(bookings[..i], bookings[i], counts);
      assert bookings[..i + 1] == bookings[..i] + [bookings[i]];
      counts := counts[t := Tally(counts, t) + 1];
      i := i + 1;
    }
    assert bookings[..i] == bookings;
  }

  /** `favoriteService`: count the bookings per title, then take the first title of greatest
      count; "N/A" when there are no bookings. */
  method FavoriteService(bookings: seq<Booking>) returns (fav: string)
    ensures bookings == [] ==> fav == "N/A"
    ensures bookings != [] ==> exists k :: IsFavouriteAt(bookings, k) && fav == OrNotAvailable(bookings[k].serviceTitle)
  {
    var counts := CountByTitle(bookings);
    if |bookings| == 0 {
      return "N/A";
    }
    var best := 0;
    var j := 1;
    while j < |bookings|
      invariant 1 <= j <= |bookings| && 0 <= best < j
      invariant forall m :: 0 <= m < j ==>
        Count(bookings, bookings[m].serviceTitle) <= Count(bookings, bookings[best].serviceTitle)
      invariant forall m :: 0 <= m < best ==>
        Count(bookings, bookings[m].serviceTitle) < Count(bookings, bookings[best].serviceTitle)
    {
      if counts[bookings[j].serviceTitle] > counts[bookings[best].serviceTitle] {
        best := j;
      }
      j := j + 1;
    }
    fav := OrNotAvailable(bookings[best].serviceTitle);
  }

  /** The favourite is well defined: there is exactly one winning booking, and it is the first
      booking of its title. */
  lemma FavouriteIsUnique(bookings: seq<Booking>, k1: int, k2: int)
    requires IsFavouriteAt(bookings, k1) && IsFavouriteAt(bookings, k2)
    ensures k1 == k2
    ensures forall m :: 0 <= m < k1 ==> bookings[m].serviceTitle != bookings[k1].serviceTitle
  {
    assert Count(bookings, bookings[k1].serviceTitle) == Count(bookings, bookings[k2].serviceTitle);
  }

  /** A title booked by strictly more bookings than any other wins, wherever it first appears. */
  lemma {:induction false} StrictMajorityWins(bookings: seq<Booking>, k: int)
    requires 0 <= k < |bookings|
    requires forall m :: 0 <= m < k ==> bookings[m].serviceTitle != bookings[k].serviceTitle
    requires forall m :: 0 <= m < |bookings| && bookings[m].serviceTitle != bookings[k].serviceTitle ==>
      Count(bookings, bookings[m].serviceTitle) < Count(bookings, bookings[k].serviceTitle)
    ensures IsFavouriteAt(bookings, k)
  {
  }

  /** The automatic segment: more than five bookings make a high-value customer. */
  function Segment(totalBookings: int): (r: string)
    ensures r == "High Value" <==> totalBookings > 5
    ensures r == "High Value" || r == "Standard"
  {
    if totalBookings > 5 then "High Value" else "Standard"
  }

  /** The segment never drops as a customer books more. */
  lemma SegmentIsMonotone(a: int, b: int)
    requires a <= b && Segment(a) == "High Value"
    ensures Segment(b) == "High Value"
  {
  }

  /** `(totalSpent / (totalBookings || 1)).toFixed(0)`: the spend per booking rounded to the
      nearest whole shilling, halves up; no bookings divide by one. */
  function AverageBookingValue(totalSpent: nat, totalBookings: nat): (r: nat)
    ensures var d := if totalBookings == 0 then 1 else totalBookings;
      2 * r * d <= 2 * totalSpent + d < 2 * r * d + 2 * d
  {
    var d := if totalBookings == 0 then 1 else totalBookings;
    DivisionBounds(2 * totalSpent + d, 2 * d);
    (2 * totalSpent + d) / (2 * d)
  }

  lemma DivisionBounds(n: nat, d: nat)
    requires d > 0
    ensures (n / d) * d <= n < (n / d) * d + d
  {
  }

  datatype AccountStatus = Active | Paused

  /** The account button switches between the two states. */
  function Flipped(st: AccountStatus): (r: AccountStatus)
    ensures r != st
  {
    if st == Active then Paused else Active
  }

  lemma FlipTwice(st: AccountStatus)
    ensures Flipped(Flipped(st)) == st
  {
  }

  /** The panel's own state: the account status, the two flags and the owner's notes. None of it
      leaves the page. */
  class ClientControls {
    var status: AccountStatus
    var reliable: bool
    var attention: bool
    var notes: string

    constructor ()
      ensures status == Active && reliable && !attention && notes == ""
    {
      status := Active;
      reliable := true;
      attention := false;
      notes := "";
    }

    /** "Pause Bookings" / "Reactivate Bookings". */
    method ToggleStatus()
      modifies this`status
      ensures status == Flipped(old(status))
    {
      status := Flipped(status);
    }

    /** The reliable flag flips and the attention flag stays. */
    method ToggleReliable()
      modifies this`reliable
      ensures reliable == !old(reliable)
    {
      reliable := !reliable;
    }

    /** The attention flag flips and the reliable flag stays. */
    method ToggleAttention()
      modifies this`attention
      ensures attention == !old(attention)
    {
      attention := !attention;
    }

    method SetNotes(text: string)
      modifies this`notes
      ensures notes == text
    {
      notes := text;
    }
  }
}
