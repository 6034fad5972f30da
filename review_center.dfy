/** The public review wall (ReviewCenter.tsx): the form a customer fills in and the review it
    turns into. */
module ReviewCenter {
  import opened Types
  import opened Lists

  function HasId(id: string): Service -> bool {
    (s: Service) => s.id == id
  }

  /** The service the form starts on: the first service's id, or none. */
  function FirstServiceId(services: seq<Service>): (r: string)
    ensures services == [] ==> r == ""
    ensures services != [] ==> r == services[0].id
  {
    if services == [] then "" else services[0].id
  }

  /** `service?.title || 'Unknown Service'`: the title of the first service with the chosen id,
      or the fallback when there is none or its title is empty. */
  function TitleFor(services: seq<Service>, serviceId: string): (r: string)
    ensures r != ""
    ensures var k := Find(services, HasId(serviceId));
      && (k >= 0 && services[k].title != "" ==> r == services[k].title)
      && (k < 0 || services[k].title == "" ==> r == "Unknown Service")
  {
    var k := Find(services, HasId(serviceId));
    if k >= 0 && services[k].title != "" then services[k].title else "Unknown Service"
  }

  /** With unique service ids, a review names exactly the service it was written for. */
  lemma TitleNamesTheService(services: seq<Service>, j: nat)
    requires j < |services| && services[j].title != ""
    requires forall a, b :: 0 <= a < b < |services| ==> services[a].id != services[b].id
    ensures TitleFor(services, services[j].id) == services[j].title
  {
    var k := Find(services, HasId(services[j].id));
    assert HasId(services[j].id)(services[j]);
    assert k >= 0 && services[k].id == services[j].id;
  }

  /** A review submitted without choosing a service names the first service of the list (or
      "Unknown Service" when it has no title), and with no services at all "Unknown Service". */
  lemma UntouchedFormNamesFirstService(services: seq<Service>)
    ensures services != [] && services[0].title != "" ==> TitleFor(services, FirstServiceId(services)) == services[0].title
    ensures services == [] ==> TitleFor(services, FirstServiceId(services)) == "Unknown Service"
  {
    if services != [] {
      assert HasId(services[0].id)(services[0]);
    }
  }

  /** The star ratings the form offers. */
  predicate IsRating(r: int) {
    1 <= r <= 5
  }

  /** Star `num` is drawn filled when the rating reaches it: a rating of `r` fills exactly the
      first `r` stars. */
  predicate StarFilled(rating: int, num: int) {
    rating >= num
  }

  lemma FilledStarsAreTheRating(rating: int)
    requires IsRating(rating)
    ensures forall num :: 1 <= num <= 5 ==> (StarFilled(rating, num) <==> num <= rating)
    ensures StarFilled(rating, 1)
  {
  }

  class ReviewForm {
    const services: seq<Service>
    var isOpen: bool
    var name: string
    var serviceId: string
    var rating: int
    var comment: string

    predicate Valid()
      reads this
    {
      IsRating(rating)
    }

    /** The form starts closed, on the first service, at five stars. */
    constructor (services: seq<Service>)
      ensures this.services == services && Valid()
      ensures !isOpen && name == "" && comment == "" && rating == 5 && serviceId == FirstServiceId(services)
    {
      this.services := services;
      isOpen := false;
      name := "";
      serviceId := FirstServiceId(services);
      rating := 5;
      comment := "";
    }

    method ToggleOpen()
      modifies this`isOpen
      ensures isOpen == !old(isOpen)
    {
      isOpen := !isOpen;
    }

    method SetName(value: string)
      modifies this`name
      ensures name == value
    {
      name := value;
    }

    method ChooseService(id: string)
      modifies this`serviceId
      ensures serviceId == id
    {
      serviceId := id;
    }

    /** One of the five star buttons. */
    method ChooseRating(num: int)
      requires IsRating(num)
      modifies this`rating
      ensures rating == num && Valid()
    {
      rating := num;
    }

    method SetComment(value: string)
      modifies this`comment
      ensures comment == value
    {
      comment := value;
    }

    /** `handleSubmit`. The name and comment fields are required, so only a form with both filled
        in is submitted. The review is unverified and not featured, carries the chosen service's
        title, and the form closes and starts over on the first service at five stars. */
    method Submit(freshId: string, today: string) returns (review: Option<Review>)
      requires Valid()
      modifies this
      ensures Valid()
      ensures review.None? <==> old(name) == "" || old(comment) == ""
      ensures review.None? ==> name == old(name) && comment == old(comment) && rating == old(rating)
                               && serviceId == old(serviceId) && isOpen == old(isOpen)
      ensures review.Some? ==>
        && review.value == Review(freshId, old(serviceId), TitleFor(services, old(serviceId)), old(name),
                                  old(rating), old(comment), today, false, false)
        && IsRating(review.value.rating)
        && !isOpen && name == "" && comment == "" && rating == 5 && serviceId == FirstServiceId(services)
    {
      if name == "" || comment == "" {
        return None;
      }
      review := Some(Review(freshId, serviceId, TitleFor(services, serviceId), name, rating, comment,
                            today, false, false));
      isOpen := false;
      name, serviceId, rating, comment := "", FirstServiceId(services), 5, "";
    }
  }
}
