/** The customer's bookings page: the list of the user's bookings, the
    service catalogue used to describe them, the provider flag, and the
    confirm-gated "pay" and "cancel" actions that rewrite the list. */
module Bookings {
  import opened Common

  datatype Booking = Booking(id: string, service: string, bookingTime: string, status: string, paymentStatus: string)

  datatype Service = Service(id: string, name: string, description: string, price: string, location: string)

  const CompletedStatus: string := "completed"
  const PendingPayment: string := "pending"
  const PaidPayment: string := "paid"

  /** The prompt answers that let an action through. */
  const ConfirmPaymentAnswer: string := "confirm"
  const ConfirmCancelAnswer: string := "cancel"

  const BookingsFetchError: string := "Failed to fetch bookings. Please try again."
  const ServicesFetchError: string := "Failed to fetch services. Please try again."
  const ProviderCheckError: string := "Failed to determine provider status. Please try again."

  /** No service before index `k` has id `serviceId`. */
  predicate NoneBefore(services: seq<Service>, serviceId: string, k: int)
    requires 0 <= k <= |services|
  {
    forall j :: 0 <= j < k ==> services[j].id != serviceId
  }

  /** `services.find(service => service._id === serviceId)`. */
  function FindServiceById(services: seq<Service>, serviceId: string): (r: Option<Service>)
    ensures r.None? <==> NoneBefore(services, serviceId, |services|)
    ensures r.Some? ==> exists i :: 0 <= i < |services| && services[i] == r.value && r.value.id == serviceId && NoneBefore(services, serviceId, i)
  {
    if |services| == 0 then None
    else if services[0].id == serviceId then
      assert NoneBefore(services, serviceId, 0);
      Some(services[0])
    else
      var r := FindServiceById(services[1..], serviceId);
      if r.Some? then
        var i :| 0 <= i < |services[1..]| && services[1..][i] == r.value && r.value.id == serviceId && NoneBefore(services[1..], serviceId, i);
        assert services[i + 1] == r.value && NoneBefore(services, serviceId, i + 1);
        r
      else
        r
  }

  /** The "Pay Now" button: the booking is completed and still awaiting payment. */
  predicate PayNowOffered(b: Booking)
  {
    b.status == CompletedStatus && b.paymentStatus == PendingPayment
  }

  /** One booking after a successful payment of `bookingId`. */
  function PaidIfMatching(b: Booking, bookingId: string): Booking
  {
    if b.id == bookingId then b.(paymentStatus := PaidPayment) else b
  }

  /** The state update after a successful payment:
      `prev.map(b => b._id === bookingId ? { ...b, paymentStatus: 'paid' } : b)`. */
  function MarkPaid(bs: seq<Booking>, bookingId: string): (r: seq<Booking>)
    ensures |r| == |bs|
    ensures forall i :: 0 <= i < |bs| && bs[i].id == bookingId ==> r[i] == bs[i].(paymentStatus := PaidPayment)
    ensures forall i :: 0 <= i < |bs| && bs[i].id != bookingId ==> r[i] == bs[i]
  {
    if bs == [] then [] else [PaidIfMatching(bs[0], bookingId)] + MarkPaid(bs[1..], bookingId)
  }

  /** The state update after a successful cancellation:
      `prev.filter(b => b._id !== bookingId)`. */
  function RemoveById(bs: seq<Booking>, bookingId: string): (r: seq<Booking>)
    ensures |r| <= |bs|
    ensures forall b :: b in r <==> b in bs && b.id != bookingId
  {
    if bs == [] then []
    else if bs[0].id == bookingId then RemoveById(bs[1..], bookingId)
    else [bs[0]] + RemoveById(bs[1..], bookingId)
  }

  /** Cancelling keeps the surviving bookings in their original order: the
      filter distributes over concatenation. */
  lemma {:induction false} RemoveByIdConcat(a: seq<Booking>, b: seq<Booking>, bookingId: string)
    ensures RemoveById(a + b, bookingId) == RemoveById(a, bookingId) + RemoveById(b, bookingId)
  {
    if a == [] {
      assert a + b == b;
    } else {
      assert (a + b)[1..] == a[1..] + b;
      RemoveByIdConcat(a[1..], b, bookingId);
    }
  }

  /** A list with no booking of that id is left as it is. */
  lemma {:induction false} RemoveAbsentIsIdentity(bs: seq<Booking>, bookingId: string)
    requires forall i :: 0 <= i < |bs| ==> bs[i].id != bookingId
    ensures RemoveById(bs, bookingId) == bs
  {
    if bs != [] {
      RemoveAbsentIsIdentity(bs[1..], bookingId);
    }
  }

  /** Cancelling the same id twice changes nothing the second time. */
  lemma RemoveByIdIdempotent(bs: seq<Booking>, bookingId: string)
    ensures RemoveById(RemoveById(bs, bookingId), bookingId) == RemoveById(bs, bookingId)
  {
    var r := RemoveById(bs, bookingId);
    forall i | 0 <= i < |r| ensures r[i].id != bookingId {
      assert r[i] in r;
    }
    RemoveAbsentIsIdentity(r, bookingId);
  }

  /** Exactly the bookings of that id are removed: the removed count is the
      number of matching bookings. */
  function CountId(bs: seq<Booking>, bookingId: string): (n: nat)
    ensures n <= |bs|
    ensures n == 0 <==> forall i :: 0 <= i < |bs| ==> bs[i].id != bookingId
  {
    if bs == [] then 0 else (if bs[0].id == bookingId then 1 else 0) + CountId(bs[1..], bookingId)
  }

  lemma {:induction false} RemoveByIdLength(bs: seq<Booking>, bookingId: string)
    ensures |RemoveById(bs, bookingId)| == |bs| - CountId(bs, bookingId)
  {
    if bs != [] {
      RemoveByIdLength(bs[1..], bookingId);
    }
  }

  /** After a successful payment of a booking, "Pay Now" is no longer offered
      for it, and is offered for every other booking exactly as before. */
  lemma PaymentWithdrawsPayNow(bs: seq<Booking>, bookingId: string)
    ensures forall i :: 0 <= i < |bs| && bs[i].id == bookingId ==> !PayNowOffered(MarkPaid(bs, bookingId)[i])
    ensures forall i :: 0 <= i < |bs| && bs[i].id != bookingId ==> PayNowOffered(MarkPaid(bs, bookingId)[i]) == PayNowOffered(bs[i])
  {
  }

  /** Paying keeps every booking's id, service, time and status. */
  lemma PaymentKeepsOtherFields(bs: seq<Booking>, bookingId: string)
    ensures forall i :: 0 <= i < |bs| ==>
      var r := MarkPaid(bs, bookingId)[i];
      r.id == bs[i].id && r.service == bs[i].service && r.bookingTime == bs[i].bookingTime && r.status == bs[i].status
  {
  }

  /** What a rendered booking card shows: the booking, its service if the
      catalogue has it, and whether "Pay Now" is offered. */
  datatype Card = Card(booking: Booking, service: Option<Service>, payNow: bool)

  function Cards(bs: seq<Booking>, services: seq<Service>): (r: seq<Card>)
    ensures |r| == |bs|
    ensures forall i :: 0 <= i < |bs| ==> r[i].booking == bs[i]
    ensures forall i :: 0 <= i < |bs| ==> r[i].service == FindServiceById(services, bs[i].service)
    ensures forall i :: 0 <= i < |bs| ==> (r[i].payNow <==> PayNowOffered(bs[i]))
  {
    if bs == [] then []
    else [Card(bs[0], FindServiceById(services, bs[0].service), PayNowOffered(bs[0]))] + Cards(bs[1..], services)
  }

  datatype View =
    | LoadingView
    | ErrorView(message: string)
    | RequestsView            // a provider sees the incoming requests instead
    | NoBookingsView
    | BookingCards(cards: seq<Card>)

  class BookingsPage {
    var bookings: seq<Booking>
    var services: seq<Service>
    var isProvider: bool
    var error: Option<string>
    var loading: bool
    // Whether each of the two list fetches issued at mount has settled.
    ghost var bookingsSettled: bool
    ghost var servicesSettled: bool

    /** The page shows "Loading" until one of the two list fetches settles. */
    ghost predicate Valid()
      reads this
    {
      loading <==> !bookingsSettled && !servicesSettled
    }

    constructor ()
      ensures Valid() && !bookingsSettled && !servicesSettled
      ensures bookings == [] && services == [] && !isProvider && error == None && loading
    {
      bookings, services, isProvider, error, loading := [], [], false, None, true;
      bookingsSettled, servicesSettled := false, false;
    }

    /** `fetchBookings` settles. */
    method BookingsFetched(result: Fetch<seq<Booking>>)
      requires Valid() && !bookingsSettled
      modifies this
      ensures Valid() && bookingsSettled && servicesSettled == old(servicesSettled) && !loading
      ensures bookings == (if result.Fetched? then result.value else old(bookings))
      ensures error == (if result.Fetched? then old(error) else Some(BookingsFetchError))
      ensures services == old(services) && isProvider == old(isProvider)
    {
      if result.Fetched? {
        bookings := result.value;
      } else {
        error := Some(BookingsFetchError);
      }
      loading := false;
      bookingsSettled := true;
    }

    /** `fetchServices` settles. */
    method ServicesFetched(result: Fetch<seq<Service>>)
      requires Valid() && !servicesSettled
      modifies this
      ensures Valid() && servicesSettled && bookingsSettled == old(bookingsSettled) && !loading
      ensures services == (if result.Fetched? then result.value else old(services))
      ensures error == (if result.Fetched? then old(error) else Some(ServicesFetchError))
      ensures bookings == old(bookings) && isProvider == old(isProvider)
    {
      if result.Fetched? {
        services := result.value;
      } else {
        error := Some(ServicesFetchError);
      }
      loading := false;
      servicesSettled := true;
    }

    /** `checkIsProvider` settles; it does not touch `loading`. */
    method ProviderChecked(result: Fetch<User>)
      requires Valid()
      modifies this`isProvider, this`error
      ensures Valid()
      ensures isProvider == (if result.Fetched? then result.value.isProvider else old(isProvider))
      ensures error == (if result.Fetched? then old(error) else Some(ProviderCheckError))
    {
      if result.Fetched? {
        isProvider := result.value.isProvider;
      } else {
        error := Some(ProviderCheckError);
      }
    }

    /** `handlePayment(bookingId)`, given the prompt's answer and, when the
        request is sent, its outcome. */
    method HandlePayment(bookingId: string, answer: string, outcome: HttpOutcome) returns (requested: bool)
      modifies this`bookings
      ensures requested <==> answer == ConfirmPaymentAnswer
      ensures bookings == (if requested && outcome.Ok? then MarkPaid(old(bookings), bookingId) else old(bookings))
    {
      requested := answer == ConfirmPaymentAnswer;
      if requested {
        match outcome {
          case Ok(_) =>
            bookings := MarkPaid(bookings, bookingId);
          case Failed =>
        }
      }
    }

    /** `handleCancelBooking(bookingId)`, given the prompt's answer and, when
        the request is sent, its outcome. */
    method HandleCancelBooking(bookingId: string, answer: string, outcome: HttpOutcome) returns (requested: bool)
      modifies this`bookings
      ensures requested <==> answer == ConfirmCancelAnswer
      ensures bookings == (if requested && outcome.Ok? then RemoveById(old(bookings), bookingId) else old(bookings))
    {
      requested := answer == ConfirmCancelAnswer;
      if requested {
        match outcome {
          case Ok(_) =>
            bookings := RemoveById(bookings, bookingId);
          case Failed =>
        }
      }
    }

    /** What the page renders: loading first, then the error, then content. */
    function Render(): (v: View)
      reads this
      ensures v == LoadingView <==> loading
      ensures v.ErrorView? <==> !loading && error.Some?
      ensures v.ErrorView? ==> v.message == error.value
      ensures v.RequestsView? <==> !loading && error.None? && isProvider
      ensures v == NoBookingsView <==> !loading && error.None? && !isProvider && |bookings| == 0
      ensures v.BookingCards? <==> !loading && error.None? && !isProvider && |bookings| > 0
      ensures v.BookingCards? ==> v.cards == Cards(bookings, services) && |v.cards| == |bookings|
      ensures v.BookingCards? ==> forall i :: 0 <= i < |bookings| ==> v.cards[i].booking == bookings[i]
      ensures v.BookingCards? ==> forall i :: 0 <= i < |bookings| ==> v.cards[i].service == FindServiceById(services, bookings[i].service)
      ensures v.BookingCards? ==> forall i :: 0 <= i < |bookings| ==> (v.cards[i].payNow <==> PayNowOffered(bookings[i]))
    {
      if loading then LoadingView
      else if error.Some? then ErrorView(error.value)
      else if isProvider then RequestsView
      else if |bookings| == 0 then NoBookingsView
      else BookingCards(Cards(bookings, services))
    }
  }

  /** A client run: once the bookings arrive the page leaves "Loading", and a
      confirmed, successful payment withdraws that booking's "Pay Now". */
  method PaymentScenario(b: Booking)
    requires PayNowOffered(b)
  {
    var page := new BookingsPage();
    page.BookingsFetched(Fetched([b]));
    assert page.Render() == BookingCards(Cards([b], []));
    var sent := page.HandlePayment(b.id, ConfirmPaymentAnswer, Ok(200));
    assert page.bookings == [b.(paymentStatus := PaidPayment)];
    assert !page.Render().cards[0].payNow;
    var again := page.HandlePayment(b.id, "no", Ok(200));
    assert !again && page.bookings == [b.(paymentStatus := PaidPayment)];
  }
}
