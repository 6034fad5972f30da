/** The booking checkout (Contact.tsx): the price is read from the service's display string,
    the app keeps a 10% fee, the end time follows from the start time and the service's
    duration, and an M-Pesa step sits between the form and the stored booking. */
module Contact {
  import opened Types
  import opened Lists
  import opened Text
  import opened Money

  /** `price.replace(/\D/g, '')`: the digit characters, in order. */
  function DigitsOf(s: string): string {
    Filter(s, IsDigit)
  }

  /** The number spelled by the digits of `s` taken in order, everything else skipped; 0 when
      there are none. */
  function DigitsNumber(s: string): nat {
    if s == [] then 0
    else if IsDigit(s[|s| - 1]) then DigitsNumber(s[..|s| - 1]) * 10 + DigitValue(s[|s| - 1])
    else DigitsNumber(s[..|s| - 1])
  }

  /** Reading the digits in place is the same as stripping every non-digit and then parsing. */
  lemma {:induction false} DigitsNumberIsParsedDigits(s: string)
    ensures AllDigits(DigitsOf(s))
    ensures DigitsNumber(s) == DigitsValue(DigitsOf(s))
  {
    assert AllDigits(DigitsOf(s)) by {
      forall i | 0 <= i < |DigitsOf(s)| ensures IsDigit(DigitsOf(s)[i]) {}
    }
    if s != [] {
      var init, last := s[..|s| - 1], s[|s| - 1];
      assert s == init + [last];
      FilterConcat(init, [last], IsDigit);
      DigitsNumberIsParsedDigits(init);
      if IsDigit(last) {
        assert DigitsOf([last]) == [last];
        assert (DigitsOf(init) + [last])[..|DigitsOf(init)|] == DigitsOf(init);
      } else {
        assert DigitsOf([last]) == [];
        assert DigitsOf(init) + [] == DigitsOf(init);
      }
    }
  }

  /** `parseInt(service?.price.replace(/\D/g, '') || '0')`: the number spelled by all digits of the
      price, 0 without a service or without digits. */
  function BasePrice(service: Option<Service>): nat {
    if service.None? then 0 else DigitsNumber(service.value.price)
  }

  /** A display price such as "KES 2,000/session" is worth 2000 shillings. */
  lemma BasePriceOfDisplayPrice()
    ensures DigitsNumber("KES 2,000/session") == 2000
  {
    assert "K"[..0] == "";
    assert DigitsNumber("K") == 0;
    assert "KE"[..1] == "K";
    assert DigitsNumber("KE") == 0;
    assert "KES"[..2] == "KE";
    assert DigitsNumber("KES") == 0;
    assert "KES "[..3] == "KES";
    assert DigitsNumber("KES ") == 0;
    assert "KES 2"[..4] == "KES ";
    assert DigitsNumber("KES 2") == 2;
    assert "KES 2,"[..5] == "KES 2";
    assert DigitsNumber("KES 2,") == 2;
    assert "KES 2,0"[..6] == "KES 2,";
    assert DigitsNumber("KES 2,0") == 20;
    assert "KES 2,00"[..7] == "KES 2,0";
    assert DigitsNumber("KES 2,00") == 200;
    assert "KES 2,000"[..8] == "KES 2,00";
    assert DigitsNumber("KES 2,000") == 2000;
    assert "KES 2,000/"[..9] == "KES 2,000";
    assert DigitsNumber("KES 2,000/") == 2000;
    assert "KES 2,000/s"[..10] == "KES 2,000/";
    assert DigitsNumber("KES 2,000/s") == 2000;
    assert "KES 2,000/se"[..11] == "KES 2,000/s";
    assert DigitsNumber("KES 2,000/se") == 2000;
    assert "KES 2,000/ses"[..12] == "KES 2,000/se";
    assert DigitsNumber("KES 2,000/ses") == 2000;
    assert "KES 2,000/sess"[..13] == "KES 2,000/ses";
    assert DigitsNumber("KES 2,000/sess") == 2000;
    assert "KES 2,000/sessi"[..14] == "KES 2,000/sess";
    assert DigitsNumber("KES 2,000/sessi") == 2000;
    assert "KES 2,000/sessio"[..15] == "KES 2,000/sessi";
    assert DigitsNumber("KES 2,000/sessio") == 2000;
    assert "KES 2,000/session"[..16] == "KES 2,000/sessio";
    assert DigitsNumber("KES 2,000/session") == 2000;
  }

  /** The customer's fee split: the app keeps 10% rounded to the nearest shilling and the tasker
      the rest, so the two always add up to the price paid. */
  datatype Split = Split(totalPrice: nat, platformFee: nat, taskerAmount: nat)

  function FeeSplit(basePrice: nat): (s: Split)
    ensures s.totalPrice == basePrice
    ensures s.platformFee + s.taskerAmount == s.totalPrice
    ensures 10 * s.platformFee <= basePrice + 5 < 10 * s.platformFee + 10
  {
    var fee := TenPercent(basePrice);
    Split(basePrice, fee, basePrice - fee)
  }

  lemma FeeSplitExample()
    ensures FeeSplit(2000) == Split(2000, 200, 1800)
  {
  }

  /** `service?.durationMinutes || 60`. */
  function Duration(service: Option<Service>): int {
    if service.None? || service.value.durationMinutes == 0 then 60 else service.value.durationMinutes
  }

  /** An "HH:MM" time as the time input produces it. */
  function ParseClock(s: string): Option<(nat, nat)> {
    if |s| == 5 && s[2] == ':' && AllDigits(s[..2]) && AllDigits(s[3..])
    then Some((DigitsValue(s[..2]), DigitsValue(s[3..])))
    else None
  }

  function FormatClock(h: nat, m: nat): (r: string)
    requires h < 24 && m < 60
    ensures ParseClock(r) == Some((h, m))
  {
    var r := Pad2(h) + ":" + Pad2(m);
    assert r[..2] == Pad2(h) && r[3..] == Pad2(m);
    r
  }

  /** `calculatedEndTime`: the start time plus the duration, read on a 24-hour clock (minutes past
      midnight taken modulo one day) and printed as zero-padded HH:MM; a start time that does not
      parse yields an invalid date, printed "NaN:NaN". */
  function EndTime(startTime: string, duration: int): (r: string)
    ensures ParseClock(startTime).Some? ==>
      var (h, m) := ParseClock(startTime).value;
      ParseClock(r) == Some((MinuteOfDay(h, m, duration) / 60, MinuteOfDay(h, m, duration) % 60))
  {
    match ParseClock(startTime)
    case None => "NaN:NaN"
    case Some((h, m)) =>
      var end := MinuteOfDay(h, m, duration);
      FormatClock(end / 60, end % 60)
  }

  /** The minute of the day `duration` minutes after h:m, the day's length being 24 hours. */
  function MinuteOfDay(h: nat, m: nat, duration: int): (t: nat)
    ensures t < 1440
  {
    (h * 60 + m + duration) % 1440
  }

  /** The form's default 16:00 start with the default hour-long duration ends at 17:00. */
  lemma DefaultEndTime()
    ensures EndTime("16:00", 60) == "17:00"
  {
    assert "16:00"[..2] == "16" && "16:00"[3..] == "00";
    assert "16"[..1] == "1" && "00"[..1] == "0";
    assert AllDigits("16") && DigitsValue("16") == 16;
    assert AllDigits("00") && DigitsValue("00") == 0;
    assert ParseClock("16:00") == Some((16, 0));
    assert MinuteOfDay(16, 0, 60) == 1020;
    assert Pad2(17) == "17" && Pad2(0) == "00";
  }

  /** A late start runs past midnight: 23:30 plus 90 minutes ends at 01:00. */
  lemma EndTimeWrapsAtMidnight()
    ensures EndTime("23:30", 90) == "01:00"
  {
    assert "23:30"[..2] == "23" && "23:30"[3..] == "30";
    assert "23"[..1] == "2" && "30"[..1] == "3";
    assert AllDigits("23") && DigitsValue("23") == 23;
    assert AllDigits("30") && DigitsValue("30") == 30;
    assert ParseClock("23:30") == Some((23, 30));
    assert MinuteOfDay(23, 30, 90) == 60;
    assert Pad2(1) == "01" && Pad2(0) == "00";
  }

  /** The checkout form. It has no e-mail or session-type input, so those keep their initial
      values ("" and In-Person). */
  datatype ContactForm = ContactForm(
    name: string, email: string, phone: string, message: string,
    date: string, startTime: string, sessionType: SessionType)

  function InitialForm(today: string): ContactForm {
    ContactForm("", "", "", "", today, "16:00", InPerson)
  }

  /** `service?.id || 'general'`. */
  function ServiceIdOrGeneral(service: Option<Service>): string {
    if service.None? || service.value.id == "" then "general" else service.value.id
  }

  /** `service?.title || 'General Inquiry'`. */
  function ServiceTitleOrGeneral(service: Option<Service>): string {
    if service.None? || service.value.title == "" then "General Inquiry" else service.value.title
  }

  /** The booking `handleConfirmMpesa` sends to the store. */
  function ContactBooking(id: string, createdAt: string, service: Option<Service>, form: ContactForm,
                          targetProviderId: Option<string>, providerName: Option<string>): (b: Booking)
    ensures b.status == BookingStatus.Requested && b.paymentStatus == PaidToEscrow
    ensures b.providerId == targetProviderId && b.providerName == providerName
    ensures b.totalPrice == BasePrice(service)
    ensures b.platformFee + b.taskerAmount == b.totalPrice
    ensures b.platformFee == TenPercent(BasePrice(service))
    ensures b.endTime == Some(EndTime(form.startTime, Duration(service)))
    ensures b.serviceId == ServiceIdOrGeneral(service) && b.serviceTitle == ServiceTitleOrGeneral(service)
    ensures b.customerName == form.name && b.customerPhone == Some(form.phone)
    ensures b.date == form.date && b.startTime == Some(form.startTime)
  {
    var split := FeeSplit(BasePrice(service));
    Booking(
      id,
      ServiceIdOrGeneral(service), ServiceTitleOrGeneral(service),
      form.name, form.email, Some(form.phone), targetProviderId, providerName, form.message,
      BookingStatus.Requested, PaidToEscrow, form.date, Some(form.startTime),
      Some(EndTime(form.startTime, Duration(service))), form.sessionType, createdAt,
      split.totalPrice, split.platformFee, split.taskerAmount, None)
  }

  datatype PayStep = Details | Mpesa | Success

  /** The inputs marked `required` on the details form all hold a value. */
  predicate RequiredFilled(form: ContactForm) {
    form.name != "" && form.phone != "" && form.date != "" && form.startTime != ""
  }

  /** A booking reaches the store only from the M-Pesa step, which the details form opens only
      with every required input filled: the booking's name, phone, date and start time are never
      empty. */
  lemma ConfirmedBookingHasDetails(id: string, createdAt: string, service: Option<Service>, form: ContactForm,
                                   targetProviderId: Option<string>, providerName: Option<string>)
    requires RequiredFilled(form)
    ensures var b := ContactBooking(id, createdAt, service, form, targetProviderId, providerName);
      b.customerName != "" && b.customerPhone == Some(form.phone) && form.phone != ""
      && b.date != "" && b.startTime.Some? && b.startTime.value != ""
  {
  }

  /** The checkout screen's state. */
  class Checkout {
    var payStep: PayStep
    var form: ContactForm

    /** Past the details step the required inputs are filled. */
    predicate Valid()
      reads this
    {
      payStep != Details ==> RequiredFilled(form)
    }

    constructor (today: string)
      ensures payStep == Details && form == InitialForm(today) && Valid()
    {
      payStep := Details;
      form := InitialForm(today);
    }

    /** Typing in the form; the e-mail and session type have no input. */
    method EditForm(name: string, phone: string, message: string, date: string, startTime: string)
      requires payStep == Details
      modifies this`form
      ensures Valid()
      ensures form == old(form).(name := name, phone := phone, message := message, date := date, startTime := startTime)
    {
      form := form.(name := name, phone := phone, message := message, date := date, startTime := startTime);
    }

    /** `handleStartPayment`: the form's submit opens the M-Pesa prompt. The browser submits the
        form only when the required name, number, date and time inputs hold a value; otherwise
        the details step stays open. */
    method StartPayment()
      requires payStep == Details
      modifies this`payStep
      ensures Valid()
      ensures payStep == Mpesa <==> RequiredFilled(form)
      ensures payStep == Details <==> !RequiredFilled(form)
    {
      if RequiredFilled(form) {
        payStep := Mpesa;
      }
    }

    /** "Cancel Transaction" returns to the form with its contents kept. */
    method CancelPayment()
      requires payStep == Mpesa && Valid()
      modifies this`payStep
      ensures payStep == Details && Valid()
    {
      payStep := Details;
    }

    /** `handleConfirmMpesa`, the delay collapsed: the only step that emits a booking. */
    method ConfirmPayment(id: string, createdAt: string, service: Option<Service>,
                          targetProviderId: Option<string>, providerName: Option<string>) returns (b: Booking)
      requires payStep == Mpesa && Valid()
      modifies this`payStep
      ensures payStep == Success && Valid()
      ensures b == ContactBooking(id, createdAt, service, form, targetProviderId, providerName)
      ensures b.customerName != "" && b.date != "" && b.startTime.Some? && b.startTime.value != ""
    {
      payStep := Success;
      b := ContactBooking(id, createdAt, service, form, targetProviderId, providerName);
      ConfirmedBookingHasDetails(id, createdAt, service, form, targetProviderId, providerName);
    }
  }
}
