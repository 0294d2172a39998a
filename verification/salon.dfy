/** Salon (salon_section.py): the stylist and service selectors, booking an
    appointment, and recording a completed service with its stylist commission. */
module Salon {
  import opened Base
  import opened Text
  import opened Tables

  predicate IsSalonStylist(e: Employee)
  {
    e.section == "Salon" && e.isActive
  }

  function EmployeeName(e: Employee): string { e.name }

  /** `get_stylists`: "id: name" for each active employee of the Salon section, or
      the single placeholder. */
  function Stylists(employees: seq<Employee>): (choices: seq<string>)
    ensures (forall i :: 0 <= i < |employees| ==> !IsSalonStylist(employees[i])) ==>
              choices == ["No stylists available"]
    ensures forall i :: 0 <= i < |employees| && IsSalonStylist(employees[i]) ==>
              SelectorLabel(i + 1, employees[i].name) in choices
    ensures forall l :: l in choices ==> ReadsBackAsRow(employees, IsSalonStylist, l)
    ensures SelectorLabels(employees, IsSalonStylist, EmployeeName) != [] ==>
              choices == SelectorLabels(employees, IsSalonStylist, EmployeeName)
  {
    SelectorChoices(employees, IsSalonStylist, EmployeeName, "No stylists available")
  }

  /** The text after "id: " in a service selector entry: "name ($price)", where
      `priceText` is Python's rendering of the price. */
  function ServiceText(priceText: real -> string, s: SalonService): string
  {
    s.name + " ($" + priceText(s.price) + ")"
  }

  predicate AnyRow<T>(r: T) { true }

  /** The entry text of every service, for a given price rendering. */
  function ServiceTexts(priceText: real -> string): SalonService -> string
  {
    (s: SalonService) => ServiceText(priceText, s)
  }

  /** `get_services`: "id: name ($price)" for every service, or the single placeholder. */
  function Services(services: seq<SalonService>, priceText: real -> string): (choices: seq<string>)
    ensures |services| == 0 ==> choices == ["No services available"]
    ensures forall i :: 0 <= i < |services| ==>
              SelectorLabel(i + 1, ServiceText(priceText, services[i])) in choices
    ensures forall l :: l in choices ==> ReadsBackAsRow(services, AnyRow, l)
    ensures |services| > 0 ==> choices == SelectorLabels(services, AnyRow, ServiceTexts(priceText))
  {
    SelectorLabelsExact(services, AnyRow, ServiceTexts(priceText));
    SelectorChoices(services, AnyRow, ServiceTexts(priceText), "No services available")
  }

  /** `service_text.split(':')[1].split('(')[0].strip()` when the text holds a ':',
      else "General". */
  function ServiceTypeOf(serviceText: string): string
  {
    if ':' in serviceText then Strip(Before(Before(After(serviceText, ':'), ':'), '(')) else "General"
  }

  /** The part of a selector entry after its first ':' is the entry's text behind a
      single space. */
  lemma AfterSelectorColon(id: nat, text: string)
    ensures ':' in SelectorLabel(id, text)
    ensures After(SelectorLabel(id, text), ':') == " " + text
  {
    var digits := NatToString(id);
    NoColonInDigits(id);
    assert SelectorLabel(id, text) == digits + (": " + text);
    IndexOfAfterPrefix(digits, ": " + text, ':');
  }

  /** Booking from a service selector entry stores the service's name, when the name
      has no ':' or '(' and no surrounding whitespace and the price text has no ':'. */
  lemma ServiceTypeRoundTrip(id: nat, name: string, price: string)
    requires ':' !in name && '(' !in name && ':' !in price
    requires |name| == 0 || (!IsSpace(name[0]) && !IsSpace(name[|name| - 1]))
    ensures ServiceTypeOf(SelectorLabel(id, name + " ($" + price + ")")) == name
  {
    var padded := " " + name + " ";
    var rest := "($" + price + ")";
    var tail := padded + rest;
    assert " " + (name + " ($" + price + ")") == tail;
    AfterSelectorColon(id, name + " ($" + price + ")");
    assert ':' !in padded && ':' !in rest;
    assert Before(tail, ':') == tail;
    assert '(' !in padded && '(' in rest && rest[0] == '(';
    IndexOfAfterPrefix(padded, rest, '(');
    assert Before(tail, '(') == padded;
    StripPadded(name);
  }

  /** `price * (commission_rate / 100)`. */
  function CommissionFor(price: real, commissionRate: real): real
  {
    price * (commissionRate / 100.0)
  }

  /** A rate between 0 and 100 gives a commission between 0 and the price, growing
      with the rate. */
  lemma CommissionBounds(price: real, r1: real, r2: real)
    requires price >= 0.0 && 0.0 <= r1 <= r2 <= 100.0
    ensures 0.0 <= CommissionFor(price, r1) <= CommissionFor(price, r2) <= price
  {
    var p1 := r1 / 100.0;
    var p2 := r2 / 100.0;
    assert 0.0 <= p1 <= p2 <= 1.0;
    assert price * p1 <= price * p2 by {
      assert price * (p2 - p1) >= 0.0;
    }
    assert price * p2 <= price * 1.0 by {
      assert price * (1.0 - p2) >= 0.0;
    }
  }

  /** Worked example: an 80.00 service at an 18% rate earns 14.40. */
  lemma CommissionExample()
    ensures CommissionFor(80.0, 18.0) == 14.4
  {
  }

  /** `book_appointment`: get or create the customer by phone; a stylist entry whose
      id does not parse aborts with only that written. Otherwise one pending
      appointment is inserted, with the stylist id or None and the service type. */
  method BookAppointment(db: Db, phone: string, date: string, time: string,
                         stylistText: string, serviceText: string, now: Instant)
    returns (appointmentId: Option<nat>)
    requires db.Valid()
    modifies db`customers, db`appointments
    ensures db.Valid()
    ensures CustomerIndex(old(db.customers), phone).Some? ==> db.customers == old(db.customers)
    ensures CustomerIndex(old(db.customers), phone).None? ==>
              db.customers == old(db.customers) + [WalkInCustomer(phone, now.date)]
    ensures CustomerIndex(db.customers, phone).Some?
    ensures var stylist := ParseSelection(stylistText);
            if stylist.Malformed? then
              appointmentId.None? && db.appointments == old(db.appointments)
            else
              && appointmentId == Some(|old(db.appointments)| + 1)
              && db.appointments == old(db.appointments)
                 + [Appointment(CustomerIndex(db.customers, phone).value + 1,
                                if stylist.Selected? then Some(stylist.id as int) else None,
                                date, time, ServiceTypeOf(serviceText), "pending")]
  {
    var customerId := db.GetOrCreateCustomer(phone, now.date);
    var stylist := ParseSelection(stylistText);
    if stylist.Malformed? {
      return None;
    }
    var stylistId := if stylist.Selected? then Some(stylist.id as int) else None;
    var serviceType := ServiceTypeOf(serviceText);
    db.appointments := db.appointments + [Appointment(customerId, stylistId, date, time, serviceType, "pending")];
    appointmentId := Some(|db.appointments|);
    assert CustomerIndex(db.customers, phone).value + 1 == customerId;
  }

  /** What `int(entry) if entry else None` makes of the rating entry. */
  datatype RatingEntry = NoRating | Rating(value: int) | BadRating

  /** `record_service` writes only when all of these hold: the phone is a customer's,
      both selections name ids, the service exists and the rating entry is empty or
      an integer. */
  predicate RecordsService(customers: seq<Customer>, services: seq<SalonService>, phone: string,
                           stylistText: string, serviceText: string, rating: RatingEntry)
  {
    var service := ParseSelection(serviceText);
    && CustomerIndex(customers, phone).Some?
    && ParseSelection(stylistText).Selected?
    && service.Selected? && 1 <= service.id <= |services|
    && !rating.BadRating?
  }

  /** `record_service`: an unknown customer, a missing stylist or service selection,
      a selection or rating that does not parse, or an unknown service writes
      nothing; no customer is ever created. Otherwise one service record and one
      'Salon' commission row for the stylist, carrying the same commission. */
  method RecordService(db: Db, phone: string, stylistText: string, serviceText: string,
                       rating: RatingEntry, review: string, now: Instant)
    returns (recordId: Option<nat>)
    modifies db`serviceRecords, db`commissions
    ensures recordId.Some? <==>
              RecordsService(db.customers, db.salonServices, phone, stylistText, serviceText, rating)
    ensures recordId.None? ==>
              db.serviceRecords == old(db.serviceRecords) && db.commissions == old(db.commissions)
    ensures recordId.Some? ==>
              var stylistId := ParseSelection(stylistText).id;
              var serviceId := ParseSelection(serviceText).id;
              var service := db.salonServices[serviceId - 1];
              var commission := CommissionFor(service.price, service.commissionRate);
              && recordId == Some(|old(db.serviceRecords)| + 1)
              && db.serviceRecords == old(db.serviceRecords)
                 + [ServiceRecord(CustomerIndex(db.customers, phone).value + 1, stylistId, serviceId, now,
                                  service.price, commission,
                                  if rating.Rating? then Some(rating.value) else None, review)]
              && db.commissions == old(db.commissions)
                 + [Commission(stylistId, now.date, "Salon", commission, false)]
  {
    var customer := CustomerIndex(db.customers, phone);
    if customer.None? {
      return None;
    }
    var stylist := ParseSelection(stylistText);
    if !stylist.Selected? {
      return None;
    }
    var serviceSel := ParseSelection(serviceText);
    if !serviceSel.Selected? {
      return None;
    }
    if !(1 <= serviceSel.id <= |db.salonServices|) {
      return None;
    }
    var service := db.salonServices[serviceSel.id - 1];
    var price := service.price;
    var commission := CommissionFor(price, service.commissionRate);
    if rating.BadRating? {
      return None;
    }
    var stored := if rating.Rating? then Some(rating.value) else None;
    db.serviceRecords := db.serviceRecords
      + [ServiceRecord(customer.value + 1, stylist.id, serviceSel.id, now, price, commission, stored, review)];
    db.commissions := db.commissions + [Commission(stylist.id, now.date, "Salon", commission, false)];
    recordId := Some(|db.serviceRecords|);
    assert ParseSelection(stylistText).id == stylist.id;
    assert ParseSelection(serviceText).id == serviceSel.id;
    assert CustomerIndex(db.customers, phone).value == customer.value;
  }
}
