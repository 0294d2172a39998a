/** Customer ledger adjustments (customer_section.py): registration as an upsert
    by phone, relative loyalty-point and wallet increments, and the info lookup. */
module Customers {
  import opened Base
  import opened Tables

  predicate HasPhone(c: Customer, phone: string) { c.phone == phone }

  /** The number of customers with the phone. */
  function PhoneCount(customers: seq<Customer>, phone: string): nat
  {
    Count(customers, (c: Customer) => HasPhone(c, phone))
  }

  /** Under the UNIQUE phone column a phone belongs to at most one customer, and to
      exactly one when the lookup finds it. */
  lemma {:induction false} UniquePhoneCount(customers: seq<Customer>, phone: string)
    requires Unique(customers, PhoneOf)
    ensures PhoneCount(customers, phone) == (if CustomerIndex(customers, phone).Some? then 1 else 0)
    decreases |customers|
  {
    if |customers| > 0 {
      var init := customers[..|customers| - 1];
      var last := customers[|customers| - 1];
      assert forall i :: 0 <= i < |init| ==> init[i] == customers[i];
      assert Unique(init, PhoneOf);
      UniquePhoneCount(init, phone);
      if last.phone == phone {
        assert forall i :: 0 <= i < |init| ==> init[i].phone != phone;
      }
    }
  }

  /** The row `register_customer` inserts for a new phone. */
  function RegisteredCustomer(name: string, phone: string, birthdate: string, today: Date): (c: Customer)
    ensures c.phone == phone && c.loyaltyPoints == 0 && c.walletBalance == 0.0 && c.totalSpent == 0.0
    ensures c.registrationDate == Some(today) && c.lastVisitDate.None?
  {
    Customer(name, phone, Some(birthdate), 0, 0.0, Some(today), None, 0.0)
  }

  /** `UPDATE customers SET loyalty_points = loyalty_points + ? WHERE phone = ?`. */
  function AddPointsTo(customers: seq<Customer>, phone: string, points: int): seq<Customer>
  {
    UpdateWhere(customers, (c: Customer) => HasPhone(c, phone),
                (c: Customer) => c.(loyaltyPoints := c.loyaltyPoints + points))
  }

  /** `UPDATE customers SET wallet_balance = wallet_balance + ? WHERE phone = ?`. */
  function AddToWalletOf(customers: seq<Customer>, phone: string, amount: real): seq<Customer>
  {
    UpdateWhere(customers, (c: Customer) => HasPhone(c, phone),
                (c: Customer) => c.(walletBalance := c.walletBalance + amount))
  }

  /** Adding points touches only the loyalty points of the customer with the phone;
      an unknown phone changes nothing. */
  lemma AddPointsEffect(customers: seq<Customer>, phone: string, points: int)
    ensures var r := AddPointsTo(customers, phone, points);
            && |r| == |customers|
            && (forall i :: 0 <= i < |customers| && customers[i].phone != phone ==> r[i] == customers[i])
            && (forall i :: 0 <= i < |customers| && customers[i].phone == phone ==>
                  r[i] == customers[i].(loyaltyPoints := customers[i].loyaltyPoints + points))
            && (CustomerIndex(customers, phone).None? ==> r == customers)
  {
  }

  /** Adding to the wallet touches only the balance of the customer with the phone;
      an unknown phone changes nothing. */
  lemma AddToWalletEffect(customers: seq<Customer>, phone: string, amount: real)
    ensures var r := AddToWalletOf(customers, phone, amount);
            && |r| == |customers|
            && (forall i :: 0 <= i < |customers| && customers[i].phone != phone ==> r[i] == customers[i])
            && (forall i :: 0 <= i < |customers| && customers[i].phone == phone ==>
                  r[i] == customers[i].(walletBalance := customers[i].walletBalance + amount))
            && (CustomerIndex(customers, phone).None? ==> r == customers)
  {
  }

  /** The increments are relative: two additions are one addition of the sum. */
  lemma IncrementsAccumulate(customers: seq<Customer>, phone: string, p1: int, p2: int, a1: real, a2: real)
    ensures AddPointsTo(AddPointsTo(customers, phone, p1), phone, p2) == AddPointsTo(customers, phone, p1 + p2)
    ensures AddToWalletOf(AddToWalletOf(customers, phone, a1), phone, a2) == AddToWalletOf(customers, phone, a1 + a2)
  {
    var p := AddPointsTo(AddPointsTo(customers, phone, p1), phone, p2);
    var q := AddPointsTo(customers, phone, p1 + p2);
    assert forall i :: 0 <= i < |customers| ==> p[i] == q[i];
    var w := AddToWalletOf(AddToWalletOf(customers, phone, a1), phone, a2);
    var v := AddToWalletOf(customers, phone, a1 + a2);
    assert forall i :: 0 <= i < |customers| ==> w[i] == v[i];
  }

  /** `register_customer`: an existing phone gets its name and birth date replaced,
      with its ledger untouched and no row added; a new phone gets one new row with
      today's registration date. Either way exactly one customer has the phone. */
  method RegisterCustomer(db: Db, name: string, phone: string, birthdate: string, today: Date)
    requires db.Valid()
    modifies db`customers
    ensures db.Valid()
    ensures PhoneCount(db.customers, phone) == 1
    ensures CustomerIndex(old(db.customers), phone).Some? ==>
              var k := CustomerIndex(old(db.customers), phone).value;
              db.customers == old(db.customers)[k := old(db.customers)[k].(name := name, birthdate := Some(birthdate))]
    ensures CustomerIndex(old(db.customers), phone).None? ==>
              db.customers == old(db.customers) + [RegisteredCustomer(name, phone, birthdate, today)]
  {
    var existing := CustomerIndex(db.customers, phone);
    if existing.Some? {
      var k := existing.value;
      db.customers := db.customers[k := db.customers[k].(name := name, birthdate := Some(birthdate))];
      assert forall i :: 0 <= i < |db.customers| ==> db.customers[i].phone == old(db.customers)[i].phone;
      assert Unique(db.customers, PhoneOf) by {
        forall i, j | 0 <= i < j < |db.customers|
          ensures PhoneOf(db.customers[i]) != PhoneOf(db.customers[j])
        {
          assert PhoneOf(old(db.customers)[i]) != PhoneOf(old(db.customers)[j]);
        }
      }
      UniqueCustomerLookup(db.customers, k);
    } else {
      var before := db.customers;
      db.customers := db.customers + [RegisteredCustomer(name, phone, birthdate, today)];
      assert db.customers[..|before|] == before;
      assert Unique(db.customers, PhoneOf) by {
        forall i, j | 0 <= i < j < |db.customers|
          ensures PhoneOf(db.customers[i]) != PhoneOf(db.customers[j])
        {
          if j < |before| {
            assert PhoneOf(before[i]) != PhoneOf(before[j]);
          } else {
            assert before[i].phone != phone;
          }
        }
      }
      UniqueCustomerLookup(db.customers, |before|);
    }
    UniquePhoneCount(db.customers, phone);
  }

  /** `add_points`: a relative increment of the points of the customer with the phone. */
  method AddPoints(db: Db, phone: string, points: int)
    requires db.Valid()
    modifies db`customers
    ensures db.Valid()
    ensures db.customers == AddPointsTo(old(db.customers), phone, points)
  {
    db.customers := AddPointsTo(db.customers, phone, points);
    assert forall i :: 0 <= i < |db.customers| ==> db.customers[i].phone == old(db.customers)[i].phone;
    assert Unique(db.customers, PhoneOf) by {
      forall i, j | 0 <= i < j < |db.customers|
        ensures PhoneOf(db.customers[i]) != PhoneOf(db.customers[j])
      {
        assert PhoneOf(old(db.customers)[i]) != PhoneOf(old(db.customers)[j]);
      }
    }
  }

  /** `add_to_wallet`: a relative increment of the balance of the customer with the phone. */
  method AddToWallet(db: Db, phone: string, amount: real)
    requires db.Valid()
    modifies db`customers
    ensures db.Valid()
    ensures db.customers == AddToWalletOf(old(db.customers), phone, amount)
  {
    db.customers := AddToWalletOf(db.customers, phone, amount);
    assert forall i :: 0 <= i < |db.customers| ==> db.customers[i].phone == old(db.customers)[i].phone;
    assert Unique(db.customers, PhoneOf) by {
      forall i, j | 0 <= i < j < |db.customers|
        ensures PhoneOf(db.customers[i]) != PhoneOf(db.customers[j])
      {
        assert PhoneOf(old(db.customers)[i]) != PhoneOf(old(db.customers)[j]);
      }
    }
  }

  datatype CustomerView = NotFound(message: string) | Found(customer: Customer)

  /** `view_customer_info`: the message "Customer not found." exactly when no customer
      has the phone, otherwise that customer's row. */
  function ViewCustomerInfo(customers: seq<Customer>, phone: string): (v: CustomerView)
    ensures v.NotFound? <==> forall i :: 0 <= i < |customers| ==> customers[i].phone != phone
    ensures v.NotFound? ==> v.message == "Customer not found."
    ensures v.Found? ==> v.customer in customers && v.customer.phone == phone
  {
    match CustomerIndex(customers, phone)
    case None => NotFound("Customer not found.")
    case Some(k) => Found(customers[k])
  }
}
