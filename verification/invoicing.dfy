/** The unified invoice and cashier (invoice_section.py): a working list of line
    items and one discount, a campaign code that sets the discount, invoice creation,
    payment with its customer-ledger update, and today's revenue. */
module Invoicing {
  import opened Base
  import opened Tables

  /** One line of the invoice being assembled: the section it is billed for
      ("Salon", "Cafe" or "Gamnet"), free text, and the amount. */
  datatype LineItem = LineItem(kind: string, description: string, amount: real)

  function AmountOf(item: LineItem): real { item.amount }

  /** The sum of the line amounts (the invoice's total before discount). */
  function Subtotal(items: seq<LineItem>): real
  {
    Sum(items, AmountOf)
  }

  /** The campaigns query: the code matches, the campaign is active and today lies in
      its date window, both ends included. */
  predicate CampaignApplies(c: Campaign, code: string, today: Date)
  {
    c.code == Some(code) && c.isActive && c.startDate <= today <= c.endDate
  }

  function FindCampaign(campaigns: seq<Campaign>, code: string, today: Date): Option<nat>
  {
    FirstMatch(campaigns, (c: Campaign) => CampaignApplies(c, code, today))
  }

  /** The discount after applying a code: the matching campaign's percentage of the
      current subtotal, or the previous discount when no campaign matches. */
  function DiscountAfterCampaign(discount: real, items: seq<LineItem>, campaigns: seq<Campaign>,
                                 code: string, today: Date): real
  {
    match FindCampaign(campaigns, code, today)
    case None => discount
    case Some(i) => Subtotal(items) * (campaigns[i].discountPercentage / 100.0)
  }

  /** The invoice row `create_invoice` inserts: total, discount, final = total - discount,
      the campaign code entry (None when empty), unpaid and without a payment method. */
  function NewInvoice(customerId: int, now: Instant, items: seq<LineItem>, discount: real,
                      campaignEntry: string): (inv: Invoice)
    ensures inv.totalAmount == Subtotal(items) && inv.discountAmount == discount
    ensures inv.finalAmount == inv.totalAmount - inv.discountAmount
    ensures !inv.isPaid && inv.paymentMethod.None?
    ensures inv.campaignCode.None? <==> campaignEntry == ""
  {
    Invoice(customerId, now, Subtotal(items), discount, Subtotal(items) - discount, None,
            if campaignEntry == "" then None else Some(campaignEntry), false)
  }

  /** The two customer updates of a payment: the wallet deduction (only for "Wallet",
      with no balance check), then total spent, last visit and loyalty points. */
  function PaidLedger(c: Customer, amount: real, paymentMethod: string, today: Date): Customer
  {
    var afterWallet := if paymentMethod == "Wallet" then c.(walletBalance := c.walletBalance - amount) else c;
    afterWallet.(totalSpent := afterWallet.totalSpent + amount,
                 lastVisitDate := Some(today),
                 loyaltyPoints := afterWallet.loyaltyPoints + TruncToInt(amount))
  }

  /** `UPDATE customers ... WHERE id = ?`: the customer with that id, if any, is charged. */
  function ChargeCustomer(customers: seq<Customer>, customerId: int, amount: real,
                          paymentMethod: string, today: Date): seq<Customer>
  {
    if 1 <= customerId <= |customers|
    then customers[customerId - 1 := PaidLedger(customers[customerId - 1], amount, paymentMethod, today)]
    else customers
  }

  datatype PaymentOutcome = InvoiceNotFound | AlreadyPaid | Processed(amount: real)

  /** What today's-invoices lists and what counts toward its revenue: invoices dated
      today whose customer exists (the query joins on customers); only paid ones add. */
  function RevenueContribution(inv: Invoice, customerCount: nat, today: Date): real
  {
    if inv.invoiceDate.date == today && 1 <= inv.customerId <= customerCount && inv.isPaid
    then inv.finalAmount else 0.0
  }

  function RevenueOn(invoices: seq<Invoice>, customerCount: nat, today: Date): real
  {
    Sum(invoices, (inv: Invoice) => RevenueContribution(inv, customerCount, today))
  }

  class InvoiceSection {
    var items: seq<LineItem>
    var discount: real
    const db: Db

    constructor (db: Db)
      ensures this.db == db && items == [] && discount == 0.0
    {
      this.db := db;
      items := [];
      discount := 0.0;
    }

    /** `add_to_invoice`: append one line; the discount is left as it was. */
    method AddToInvoice(kind: string, description: string, amount: real)
      modifies this`items
      ensures items == old(items) + [LineItem(kind, description, amount)]
    {
      items := items + [LineItem(kind, description, amount)];
    }

    /** `apply_campaign`: a matching campaign replaces the discount; otherwise
        nothing changes. */
    method ApplyCampaign(code: string, today: Date)
      modifies this`discount
      ensures discount == DiscountAfterCampaign(old(discount), items, db.campaigns, code, today)
    {
      var found := FindCampaign(db.campaigns, code, today);
      if found.Some? {
        var total := Subtotal(items);
        discount := total * (db.campaigns[found.value].discountPercentage / 100.0);
      }
    }

    /** `refresh_current_invoice`: the running subtotal and the final amount shown. */
    method CurrentTotals() returns (subtotal: real, final: real)
      ensures subtotal == Subtotal(items)
      ensures final == Subtotal(items) - discount
    {
      subtotal := 0.0;
      var i := 0;
      while i < |items|
        invariant 0 <= i <= |items|
        invariant subtotal == Sum(items[..i], AmountOf)
      {
        assert items[..i + 1] == items[..i] + [items[i]];
        SumAppend(items[..i], items[i], AmountOf);
        subtotal := subtotal + items[i].amount;
        i := i + 1;
      }
      assert items[..i] == items;
      final := subtotal - discount;
    }

    /** `create_invoice`: with no items, nothing happens. Otherwise get or create the
        customer by phone, insert the invoice, and clear the working state. */
    method CreateInvoice(phone: string, campaignEntry: string, now: Instant) returns (invoiceId: Option<nat>)
      requires db.Valid()
      modifies this`items, this`discount, db`customers, db`invoices
      ensures db.Valid()
      ensures old(items) == [] ==>
                invoiceId.None? && items == old(items) && discount == old(discount)
                && db.customers == old(db.customers) && db.invoices == old(db.invoices)
      ensures old(items) != [] ==> items == [] && discount == 0.0
      ensures old(items) != [] && CustomerIndex(old(db.customers), phone).Some? ==>
                db.customers == old(db.customers)
      ensures old(items) != [] && CustomerIndex(old(db.customers), phone).None? ==>
                db.customers == old(db.customers) + [WalkInCustomer(phone, now.date)]
      ensures old(items) != [] ==>
                CustomerIndex(db.customers, phone).Some?
                && invoiceId == Some(|old(db.invoices)| + 1)
                && db.invoices == old(db.invoices)
                   + [NewInvoice(CustomerIndex(db.customers, phone).value + 1, now,
                                 old(items), old(discount), campaignEntry)]
    {
      if items == [] {
        return None;
      }
      var customerId := db.GetOrCreateCustomer(phone, now.date);
      var total := Subtotal(items);
      var final := total - discount;
      var code := if campaignEntry == "" then None else Some(campaignEntry);
      db.invoices := db.invoices + [Invoice(customerId, now, total, discount, final, None, code, false)];
      invoiceId := Some(|db.invoices|);
      assert CustomerIndex(db.customers, phone).value + 1 == customerId;
      items := [];
      discount := 0.0;
    }

    /** `process_payment`: unknown and already-paid invoices change nothing; otherwise
        deduct the wallet for "Wallet", mark the invoice paid with its method, and
        update the customer's ledger. */
    method ProcessPayment(invoiceId: int, paymentMethod: string, today: Date) returns (outcome: PaymentOutcome)
      requires db.Valid()
      modifies db`customers, db`invoices
      ensures db.Valid()
      ensures outcome == InvoiceNotFound <==> !(1 <= invoiceId <= |old(db.invoices)|)
      ensures outcome == AlreadyPaid <==>
                1 <= invoiceId <= |old(db.invoices)| && old(db.invoices)[invoiceId - 1].isPaid
      ensures !outcome.Processed? ==>
                db.customers == old(db.customers) && db.invoices == old(db.invoices)
      ensures outcome.Processed? ==>
                var inv := old(db.invoices)[invoiceId - 1];
                && outcome.amount == inv.finalAmount
                && db.invoices == old(db.invoices)[invoiceId - 1 :=
                                   inv.(isPaid := true, paymentMethod := Some(paymentMethod))]
                && db.customers == ChargeCustomer(old(db.customers), inv.customerId,
                                                  inv.finalAmount, paymentMethod, today)
    {
      if !(1 <= invoiceId <= |db.invoices|) {
        return InvoiceNotFound;
      }
      var inv := db.invoices[invoiceId - 1];
      if inv.isPaid {
        return AlreadyPaid;
      }
      var cid := inv.customerId;
      if paymentMethod == "Wallet" && 1 <= cid <= |db.customers| {
        var c := db.customers[cid - 1];
        db.customers := db.customers[cid - 1 := c.(walletBalance := c.walletBalance - inv.finalAmount)];
      }
      db.invoices := db.invoices[invoiceId - 1 := inv.(isPaid := true, paymentMethod := Some(paymentMethod))];
      if 1 <= cid <= |db.customers| {
        var c := db.customers[cid - 1];
        db.customers := db.customers[cid - 1 := c.(totalSpent := c.totalSpent + inv.finalAmount,
                                                   lastVisitDate := Some(today),
                                                   loyaltyPoints := c.loyaltyPoints + TruncToInt(inv.finalAmount))];
      }
      assert forall k :: 0 <= k < |db.customers| ==> db.customers[k].phone == old(db.customers)[k].phone;
      assert Unique(db.customers, PhoneOf) by {
        forall i, j | 0 <= i < j < |db.customers|
          ensures PhoneOf(db.customers[i]) != PhoneOf(db.customers[j])
        {
          assert PhoneOf(old(db.customers)[i]) != PhoneOf(old(db.customers)[j]);
        }
      }
      outcome := Processed(inv.finalAmount);
    }

    /** `show_todays_invoices`: the revenue line adds up the paid invoices listed. */
    method TodaysRevenue(today: Date) returns (revenue: real)
      ensures revenue == RevenueOn(db.invoices, |db.customers|, today)
    {
      var invoices := db.invoices;
      var n := |db.customers|;
      var contribution := (inv: Invoice) => RevenueContribution(inv, n, today);
      revenue := 0.0;
      var i := 0;
      while i < |invoices|
        invariant 0 <= i <= |invoices|
        invariant revenue == Sum(invoices[..i], contribution)
      {
        var inv := invoices[i];
        assert invoices[..i + 1] == invoices[..i] + [inv];
        SumAppend(invoices[..i], inv, contribution);
        if inv.invoiceDate.date == today && 1 <= inv.customerId <= n && inv.isPaid {
          revenue := revenue + inv.finalAmount;
        }
        i := i + 1;
      }
      assert invoices[..i] == invoices;
    }
  }

  // ---------------------------------------------------------------------------
  // Properties of the invoice arithmetic and the ledger

  /** A code changes the discount only through an applicable campaign, and then the
      new discount no longer depends on the old one: applying again overwrites. */
  lemma CampaignOverwrites(d1: real, d2: real, items: seq<LineItem>, campaigns: seq<Campaign>,
                           code: string, today: Date)
    ensures (forall i :: 0 <= i < |campaigns| ==> !CampaignApplies(campaigns[i], code, today)) ==>
              DiscountAfterCampaign(d1, items, campaigns, code, today) == d1
    ensures (exists i :: 0 <= i < |campaigns| && CampaignApplies(campaigns[i], code, today)) ==>
              DiscountAfterCampaign(d1, items, campaigns, code, today)
              == DiscountAfterCampaign(d2, items, campaigns, code, today)
    ensures forall i :: (0 <= i < |campaigns| && CampaignApplies(campaigns[i], code, today)
                         && (forall j :: 0 <= j < i ==> !CampaignApplies(campaigns[j], code, today))) ==>
              DiscountAfterCampaign(d1, items, campaigns, code, today)
              == Subtotal(items) * (campaigns[i].discountPercentage / 100.0)
  {
  }

  /** With non-negative amounts and a percentage in [0, 100], an applied discount
      lies between 0 and the subtotal, so the final amount is never negative. */
  lemma DiscountWithinSubtotal(d: real, items: seq<LineItem>, campaigns: seq<Campaign>,
                               code: string, today: Date)
    requires forall i :: 0 <= i < |items| ==> items[i].amount >= 0.0
    requires forall i :: 0 <= i < |campaigns| ==> 0.0 <= campaigns[i].discountPercentage <= 100.0
    requires 0.0 <= d <= Subtotal(items)
    ensures 0.0 <= DiscountAfterCampaign(d, items, campaigns, code, today) <= Subtotal(items)
  {
    var s := Subtotal(items);
    SumNonNegative(items, AmountOf);
    var found := FindCampaign(campaigns, code, today);
    if found.Some? {
      var p := campaigns[found.value].discountPercentage / 100.0;
      FractionWithin(s, p);
      assert DiscountAfterCampaign(d, items, campaigns, code, today) == s * p;
    }
  }

  /** An item added after a campaign was applied raises the final amount by the
      item's full amount: the discount is not recomputed. */
  lemma LateItemNotDiscounted(items: seq<LineItem>, item: LineItem, discount: real)
    ensures Subtotal(items + [item]) - discount == (Subtotal(items) - discount) + item.amount
  {
    SumAppend(items, item, AmountOf);
  }

  /** The subtotal does not depend on the order in which items were added. */
  lemma SubtotalOrderIndependent(a: seq<LineItem>, b: seq<LineItem>)
    requires multiset(a) == multiset(b)
    ensures Subtotal(a) == Subtotal(b)
  {
    SumPermutation(a, b, AmountOf);
  }

  /** The revenue line does not depend on the order the invoices are listed in. */
  lemma RevenueOrderIndependent(a: seq<Invoice>, b: seq<Invoice>, customerCount: nat, today: Date)
    requires multiset(a) == multiset(b)
    ensures RevenueOn(a, customerCount, today) == RevenueOn(b, customerCount, today)
  {
    SumPermutation(a, b, (inv: Invoice) => RevenueContribution(inv, customerCount, today));
  }

  /** One payment's effect on a customer row: total spent grows by the amount, the
      points by its truncation, the wallet shrinks by it only for "Wallet", the last
      visit becomes the payment day, and identity fields stay. */
  lemma PaymentEffect(c: Customer, amount: real, paymentMethod: string, today: Date)
    ensures var r := PaidLedger(c, amount, paymentMethod, today);
            && r.totalSpent == c.totalSpent + amount
            && r.loyaltyPoints == c.loyaltyPoints + TruncToInt(amount)
            && r.walletBalance == (if paymentMethod == "Wallet" then c.walletBalance - amount else c.walletBalance)
            && r.lastVisitDate == Some(today)
            && r.name == c.name && r.phone == c.phone && r.birthdate == c.birthdate
            && r.registrationDate == c.registrationDate
  {
  }

  datatype Payment = Payment(amount: real, paymentMethod: string, date: Date)

  function PaymentAmount(p: Payment): real { p.amount }

  /** A customer's ledger after a series of payments, in order. */
  function AfterPayments(c: Customer, payments: seq<Payment>): Customer
    decreases |payments|
  {
    if |payments| == 0 then c
    else
      var p := payments[|payments| - 1];
      PaidLedger(AfterPayments(c, payments[..|payments| - 1]), p.amount, p.paymentMethod, p.date)
  }

  /** Over any series of payments with non-negative amounts, total spent grows by
      exactly their sum and neither it nor the loyalty points ever decrease. */
  lemma {:induction false} LedgerMonotone(c: Customer, payments: seq<Payment>)
    requires forall i :: 0 <= i < |payments| ==> payments[i].amount >= 0.0
    ensures AfterPayments(c, payments).totalSpent == c.totalSpent + Sum(payments, PaymentAmount)
    ensures AfterPayments(c, payments).totalSpent >= c.totalSpent
    ensures AfterPayments(c, payments).loyaltyPoints >= c.loyaltyPoints
    ensures AfterPayments(c, payments).phone == c.phone
    decreases |payments|
  {
    SumNonNegative(payments, PaymentAmount);
    if |payments| > 0 {
      var init := payments[..|payments| - 1];
      assert forall i :: 0 <= i < |init| ==> init[i] == payments[i];
      LedgerMonotone(c, init);
    }
  }

  /** Worked example: items of 25.00 and 60.00 with a 20% campaign give subtotal
      85.00, discount 17.00, final 68.00, and paying it in cash adds 68 points. */
  lemma TwoItemsWithCampaign(c: Customer)
    ensures var items := [LineItem("Salon", "Haircut", 25.0), LineItem("Cafe", "Latte", 60.0)];
            var camp := Campaign("Welcome", 20.0, Some("WELCOME20"), 10, 20, true);
            var d := DiscountAfterCampaign(0.0, items, [camp], "WELCOME20", 15);
            && Subtotal(items) == 85.0 && d == 17.0 && Subtotal(items) - d == 68.0
            && PaidLedger(c, 68.0, "Cash", 15).loyaltyPoints == c.loyaltyPoints + 68
            && PaidLedger(c, 68.0, "Cash", 15).totalSpent == c.totalSpent + 68.0
  {
    var items := [LineItem("Salon", "Haircut", 25.0), LineItem("Cafe", "Latte", 60.0)];
    SumAppend([items[0]], items[1], AmountOf);
    SumAppend([], items[0], AmountOf);
    assert [items[0]] + [items[1]] == items;
    assert Subtotal(items) == 85.0;
    var camp := Campaign("Welcome", 20.0, Some("WELCOME20"), 10, 20, true);
    assert CampaignApplies([camp][0], "WELCOME20", 15);
    assert FindCampaign([camp], "WELCOME20", 15) == Some(0);
    assert TruncToInt(68.0) == 68;
  }

  /** Worked example: a campaign whose window has ended leaves the discount alone. */
  lemma ExpiredCampaignIgnored(d: real, items: seq<LineItem>)
    ensures var camp := Campaign("Old", 10.0, Some("EXPIRED10"), 1, 9, true);
            DiscountAfterCampaign(d, items, [camp], "EXPIRED10", 15) == d
  {
    var camp := Campaign("Old", 10.0, Some("EXPIRED10"), 1, 9, true);
    assert !CampaignApplies([camp][0], "EXPIRED10", 15);
  }
}
