/** The application's SQLite database (database.py): one row datatype per table the
    core touches, the tables themselves as fields of `Db`, the lookups the handlers
    run against them, and `initialize_defaults`.

    A row's id is its position plus one: every table is AUTOINCREMENT and the
    application never deletes rows, so ids are handed out as 1, 2, 3, ... */
module Tables {
  import opened Base
  import opened Text

  datatype Employee = Employee(
    name: string, phone: string, role: string, section: string,
    baseSalary: real, commissionRate: real, hireDate: Option<string>,
    isActive: bool, lastWorkDate: Option<Date>)

  datatype Customer = Customer(
    name: string, phone: string, birthdate: Option<string>,
    loyaltyPoints: int, walletBalance: real,
    registrationDate: Option<Date>, lastVisitDate: Option<Date>, totalSpent: real)

  datatype Appointment = Appointment(
    customerId: int, stylistId: Option<int>, appointmentDate: string,
    appointmentTime: string, serviceType: string, status: string)

  datatype SalonService = SalonService(
    name: string, price: real, durationMinutes: Option<int>, commissionRate: real)

  datatype ServiceRecord = ServiceRecord(
    customerId: int, stylistId: int, serviceId: int, serviceDate: Instant,
    price: real, commission: real, rating: Option<int>, review: string)

  datatype MenuItem = MenuItem(
    name: string, category: string, price: real, description: string, isAvailable: bool)

  datatype CafeOrder = CafeOrder(
    customerId: int, baristaId: Option<int>, orderDate: Instant,
    totalAmount: real, splitCount: int)

  datatype OrderItem = OrderItem(orderId: int, menuItemId: int, quantity: int, price: real)

  datatype Device = Device(
    deviceNumber: string, deviceType: string, hourlyRate: real,
    isAvailable: bool, status: string)

  datatype GameSession = GameSession(
    deviceId: int, customerId: int, startTime: Instant, endTime: Option<Instant>,
    durationMinutes: Option<int>, charge: Option<real>)

  datatype Invoice = Invoice(
    customerId: int, invoiceDate: Instant, totalAmount: real, discountAmount: real,
    finalAmount: real, paymentMethod: Option<string>, campaignCode: Option<string>,
    isPaid: bool)

  datatype Campaign = Campaign(
    name: string, discountPercentage: real, code: Option<string>,
    startDate: Date, endDate: Date, isActive: bool)

  datatype Attendance = Attendance(
    employeeId: int, date: Date, checkInTime: SecondOfDay,
    checkOutTime: Option<SecondOfDay>, isLate: bool)

  datatype Commission = Commission(
    employeeId: int, serviceDate: Date, serviceType: string, amount: real, isPaid: bool)

  datatype User = User(
    username: string, passwordHash: string, fullName: Option<string>, role: string,
    isActive: bool, createdDate: Option<Instant>, lastLogin: Option<Instant>)

  datatype Setting = Setting(key: string, value: string, category: string, description: string)

  datatype SmsLog = SmsLog(
    customerId: Option<int>, phoneNumber: string, message: string, smsType: string,
    status: string, sentDate: Instant, errorMessage: Option<string>)

  /** A UNIQUE column: no two rows share the key. */
  ghost predicate Unique<T, K>(rows: seq<T>, key: T -> K)
  {
    forall i, j :: 0 <= i < j < |rows| ==> key(rows[i]) != key(rows[j])
  }

  function PhoneOf(c: Customer): string { c.phone }
  function KeyOf(s: Setting): string { s.key }
  function UsernameOf(u: User): string { u.username }

  /** `SELECT ... FROM customers WHERE phone = ?`. */
  function CustomerIndex(customers: seq<Customer>, phone: string): Option<nat>
  {
    FirstMatch(customers, (c: Customer) => c.phone == phone)
  }

  /** `SELECT ... FROM settings WHERE key = ?`. */
  function SettingIndex(settings: seq<Setting>, key: string): Option<nat>
  {
    FirstMatch(settings, (s: Setting) => s.key == key)
  }

  /** `SELECT * FROM users WHERE username = ?`. */
  function UserIndex(users: seq<User>, username: string): Option<nat>
  {
    FirstMatch(users, (u: User) => u.username == username)
  }

  /** On a UNIQUE column the lookup finds the one row carrying the key. */
  lemma UniqueCustomerLookup(customers: seq<Customer>, i: nat)
    requires Unique(customers, PhoneOf) && i < |customers|
    ensures CustomerIndex(customers, customers[i].phone) == Some(i)
  {
    var r := CustomerIndex(customers, customers[i].phone);
    assert r.Some? && r.value <= i;
    assert r.value < i ==> PhoneOf(customers[r.value]) != PhoneOf(customers[i]);
  }

  lemma UniqueSettingLookup(settings: seq<Setting>, i: nat)
    requires Unique(settings, KeyOf) && i < |settings|
    ensures SettingIndex(settings, settings[i].key) == Some(i)
  {
    var r := SettingIndex(settings, settings[i].key);
    assert r.Some? && r.value <= i;
    assert r.value < i ==> KeyOf(settings[r.value]) != KeyOf(settings[i]);
  }

  /** The customer `get or create` inserts for an unknown phone: the name
      "Customer <phone>", today's registration date and the column defaults. */
  function WalkInCustomer(phone: string, today: Date): (c: Customer)
    ensures c.phone == phone && c.registrationDate == Some(today) && c.lastVisitDate.None?
    ensures c.loyaltyPoints == 0 && c.walletBalance == 0.0 && c.totalSpent == 0.0
  {
    Customer("Customer " + phone, phone, None, 0, 0.0, Some(today), None, 0.0)
  }

  /** The "id: text" entries of a selector, one per row that `keep` selects, in row order. */
  function SelectorLabels<T>(rows: seq<T>, keep: T -> bool, text: T -> string): seq<string>
    decreases |rows|
  {
    if |rows| == 0 then []
    else
      SelectorLabels(rows[..|rows| - 1], keep, text)
      + (if keep(rows[|rows| - 1]) then [SelectorLabel(|rows|, text(rows[|rows| - 1]))] else [])
  }

  /** Each label is "i: text" for a row i that qualifies, and each qualifying row has one. */
  lemma {:induction false} SelectorLabelsExact<T>(rows: seq<T>, keep: T -> bool, text: T -> string)
    ensures forall l :: l in SelectorLabels(rows, keep, text) ==>
              exists i :: 0 <= i < |rows| && keep(rows[i]) && l == SelectorLabel(i + 1, text(rows[i]))
    ensures forall i :: 0 <= i < |rows| && keep(rows[i]) ==>
              SelectorLabel(i + 1, text(rows[i])) in SelectorLabels(rows, keep, text)
    decreases |rows|
  {
    if |rows| > 0 {
      var init := rows[..|rows| - 1];
      SelectorLabelsExact(init, keep, text);
      assert forall i :: 0 <= i < |init| ==> init[i] == rows[i];
    }
  }

  /** Every label reads back as the id of a qualifying row. */
  lemma SelectorLabelsParse<T>(rows: seq<T>, keep: T -> bool, text: T -> string, l: string)
    requires l in SelectorLabels(rows, keep, text)
    ensures ParseSelection(l).Selected? && 1 <= ParseSelection(l).id <= |rows|
    ensures keep(rows[ParseSelection(l).id - 1])
  {
    SelectorLabelsExact(rows, keep, text);
    var i :| 0 <= i < |rows| && keep(rows[i]) && l == SelectorLabel(i + 1, text(rows[i]));
    LabelRoundTrip(i + 1, text(rows[i]));
  }

  /** The labels are empty exactly when no row qualifies. */
  lemma SelectorLabelsEmpty<T>(rows: seq<T>, keep: T -> bool, text: T -> string)
    ensures SelectorLabels(rows, keep, text) == [] <==> forall i :: 0 <= i < |rows| ==> !keep(rows[i])
  {
    var labels := SelectorLabels(rows, keep, text);
    SelectorLabelsExact(rows, keep, text);
    if labels != [] {
      assert labels[0] in labels;
    }
  }

  /** What a selector value reads back as: the id of a qualifying row, or no selection
      at all, which only the placeholder of a selector with no qualifying row gives;
      never an id that `int()` rejects. */
  predicate ReadsBackAsRow<T>(rows: seq<T>, keep: T -> bool, l: string)
  {
    match ParseSelection(l)
    case Selected(id) => 1 <= id <= |rows| && keep(rows[id - 1])
    case Unselected => forall i :: 0 <= i < |rows| ==> !keep(rows[i])
    case Malformed => false
  }

  /** Every label reads back as its row. */
  lemma SelectorLabelsReadBack<T>(rows: seq<T>, keep: T -> bool, text: T -> string)
    ensures forall l :: l in SelectorLabels(rows, keep, text) ==> ReadsBackAsRow(rows, keep, l)
  {
    forall l | l in SelectorLabels(rows, keep, text)
      ensures ReadsBackAsRow(rows, keep, l)
    {
      SelectorLabelsParse(rows, keep, text, l);
    }
  }

  /** A selector's values: the labels, or the single placeholder when no row qualifies. */
  function SelectorChoices<T>(rows: seq<T>, keep: T -> bool, text: T -> string, placeholder: string): (choices: seq<string>)
    requires ':' !in placeholder
    ensures |choices| >= 1
    ensures (forall i :: 0 <= i < |rows| ==> !keep(rows[i])) ==> choices == [placeholder]
    ensures forall l :: l in choices ==> ReadsBackAsRow(rows, keep, l)
    ensures forall i :: 0 <= i < |rows| && keep(rows[i]) ==> SelectorLabel(i + 1, text(rows[i])) in choices
    ensures SelectorLabels(rows, keep, text) != [] ==> choices == SelectorLabels(rows, keep, text)
  {
    SelectorLabelsExact(rows, keep, text);
    SelectorLabelsEmpty(rows, keep, text);
    SelectorLabelsReadBack(rows, keep, text);
    var labels := SelectorLabels(rows, keep, text);
    if labels == [] then [placeholder] else labels
  }

  // ---------------------------------------------------------------------------
  // initialize_defaults

  /** The sixteen default settings, in the order they are seeded. */
  const DefaultSettings: seq<Setting> := [
    Setting("theme", "dark", "appearance", "Application theme"),
    Setting("language", "fa", "appearance", "Interface language (fa/en)"),
    Setting("font_family", "Vazir", "appearance", "Font family"),
    Setting("currency", "Toman", "business", "Default currency"),
    Setting("tax_rate", "9", "business", "Tax rate percentage"),
    Setting("business_hours", "09:00-22:00", "business", "Business hours"),
    Setting("contact_phone", "", "business", "Contact phone number"),
    Setting("contact_email", "", "business", "Contact email"),
    Setting("sms_api_key", "", "sms", "SMS gateway API key"),
    Setting("sms_api_secret", "", "sms", "SMS gateway API secret"),
    Setting("sms_provider", "none", "sms", "SMS provider (twilio/kavenegar/none)"),
    Setting("backup_path", "./backups", "system", "Database backup directory"),
    Setting("auto_backup", "1", "system", "Enable automatic backups"),
    Setting("backup_frequency", "daily", "system", "Backup frequency"),
    Setting("loyalty_points_rate", "1", "loyalty", "Points per dollar spent"),
    Setting("loyalty_redemption_rate", "100", "loyalty", "Points needed for $1 discount")
  ]

  /** The default administrator; `hash` stands for SHA-256 rendered in hex. */
  function AdminUser(now: Instant, hash: string -> string): User
  {
    User("admin", hash("admin123"), Some("Administrator"), "admin", true, Some(now), None)
  }

  function SeedAdmin(users: seq<User>, now: Instant, hash: string -> string): seq<User>
  {
    if UserIndex(users, "admin").Some? then users else users + [AdminUser(now, hash)]
  }

  /** Insert one default setting unless its key is already present. */
  function SeedSetting(settings: seq<Setting>, d: Setting): seq<Setting>
  {
    if SettingIndex(settings, d.key).Some? then settings else settings + [d]
  }

  function SeedSettings(settings: seq<Setting>, defaults: seq<Setting>): seq<Setting>
    decreases |defaults|
  {
    if |defaults| == 0 then settings
    else SeedSetting(SeedSettings(settings, defaults[..|defaults| - 1]), defaults[|defaults| - 1])
  }

  ghost predicate HasKey(settings: seq<Setting>, key: string)
  {
    exists i :: 0 <= i < |settings| && settings[i].key == key
  }

  /** Seeding only appends: every existing row, value included, stays where it was,
      and each appended row is one of the defaults. */
  lemma {:induction false} SeedingKeepsExisting(settings: seq<Setting>, defaults: seq<Setting>)
    ensures var r := SeedSettings(settings, defaults);
            |settings| <= |r| && r[..|settings|] == settings
            && forall i :: |settings| <= i < |r| ==> r[i] in defaults
    decreases |defaults|
  {
    if |defaults| > 0 {
      var init := defaults[..|defaults| - 1];
      SeedingKeepsExisting(settings, init);
      var mid := SeedSettings(settings, init);
      var r := SeedSettings(settings, defaults);
      assert forall d :: d in init ==> d in defaults;
      if r != mid {
        assert r == mid + [defaults[|defaults| - 1]];
        assert r[..|settings|] == mid[..|settings|];
      }
    }
  }

  /** After seeding, every default key is present. */
  lemma {:induction false} SeedingCoversDefaults(settings: seq<Setting>, defaults: seq<Setting>)
    ensures forall d :: d in defaults ==> HasKey(SeedSettings(settings, defaults), d.key)
    decreases |defaults|
  {
    if |defaults| > 0 {
      var init := defaults[..|defaults| - 1];
      var last := defaults[|defaults| - 1];
      SeedingCoversDefaults(settings, init);
      var mid := SeedSettings(settings, init);
      var r := SeedSettings(settings, defaults);
      assert r == SeedSetting(mid, last);
      assert r[..|mid|] == mid;
      forall d | d in defaults ensures HasKey(r, d.key) {
        if d in init {
          var i :| 0 <= i < |mid| && mid[i].key == d.key;
          assert r[i] == mid[i];
        } else {
          assert d == last;
          var k := SettingIndex(mid, last.key);
          if k.Some? {
            assert r[k.value].key == d.key;
          } else {
            assert r[|mid|] == d;
          }
        }
      }
    }
  }

  /** Seeding defaults whose keys are all present already changes nothing. */
  lemma {:induction false} SeedingPresentKeys(settings: seq<Setting>, defaults: seq<Setting>)
    requires forall d :: d in defaults ==> HasKey(settings, d.key)
    ensures SeedSettings(settings, defaults) == settings
    decreases |defaults|
  {
    if |defaults| > 0 {
      var init := defaults[..|defaults| - 1];
      var last := defaults[|defaults| - 1];
      assert forall d :: d in init ==> d in defaults;
      SeedingPresentKeys(settings, init);
      assert HasKey(settings, last.key);
      var i :| 0 <= i < |settings| && settings[i].key == last.key;
      assert SettingIndex(settings, last.key).Some?;
    }
  }

  /** Seeding preserves the UNIQUE constraint on setting keys. */
  lemma {:induction false} SeedingKeepsKeysUnique(settings: seq<Setting>, defaults: seq<Setting>)
    requires Unique(settings, KeyOf)
    ensures Unique(SeedSettings(settings, defaults), KeyOf)
    decreases |defaults|
  {
    if |defaults| > 0 {
      var init := defaults[..|defaults| - 1];
      var last := defaults[|defaults| - 1];
      SeedingKeepsKeysUnique(settings, init);
      var mid := SeedSettings(settings, init);
      if SettingIndex(mid, last.key).None? {
        var r := mid + [last];
        forall i, j | 0 <= i < j < |r| ensures KeyOf(r[i]) != KeyOf(r[j]) {
          if j < |mid| {
            assert KeyOf(mid[i]) != KeyOf(mid[j]);
          } else {
            assert mid[i].key != last.key;
          }
        }
      }
    }
  }

  /** Running the seeding a second time changes nothing. */
  lemma SeedingIdempotent(settings: seq<Setting>, defaults: seq<Setting>)
    ensures SeedSettings(SeedSettings(settings, defaults), defaults) == SeedSettings(settings, defaults)
  {
    SeedingCoversDefaults(settings, defaults);
    SeedingPresentKeys(SeedSettings(settings, defaults), defaults);
  }

  /** A setting that existed before seeding keeps its value. */
  lemma SeedingNeverOverwrites(settings: seq<Setting>, defaults: seq<Setting>, key: string)
    requires Unique(settings, KeyOf)
    requires SettingIndex(settings, key).Some?
    ensures var r := SeedSettings(settings, defaults);
            SettingIndex(r, key) == SettingIndex(settings, key)
            && r[SettingIndex(r, key).value] == settings[SettingIndex(settings, key).value]
  {
    SeedingKeepsExisting(settings, defaults);
    SeedingKeepsKeysUnique(settings, defaults);
    var r := SeedSettings(settings, defaults);
    var i := SettingIndex(settings, key).value;
    assert r[i] == settings[i];
    UniqueSettingLookup(r, i);
  }

  /** The admin account is created at most once. */
  lemma AdminSeedingIdempotent(users: seq<User>, t1: Instant, t2: Instant, hash: string -> string)
    ensures UserIndex(SeedAdmin(users, t1, hash), "admin").Some?
    ensures SeedAdmin(SeedAdmin(users, t1, hash), t2, hash) == SeedAdmin(users, t1, hash)
  {
    var once := SeedAdmin(users, t1, hash);
    if UserIndex(users, "admin").None? {
      assert once[|users|].username == "admin";
    }
  }

  // ---------------------------------------------------------------------------
  // The database

  class Db {
    var employees: seq<Employee>
    var customers: seq<Customer>
    var appointments: seq<Appointment>
    var salonServices: seq<SalonService>
    var serviceRecords: seq<ServiceRecord>
    var menu: seq<MenuItem>
    var cafeOrders: seq<CafeOrder>
    var orderItems: seq<OrderItem>
    var devices: seq<Device>
    var sessions: seq<GameSession>
    var invoices: seq<Invoice>
    var campaigns: seq<Campaign>
    var attendance: seq<Attendance>
    var commissions: seq<Commission>
    var users: seq<User>
    var settings: seq<Setting>
    var smsHistory: seq<SmsLog>

    /** The UNIQUE constraints the core relies on: customer phones, usernames and
        setting keys. */
    ghost predicate Valid()
      reads this`customers, this`users, this`settings
    {
      Unique(customers, PhoneOf) && Unique(users, UsernameOf) && Unique(settings, KeyOf)
    }

    /** `create_tables` on a new database file: every table empty. */
    constructor ()
      ensures Valid()
      ensures employees == [] && customers == [] && appointments == [] && salonServices == []
      ensures serviceRecords == [] && menu == [] && cafeOrders == [] && orderItems == []
      ensures devices == [] && sessions == [] && invoices == [] && campaigns == []
      ensures attendance == [] && commissions == [] && users == [] && settings == []
      ensures smsHistory == []
    {
      employees, customers, appointments, salonServices := [], [], [], [];
      serviceRecords, menu, cafeOrders, orderItems := [], [], [], [];
      devices, sessions, invoices, campaigns := [], [], [], [];
      attendance, commissions, users, settings, smsHistory := [], [], [], [], [];
    }

    /** "Get or create customer": look the phone up and, when absent, insert a
        walk-in customer. Returns the customer's id. */
    method GetOrCreateCustomer(phone: string, today: Date) returns (id: nat)
      requires Valid()
      modifies this`customers
      ensures Valid()
      ensures 1 <= id <= |customers| && customers[id - 1].phone == phone
      ensures CustomerIndex(customers, phone) == Some(id - 1)
      ensures CustomerIndex(old(customers), phone).Some? ==> customers == old(customers)
      ensures CustomerIndex(old(customers), phone).None? ==>
                customers == old(customers) + [WalkInCustomer(phone, today)]
    {
      var found := CustomerIndex(customers, phone);
      if found.Some? {
        id := found.value + 1;
      } else {
        customers := customers + [WalkInCustomer(phone, today)];
        id := |customers|;
        assert Unique(customers, PhoneOf) by {
          forall i, j | 0 <= i < j < |customers|
            ensures PhoneOf(customers[i]) != PhoneOf(customers[j])
          {
            if j < |customers| - 1 {
              assert PhoneOf(old(customers)[i]) != PhoneOf(old(customers)[j]);
            } else {
              assert old(customers)[i].phone != phone;
            }
          }
        }
        UniqueCustomerLookup(customers, id - 1);
      }
    }

    /** `initialize_defaults`: create the admin account unless a user named 'admin'
        exists, then insert each default setting whose key is absent. */
    method InitializeDefaults(now: Instant, hash: string -> string)
      requires Valid()
      modifies this`users, this`settings
      ensures Valid()
      ensures users == SeedAdmin(old(users), now, hash)
      ensures settings == SeedSettings(old(settings), DefaultSettings)
    {
      InsertMissingAdmin(now, hash);
      InsertMissingSettings(DefaultSettings);
    }

    /** The first step of `initialize_defaults`: insert the administrator unless a
        user named 'admin' exists. */
    method InsertMissingAdmin(now: Instant, hash: string -> string)
      requires Unique(users, UsernameOf)
      modifies this`users
      ensures Unique(users, UsernameOf)
      ensures users == SeedAdmin(old(users), now, hash)
    {
      if UserIndex(users, "admin").None? {
        users := users + [AdminUser(now, hash)];
        assert Unique(users, UsernameOf) by {
          forall i, j | 0 <= i < j < |users|
            ensures UsernameOf(users[i]) != UsernameOf(users[j])
          {
            if j < |users| - 1 {
              assert UsernameOf(old(users)[i]) != UsernameOf(old(users)[j]);
            } else {
              assert old(users)[i].username != "admin";
            }
          }
        }
      }
    }

    /** The loop of `initialize_defaults`: for each default, look its key up and
        insert the row only when the key is absent. */
    method InsertMissingSettings(defaults: seq<Setting>)
      requires Unique(settings, KeyOf)
      modifies this`settings
      ensures Unique(settings, KeyOf)
      ensures settings == SeedSettings(old(settings), defaults)
    {
      var i := 0;
      while i < |defaults|
        invariant 0 <= i <= |defaults|
        invariant settings == SeedSettings(old(settings), defaults[..i])
        invariant Unique(settings, KeyOf)
      {
        var d := defaults[i];
        assert defaults[..i + 1][..i] == defaults[..i];
        if SettingIndex(settings, d.key).None? {
          settings := settings + [d];
        }
        SeedingKeepsKeysUnique(old(settings), defaults[..i + 1]);
        i := i + 1;
      }
      assert defaults[..i] == defaults;
    }
  }
}
