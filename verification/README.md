# Kagan POS core: a verified model

This project models the billing and ledger core of a salon, cafe and gaming-lounge
point-of-sale application. Each UI handler reads a few entries, checks some guards,
and then inserts or updates rows of the application's SQLite tables or its own
working state. The model keeps the same steps:

- The database (`Tables.Db`) is a class with one `seq` field per table. A row's id
  is its position plus one, because the tables are AUTOINCREMENT and the core never
  deletes rows. `Db.Valid` states the UNIQUE constraints the core relies on:
  customer phones, usernames and setting keys.
- A handler that keeps working state is a class: the invoice being assembled with
  its discount (`Invoicing.InvoiceSection`), the cafe order being built
  (`Cafe.CafeSection`), the logged-in user (`Auth.SessionManager`), the current
  language (`Translations.Translator`) and the SMS configuration (`Sms.SmsService`).
  The other handlers are methods that take the database.
- Each handler's frame names exactly the tables it writes, so "nothing else
  changes" is part of every contract.
- Money is an exact `real`. Python's `int()` on a float is `Base.TruncToInt`. A day
  is an integer and a clock reading is a day plus a second of the day. "Now",
  "today" and the password hash are parameters.
- A selector entry "id: text" is parsed by `Text.ParseSelection` into one of three
  cases. `Unselected` means the entry has no ':' and the handler returns.
  `Malformed` means `int()` raises on the part before the ':'; the handler stops,
  but rows written before that point stay written. `Selected(id)` carries the id.

The modules follow the source files. `Base` and `Text` hold shared helpers:
Option, clock types, truncation, sums and counts over sequences, decimal ids,
"id: label" parsing and whitespace stripping.

## Model

| member | source | states |
|---|---|---|
| Tables.Db.constructor | database.py:18-50 | a new database has every table empty and satisfies the uniqueness constraints |
| Tables.WalkInCustomer | database.py:44-48 | a customer inserted by phone alone starts with zero points, zero wallet, zero total spent, today's registration date and no visit |
| Tables.UniqueCustomerLookup | database.py:42 | under the UNIQUE phone column, looking up a customer's phone finds exactly that customer's row |
| Tables.UniqueSettingLookup | database.py:270 | under the UNIQUE key column, looking up a setting's key finds exactly that row |
| Tables.Db.GetOrCreateCustomer | invoice_section.py:218-224 | the returned id is the phone's customer; an existing phone adds no row, a new phone appends exactly one walk-in row; uniqueness is kept |
| Tables.SelectorChoices | gamnet_section.py:210-215 | a selector lists "id: text" for every kept row, every entry parses back to a kept row's id, with no kept rows the list is just the placeholder, and otherwise it is exactly the labels of the kept rows in row order |
| Tables.SelectorLabelsExact | gamnet_section.py:212-214 | the labels are exactly the kept rows' "id: text" entries, in both directions |
| Tables.SelectorLabelsParse | gamnet_section.py:214 | every label parses back to the id of a kept row |
| Tables.SeedingKeepsExisting | database.py:480-487 | seeding keeps every existing setting row at its position and only appends |
| Tables.SeedingCoversDefaults | database.py:480-487 | after seeding, every default key is present |
| Tables.SeedingPresentKeys | database.py:480-487 | when every default key is already present, seeding changes nothing |
| Tables.SeedingKeepsKeysUnique | database.py:480-487 | seeding preserves uniqueness of setting keys |
| Tables.SeedingIdempotent | database.py:461-487 | seeding the settings twice gives the same table as seeding once |
| Tables.SeedingNeverOverwrites | database.py:482-483 | a key already present keeps its row and value after seeding |
| Tables.AdminSeedingIdempotent | database.py:450-458 | after seeding an 'admin' user exists, and a second seeding changes nothing |
| Tables.Db.InitializeDefaults | database.py:445-487 | the users table gets the admin only if absent, the settings get each of the sixteen defaults only if absent, and uniqueness is kept |
| Tables.Db.InsertMissingAdmin | database.py:449-458 | the admin row is appended only when no user is named 'admin', and usernames stay unique |
| Tables.Db.InsertMissingSettings | database.py:480-487 | the insert-if-absent loop produces the seeded table and keeps keys unique |
| Base.TruncToInt | invoice_section.py:295 | `int()` of a float truncates toward zero: the result is within one of the value, on the side of zero |
| Base.SumPermutation | invoice_section.py:227 | a sum over rows does not depend on their order |
| Base.CountAtMost | employee_section.py:375-380 | a count of matching rows never exceeds the number of rows |
| Text.DecimalRoundTrip | salon_section.py:225 | `int(str(n))` gives back n for every id |
| Text.LabelRoundTrip | gamnet_section.py:214 | parsing "id: text", as `start_session` does at line 260 and `end_session` at line 281, gives back the id, whatever the text |
| Text.StripSpec | auth.py:139-140 | the result of `strip()` has no whitespace at either end and is a contiguous piece of the input |
| Text.StripPadded | salon_section.py:232 | a text with no edge whitespace is recovered by `strip()` from itself padded with one space on each side |
| Invoicing.InvoiceSection.constructor | invoice_section.py:14-95 | a new section has no items and no discount |
| Invoicing.InvoiceSection.AddToInvoice | invoice_section.py:159-171 | exactly one item is appended; earlier items and the discount are unchanged |
| Invoicing.InvoiceSection.ApplyCampaign | invoice_section.py:177-191 | the discount becomes the matching campaign's percentage of the subtotal, or stays as it was when no active campaign covers today |
| Invoicing.CampaignOverwrites | invoice_section.py:181-190 | applying a code again replaces the discount rather than adding to it; no applicable campaign means no change |
| Invoicing.DiscountWithinSubtotal | invoice_section.py:189-190 | with non-negative amounts and a percentage in [0, 100], the discount lies between zero and the subtotal |
| Invoicing.LateItemNotDiscounted | invoice_section.py:165-169 | an item added after a campaign raises the final amount by its full amount: the discount is not recomputed |
| Invoicing.SubtotalOrderIndependent | invoice_section.py:227 | the subtotal does not depend on the order items were added |
| Invoicing.InvoiceSection.CurrentTotals | invoice_section.py:193-208 | the displayed subtotal is the sum of the amounts and the final amount is that sum minus the discount |
| Invoicing.NewInvoice | invoice_section.py:227-239 | an inserted invoice holds the subtotal, the discount and final = total - discount, starts unpaid with no method, and has no campaign code exactly when the entry is empty |
| Invoicing.InvoiceSection.CreateInvoice | invoice_section.py:210-250 | with no items nothing is written; otherwise the customer is got or created, one invoice is appended, and items and discount are reset |
| Invoicing.InvoiceSection.ProcessPayment | invoice_section.py:252-304 | an unknown or already-paid invoice changes nothing, in both directions of each case; otherwise the invoice is marked paid with the method and only its customer is charged |
| Invoicing.PaymentEffect | invoice_section.py:270-296 | a payment adds the amount to total spent, sets the last visit to today, adds `int(amount)` points, and takes the amount from the wallet only for "Wallet", with no balance check |
| Invoicing.LedgerMonotone | invoice_section.py:288-296 | over any series of non-negative payments, total spent grows by their sum and loyalty points never fall |
| Invoicing.TwoItemsWithCampaign | invoice_section.py:189-296 | 25.00 + 60.00 with a 20% campaign gives total 85, discount 17, final 68 and 68 points |
| Invoicing.ExpiredCampaignIgnored | invoice_section.py:181-186 | a campaign whose date window has ended leaves the discount unchanged |
| Invoicing.InvoiceSection.TodaysRevenue | invoice_section.py:320-328 | the revenue line is the sum of the final amounts of today's paid invoices whose customer exists |
| Invoicing.RevenueOrderIndependent | invoice_section.py:310-316 | the revenue does not depend on the order invoices are listed in |
| Gamnet.AvailableDevices | gamnet_section.py:210-215 | the device selector lists exactly the available devices' "id: number (type)" labels in row order, every entry names an available device, or the list is only "No devices available" |
| Gamnet.NewDevice | gamnet_section.py:224-235 | a new device starts available with status 'available' |
| Gamnet.NewDeviceOffered | gamnet_section.py:210-234 | a device just added is offered by the device selector |
| Gamnet.SetDeviceState | gamnet_section.py:270 | only the addressed device's availability and status change (the same update frees the device at line 312) |
| Gamnet.OpenCloseRestoresDevice | gamnet_section.py:270-312 | starting and then ending a session leaves the device row as it was when it was free |
| Gamnet.OfferedIsAvailable | gamnet_section.py:210-215 | an entry of the device selector that names a device names an available one |
| Gamnet.StartedDeviceNotOffered | gamnet_section.py:270 | a device in use is not offered by the selector of lines 210-215 |
| Gamnet.StartSession | gamnet_section.py:242-273 | the customer is got or created first; an unselected or malformed device then writes nothing more; a selected one gets one open session and is marked in use |
| Gamnet.LatestOpenSessionSpec | gamnet_section.py:284-289 | the session found is open, for that device, and started no earlier than any other open session of the device (ties go to the newest row); none is found only when the device has no open session |
| Gamnet.NewSessionIsLatest | gamnet_section.py:263-289 | a session just opened on a device is the one its end closes |
| Gamnet.EndSession | gamnet_section.py:275-314 | without a selection, an open session or the device row nothing changes; otherwise the latest open session is closed with its duration and charge and the device becomes available |
| Gamnet.ChargeBracketsStoredMinutes | gamnet_section.py:295-309 | the charge uses the untruncated duration: it lies between the charge of the stored whole minutes and that of one minute more |
| Gamnet.ChargeExamples | gamnet_section.py:295-301 | 90 minutes at 6.00 an hour charge 9.00; 125 seconds store 2 minutes but charge 125/60 at 60.00 an hour |
| Cafe.OrderItemRows | cafe_section.py:266-271 | one item row per order line, in order, with its quantity and price |
| Cafe.ItemRowsAddUpToTotal | cafe_section.py:253-271 | the item rows written for an order add up to the total stored on the order |
| Cafe.AddedLineTotal | cafe_section.py:221-225 | adding a line raises the order total by price times quantity |
| Cafe.CafeSection.constructor | cafe_section.py:11-15 | a new section has an empty order |
| Cafe.CafeSection.AddToOrder | cafe_section.py:208-227 | nothing is added for a missing or unparsable selection, an unparsable quantity or an unknown item; otherwise one line with the item's current name and price |
| Cafe.CafeSection.RunningTotal | cafe_section.py:278-288 | the running total is the same sum that completion stores |
| Cafe.CafeSection.InsertOrderItems | cafe_section.py:266-271 | the loop appends exactly the order's item rows |
| Cafe.CafeSection.InsertOrder | cafe_section.py:252-271 | one order row carrying the lines' total is appended, its id is the new row's position, and exactly one item row per line, in order, refers to that id |
| Cafe.CafeSection.CompleteOrder | cafe_section.py:229-276 | with no lines nothing is written; otherwise the customer is got or created, a malformed barista or split aborts, and one order row plus one row per line are written and the order is cleared |
| Salon.Stylists | salon_section.py:190-195 | the stylist selector lists exactly the active Salon employees' "id: name" labels in row order, every entry names one, or the list is only "No stylists available" |
| Salon.Services | salon_section.py:197-202 | the service selector lists the "id: name ($price)" labels of all services in row order, or only "No services available" for an empty table |
| Salon.AfterSelectorColon | salon_section.py:230-232 | the part of a selector entry after its first ':' is its text after one space |
| Salon.ServiceTypeRoundTrip | salon_section.py:230-234 | booking from a service entry stores the service's name when the name has no ':' or '(' and no edge spaces |
| Salon.CommissionBounds | salon_section.py:295-297 | with a rate in [0, 100], the commission lies between zero and the price and grows with the rate |
| Salon.CommissionExample | salon_section.py:295-297 | an 80.00 service at 18% earns 14.40 |
| Salon.BookAppointment | salon_section.py:204-248 | the customer is got or created first; a malformed stylist then aborts; otherwise one 'pending' appointment with the stylist id or None and the parsed service type |
| Salon.RecordService | salon_section.py:271-321 | a record is written exactly when the customer exists, both selections name ids, the service exists and the rating parses; then one service record and one 'Salon' commission row with the same commission; no customer is ever created |
| Customers.UniquePhoneCount | customer_section.py:145-146 | under the UNIQUE phone column a phone belongs to one customer when found and to none otherwise |
| Customers.RegisteredCustomer | customer_section.py:153-159 | a newly registered customer has a zero ledger and today's registration date |
| Customers.RegisterCustomer | customer_section.py:138-159 | an existing phone gets only its name and birth date replaced, a new phone gets one new row, and afterwards exactly one customer has the phone |
| Customers.AddPointsEffect | customer_section.py:249-254 | only the loyalty points of the phone's customer change, by the given amount; an unknown phone changes nothing |
| Customers.AddToWalletEffect | customer_section.py:264-269 | only the wallet balance of the phone's customer changes, by the given amount; an unknown phone changes nothing |
| Customers.IncrementsAccumulate | customer_section.py:249-269 | the increments are relative: two additions equal one addition of their sum |
| Customers.AddPoints | customer_section.py:244-254 | the customers table becomes the incremented one and uniqueness is kept |
| Customers.AddToWallet | customer_section.py:259-269 | the customers table becomes the incremented one and uniqueness is kept |
| Customers.ViewCustomerInfo | customer_section.py:274-290 | "Customer not found." exactly when no customer has the phone, otherwise a row with that phone |
| Employees.LatenessRule | employee_section.py:222 | a check-in is late exactly when it is at 09:00:00 or later |
| Employees.CheckOutFillsOnlyEmptySlot | employee_section.py:248-253 | check-out fills only the open row of that employee for today; other rows are unchanged |
| Employees.CheckOutIdempotent | employee_section.py:248-253 | a second check-out on the same day keeps the first time |
| Employees.SetLastWorkDate | employee_section.py:231-234 | only the employee's last work date changes |
| Employees.CheckIn | employee_section.py:202-236 | a row is inserted exactly when an id is selected and the employee has no row for today; the one-row-per-day invariant is kept |
| Employees.CheckOut | employee_section.py:238-255 | an unselected entry changes nothing; otherwise only the open slot is filled and the invariant is kept |
| Employees.AttendanceSummary | employee_section.py:371-380 | days is the number of rows, late is the number flagged late, late never exceeds days, and they are equal exactly when every row is late |
| Employees.CommissionTotal | employee_section.py:341-349 | the total is the sum of the listed amounts and is non-negative when every amount is |
| Employees.RecordedCommissionAdds | employee_section.py:345-349 | recording a service raises the stylist's commission total by exactly its commission |
| Auth.Allowed | auth.py:184-201 | no user means no permission, admin means every permission, and other roles get exactly their role's set |
| Auth.PermissionChain | auth.py:192-201 | employee permissions are within manager permissions, which are within admin's; other roles have none |
| Auth.AdminHasAll | auth.py:192-205 | the admin test agrees with the permission check |
| Auth.SessionManager.constructor | auth.py:173-174 | a new session has no user |
| Auth.SessionManager.SetUser | auth.py:176-178 | the given user becomes current |
| Auth.SessionManager.GetUser | auth.py:180-182 | the current user is returned |
| Auth.SessionManager.HasPermission | auth.py:184-201 | without a user nothing is permitted, and an admin is permitted everything |
| Auth.SessionManager.IsAdmin | auth.py:203-205 | an admin is allowed every permission, and a user without 'edit' is not an admin |
| Auth.SessionManager.Logout | auth.py:207-209 | afterwards there is no user, no permission and no admin |
| Auth.Login | auth.py:137-169 | an empty entry after strip fails with no lookup and no write; otherwise only the matching active user's last login is set, and that user is returned |
| Auth.ToggleLanguage | auth.py:126-135 | 'fa' becomes 'en' and anything else becomes 'fa', the new code is saved, and the screen is right to left afterwards exactly when it was not in Persian before |
| Translations.LookupFallbacks | translations.py:331-334 | the current table's entry when present; an unknown language uses English; a missing key gives a non-empty default, or else the key |
| Translations.SaveThenLoad | translations.py:310-329 | saving the language changes only the 'language' row's value, and a later load reads the saved code |
| Translations.Translator.constructor | translations.py:306-318 | a new translator starts in 'fa' unless a stored language setting overrides it |
| Translations.Translator.SetLanguage | translations.py:320-329 | a code with a table becomes current and is saved, and the translator is then right to left exactly for 'fa'; any other code changes nothing |
| Translations.Translator.Get | translations.py:331-334 | the current language's entry when the key is there, the English fallback for an unknown language |
| Translations.Translator.IsRtl | translations.py:336-338 | a right-to-left translator is in a language that has a table (Persian) |
| Sms.SettingOr | sms_service.py:16-22 | the stored value of the key, or the default when absent |
| Sms.SendViaTwilio | sms_service.py:66-82 | the Twilio placeholder always fails |
| Sms.SendViaKavenegar | sms_service.py:84-101 | the Kavenegar placeholder always fails |
| Sms.SendViaGhasedak | sms_service.py:103-120 | the Ghasedak placeholder always fails |
| Sms.Configured | sms_service.py:24-29 | a configured service has a non-empty API key, and the provider 'none' or '' is never configured |
| Sms.SmsService.IsConfigured | sms_service.py:24-29 | a configured service has a non-empty API key, and the provider 'none' is never configured |
| Sms.Dispatch | sms_service.py:47-54 | no provider succeeds, and an unknown provider gives "Unknown provider" |
| Sms.StatusMapping | sms_service.py:57-59 | 'sent' is logged exactly for a success, and an error message exactly for a failure |
| Sms.SmsService.constructor | sms_service.py:10-14 | the provider defaults to 'none' and the key, secret and sender to '' |
| Sms.SmsService.LogSms | sms_service.py:122-130 | exactly one history row is appended |
| Sms.SmsService.SendSms | sms_service.py:31-64 | every call logs one row; unconfigured means 'not_configured' with no provider call; the 'no_api_key' branch cannot be reached; no call succeeds, so no 'sent' row ever appears |
| Sms.SmsService.SendToCustomer | sms_service.py:132-136 | an unknown customer gives "Customer not found" with nothing logged; otherwise earlier history is kept and one row is appended with the customer's id, phone, message and type; no call succeeds |
| Sms.SmsService.SendSurveySms | sms_service.py:132-144 | an unknown customer gives "Customer not found" with nothing logged; otherwise earlier history is kept and one 'survey' row is appended with the customer's id, phone and message; no call succeeds |
| Sms.SmsService.SendBirthdaySms | sms_service.py:146-158 | an unknown customer gives "Customer not found" with nothing logged; otherwise earlier history is kept and one 'birthday' row is appended with the customer's id, phone and message; no call succeeds |
| Sms.SmsService.SendPromotionalSms | sms_service.py:160-170 | an unknown customer gives "Customer not found" with nothing logged; otherwise earlier history is kept and one 'promotional' row is appended with the customer's id, phone and message; no call succeeds |
| Sms.SmsService.SendInactiveCustomerSms | sms_service.py:172-184 | an unknown customer gives "Customer not found" with nothing logged; otherwise earlier history is kept and one 'reactivation' row is appended with the customer's id, phone and message; no call succeeds |

## Left out

- Widgets, layout, message boxes and the text written into text boxes are not modelled; only the values the handlers compute are.
- The SQLite layer is replaced by the `seq` tables of `Db`. A row's id is its position plus one; deleting rows is not modelled.
- The clock is a parameter. `datetime.now()` and SQL `date('now')` are taken to give the same day, although SQLite's is UTC and Python's is local time.
- Timestamps are whole seconds. Sub-second parts of a session's length are not modelled.
- Money is an exact real. Python float rounding, `:.2f` formatting and the float text shown in the service selector are not modelled; `Salon.Services` takes the price rendering as a parameter.
- Entries read through `int()` or `float()` become parameters: `Option<int>` for the cafe quantity and split count, `RatingEntry` for the rating, and plain numbers for amounts and invoice ids. A malformed amount or invoice id raises before any write, so it is not modelled.
- `int()` also accepts a sign, surrounding whitespace, underscores and non-ASCII Unicode decimal digits such as Persian and Arabic-Indic digits. `Text.ParseSelection` treats such a head as malformed, because selector entries built by the application never carry them.
- `Tables.Db.Valid` does not state the UNIQUE constraints on device numbers and campaign codes. No modelled operation relies on them: lookups take the first match, and adding a device is modelled only by the row it inserts.
- Password hashing with SHA-256 is the parameter `hash`.
- The 'error' branch of `send_sms` and database exceptions are not modelled. NULL setting values are not modelled; a stored value is always a string.
- `Auth.Login` returns the user row as read, before its last-login update, as the source does. Closing the login window and the success callback are not modelled.
- Translation table contents are not modelled. `Translations.Translator` takes the tables as a parameter whose keys are the two languages.
- The report queries' ORDER BY and LIMIT are not modelled: `Employees.AttendanceSummary` and `Employees.CommissionTotal` take the listed rows. `Base.SumPermutation` shows their order does not matter.
- SMS message templates are not modelled: the per-customer senders take the message as a function of the customer's name.
- The provider integrations are the placeholders the source ships; real network sending is not modelled.
- `Gamnet.EndSession`: when the device row is missing, the source raises after finding the session and before writing. The model treats this as no change.
- `Cafe.CafeSection.AddToOrder`: when the menu item is missing, the source raises before appending. The model treats this as no change.
- `Salon.RecordService`: when the service is missing, the source raises before writing. The model treats this as no change.
- `Gamnet.LatestOpenSessionSpec`: the newest start time wins, and among equal start times the newest row wins. SQLite leaves that tie order unspecified.
- `Text.Strip` removes only the ASCII characters Python's `strip()` treats as whitespace: space, tab, line feed, vertical tab, form feed, carriage return, and 0x1C to 0x1F. Python also removes non-ASCII whitespace, such as U+0085, U+00A0, U+2000 to U+200A, U+2028, U+2029 and U+3000. The model keeps those characters.
- Handlers not in this core are not modelled. These include menu, employee and service forms, reservations, reports, campaign management, inventory, suppliers, settings backup and the sample data. `add_device` is modelled only by the row it inserts (`Gamnet.NewDevice`).
- Four behaviours of the code are modelled as written:
  - `process_payment` refuses an invoice that is already paid;
  - `end_session` charges for the untruncated duration, while it stores the truncated whole minutes;
  - `start_session` checks neither that the device exists nor that it is free;
  - a wallet payment is not checked against the balance, so the balance can go below zero.
