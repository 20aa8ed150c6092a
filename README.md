# School dining-hall dashboard — a Dafny model

The system is a browser-only dashboard for a school dining hall. It is a React application in which every screen reads and changes one shared data store: students, meal attendance, payments, expenses, suppliers, due customers and cash entries. This project models the store's operations and the screens' logic that changes it or computes figures from it:

- attendance marked by hand, by QR code and by fingerprint device;
- payments at the desk, by mobile wallet and from the student portal;
- the expense, supplier, due-customer and cash-tracking pages;
- the dashboards and the reports page;
- the student form, the settings page, the sign-up page and the side menu.

Each entry form is a class whose fields are the form's state. Each page handler is a method of that class, and its `ensures` states the store's new state through a function on values (`Store.Db`). The properties the dashboard relies on are proved as lemmas about those functions. Examples are that a meal charge and a payment move a balance by exactly their amount, that totals add up and that menus filter by role.

Modules follow the source files:

| module | models |
|---|---|
| `Seqs`, `Types`, `Forms`, `Calendar` | shared helpers: `filter`/`reduce`, the records, `Number(value)` on number inputs, day arithmetic on `yyyy-MM-dd` dates |
| `Store` | the data store (`src/contexts/DataContext.tsx`) |
| `AttendanceSheet`, `QrAttendance`, `BiometricTerminal`, `DeviceForm` | the three attendance pages and the device form |
| `PaymentForm`, `PaymentManager`, `MobilePayment`, `StudentPortal` | the payment pages |
| `CashForm`, `CashManager`, `ExpenseForm`, `ExpenseManager`, `SupplierManager`, `DueForm`, `DueManager` | the money pages |
| `Dashboard`, `StudentList`, `Reports` | the figures shown |
| `StudentForm`, `SettingsPage`, `SignUp`, `Sidebar` | the remaining forms and the menu |

## Model

| member | source | states |
|---|---|---|
| Calendar.DaysBeforeMonth | src/components/DueCustomers/DueCustomerManager.tsx:62 | the days of the year before the first of a month agree with the Gregorian table of cumulative month lengths, plus one from March on in a leap year |
| Calendar.YearLength | src/components/DueCustomers/DueCustomerManager.tsx:62 | a year has 366 days exactly when it is a leap year |
| Calendar.YearEndNextDay | src/components/DueCustomers/DueCustomerManager.tsx:62 | December 31 is followed by January 1 of the next year |
| Calendar.NextDayNumber | src/components/DueCustomers/DueCustomerManager.tsx:62 | consecutive calendar days, within a month and across month and year ends, get consecutive day numbers |
| Calendar.DateDay | src/components/DueCustomers/DueCustomerManager.tsx:62 | a text parses to a day exactly when it is a yyyy-MM-dd date that exists |
| Calendar.EpochIsDayZero | src/components/DueCustomers/DueCustomerManager.tsx:62-63 | 1970-01-01 is day 0, so a parsed day times the milliseconds of a day is the date's time |
| Calendar.MonthOf | src/components/Dashboard/Dashboard.tsx:348 | the month of a date is from 1 to 12 |
| Forms.NumberOfDigits | src/components/Payments/PaymentForm.tsx:56 | `Number(value)` on the text a number input shows for n gives back n |
| Forms.NumberOf | src/components/Students/StudentForm.tsx:44 | `Number(value)` on a number input's text: the empty text is 0, a text of digits is the number those digits denote, hence non-negative |
| Forms.OrUndefinedRoundTrip | src/components/Expenses/ExpenseForm.tsx:46-87 | a text stored with `\|\| undefined` and shown again with `\|\| ''` reads back unchanged; a stored value other than the empty text survives being shown and stored again; storing never yields the empty text |
| Store.SetBalance | src/contexts/DataContext.tsx:443-445 | updateStudent with a balance patch: the students carrying the id get the new balance, every other student and every other field is kept, and the list keeps its length |
| Store.ChargeMealFrame | src/contexts/DataContext.tsx:451-457 | a present record changes balances only: students with another id are untouched, no other field changes, and an unknown id changes nothing |
| Store.ChargeMealAt | src/contexts/DataContext.tsx:451-457 | with distinct ids, the student of a present record loses exactly their own meal charge |
| Store.CreditPaymentFrame | src/contexts/DataContext.tsx:464-468 | a payment changes balances only: students with another id are untouched, no other field changes, and an unknown id changes nothing |
| Store.CreditPaymentAt | src/contexts/DataContext.tsx:464-468 | with distinct ids, the paying student's balance rises by exactly the amount |
| Store.RecordAttendance | src/contexts/DataContext.tsx:447-458 | addAttendance appends the record; only the attendance list and the students change; an absent record leaves the students alone, a present one charges the meal |
| Store.RecordPayment | src/contexts/DataContext.tsx:460-469 | addPayment appends the payment and credits the amount to the student found by id, whatever the payment's status; nothing else changes |
| Store.AttendanceKeepsOpening | src/contexts/DataContext.tsx:447-458 | invariant: balance − deposited + present days × meal charge is the same before and after any attendance record, for every student |
| Store.PaymentKeepsOpening | src/contexts/DataContext.tsx:460-469 | the same opening balance is kept by every payment |
| Store.NewDevice | src/contexts/DataContext.tsx:503-513 | a new device takes the given fields and starts disconnected, active, with zero enrolled users and the current time as last sync |
| Store.RemoveDevice | src/contexts/DataContext.tsx:519-521 | deleteBiometricDevice keeps exactly the devices whose id differs |
| Store.RemoveAbsentDevice | src/contexts/DataContext.tsx:519-521 | deleting an id no device carries leaves the list unchanged |
| Store.RemoveOneDevice | src/contexts/DataContext.tsx:519-521 | with the id held by exactly one device, deletion removes that device and keeps the others in order |
| Store.SeedIdsUnique | src/contexts/DataContext.tsx:51-127 | the demo students have distinct ids |
| Store.SeedSuppliersBalanced | src/contexts/DataContext.tsx:271-316 | every demo supplier's total due is previous due + today's bill − today's deposit |
| Store.SeedCustomersBalanced | src/contexts/DataContext.tsx:318-363 | every demo due customer's total due is previous due + today's due − deposit |
| Store.UpdateSupplierKeepsTotal | src/contexts/DataContext.tsx:485-487 | updateSupplier merges the patch without recomputing the total due, so any patch that changes the previous due alone, to any other value, leaves a balanced supplier unbalanced |
| Store.UpdateCustomerKeepsTotal | src/contexts/DataContext.tsx:494-496 | updateDueCustomer does not recompute the total due either: a balanced customer whose previous due alone is changed, to any other value, becomes unbalanced |
| Store.DataStore.Seeded | src/contexts/DataContext.tsx:50-436 | the start-up effect loads the eight demo lists |
| Store.DataStore.AddStudent | src/contexts/DataContext.tsx:438-441 | appends the student; every other list is unchanged |
| Store.DataStore.UpdateStudent | src/contexts/DataContext.tsx:443-445 | merges the patch into the students with that id; every other list is unchanged |
| Store.DataStore.AddAttendance | src/contexts/DataContext.tsx:447-458 | the new state is RecordAttendance of the old one |
| Store.DataStore.AddPayment | src/contexts/DataContext.tsx:460-469 | the new state is RecordPayment of the old one |
| Store.DataStore.AddExpense | src/contexts/DataContext.tsx:471-474 | appends the expense; nothing else changes |
| Store.DataStore.UpdateExpense | src/contexts/DataContext.tsx:476-478 | merges the patch into the expenses with that id; nothing else changes |
| Store.DataStore.AddSupplier | src/contexts/DataContext.tsx:480-483 | appends the supplier; nothing else changes |
| Store.DataStore.UpdateSupplier | src/contexts/DataContext.tsx:485-487 | merges the patch into the suppliers with that id; nothing else changes |
| Store.DataStore.AddDueCustomer | src/contexts/DataContext.tsx:489-492 | appends the customer; nothing else changes |
| Store.DataStore.UpdateDueCustomer | src/contexts/DataContext.tsx:494-496 | merges the patch into the customers with that id; nothing else changes |
| Store.DataStore.AddCashEntry | src/contexts/DataContext.tsx:498-501 | appends the entry; nothing else changes |
| Store.DataStore.AddBiometricDevice | src/contexts/DataContext.tsx:503-513 | appends NewDevice of the input; nothing else changes |
| Store.DataStore.UpdateBiometricDevice | src/contexts/DataContext.tsx:515-517 | merges the patch into the devices with that id; nothing else changes |
| Store.DataStore.DeleteBiometricDevice | src/contexts/DataContext.tsx:519-521 | the devices become RemoveDevice of the old list; nothing else changes |
| AttendanceSheet.DayMap | src/components/Attendance/AttendanceManager.tsx:12-16 | the map of the selected day has a key for exactly the students with a record that day |
| AttendanceSheet.DayMapLast | src/components/Attendance/AttendanceManager.tsx:13-16 | the flag kept for a student is the one of that student's last record of the day |
| AttendanceSheet.PendingMapKeys | src/components/Attendance/AttendanceManager.tsx:10 | the pending-edit record has a key for exactly the students with an edit, holding the latest edit's flag |
| AttendanceSheet.SetMarkIsUpdate | src/components/Attendance/AttendanceManager.tsx:18-23 | an edit keeps one entry per student and changes exactly the edited student's key of the record |
| AttendanceSheet.PresentCountIsDisplayed | src/components/Attendance/AttendanceManager.tsx:44 | the present count is the number of students whose row shows present (pending edit first, else stored flag) and is at most the number of students with a stored or pending flag |
| AttendanceSheet.ToSaveFacts | src/components/Attendance/AttendanceManager.tsx:25-38 | every saved record is a manual record for the selected date holding a pending choice of a student with no record that day, and every such choice is saved |
| AttendanceSheet.RecordAll | src/contexts/DataContext.tsx:447-449 | adding records one after another appends them, in order, to the stored attendance |
| AttendanceSheet.SaveOne | src/components/Attendance/AttendanceManager.tsx:26-38 | one turn of the save loop adds the edit's record exactly when the day has none for that student |
| AttendanceSheet.Sheet.constructor | src/components/Attendance/AttendanceManager.tsx:9-10 | the sheet opens on today's date with no pending edits |
| AttendanceSheet.Sheet.SelectDate | src/components/Attendance/AttendanceManager.tsx:57 | choosing a date keeps the pending edits |
| AttendanceSheet.Sheet.Change | src/components/Attendance/AttendanceManager.tsx:18-23 | the pending record becomes the old one with the student's key set to the new flag |
| AttendanceSheet.Sheet.Save | src/components/Attendance/AttendanceManager.tsx:25-42 | the store gains exactly the records of the save rule, judged against the day as it was before saving, and the pending edits are cleared |
| QrAttendance.Check | src/components/QRAttendance/QRAttendance.tsx:200-216 | a code is invalid exactly when its type is not attendance or it has no student id; otherwise expired exactly when it has a non-zero expiry in the past; otherwise already marked exactly when the student has a record today; otherwise accepted |
| QrAttendance.AcceptedOncePerDay | src/components/QRAttendance/QRAttendance.tsx:212-225 | after an accepted code the student has exactly one record for today |
| QrAttendance.Toggle | src/components/QRAttendance/QRAttendance.tsx:154-160 | toggling flips whether the student is selected and leaves every other student's selection as it was |
| QrAttendance.ToggleTwice | src/components/QRAttendance/QRAttendance.tsx:154-160 | toggling the same student twice restores the set of selected students |
| QrAttendance.StudentIds | src/components/QRAttendance/QRAttendance.tsx:166 | the ids of all students, one per student, in list order |
| QrAttendance.Station.constructor | src/components/QRAttendance/QRAttendance.tsx:11-15 | nothing is selected and no scan is listed at first |
| QrAttendance.Station.ToggleStudent | src/components/QRAttendance/QRAttendance.tsx:154-160 | the selection becomes the toggled one; the scan panel is unchanged |
| QrAttendance.Station.SelectAll | src/components/QRAttendance/QRAttendance.tsx:162-170 | with as many selected ids as students the selection is cleared, otherwise every student is selected |
| QrAttendance.Station.SimulateScan | src/components/QRAttendance/QRAttendance.tsx:172-193 | the scan goes to the front of the panel, which keeps at most ten lines, and one present QR record is added with no check |
| QrAttendance.Station.DemoScan | src/components/QRAttendance/QRAttendance.tsx:277-287 | without students nothing changes; otherwise the drawn student is scanned |
| QrAttendance.Station.MarkByQr | src/components/QRAttendance/QRAttendance.tsx:195-240 | the verdict is that of the three checks; only an accepted code adds its present QR record and a panel line |
| BiometricTerminal.DefaultSelection | src/components/BiometricAttendance/BiometricAttendance.tsx:28-33 | a set selection, or an empty device list, is kept; otherwise the pick is one of the devices, and it is the first device unless it is the first connected one |
| BiometricTerminal.DefaultPrefersConnected | src/components/BiometricAttendance/BiometricAttendance.tsx:29-31 | with nothing selected the first connected device with an id is chosen, and with none connected the first device |
| BiometricTerminal.DeviceById | src/components/BiometricAttendance/BiometricAttendance.tsx:74 | the lookup finds a device with that id, and finds none exactly when no device has it |
| BiometricTerminal.CanStartIff | src/components/BiometricAttendance/BiometricAttendance.tsx:74-78 | with distinct ids a scan starts exactly when the selected id names a connected device |
| BiometricTerminal.DrawnStatus | src/components/BiometricAttendance/BiometricAttendance.tsx:51-57 | the drawn status is never scanning; connected exactly for draws up to 0.9 and disconnected exactly above 0.95 |
| BiometricTerminal.RefreshStep | src/components/BiometricAttendance/BiometricAttendance.tsx:40-66 | one turn of the refresh loop issues the device's update when its drawn status differs, and nothing otherwise |
| BiometricTerminal.RefreshPlan | src/components/BiometricAttendance/BiometricAttendance.tsx:40-66 | a refresh issues at most one update per device |
| BiometricTerminal.RefreshPlanOnlyChanges | src/components/BiometricAttendance/BiometricAttendance.tsx:41-64 | every update names an active device that is not scanning, and moves it to its drawn status, which differs from its current one |
| BiometricTerminal.ApplyPlan | src/components/BiometricAttendance/BiometricAttendance.tsx:60-63 | applying updates keeps the number of devices |
| BiometricTerminal.RefreshPointwise | src/components/BiometricAttendance/BiometricAttendance.tsx:40-66 | with distinct ids the refresh treats each device by itself: the devices handled so far are refreshed on their own draw, the others untouched |
| BiometricTerminal.RefreshedOneMore | src/components/BiometricAttendance/BiometricAttendance.tsx:40-66 | the induction step of the pointwise refresh: one more device refreshed |
| BiometricTerminal.RefreshAll | src/components/BiometricAttendance/BiometricAttendance.tsx:40-66 | after a whole refresh each device is the one refreshed on its own draw |
| BiometricTerminal.RefreshSparesIdle | src/components/BiometricAttendance/BiometricAttendance.tsx:41-49 | inactive or scanning devices are never changed by a refresh, and a device whose status stays is left exactly as it was |
| BiometricTerminal.StudentByFingerprint | src/components/BiometricAttendance/BiometricAttendance.tsx:135-138 | the student found has the fingerprint id with its first "FP_" removed as id, and none is found only when no student has that id |
| BiometricTerminal.FingerprintRoundTrip | src/components/BiometricAttendance/BiometricAttendance.tsx:88-138 | the fingerprint id a scan writes for a student leads back to a student with that id |
| BiometricTerminal.ScanOf | src/components/BiometricAttendance/BiometricAttendance.tsx:86-91 | a scan carries the id "FP_" + student id and a quality from 60 to 99 |
| BiometricTerminal.Terminal.constructor | src/components/BiometricAttendance/BiometricAttendance.tsx:17-20 | no device selected, not scanning, no scans, auto-sync on |
| BiometricTerminal.Terminal.PickDefault | src/components/BiometricAttendance/BiometricAttendance.tsx:28-33 | the selection becomes the default selection; nothing else changes |
| BiometricTerminal.Terminal.SelectDevice | src/components/BiometricAttendance/BiometricAttendance.tsx:335-346 | choosing the empty option or a listed device makes it the selection; the scan state, the scans and auto-sync are untouched |
| BiometricTerminal.ChosenDeviceStarts | src/components/BiometricAttendance/BiometricAttendance.tsx:73-81 | with distinct ids, after choosing a listed device a scan can start exactly when that device is connected |
| BiometricTerminal.Terminal.SetAutoSync | src/components/BiometricAttendance/BiometricAttendance.tsx:176-181 | the checkbox sets auto-sync to its checked state; nothing else changes |
| BiometricTerminal.Terminal.StartScanning | src/components/BiometricAttendance/BiometricAttendance.tsx:73-81 | a scan starts exactly when the selected device exists and is connected, which then becomes scanning; otherwise nothing changes |
| BiometricTerminal.Terminal.FinishScan | src/components/BiometricAttendance/BiometricAttendance.tsx:84-108 | the drawn student's scan heads the panel of at most ten, one present biometric record is added and the device is connected again |
| BiometricTerminal.Terminal.StopScanning | src/components/BiometricAttendance/BiometricAttendance.tsx:111-114 | scanning stops and the selected device is marked connected |
| BiometricTerminal.Terminal.SyncDevice | src/components/BiometricAttendance/BiometricAttendance.tsx:116-122 | the device is marked connected with a new sync time |
| BiometricTerminal.Terminal.DeleteDevice | src/components/BiometricAttendance/BiometricAttendance.tsx:124-133 | without confirmation nothing changes; with it the device is removed and a selection of it is cleared |
| BiometricTerminal.Terminal.RefreshTick | src/components/BiometricAttendance/BiometricAttendance.tsx:36-70 | with auto-sync off nothing changes; otherwise the devices become the result of the refresh plan on the tick's draws |
| DeviceForm.DigitsValueShort | src/components/BiometricAttendance/BiometricDeviceForm.tsx:59 | the value of a one- to three-digit octet, digit by digit |
| DeviceForm.OctetPatternIff | src/components/BiometricAttendance/BiometricDeviceForm.tsx:59 | an octet of the address pattern is exactly one to three digits of value at most 255, leading zeros allowed |
| DeviceForm.OctetPatternVersusRfc | src/components/BiometricAttendance/BiometricDeviceForm.tsx:59 | the pattern accepts every dec-octet of RFC 3986 and, beyond them, exactly the octets with a leading zero such as "010" |
| DeviceForm.Fields | src/components/BiometricAttendance/BiometricDeviceForm.tsx:59 | splitting at dots gives at least one field and no field holds a dot |
| DeviceForm.FieldsCons | src/components/BiometricAttendance/BiometricDeviceForm.tsx:59 | a dot-free text is one field; a dot-free first field is split off before the rest |
| DeviceForm.FieldsQuad | src/components/BiometricAttendance/BiometricDeviceForm.tsx:59 | a dotted quad of dot-free parts splits into exactly its four parts |
| DeviceForm.IpPatternIff | src/components/BiometricAttendance/BiometricDeviceForm.tsx:59-60 | a dotted quad passes the address test exactly when each part is one to three digits of value at most 255 |
| DeviceForm.IpPatternNeedsFourFields | src/components/BiometricAttendance/BiometricDeviceForm.tsx:59-60 | a text with other than three dots never passes the address test |
| DeviceForm.ChangeDeviceFieldReadBack | src/components/BiometricAttendance/BiometricDeviceForm.tsx:85-91 | a change replaces exactly the named field: each text field reads back the typed text, and port or maxUsers read back n when the decimal text of n was typed |
| DeviceForm.ValidateDevice | src/components/BiometricAttendance/BiometricDeviceForm.tsx:53-68 | a missing name, address or location is reported first, then a bad address, then a port outside 1..65535; a form is accepted exactly when it passes all three |
| DeviceForm.DeviceInputOf | src/components/BiometricAttendance/BiometricDeviceForm.tsx:70-79 | the stored input copies name, address, location, port and user limit, and an empty model, serial number or firmware version becomes a missing value |
| DeviceForm.DeviceEntry.constructor | src/components/BiometricAttendance/BiometricDeviceForm.tsx:13-22 | the form starts empty with port 4370 and 1000 users |
| DeviceForm.DeviceEntry.Change | src/components/BiometricAttendance/BiometricDeviceForm.tsx:85-91 | the form becomes the changed form |
| DeviceForm.DeviceInputsValidIff | src/components/BiometricAttendance/BiometricDeviceForm.tsx:147-248 | the browser's constraints on the inputs hold exactly when the handler's checks pass and the user capacity lies in 100..10000 |
| DeviceForm.DeviceEntry.Submit | src/components/BiometricAttendance/BiometricDeviceForm.tsx:50-83 | a form is submitted exactly when it meets the browser's constraints; then exactly one new device is appended, otherwise the store is unchanged |
| PaymentForm.ChangePaymentFieldReadBack | src/components/Payments/PaymentForm.tsx:52-58 | a text field stores the text typed, the amount stores the number typed, and every other field and the method keep their values |
| PaymentForm.ValidatePayment | src/components/Payments/PaymentForm.tsx:24-37 | no student is reported first, then an amount that is not positive, then a mobile method without transaction id; a form is accepted exactly when it passes all three |
| PaymentForm.FormPayment | src/components/Payments/PaymentForm.tsx:39-46 | the payment copies student, amount and method, is completed and dated today, and an empty transaction id is stored as missing |
| PaymentForm.AcceptedPaymentShape | src/components/Payments/PaymentForm.tsx:24-46 | an accepted form yields a positive completed payment, and a mobile payment always carries its transaction id |
| PaymentForm.SubmittedPaymentCredits | src/components/Payments/PaymentForm.tsx:39-46 | with distinct student ids an accepted payment raises the chosen student's balance by exactly its amount |
| PaymentForm.PaymentEntry.constructor | src/components/Payments/PaymentForm.tsx:13-19 | the form starts with no student, amount 0 and bKash |
| PaymentForm.PaymentEntry.Change | src/components/Payments/PaymentForm.tsx:52-58 | the form becomes the changed form |
| PaymentForm.PaymentEntry.ChooseMethod | src/components/Payments/PaymentForm.tsx:52-58 | choosing a method changes only the method |
| PaymentForm.PaymentInputsValidIff | src/components/Payments/PaymentForm.tsx:134-232 | the browser's constraints on the inputs hold exactly when the handler's checks pass and a bank payment has its reference |
| PaymentForm.SubmittedPaymentShape | src/components/Payments/PaymentForm.tsx:214-232 | a form that meets the browser's constraints yields a positive completed payment, and a mobile or bank payment carries its transaction id or reference |
| PaymentForm.PaymentEntry.Submit | src/components/Payments/PaymentForm.tsx:21-50 | a form is submitted exactly when it meets the browser's constraints; then exactly its payment is recorded, otherwise the store is unchanged |
| PaymentManager.FilteredPayments | src/components/Payments/PaymentManager.tsx:17-26 | the listed payments are exactly the payments that match the search (payer name, roll or transaction id, ignoring case) and both filters, and there are no more of them than payments |
| PaymentManager.OrphanNeverShown | src/components/Payments/PaymentManager.tsx:18-21 | a payment of an unknown student without transaction id is never listed, whatever the search |
| PaymentManager.EmptySearchShowsKnown | src/components/Payments/PaymentManager.tsx:17-26 | with an empty search and both filters on all, every payment of a known student is listed |
| PaymentManager.MethodListed | src/components/Payments/PaymentManager.tsx:101-108 | every payment method is one of the six in the report |
| PaymentManager.MethodReportAddsUp | src/components/Payments/PaymentManager.tsx:101-108 | the six per-method totals of the report add up to the total of all payments |
| PaymentManager.MobileTotalIsFourMethods | src/components/Payments/PaymentManager.tsx:34-35 | the mobile total is exactly the bKash, Nagad, Rocket and Upay totals together |
| PaymentManager.MobileKeyTotal | src/components/Payments/PaymentManager.tsx:34-35 | restricting to mobile payments first keeps a mobile method's total |
| PaymentManager.FilteredCountBounded | src/components/Payments/PaymentManager.tsx:109-110 | the filtered count is at most the number of payments, and with an empty search, no filter and a transaction id on every payment, everything is listed |
| PaymentManager.AllShown | src/components/Payments/PaymentManager.tsx:17-26 | with an empty search and no filter, payments that all carry a transaction id are all listed |
| MobilePayment.TodayMobilePayments | src/components/MobilePayment/MobilePayment.tsx:19-22 | today's mobile payments are exactly the payments dated today with bKash, Nagad, Rocket or Upay |
| MobilePayment.StatusCountsBounded | src/components/MobilePayment/MobilePayment.tsx:79-80 | completed and pending payments together never outnumber today's mobile payments |
| MobilePayment.ValidateMobile | src/components/MobilePayment/MobilePayment.tsx:109-117 | a missing student, a zero amount or a missing transaction id is reported first, then an amount below 10; a payment is accepted exactly with student, transaction id and an amount of at least 10 |
| MobilePayment.DeskPayment | src/components/MobilePayment/MobilePayment.tsx:134-141 | the recorded payment carries the student, amount, method and transaction id, is completed and dated today |
| MobilePayment.DeskPaymentCountsToday | src/components/MobilePayment/MobilePayment.tsx:134-141 | a recorded desk payment adds one payment to today's mobile list, one to the completed count and its amount to today's total |
| MobilePayment.NameOrUnknown | src/components/MobilePayment/MobilePayment.tsx:143-152 | an unknown student shows as "Unknown" in the history |
| MobilePayment.Desk.constructor | src/components/MobilePayment/MobilePayment.tsx:9-15 | the desk starts with no student, amount 0, bKash, no transaction id and an empty history |
| MobilePayment.Desk.Fill | src/components/MobilePayment/MobilePayment.tsx:317-480 | the inputs set student, amount, method and transaction id; the history is kept |
| MobilePayment.Desk.Pay | src/components/MobilePayment/MobilePayment.tsx:108-170 | a rejected or failed payment records nothing and keeps the form; a successful one records exactly its payment, heads the history of at most five lines and clears the form except the method |
| MobilePayment.Desk.FeedTick | src/components/MobilePayment/MobilePayment.tsx:82-106 | above 0.8 a made-up completed line heads the history without touching the store; otherwise nothing changes |
| StudentPortal.PayingStudent | src/components/MobilePayment/StudentPaymentPortal.tsx:17 | the paying student is the first whose name is the user's name, and there is none exactly without a user or without such a student |
| StudentPortal.ValidatePortal | src/components/MobilePayment/StudentPaymentPortal.tsx:65-78 | an amount below 50 is reported first, then a missing transaction id, then a missing student; a payment is accepted exactly with all three in order |
| StudentPortal.PortalPayment | src/components/MobilePayment/StudentPaymentPortal.tsx:86-93 | the recorded payment is the student's, completed, dated today, with amount, method and transaction id |
| StudentPortal.PortalPaymentCredits | src/components/MobilePayment/StudentPaymentPortal.tsx:86-93 | with distinct ids an accepted payment raises the paying student's balance by its amount, so by at least 50 |
| StudentPortal.Portal.constructor | src/components/MobilePayment/StudentPaymentPortal.tsx:12-14 | the page starts with bKash, amount 0 and no transaction id |
| StudentPortal.Portal.Fill | src/components/MobilePayment/StudentPaymentPortal.tsx:206-354 | the inputs set method, amount and transaction id |
| StudentPortal.Portal.Pay | src/components/MobilePayment/StudentPaymentPortal.tsx:64-105 | the result is the validation verdict; a rejection records nothing and keeps the form, success records exactly the student's payment and clears amount and transaction id |
| CashForm.InitialCashForm | src/components/CashTracking/CashEntryForm.tsx:13-20 | the form opens with amount 0, no description and the given type and source |
| CashForm.ChangeCashFieldReadBack | src/components/CashTracking/CashEntryForm.tsx:57-63 | the amount keeps the number typed and the description the text typed; type and source never change through them |
| CashForm.ValidateCash | src/components/CashTracking/CashEntryForm.tsx:34-42 | a missing source or description is reported first, then an amount that is not positive; an entry is accepted exactly with both and a positive amount |
| CashForm.Abs | src/components/CashTracking/CashEntryForm.tsx:44 | the magnitude of a stored amount |
| CashForm.SignRoundTrip | src/components/CashTracking/CashEntryForm.tsx:44 | for a positive amount the stored sign gives back the type and its magnitude gives back the amount |
| CashForm.FormCashEntry | src/components/CashTracking/CashEntryForm.tsx:44-51 | the stored entry carries source, description and today's date, with money out stored negative |
| CashForm.AcceptedEntrySign | src/components/CashTracking/CashEntryForm.tsx:39-48 | an accepted entry is never zero: positive exactly for income and negative exactly for money out |
| CashForm.CashEntryForm.constructor | src/components/CashTracking/CashEntryForm.tsx:13-20 | the form is the initial form of the given type and source |
| CashForm.CashEntryForm.Change | src/components/CashTracking/CashEntryForm.tsx:57-63 | the form becomes the changed form |
| CashForm.CashEntryForm.Choose | src/components/CashTracking/CashEntryForm.tsx:57-63 | the type radio and source select change only type and source |
| CashForm.CashEntryForm.Submit | src/components/CashTracking/CashEntryForm.tsx:31-55 | the result is the validation verdict; a rejected form leaves the store unchanged and an accepted one appends exactly one entry |
| CashManager.FilteredEntries | src/components/CashTracking/CashTrackingManager.tsx:21-27 | the listed entries are exactly those whose description contains the search ignoring case, whose source passes the source filter and whose date passes the date filter |
| CashManager.SignedSplit | src/components/CashTracking/CashTrackingManager.tsx:29-35 | the positive and the negative entries together make up the signed total; the positive part is never negative and the negative part never positive |
| CashManager.CashBalances | src/components/CashTracking/CashTrackingManager.tsx:29-35 | total cash is total income minus total expense, both non-negative |
| CashManager.SourceListed | src/components/CashTracking/CashTrackingManager.tsx:37-44 | every cash source is one of the six in the overview |
| CashManager.SourceTotalsAddUp | src/components/CashTracking/CashTrackingManager.tsx:37-44 | the six source cards add up to total cash |
| CashManager.EntryMovesAlert | src/components/CashTracking/CashTrackingManager.tsx:268 | an entry moves total cash by its amount, so an income never brings on the low-cash alert and an expense never switches it off |
| ExpenseForm.ProductPositive | src/components/Expenses/ExpenseForm.tsx:61-64 | an accepted form's total price is positive and at least its quantity and its unit price |
| ExpenseForm.ChangeExpenseFieldReadBack | src/components/Expenses/ExpenseForm.tsx:95-101 | quantity and unit price store the number typed, every other field the text typed |
| ExpenseForm.ValidateExpense | src/components/Expenses/ExpenseForm.tsx:56-64 | a missing category or item is reported first, then a quantity or price that is not positive; a form is accepted exactly with both and positive numbers |
| ExpenseForm.NewExpense | src/components/Expenses/ExpenseForm.tsx:79-88 | the new expense copies the form, totals quantity times unit price, is dated today and stores an empty supplier or description as missing |
| ExpenseForm.EditPatch | src/components/Expenses/ExpenseForm.tsx:67-75 | an edit sends every field but the date |
| ExpenseForm.Prefill | src/components/Expenses/ExpenseForm.tsx:41-48 | the edit form shows the stored expense's category, item, quantity, price, supplier and description |
| ExpenseForm.PrefillRoundTrip | src/components/Expenses/ExpenseForm.tsx:37-75 | saving an unchanged prefilled form gives back the stored expense, when its total already was quantity times price and its optional texts were not empty |
| ExpenseForm.EditOnlyTouchesTarget | src/components/Expenses/ExpenseForm.tsx:66-75 | an edit changes only the edited expense, keeps its date and stores the recomputed total |
| ExpenseForm.ExpenseEntry.constructor | src/components/Expenses/ExpenseForm.tsx:14-51 | the form is the stored expense's prefill when it edits an existing one, else the empty form with one unit at price 0 |
| ExpenseForm.ExpenseEntry.Change | src/components/Expenses/ExpenseForm.tsx:95-101 | the form becomes the changed form |
| ExpenseForm.ExpenseEntry.Submit | src/components/Expenses/ExpenseForm.tsx:53-93 | the result is the validation verdict; a rejected form leaves the store unchanged, an accepted edit updates the edited expense and an accepted new form appends one expense |
| ExpenseManager.FilteredExpenses | src/components/Expenses/ExpenseManager.tsx:19-26 | the listed expenses are exactly those whose item or category contains the search ignoring case and that pass the category and date filters |
| ExpenseManager.TodayPartOfTotal | src/components/Expenses/ExpenseManager.tsx:28-30 | today's total and the total of the other days make up the whole total |
| ExpenseManager.CategoryTotalsAddUp | constants.ts:1-10 | when every expense has one of the eight categories, the eight category cards add up to the total |
| ExpenseManager.UnlistedCategoryMissed | src/components/Expenses/ExpenseManager.tsx:157-160 | an expense of a category outside the eight appears on no card |
| ExpenseManager.Average | src/components/Expenses/ExpenseManager.tsx:146 | no expenses give an average of 0 |
| ExpenseManager.AverageNearest | src/components/Expenses/ExpenseManager.tsx:146 | the average is the whole number nearest to total / count, halves rounded up |
| SupplierManager.FilteredSuppliers | src/components/Suppliers/SupplierManager.tsx:16-20 | the listed suppliers are exactly those whose name or address contains the search ignoring case, or whose phone contains it as typed |
| SupplierManager.EmptySearchListsAll | src/components/Suppliers/SupplierManager.tsx:16-20 | the empty search lists every supplier in order |
| SupplierManager.TotalDueFromParts | src/components/Suppliers/SupplierManager.tsx:22-60 | when each supplier's due is its previous due plus today's bill minus today's deposit, the total due is the previous dues plus the net balance |
| SupplierManager.DueList | src/components/Suppliers/SupplierManager.tsx:45-46 | the due list holds exactly the suppliers with a positive due |
| SupplierManager.DueListEmptyIff | src/components/Suppliers/SupplierManager.tsx:45-49 | the "nobody owed" message shows exactly when no supplier has a positive due |
| SupplierManager.DueListCoversTotal | src/components/Suppliers/SupplierManager.tsx:22-50 | the due list's total is never below the total due |
| SupplierManager.NonPositiveSum | src/components/Suppliers/SupplierManager.tsx:46 | suppliers left off the due list owe nothing in total |
| SupplierManager.HighDue | src/components/Suppliers/SupplierManager.tsx:303 | the high-due suppliers are exactly those with a due above 10000 |
| SupplierManager.HighDueAlert | src/components/Suppliers/SupplierManager.tsx:315 | the alert lists the first three high-due suppliers, or all of them when fewer |
| SupplierManager.HighDueOnDueList | src/components/Suppliers/SupplierManager.tsx:46 | every supplier in the high-due alert is also on the due list |
| SupplierManager.TodaysAccountCount | src/components/Suppliers/SupplierManager.tsx:40-41 | today's account counts no more suppliers than there are |
| SupplierManager.TodaysAccountEmptyIff | src/components/Suppliers/SupplierManager.tsx:40-41 | today's account is empty exactly when no supplier had a positive bill or deposit today |
| DueForm.ChangeDueFieldReadBack | src/components/DueCustomers/DueCustomerForm.tsx:47-54 | the three amounts store the number typed, every other input the text typed, and nothing else changes |
| DueForm.FormCustomer | src/components/DueCustomers/DueCustomerForm.tsx:22-41 | the new customer carries the amounts as entered, a total due of previous due plus today's due minus deposit, and no reminder sent |
| DueForm.OverpaidCustomerAccepted | src/components/DueCustomers/DueCustomerForm.tsx:22-41 | a deposit larger than the dues is accepted and stored as a negative total |
| DueForm.FormKeepsCustomersBalanced | src/components/DueCustomers/DueCustomerForm.tsx:22-41 | adding a customer through the form keeps every customer's total consistent with its parts |
| DueForm.DueEntry.constructor | src/components/DueCustomers/DueCustomerForm.tsx:13-20 | the form starts empty with all amounts 0 |
| DueForm.DueEntry.Change | src/components/DueCustomers/DueCustomerForm.tsx:47-54 | the form becomes the changed form |
| DueForm.SubmittedCustomerBounds | src/components/DueCustomers/DueCustomerForm.tsx:104-140 | a customer that passes the inputs' minimum of 0 has non-negative amounts and a total between minus the deposit and the sum of the dues |
| DueForm.DueEntry.Submit | src/components/DueCustomers/DueCustomerForm.tsx:24-45 | a form is submitted exactly with name, phone and due date filled and no negative amount; then exactly one customer is appended, otherwise the store is unchanged |
| DueManager.FilteredCustomers | src/components/DueCustomers/DueCustomerManager.tsx:18-28 | the listed customers are exactly those whose name contains the search ignoring case or whose phone contains it, and whose overdue state the filter admits |
| DueManager.OverdueFilterPartition | src/components/DueCustomers/DueCustomerManager.tsx:22-25 | every customer found by the search is listed under exactly one of overdue and current |
| DueManager.OverdueListIsOverdueCustomers | src/components/DueCustomers/DueCustomerManager.tsx:18-31 | with no search text and the overdue filter, the list is exactly the overdue customers |
| DueManager.OverdueSearchWithin | src/components/DueCustomers/DueCustomerManager.tsx:18-31 | with the overdue filter, the list is the search applied to the overdue customers |
| DueManager.OverdueCustomers | src/components/DueCustomers/DueCustomerManager.tsx:31 | the overdue customers are exactly those whose due date lies before now |
| DueManager.OverdueTotalSplit | src/components/DueCustomers/DueCustomerManager.tsx:30-32 | the overdue total and the total of the customers not yet due make up the total due, so with no negative dues the overdue total is at most the total due |
| DueManager.NonNegativeDues | src/components/DueCustomers/DueCustomerManager.tsx:30 | customers with no negative due have a non-negative total |
| DueManager.TotalDueFromParts | src/components/DueCustomers/DueCustomerManager.tsx:30 | when each total is previous due plus today's due minus deposit, the total due is the previous dues plus today's dues minus the deposits |
| DueManager.RemindersSent | src/components/DueCustomers/DueCustomerManager.tsx:33 | the reminder count is at most the number of customers |
| DueManager.NewCustomerNotReminded | src/components/DueCustomers/DueCustomerManager.tsx:33 | a customer added through the form does not change the reminder count |
| DueManager.ReminderTargets | src/components/DueCustomers/DueCustomerManager.tsx:42 | remind-all addresses exactly the customers with a positive due |
| DueManager.RemindAll | src/components/DueCustomers/DueCustomerManager.tsx:40-48 | remind-all fails exactly when nobody owes money, and otherwise reports how many customers it reminded |
| DueManager.ShowOverdueList | src/components/DueCustomers/DueCustomerManager.tsx:50-53 | the filter becomes overdue only, the list shows at most the announced count, and with an empty search exactly the overdue customers |
| DueManager.CeilDiv | src/components/DueCustomers/DueCustomerManager.tsx:64 | the quotient rounded up: the smallest whole number q with x at most q times d |
| DueManager.DaysOverdue | src/components/DueCustomers/DueCustomerManager.tsx:60-66 | a number of days exactly for a due date that parses |
| DueManager.DaysOverduePositiveIff | src/components/DueCustomers/DueCustomerManager.tsx:60-66 | the days overdue are positive exactly for an overdue customer; a due date earlier today gives 1 and n whole days after it give n |
| Dashboard.PresentToday | src/components/Dashboard/Dashboard.tsx:15-16 | present today counts at most today's records |
| Dashboard.AdminStats | src/components/Dashboard/Dashboard.tsx:14-21 | the present count is at most today's records, the student count is the number of students and the low-balance count is at most that |
| Dashboard.AttendanceMovesFigures | src/components/Dashboard/Dashboard.tsx:15-16 | an attendance record raises present today by one exactly when it is a present record for today; the student count, cash and payments do not move |
| Dashboard.PaymentMovesFigures | src/components/Dashboard/Dashboard.tsx:18-21 | a payment raises today's payment total by its amount when dated today, leaves present count and cash alone, and a non-negative one never adds a low-balance student |
| Dashboard.TodayTotalAppend | src/components/Dashboard/Dashboard.tsx:20-21 | appending a payment moves today's total by its amount exactly when it is dated today |
| Dashboard.PaymentKeepsLowBalanceCount | src/components/Dashboard/Dashboard.tsx:18 | with distinct ids a non-negative payment never raises the number of low-balance students |
| Dashboard.ViewOf | src/components/Dashboard/Dashboard.tsx:303-306 | present and absent days add up to the student's records, the rate is a whole percent from 0 to 100 and 0 without records, spent is present days times the meal charge, deposited is the student's payments |
| Dashboard.RateBounds | src/components/Dashboard/Dashboard.tsx:303-306 | the rounded attendance rate lies between 0 and 100 |
| Dashboard.StudentDashboard | src/components/Dashboard/Dashboard.tsx:90 | there is no student view exactly when no student has the user's name; otherwise it is the view of such a student |
| Dashboard.MealMovesView | src/components/Dashboard/Dashboard.tsx:429 | with distinct ids a present record lowers the student's balance by the meal charge, adds one present day and raises spent by the meal charge, and nothing else |
| Dashboard.MonthPresentAsWritten | src/components/Dashboard/Dashboard.tsx:345-350 | the month's present days as written count at most the records |
| Dashboard.LastYearCountedAsWritten | src/components/Dashboard/Dashboard.tsx:345-350 | as written, a present day in October of last year counts as a present day of this October |
| Dashboard.MonthCounts | src/components/Dashboard/Dashboard.tsx:345-356 | this month's present and absent figures are the numbers of the student's present and absent records of the same year and month, and together at most the student's records |
| Dashboard.OtherYearNotCounted | src/components/Dashboard/Dashboard.tsx:345-356 | a record of another year is in neither month list, and adding it leaves this month's present and absent figures unchanged |
| StudentList.FilteredStudents | src/components/Students/StudentList.tsx:14-17 | the listed students are exactly those whose name or roll contains the search ignoring case |
| StudentList.EmptySearchListsAll | src/components/Students/StudentList.tsx:14-17 | the empty search lists every student in order |
| StudentList.ActiveCount | src/components/Students/StudentList.tsx:85 | the active figure is at most the number of students |
| StudentList.ActiveInactiveSplit | src/components/Students/StudentList.tsx:73-85 | the active students and the inactive students make up the whole list |
| StudentList.LowBalanceStudents | src/components/Students/StudentList.tsx:97 | the low-balance students are exactly those with a balance of at most 300 |
| StudentList.LowBalanceSumBound | src/components/Students/StudentList.tsx:97-109 | the low-balance students hold at most 300 per head together |
| StudentList.AllAtMost | src/components/Students/StudentList.tsx:97 | students each at most 300 hold at most 300 per head |
| StudentList.MealMovesTotalBalance | src/components/Students/StudentList.tsx:109 | with distinct ids a present record lowers the total balance by exactly the student's meal charge, and a record for an unknown id leaves it alone |
| StudentList.PaymentMovesTotalBalance | src/components/Students/StudentList.tsx:109 | with distinct ids a payment raises the total balance by exactly its amount, and one for an unknown id leaves it alone |
| Reports.SingleDayRange | src/components/Reports/ReportsManager.tsx:21-39 | a range from a day to the same day holds exactly that day |
| Reports.PeriodPayments | src/components/Reports/ReportsManager.tsx:39 | the period's payments are exactly those dated within the range, both ends included |
| Reports.PeriodExpenses | src/components/Reports/ReportsManager.tsx:40 | the period's expenses are exactly those dated within the range |
| Reports.PeriodAttendance | src/components/Reports/ReportsManager.tsx:41 | the period's attendance records are exactly those dated within the range |
| Reports.PeriodCash | src/components/Reports/ReportsManager.tsx:42 | the period's cash entries are exactly those dated within the range |
| Reports.TodayReportIsTodayTotal | src/components/Reports/ReportsManager.tsx:21-45 | the "today" report takes exactly today's payments, so its payment total is the payments screen's total for today |
| Reports.Totals | src/components/Reports/ReportsManager.tsx:45-49 | cash income and cash expense are non-negative and the net income is payments minus expenses plus the period's signed cash total |
| Reports.AttendanceStats | src/components/Reports/ReportsManager.tsx:52-54 | present records are at most the records, the rate is 0 without records, lies between 0 and 100 and is 100 exactly when every record says present |
| Reports.RatePercent | src/components/Reports/ReportsManager.tsx:54 | present / records * 100 lies between 0 and 100 and is 100 only when all are present |
| Reports.CategoryMapAddsUp | src/components/Reports/ReportsManager.tsx:57-60 | the category map names each category once, holds each category's total, and its values add up to all expenses |
| Reports.LabelsRenameThree | src/components/Reports/ReportsManager.tsx:68-70 | only bKash, Nagad and cash are renamed, and no two methods share a label |
| Reports.MethodMapAddsUp | src/components/Reports/ReportsManager.tsx:67-73 | the method map names each label once, holds each method's total under its label, and its values add up to all payments |
| Reports.LabelSelectsMethod | src/components/Reports/ReportsManager.tsx:67-73 | selecting payments by label selects the same payments as by method |
| Reports.PayerTotals | src/components/Reports/ReportsManager.tsx:260-266 | one entry per student, in order, with the student's payments in the range |
| Reports.InsertDesc | src/components/Reports/ReportsManager.tsx:268 | the list grows by exactly the inserted payer and is headed by the payer only when it beats the old head or the list was empty |
| Reports.InsertDescSorted | src/components/Reports/ReportsManager.tsx:268 | inserting into a descending list keeps it descending |
| Reports.SortedCons | src/components/Reports/ReportsManager.tsx:268 | a head at least as large as the next element keeps a list descending |
| Reports.InsertDescStable | src/components/Reports/ReportsManager.tsx:268 | inserting a payer keeps the payers of each total in order and places it after those tied with it |
| Reports.SortDescStable | src/components/Reports/ReportsManager.tsx:268 | the sort is stable: payers with the same total keep their input order |
| Reports.RankedTiesInStudentOrder | src/components/Reports/ReportsManager.tsx:260-269 | payers tied on a positive total are ranked in the order of the student list |
| Reports.SortDesc | src/components/Reports/ReportsManager.tsx:268 | the sort gives a descending permutation of its input |
| Reports.RankedPayers | src/components/Reports/ReportsManager.tsx:260-268 | the ranking is descending, holds only positive totals and holds every student who paid in the range |
| Reports.RankedPositive | src/components/Reports/ReportsManager.tsx:267 | any reordering of the paying payers holds only positive totals |
| Reports.RankedIncludesPayers | src/components/Reports/ReportsManager.tsx:267 | any reordering of the paying payers holds every student who paid in the range |
| Reports.TopPayers | src/components/Reports/ReportsManager.tsx:269 | the list is the first five of the ranking, or the whole ranking when shorter |
| Reports.TopPayersAreTop | src/components/Reports/ReportsManager.tsx:260-269 | the list is descending, and a student who paid is on it or the list is full of payers who paid at least as much |
| StudentForm.ChangeStudentFieldReadBack | src/components/Students/StudentForm.tsx:40-46 | the meal charge and the balance read back the whole number typed as digits, every other input leaves both numbers alone, and no input touches the photo |
| StudentForm.FormStudent | src/components/Students/StudentForm.tsx:30-34 | the added student carries every value of the form, is active and is stamped with the submission time |
| StudentForm.NewStudentStartsLow | src/components/Students/StudentForm.tsx:23 | a student added with the opening balance of 0 is on the low-balance list |
| StudentForm.FreshIdKeepsUnique | src/contexts/DataContext.tsx:438-441 | appending a student whose id no student has keeps all ids distinct |
| StudentForm.CheckPhoto | src/components/Students/StudentForm.tsx:52-61 | a file above 5 MB is refused for its size whatever its type; otherwise a type not starting with image/ is refused; otherwise the file is accepted |
| StudentForm.StudentEntry.constructor | src/components/Students/StudentForm.tsx:14-25 | the form opens with empty texts, a meal charge of 80, a balance of 0 and no photo |
| StudentForm.StudentEntry.Change | src/components/Students/StudentForm.tsx:40-46 | the form becomes the one handleChange computes for that input |
| StudentForm.StudentEntry.UploadPhoto | src/components/Students/StudentForm.tsx:48-74 | a refused file leaves the form unchanged; an accepted one changes only the photo, to the file's data URL |
| StudentForm.StudentEntry.RemovePhoto | src/components/Students/StudentForm.tsx:76-85 | only the photo changes, to the empty text |
| StudentForm.StudentEntry.Submit | src/components/Students/StudentForm.tsx:27-34 | a form with every required input filled appends exactly its student to the store and changes nothing else; any other form adds nothing |
| StudentForm.UploadThenRemove | src/components/Students/StudentForm.tsx:48-85 | uploading then removing a photo leaves the form as before except for an empty photo |
| SettingsPage.DefaultSettings | src/components/Settings/SettingsManager.tsx:9-49 | the settings open with exactly the five categories general, notifications, security, appearance and system |
| SettingsPage.ChangeSetting | src/components/Settings/SettingsManager.tsx:62-70 | the changed settings hold the category and the key, and the key holds the new value; the category's record is the old one with the key set, or a record of that key alone when the category was missing |
| SettingsPage.ChangeSettingLeavesOthers | src/components/Settings/SettingsManager.tsx:62-70 | every other category and every other key of the category keep their values |
| SettingsPage.LastChangeWins | src/components/Settings/SettingsManager.tsx:62-70 | two changes of the same key equal the second change alone |
| SettingsPage.ChangeBackRestores | src/components/Settings/SettingsManager.tsx:62-70 | changing an existing key and changing it back restores the settings |
| SettingsPage.ChangesCommute | src/components/Settings/SettingsManager.tsx:62-70 | changes to two different keys give the same settings in either order |
| SettingsPage.SameCategoryCommute | src/components/Settings/SettingsManager.tsx:62-70 | changes to two different keys of one category commute |
| SettingsPage.OtherCategoriesCommute | src/components/Settings/SettingsManager.tsx:62-70 | changes in two different categories commute |
| SettingsPage.CheckNewPassword | src/components/Settings/SettingsManager.tsx:97-105 | a mismatch is reported first; a matching password shorter than 6 is too short; a matching password of 6 or more is accepted |
| SettingsPage.PanelFor | src/components/Settings/SettingsManager.tsx:522-537 | any tab id other than the four named ones shows the general panel |
| SettingsPage.EachTabOpensItsPanel | src/components/Settings/SettingsManager.tsx:522-537 | each tab of the tab list opens its own panel |
| SettingsPage.SettingsView.constructor | src/components/Settings/SettingsManager.tsx:8-52 | the page opens on the general tab with the default settings and empty password fields |
| SettingsPage.SettingsView.SelectTab | src/components/Settings/SettingsManager.tsx:577 | only the active tab changes |
| SettingsPage.SettingsView.Change | src/components/Settings/SettingsManager.tsx:62-70 | only the settings change, by ChangeSetting |
| SettingsPage.SettingsView.TypePasswords | src/components/Settings/SettingsManager.tsx:51-52 | only the two password fields change, to the typed texts |
| SettingsPage.SettingsView.ChangePassword | src/components/Settings/SettingsManager.tsx:97-110 | the verdict is that of the checks; a refused password leaves the fields as typed, an accepted one clears both; settings and tab never change |
| SignUp.CheckSignUp | src/components/Auth/SignUp.tsx:27-40 | a missing name, email or password is reported first, then a mismatch, then a password shorter than 6; the form is accepted exactly when none applies |
| SignUp.OptionalFieldsIgnored | src/components/Auth/SignUp.tsx:27-40 | the phone, the address and the role never change the verdict |
| SignUp.AcceptedPasswordPassesSettings | src/components/Auth/SignUp.tsx:32-40 | a password the sign-up accepts passes the settings page's password change too |
| SignUp.SignUpPage.constructor | src/components/Auth/SignUp.tsx:8-19 | the form opens empty with the student role, not loading and still on the page |
| SignUp.SignUpPage.Change | src/components/Auth/SignUp.tsx:54-59 | only the named field of the form changes, to the typed text |
| SignUp.SignUpPage.ChooseRole | src/components/Auth/SignUp.tsx:168-178 | only the role changes, to one of the two offered roles |
| SignUp.SignUpPage.Submit | src/components/Auth/SignUp.tsx:21-52 | the verdict is that of the checks, the form is unchanged, loading is cleared on every path, and the page moves to the login page exactly when the form is accepted |
| SignUp.SignUpPage.BackToLogin | src/components/Auth/SignUp.tsx:61-63 | the page moves to the login page and nothing else changes |
| Sidebar.StaffItems | src/components/Layout/Sidebar.tsx:28-38 | one staff item per page, in order, open to the administrator and the supervisor |
| Sidebar.Menu | src/components/Layout/Sidebar.tsx:25-40 | the menu has the staff pages plus three items |
| Sidebar.VisibleItems | src/components/Layout/Sidebar.tsx:42-44 | nothing is shown without a user; with one, an item is shown exactly when it is in the menu and lists the user's role |
| Sidebar.SettingsForAdminOnly | src/components/Layout/Sidebar.tsx:39-44 | the settings item is shown exactly to the administrator |
| Sidebar.PaymentPageForStudentsOnly | src/components/Layout/Sidebar.tsx:27-44 | the student payment item is shown exactly to students |
| Sidebar.DashboardForAll | src/components/Layout/Sidebar.tsx:26-44 | the dashboard is shown to every signed-in user |
| Sidebar.MenuSplits | src/components/Layout/Sidebar.tsx:25-44 | the filtered menu is the filtered fixed head, staff pages and settings item, in order |
| Sidebar.AdminMenu | src/components/Layout/Sidebar.tsx:25-44 | the administrator sees the dashboard, every staff page in order and the settings |
| Sidebar.SupervisorMenu | src/components/Layout/Sidebar.tsx:25-44 | a supervisor sees the dashboard and every staff page in order, without the settings |
| Sidebar.StudentMenu | src/components/Layout/Sidebar.tsx:25-44 | a student sees the dashboard and the payment page only |

## Left out
- `Store.DataStore.AddAttendance`, `Store.DataStore.AddPayment` and `BiometricTerminal.Terminal.FinishScan` run one event at a time on the current state. The source reads `students` from the closure of the render that created the handler, and the three-second scan callback uses the students, the selected device and the attendance handler of the render that started the scan, so an update landing in between is not seen there; the model does not capture such stale snapshots.
- `MobilePayment.Desk.Pay`, `StudentPortal.Portal.Pay` and `QrAttendance.Station.DemoScan` run as one step. The source awaits two 1.5-second waits before recording a desk payment, and one 2-second wait before recording a portal payment; the demo scan fires one second after the student is drawn. The payment is built from the inputs the handler saw when it started, and the inputs are cleared only after the wait. The model does not capture edits to the inputs, or other events, that land during the wait.
- `SignUp.SignUpPage.Submit`: models the submit handler only; the browser's `required` and `type="email"` checks that block submission before the handler runs are not modelled, so the model hands an empty confirmation or an email without an `@` to the handler, whose own checks are the missing name, email or password, the password mismatch and the six-character minimum.
- Rendering, styling, icons, toasts and `confirm` dialogs are not modelled. A handler that only shows a toast changes nothing in the model. The delete buttons of the student list and the expense, cash and supplier pages are examples.
- Clocks become parameters: `today`, ISO timestamps, `Date.now()` ids and millisecond stamps. Records are stamped with the UTC date from `toISOString` while screens compare with the local date. Each operation therefore takes the day it uses as its own parameter. `Calendar.MonthOf`, used by `Dashboard.MonthCounts`, reads the month from the date text. The source's `new Date(a.date).getMonth()` parses the text as UTC midnight and reads the month in local time, so west of UTC the first day of a month counts for the previous month; the model does not capture that shift.
- Two ids drawn from `Date.now()` in the same millisecond could collide. The store does not assume unique ids; the lemmas that need them take `UniqueIds` as a precondition.
- Randomness becomes parameters: a drawn `real` in [0, 1) compared with the source's thresholds, or a drawn index for "a random student".
- `Number(value)` is modelled for whole-number inputs only: the empty text gives 0, and `NaN` and decimals are not modelled. A required number input such as the meal charge never shows the empty text, because its controlled value is re-rendered as a number.
- Floating point is not modelled; money is an integer amount. Averages and percentages are computed on whole numbers and rounded half up, as `Math.round` rounds. `Reports.AttendanceStats` keeps its unrounded rate as a `real`.
- The mobile wallet's charge (a percentage rounded with `Math.round`) appears only in a toast and is not modelled.
- `MobilePayment`: the success-rate percentage on the page is not modelled. `MobilePayment.StatusCountsBounded` bounds the counts it divides.
- String lengths are counted in characters. JavaScript counts UTF-16 code units, which differs only for characters outside the basic plane.
- Case-insensitive search folds ASCII letters only; Bengali text has no case.
- `Object.entries` lists keys in insertion order in this model. JavaScript lists integer-like keys first, so the order of the pending attendance and of the report maps may differ from the browser's.
- Radio buttons and select boxes hold datatype values rather than their text.
- The QR page's scan-mode interval, the camera and the `JSON.parse` of a scanned code are not modelled. `QrAttendance.Station.MarkByQr` takes the already parsed payload, so a code that fails to parse is not modelled. QR image generation, PDF download and sharing are not modelled either.
- The fingerprint device's `testConnection` is not modelled.
- `MobilePayment.Desk.FeedTick` requires the drawn student and amount indices to be in range whenever a payment is drawn. The source instead picks from a non-empty list at random.
- `Reports`: `getDateRange` (the week and month bounds) is not modelled. The range's first and last day are parameters; `Reports.SingleDayRange` covers the "today" case. The daily chart loop is not modelled either.
- `Reports`: the low-balance list's first five (`slice(0, 5)`) is not modelled. The low-balance figures come from `StudentList`.
- `Dashboard`: the lists of recent payments and recent attendance are display slices and are not modelled.
- The supplier form component is not part of this model. The supplier page's store operations are modelled.
- The browser checks a form's `required`, `min`, `max` and `pattern` attributes before the submit handler runs. `StudentForm.StudentEntry.Submit` models that check as `RequiredFilled`, `PaymentForm.PaymentEntry.Submit` as `PaymentInputsValid`, `DueForm.DueEntry.Submit` as `DueInputsValid` and `DeviceForm.DeviceEntry.Submit` as `DeviceInputsValid`. The cash and expense forms' attributes ask no more than their handlers do for whole numbers, so their submits model the handler's checks alone. The browser's messages and the handler's toasts are not modelled.
- The student form's photo is read by `FileReader`; its data URL is a parameter.
- The settings page's save, reset and export are not modelled, since they use `localStorage`, a page reload and a file download.
- `SignUp.SignUpPage.Submit`: the two-second wait and the navigation to the login page are modelled as the flag `sentToLogin`.
- `Sidebar`: the lemmas are stated for a menu over any list of staff pages; `Sidebar.MenuItems` is the sidebar's own list.

## Findings

| source | as written | input that shows it | evidently intended | confidence | as-written member | corrected member |
|---|---|---|---|---|---|---|
| src/components/Dashboard/Dashboard.tsx:345-356 | the student's "this month" present and absent days compare only the month number (`getMonth()`) | a present record dated 2025-10-03, viewed on 2026-10-15, is counted as a present day of this month | count only records of the same year and month as today | not executed | `Dashboard.MonthPresentAsWritten`, `Dashboard.LastYearCountedAsWritten` | `Dashboard.MonthCounts`, `Dashboard.OtherYearNotCounted` |
