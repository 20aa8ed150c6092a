/** The in-memory record store shared by every screen (src/contexts/DataContext.tsx):
    eight lists, append / update-by-id / delete-by-id operations, and the two rules
    that tie attendance and payments to a student's balance. */
module Store {
  import opened Seqs
  import opened Types

  /** The eight lists at one moment. */
  datatype Db = Db(
    students: seq<Student>,
    attendance: seq<Attendance>,
    payments: seq<Payment>,
    expenses: seq<Expense>,
    suppliers: seq<Supplier>,
    dueCustomers: seq<DueCustomer>,
    cashEntries: seq<CashEntry>,
    devices: seq<BiometricDevice>)

  // ---------------------------------------------------------------------------
  // Partial records: `{ ...record, ...partial }`. A field the partial omits is None;
  // an optional field the partial sets to `undefined` is Some(None).

  function Or<T>(o: Option<T>, d: T): T
  {
    if o.Some? then o.value else d
  }

  datatype StudentPatch = StudentPatch(
    name: Option<string>, roll: Option<string>, className: Option<string>, section: Option<string>,
    photo: Option<Option<string>>, parentPhone: Option<string>, parentName: Option<string>,
    address: Option<string>, mealCharge: Option<int>, balance: Option<int>,
    status: Option<StudentStatus>, createdAt: Option<string>)

  /** `{ balance: b }` */
  function BalancePatch(b: int): StudentPatch
  {
    StudentPatch(None, None, None, None, None, None, None, None, None, Some(b), None, None)
  }

  function MergeStudent(p: StudentPatch): Student -> Student
  {
    (s: Student) => s.(name := Or(p.name, s.name), roll := Or(p.roll, s.roll),
            className := Or(p.className, s.className), section := Or(p.section, s.section),
            photo := Or(p.photo, s.photo), parentPhone := Or(p.parentPhone, s.parentPhone),
            parentName := Or(p.parentName, s.parentName), address := Or(p.address, s.address),
            mealCharge := Or(p.mealCharge, s.mealCharge), balance := Or(p.balance, s.balance),
            status := Or(p.status, s.status), createdAt := Or(p.createdAt, s.createdAt))
  }

  datatype ExpensePatch = ExpensePatch(
    category: Option<string>, item: Option<string>, quantity: Option<int>, unitPrice: Option<int>,
    totalPrice: Option<int>, supplierId: Option<Option<string>>, date: Option<DateText>,
    description: Option<Option<string>>)

  function MergeExpense(p: ExpensePatch): Expense -> Expense
  {
    (e: Expense) => e.(category := Or(p.category, e.category), item := Or(p.item, e.item),
            quantity := Or(p.quantity, e.quantity), unitPrice := Or(p.unitPrice, e.unitPrice),
            totalPrice := Or(p.totalPrice, e.totalPrice), supplierId := Or(p.supplierId, e.supplierId),
            date := Or(p.date, e.date), description := Or(p.description, e.description))
  }

  datatype SupplierPatch = SupplierPatch(
    name: Option<string>, phone: Option<string>, address: Option<string>,
    previousDue: Option<int>, todaysBill: Option<int>, todaysDeposit: Option<int>,
    totalDue: Option<int>, lastUpdated: Option<string>)

  function MergeSupplier(p: SupplierPatch): Supplier -> Supplier
  {
    (s: Supplier) => s.(name := Or(p.name, s.name), phone := Or(p.phone, s.phone), address := Or(p.address, s.address),
            previousDue := Or(p.previousDue, s.previousDue), todaysBill := Or(p.todaysBill, s.todaysBill),
            todaysDeposit := Or(p.todaysDeposit, s.todaysDeposit), totalDue := Or(p.totalDue, s.totalDue),
            lastUpdated := Or(p.lastUpdated, s.lastUpdated))
  }

  datatype DueCustomerPatch = DueCustomerPatch(
    name: Option<string>, phone: Option<string>, previousDue: Option<int>, todaysDue: Option<int>,
    deposit: Option<int>, totalDue: Option<int>, dueDate: Option<DateText>, reminderSent: Option<bool>)

  function MergeDueCustomer(p: DueCustomerPatch): DueCustomer -> DueCustomer
  {
    (c: DueCustomer) => c.(name := Or(p.name, c.name), phone := Or(p.phone, c.phone),
            previousDue := Or(p.previousDue, c.previousDue), todaysDue := Or(p.todaysDue, c.todaysDue),
            deposit := Or(p.deposit, c.deposit), totalDue := Or(p.totalDue, c.totalDue),
            dueDate := Or(p.dueDate, c.dueDate), reminderSent := Or(p.reminderSent, c.reminderSent))
  }

  datatype DevicePatch = DevicePatch(
    name: Option<string>, ip: Option<string>, port: Option<Option<int>>, model: Option<Option<string>>,
    location: Option<Option<string>>, status: Option<DeviceStatus>, lastSync: Option<string>,
    isActive: Option<bool>, maxUsers: Option<Option<int>>, currentUsers: Option<Option<int>>,
    firmwareVersion: Option<Option<string>>, serialNumber: Option<Option<string>>)

  /** `{ status: st }` */
  function StatusPatch(st: DeviceStatus): DevicePatch
  {
    DevicePatch(None, None, None, None, None, Some(st), None, None, None, None, None, None)
  }

  /** `{ status: st, lastSync: at }` */
  function SyncPatch(st: DeviceStatus, at: string): DevicePatch
  {
    DevicePatch(None, None, None, None, None, Some(st), Some(at), None, None, None, None, None)
  }

  function MergeDevice(p: DevicePatch): BiometricDevice -> BiometricDevice
  {
    (d: BiometricDevice) => d.(name := Or(p.name, d.name), ip := Or(p.ip, d.ip), port := Or(p.port, d.port),
            model := Or(p.model, d.model), location := Or(p.location, d.location),
            status := Or(p.status, d.status), lastSync := Or(p.lastSync, d.lastSync),
            isActive := Or(p.isActive, d.isActive), maxUsers := Or(p.maxUsers, d.maxUsers),
            currentUsers := Or(p.currentUsers, d.currentUsers),
            firmwareVersion := Or(p.firmwareVersion, d.firmwareVersion),
            serialNumber := Or(p.serialNumber, d.serialNumber))
  }

  function ExpenseIdIs(id: string): Expense -> bool { (e: Expense) => e.id == id }
  function SupplierIdIs(id: string): Supplier -> bool { (s: Supplier) => s.id == id }
  function DueCustomerIdIs(id: string): DueCustomer -> bool { (c: DueCustomer) => c.id == id }
  function DeviceIdIs(id: string): BiometricDevice -> bool { (d: BiometricDevice) => d.id == id }

  // ---------------------------------------------------------------------------
  // The balance rules

  predicate UniqueIds(ss: seq<Student>)
  {
    forall i, j :: 0 <= i < j < |ss| ==> ss[i].id != ss[j].id
  }

  /** updateStudent(id, patch): merge the patch into every student with that id. */
  function UpdateStudents(ss: seq<Student>, id: string, patch: StudentPatch): seq<Student>
  {
    MapWhere(ss, StudentIdIs(id), MergeStudent(patch))
  }

  /** updateStudent(id, { balance: b }): the students with that id get balance b, nothing else changes. */
  function SetBalance(ss: seq<Student>, id: string, b: int): (r: seq<Student>)
    ensures |r| == |ss|
    ensures forall i :: 0 <= i < |ss| ==> r[i] == (if ss[i].id == id then ss[i].(balance := b) else ss[i])
  {
    UpdateStudents(ss, id, BalancePatch(b))
  }

  /** The balance rule of addAttendance: the student find() returns for the id is
      written back with balance - mealCharge. */
  function ChargeMeal(ss: seq<Student>, id: string): (r: seq<Student>)
    ensures |r| == |ss|
  {
    match FindIndex(ss, StudentIdIs(id))
    case None => ss
    case Some(k) => SetBalance(ss, ss[k].id, ss[k].balance - ss[k].mealCharge)
  }

  /** The balance rule of addPayment: the student find() returns for the id is
      written back with balance + amount. */
  function CreditPayment(ss: seq<Student>, id: string, amount: int): (r: seq<Student>)
    ensures |r| == |ss|
  {
    match FindIndex(ss, StudentIdIs(id))
    case None => ss
    case Some(k) => SetBalance(ss, ss[k].id, ss[k].balance + amount)
  }

  /** Only balances change, only for the students carrying the id, and an unknown id changes nothing. */
  lemma {:induction false} ChargeMealFrame(ss: seq<Student>, id: string)
    ensures (forall i :: 0 <= i < |ss| ==> ss[i].id != id) ==> ChargeMeal(ss, id) == ss
    ensures forall i :: 0 <= i < |ss| && ss[i].id != id ==> ChargeMeal(ss, id)[i] == ss[i]
    ensures forall i :: 0 <= i < |ss| ==> ChargeMeal(ss, id)[i] == ss[i].(balance := ChargeMeal(ss, id)[i].balance)
  {
  }

  lemma {:induction false} CreditPaymentFrame(ss: seq<Student>, id: string, amount: int)
    ensures (forall i :: 0 <= i < |ss| ==> ss[i].id != id) ==> CreditPayment(ss, id, amount) == ss
    ensures forall i :: 0 <= i < |ss| && ss[i].id != id ==> CreditPayment(ss, id, amount)[i] == ss[i]
    ensures forall i :: 0 <= i < |ss| ==> CreditPayment(ss, id, amount)[i] == ss[i].(balance := CreditPayment(ss, id, amount)[i].balance)
  {
  }

  /** With distinct ids, a present record lowers that student's balance by exactly their meal charge. */
  lemma {:induction false} ChargeMealAt(ss: seq<Student>, id: string, i: nat)
    requires UniqueIds(ss) && i < |ss| && ss[i].id == id
    ensures ChargeMeal(ss, id)[i] == ss[i].(balance := ss[i].balance - ss[i].mealCharge)
  {
    var k := FindIndex(ss, StudentIdIs(id));
    assert k == Some(i);
  }

  /** With distinct ids, a payment raises that student's balance by exactly its amount. */
  lemma {:induction false} CreditPaymentAt(ss: seq<Student>, id: string, amount: int, i: nat)
    requires UniqueIds(ss) && i < |ss| && ss[i].id == id
    ensures CreditPayment(ss, id, amount)[i] == ss[i].(balance := ss[i].balance + amount)
  {
    var k := FindIndex(ss, StudentIdIs(id));
    assert k == Some(i);
  }

  /** addAttendance: append the record; when it says present, the student pays one meal. */
  function RecordAttendance(db: Db, rec: Attendance): (r: Db)
    ensures r.attendance == db.attendance + [rec]
    ensures r == db.(attendance := r.attendance, students := r.students)
    ensures !rec.present ==> r.students == db.students
    ensures rec.present ==> r.students == ChargeMeal(db.students, rec.studentId)
  {
    db.(attendance := db.attendance + [rec],
        students := if rec.present then ChargeMeal(db.students, rec.studentId) else db.students)
  }

  /** addPayment: append the payment and credit its amount to the student, whatever its status. */
  function RecordPayment(db: Db, p: Payment): (r: Db)
    ensures r.payments == db.payments + [p]
    ensures r == db.(payments := r.payments, students := r.students)
    ensures r.students == CreditPayment(db.students, p.studentId, p.amount)
  {
    db.(payments := db.payments + [p], students := CreditPayment(db.students, p.studentId, p.amount))
  }

  // ---------------------------------------------------------------------------
  // The ledger: what the student screens show as deposited and spent.

  /** Total of a student's payments (Dashboard.tsx: totalDeposited). */
  function Deposited(ps: seq<Payment>, id: string): int
  {
    Sum(Filter(ps, PaymentOf(id)), PaymentAmount)
  }

  /** Number of days a student was marked present. */
  function PresentDays(att: seq<Attendance>, id: string): nat
  {
    |Filter(Filter(att, AttendanceOf(id)), IsPresent)|
  }

  /** The balance a student would have had before any recorded payment or meal:
      balance - deposited + presentDays * mealCharge. */
  function Opening(db: Db, i: nat): int
    requires i < |db.students|
  {
    var s := db.students[i];
    s.balance - Deposited(db.payments, s.id) + MealCost(PresentDays(db.attendance, s.id), s.mealCharge)
  }

  /** What a number of present days costs at a meal charge (Dashboard.tsx: totalSpent). */
  function MealCost(days: nat, charge: int): int
  {
    days * charge
  }

  lemma {:induction false} MealCostStep(days: nat, charge: int)
    ensures MealCost(days + 1, charge) == MealCost(days, charge) + charge
  {
  }

  lemma {:induction false} PresentDaysAppend(att: seq<Attendance>, rec: Attendance, id: string)
    ensures PresentDays(att + [rec], id) == PresentDays(att, id) + (if rec.studentId == id && rec.present then 1 else 0)
  {
    FilterAppend(att, [rec], AttendanceOf(id));
    FilterAppend(Filter(att, AttendanceOf(id)), Filter([rec], AttendanceOf(id)), IsPresent);
  }

  lemma {:induction false} DepositedAppend(ps: seq<Payment>, p: Payment, id: string)
    ensures Deposited(ps + [p], id) == Deposited(ps, id) + (if p.studentId == id then p.amount else 0)
  {
    FilterAppend(ps, [p], PaymentOf(id));
    SumAppend(Filter(ps, PaymentOf(id)), Filter([p], PaymentOf(id)), PaymentAmount);
  }

  /** Recording attendance never changes any student's opening balance: a present
      record takes one meal charge off the balance and adds one present day. */
  lemma {:induction false} AttendanceKeepsOpening(db: Db, rec: Attendance, i: nat)
    requires UniqueIds(db.students) && i < |db.students|
    ensures i < |RecordAttendance(db, rec).students|
    ensures Opening(RecordAttendance(db, rec), i) == Opening(db, i)
  {
    var s := db.students[i];
    PresentDaysAppend(db.attendance, rec, s.id);
    if rec.present && rec.studentId == s.id {
      ChargeMealAt(db.students, s.id, i);
      MealCostStep(PresentDays(db.attendance, s.id), s.mealCharge);
    }
  }

  /** Recording a payment never changes any student's opening balance. */
  lemma {:induction false} PaymentKeepsOpening(db: Db, p: Payment, i: nat)
    requires UniqueIds(db.students) && i < |db.students|
    ensures i < |RecordPayment(db, p).students|
    ensures Opening(RecordPayment(db, p), i) == Opening(db, i)
  {
    var s := db.students[i];
    DepositedAppend(db.payments, p, s.id);
    if p.studentId == s.id {
      CreditPaymentAt(db.students, s.id, p.amount, i);
    }
  }

  // ---------------------------------------------------------------------------
  // Device construction and deletion

  /** The fields addBiometricDevice receives (everything but id, status, lastSync, isActive). */
  datatype DeviceInput = DeviceInput(
    name: string, ip: string, port: Option<int>, model: Option<string>, location: Option<string>,
    maxUsers: Option<int>, firmwareVersion: Option<string>, serialNumber: Option<string>)

  /** A new device starts disconnected, active, with no enrolled users. */
  function NewDevice(input: DeviceInput, id: string, now: string): (d: BiometricDevice)
    ensures d.id == id && d.status == Disconnected && d.isActive && d.currentUsers == Some(0)
    ensures d.lastSync == now
    ensures d.name == input.name && d.ip == input.ip && d.port == input.port && d.model == input.model
    ensures d.location == input.location && d.maxUsers == input.maxUsers
    ensures d.firmwareVersion == input.firmwareVersion && d.serialNumber == input.serialNumber
  {
    BiometricDevice(id, input.name, input.ip, input.port, input.model, input.location, Disconnected,
                    now, true, input.maxUsers, Some(0), input.firmwareVersion, input.serialNumber)
  }

  /** deleteBiometricDevice: filter(d => d.id !== id). */
  function RemoveDevice(ds: seq<BiometricDevice>, id: string): (r: seq<BiometricDevice>)
    ensures forall d :: d in r <==> d in ds && d.id != id
    ensures |r| <= |ds|
  {
    FilterMembers(ds, Not(DeviceIdIs(id)));
    Filter(ds, Not(DeviceIdIs(id)))
  }

  /** Deleting an id that no device has keeps the list as it is. */
  lemma {:induction false} RemoveAbsentDevice(ds: seq<BiometricDevice>, id: string)
    requires forall i :: 0 <= i < |ds| ==> ds[i].id != id
    ensures RemoveDevice(ds, id) == ds
  {
    if ds != [] {
      RemoveAbsentDevice(ds[1..], id);
      RemoveDeviceUnfold(ds, id);
      assert ds == [ds[0]] + ds[1..];
    }
  }

  lemma {:induction false} RemoveDeviceUnfold(ds: seq<BiometricDevice>, id: string)
    requires ds != []
    ensures RemoveDevice(ds, id) == (if ds[0].id != id then [ds[0]] else []) + RemoveDevice(ds[1..], id)
  {
    assert Not(DeviceIdIs(id))(ds[0]) == (ds[0].id != id);
  }

  /** Deleting removes exactly the records with that id: with unique ids, one fewer device. */
  lemma {:induction false} RemoveOneDevice(ds: seq<BiometricDevice>, id: string, k: nat)
    requires k < |ds| && ds[k].id == id
    requires forall i :: 0 <= i < |ds| && i != k ==> ds[i].id != id
    ensures RemoveDevice(ds, id) == ds[..k] + ds[k + 1..]
  {
    RemoveDeviceUnfold(ds, id);
    if k == 0 {
      RemoveAbsentDevice(ds[1..], id);
    } else {
      RemoveOneDevice(ds[1..], id, k - 1);
      assert ds[1..][..k - 1] == ds[1..k];
      assert ds[1..][k..] == ds[k + 1..];
      assert ds[..k] == [ds[0]] + ds[1..k];
    }
  }

  // ---------------------------------------------------------------------------
  // The demo data loaded on start-up (DataContext.tsx:51-426).
  // `now` is new Date().toISOString(), `hourAgo` the same one hour earlier,
  // `today` the UTC date part of now.

  const Photo1: string := "https://images.pexels.com/photos/220453/pexels-photo-220453.jpeg?auto=compress&cs=tinysrgb&w=150&h=150&dpr=1"
  const Photo2: string := "https://images.pexels.com/photos/774909/pexels-photo-774909.jpeg?auto=compress&cs=tinysrgb&w=150&h=150&dpr=1"
  const Photo3: string := "https://images.pexels.com/photos/1239291/pexels-photo-1239291.jpeg?auto=compress&cs=tinysrgb&w=150&h=150&dpr=1"
  const Photo4: string := "https://images.pexels.com/photos/1181686/pexels-photo-1181686.jpeg?auto=compress&cs=tinysrgb&w=150&h=150&dpr=1"
  const Photo5: string := "https://images.pexels.com/photos/1043471/pexels-photo-1043471.jpeg?auto=compress&cs=tinysrgb&w=150&h=150&dpr=1"

  function SeedStudents(now: string): seq<Student>
  {
    [ Student("1", "Student User", "001", "Class 10", "A",
              Some(Photo1),
              "01712345678", "মোঃ করিম", "ঢাকা", 80, 1200, Active, now),
      Student("2", "ফাতিমা খাতুন", "002", "Class 10", "A",
              Some(Photo2),
              "01812345678", "মোঃ রহিম", "চট্টগ্রাম", 75, 250, Active, now),
      Student("3", "মোহাম্মদ রাহুল", "003", "Class 9", "B",
              Some(Photo3),
              "01912345678", "মোঃ আলী", "সিলেট", 85, 800, Active, now),
      Student("4", "সাদিয়া আক্তার", "004", "Class 8", "A",
              Some(Photo4),
              "01612345678", "মোঃ হাসান", "রাজশাহী", 70, 150, Active, now),
      Student("5", "তানভীর আহমেদ", "005", "Class 7", "C",
              Some(Photo5),
              "01512345678", "মোঃ সালাম", "খুলনা", 75, 950, Active, now) ]
  }

  function SeedAttendance(today: DateText, now: string): seq<Attendance>
  {
    [ Attendance("1", "1", today, true, Manual, now),
      Attendance("2", "2", today, true, Qr, now),
      Attendance("3", "3", today, false, Manual, now) ]
  }

  function SeedPayments(today: DateText): seq<Payment>
  {
    [ Payment("1", "1", 500, Bkash, Some("BKS123456"), today, Completed),
      Payment("2", "2", 300, Cash, None, today, Completed) ]
  }

  function SeedExpenses(today: DateText): seq<Expense>
  {
    [ Expense("1", "চাল-ডাল", "বাসমতি চাল", 10, 65, 650, None, today, Some("উন্নত মানের চাল")),
      Expense("2", "সবজি", "আলু", 5, 30, 150, None, today, None),
      Expense("3", "মাছ-মাংস", "রুই মাছ", 2, 350, 700, None, today, Some("তাজা রুই মাছ")),
      Expense("4", "তেল-মসলা", "সয়াবিন তেল", 2, 180, 360, None, today, None),
      Expense("5", "গ্যাস", "গ্যাস সিলিন্ডার", 1, 1200, 1200, None, today, None) ]
  }

  function SeedCashEntries(today: DateText): seq<CashEntry>
  {
    [ CashEntry("1", MealPayment, 2500, "আজকের মিল পেমেন্ট", today),
      CashEntry("2", Home, 5000, "বাড়ি থেকে টাকা", today),
      CashEntry("3", ExpenseSource, -1200, "গ্যাস সিলিন্ডার কিনেছি", today),
      CashEntry("4", Match, 800, "ডেলিভারি থেকে আয়", today),
      CashEntry("5", Shop, 1500, "দোকান থেকে আয়", today),
      CashEntry("6", ExpenseSource, -650, "চাল কিনেছি", today) ]
  }

  function SeedSuppliers(now: string): seq<Supplier>
  {
    [ Supplier("1", "রহিম ট্রেডার্স", "01712345678", "কাঁচাবাজার, ঢাকা", 5000, 2000, 3000, 4000, now),
      Supplier("2", "করিম এন্টারপ্রাইজ", "01812345679", "নিউমার্কেট, ঢাকা", 8000, 1500, 2000, 7500, now),
      Supplier("3", "আলী ব্রাদার্স", "01912345680", "চকবাজার, চট্টগ্রাম", 0, 3000, 3000, 0, now),
      Supplier("4", "হাসান সাপ্লায়ার্স", "01612345681", "কাপাসগোলা, সিলেট", 12000, 2500, 1000, 13500, now) ]
  }

  function SeedDueCustomers(): seq<DueCustomer>
  {
    [ DueCustomer("1", "মোঃ আব্দুল করিম", "01712345682", 2000, 500, 1000, 1500, "2025-01-15", false),
      DueCustomer("2", "রহিমা বেগম", "01812345683", 3000, 800, 500, 3300, "2025-01-10", true),
      DueCustomer("3", "সালাম মিয়া", "01912345684", 1500, 600, 2100, 0, "2025-01-20", false),
      DueCustomer("4", "ফাতেমা খাতুন", "01612345685", 4000, 1200, 800, 4400, "2025-01-05", true) ]
  }

  function SeedDevices(now: string, hourAgo: string): seq<BiometricDevice>
  {
    [ BiometricDevice("1", "Main Gate Scanner", "192.168.1.100", Some(4370), Some("ZKTeco F18"), Some("প্রধান গেট"),
                      Connected, now, true, Some(3000), Some(150), Some("6.60.1.85"), Some("ZKT001")),
      BiometricDevice("2", "Dining Hall Scanner", "192.168.1.101", Some(4370), Some("ZKTeco K50-A"), Some("ডাইনিং হল"),
                      Connected, now, true, Some(5000), Some(85), Some("6.70.2.10"), Some("ZKT004")),
      BiometricDevice("3", "Office Scanner", "192.168.1.102", Some(4370), Some("ZKTeco F22"), Some("অফিস রুম"),
                      Disconnected, hourAgo, false, Some(2000), Some(45), Some("6.60.1.88"), Some("ZKT003")),
      BiometricDevice("4", "Library Scanner", "192.168.1.103", Some(4370), Some("ZKTeco K50-A"), Some("লাইব্রেরি"),
                      Connected, now, true, Some(5000), Some(120), Some("6.70.2.10"), Some("ZKT005")) ]
  }

  predicate SupplierBalanced(s: Supplier)
  {
    s.totalDue == s.previousDue + s.todaysBill - s.todaysDeposit
  }

  predicate CustomerBalanced(c: DueCustomer)
  {
    c.totalDue == c.previousDue + c.todaysDue - c.deposit
  }

  /** The demo suppliers carry consistent running totals. */
  lemma {:induction false} SeedSuppliersBalanced(now: string)
    ensures forall s <- SeedSuppliers(now) :: SupplierBalanced(s)
  {
  }

  /** The demo due customers carry consistent running totals. */
  lemma {:induction false} SeedCustomersBalanced()
    ensures forall c <- SeedDueCustomers() :: CustomerBalanced(c)
  {
  }

  /** The demo students have distinct ids. */
  lemma {:induction false} SeedIdsUnique(now: string)
    ensures UniqueIds(SeedStudents(now))
  {
  }

  /** updateSupplier does not recompute totalDue: a patch that moves the previous due,
      bill or deposit but not totalDue leaves the stored total behind. */
  lemma {:induction false} UpdateSupplierKeepsTotal(s: Supplier, p: SupplierPatch)
    requires p.totalDue.None?
    ensures MergeSupplier(p)(s).totalDue == s.totalDue
    ensures SupplierBalanced(s) && p.todaysBill.None? && p.todaysDeposit.None? &&
            p.previousDue.Some? && p.previousDue.value != s.previousDue ==>
            !SupplierBalanced(MergeSupplier(p)(s))
  {
  }

  /** updateDueCustomer does not recompute totalDue either. */
  lemma {:induction false} UpdateCustomerKeepsTotal(c: DueCustomer, p: DueCustomerPatch)
    requires p.totalDue.None?
    ensures MergeDueCustomer(p)(c).totalDue == c.totalDue
    ensures CustomerBalanced(c) && p.todaysDue.None? && p.deposit.None? &&
            p.previousDue.Some? && p.previousDue.value != c.previousDue ==>
            !CustomerBalanced(MergeDueCustomer(p)(c))
  {
  }

  // ---------------------------------------------------------------------------

  /** The data provider: one field per list, one method per operation. Ids are
      passed in by the caller (the source uses Date.now()). */
  class DataStore {
    var students: seq<Student>
    var attendance: seq<Attendance>
    var payments: seq<Payment>
    var expenses: seq<Expense>
    var suppliers: seq<Supplier>
    var dueCustomers: seq<DueCustomer>
    var cashEntries: seq<CashEntry>
    var biometricDevices: seq<BiometricDevice>

    function State(): Db
      reads this
    {
      Db(students, attendance, payments, expenses, suppliers, dueCustomers, cashEntries, biometricDevices)
    }

    /** The provider after its start-up effect has loaded the demo data. */
    constructor Seeded(today: DateText, now: string, hourAgo: string)
      ensures students == SeedStudents(now) && attendance == SeedAttendance(today, now)
      ensures payments == SeedPayments(today) && expenses == SeedExpenses(today)
      ensures suppliers == SeedSuppliers(now) && dueCustomers == SeedDueCustomers()
      ensures cashEntries == SeedCashEntries(today) && biometricDevices == SeedDevices(now, hourAgo)
    {
      students := SeedStudents(now);
      attendance := SeedAttendance(today, now);
      payments := SeedPayments(today);
      expenses := SeedExpenses(today);
      suppliers := SeedSuppliers(now);
      dueCustomers := SeedDueCustomers();
      cashEntries := SeedCashEntries(today);
      biometricDevices := SeedDevices(now, hourAgo);
    }

    method AddStudent(s: Student)
      modifies this
      ensures State() == old(State()).(students := old(students) + [s])
    {
      students := students + [s];
    }

    method UpdateStudent(id: string, patch: StudentPatch)
      modifies this
      ensures State() == old(State()).(students := UpdateStudents(old(students), id, patch))
    {
      students := UpdateStudents(students, id, patch);
    }

    method AddAttendance(rec: Attendance)
      modifies this
      ensures State() == RecordAttendance(old(State()), rec)
    {
      attendance := attendance + [rec];
      if rec.present {
        students := ChargeMeal(students, rec.studentId);
      }
    }

    method AddPayment(p: Payment)
      modifies this
      ensures State() == RecordPayment(old(State()), p)
    {
      payments := payments + [p];
      students := CreditPayment(students, p.studentId, p.amount);
    }

    method AddExpense(e: Expense)
      modifies this
      ensures State() == old(State()).(expenses := old(expenses) + [e])
    {
      expenses := expenses + [e];
    }

    method UpdateExpense(id: string, patch: ExpensePatch)
      modifies this
      ensures State() == old(State()).(expenses := MapWhere(old(expenses), ExpenseIdIs(id), MergeExpense(patch)))
    {
      expenses := MapWhere(expenses, ExpenseIdIs(id), MergeExpense(patch));
    }

    method AddSupplier(s: Supplier)
      modifies this
      ensures State() == old(State()).(suppliers := old(suppliers) + [s])
    {
      suppliers := suppliers + [s];
    }

    method UpdateSupplier(id: string, patch: SupplierPatch)
      modifies this
      ensures State() == old(State()).(suppliers := MapWhere(old(suppliers), SupplierIdIs(id), MergeSupplier(patch)))
    {
      suppliers := MapWhere(suppliers, SupplierIdIs(id), MergeSupplier(patch));
    }

    method AddDueCustomer(c: DueCustomer)
      modifies this
      ensures State() == old(State()).(dueCustomers := old(dueCustomers) + [c])
    {
      dueCustomers := dueCustomers + [c];
    }

    method UpdateDueCustomer(id: string, patch: DueCustomerPatch)
      modifies this
      ensures State() == old(State()).(dueCustomers := MapWhere(old(dueCustomers), DueCustomerIdIs(id), MergeDueCustomer(patch)))
    {
      dueCustomers := MapWhere(dueCustomers, DueCustomerIdIs(id), MergeDueCustomer(patch));
    }

    method AddCashEntry(c: CashEntry)
      modifies this
      ensures State() == old(State()).(cashEntries := old(cashEntries) + [c])
    {
      cashEntries := cashEntries + [c];
    }

    method AddBiometricDevice(input: DeviceInput, id: string, now: string)
      modifies this
      ensures State() == old(State()).(devices := old(biometricDevices) + [NewDevice(input, id, now)])
    {
      biometricDevices := biometricDevices + [NewDevice(input, id, now)];
    }

    method UpdateBiometricDevice(id: string, patch: DevicePatch)
      modifies this
      ensures State() == old(State()).(devices := MapWhere(old(biometricDevices), DeviceIdIs(id), MergeDevice(patch)))
    {
      biometricDevices := MapWhere(biometricDevices, DeviceIdIs(id), MergeDevice(patch));
    }

    method DeleteBiometricDevice(id: string)
      modifies this
      ensures State() == old(State()).(devices := RemoveDevice(old(biometricDevices), id))
    {
      biometricDevices := RemoveDevice(biometricDevices, id);
    }
  }
}
