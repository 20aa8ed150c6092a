/** The records the dashboard keeps (src/types/index.ts). Dates are the
    `yyyy-MM-dd` strings the screens store; timestamps are opaque strings. */
module Types {
  import opened Seqs

  /** A `yyyy-MM-dd` calendar date, as stored in the records. */
  type DateText = string

  datatype Role = Admin | Supervisor | StudentRole

  datatype User = User(id: string, name: string, email: string, role: Role)

  datatype StudentStatus = Active | Inactive

  datatype Student = Student(
    id: string,
    name: string,
    roll: string,
    className: string,
    section: string,
    photo: Option<string>,
    parentPhone: string,
    parentName: string,
    address: string,
    mealCharge: int,
    balance: int,
    status: StudentStatus,
    createdAt: string)

  datatype AttendanceMethod = Biometric | Qr | Manual

  datatype Attendance = Attendance(
    id: string,
    studentId: string,
    date: DateText,
    present: bool,
    via: AttendanceMethod,
    timestamp: string)

  datatype PaymentMethod = Bkash | Nagad | Rocket | Upay | Cash | Bank

  datatype PaymentStatus = Pending | Completed | Failed

  /** The mobile-banking methods `['bkash', 'nagad', 'rocket', 'upay']`. */
  predicate IsMobile(m: PaymentMethod)
  {
    m == Bkash || m == Nagad || m == Rocket || m == Upay
  }

  /** The method of the mobile payment screens, whose choice offers only those four. */
  type MobileMethod = m: PaymentMethod | IsMobile(m) witness Bkash

  datatype Payment = Payment(
    id: string,
    studentId: string,
    amount: int,
    via: PaymentMethod,
    transactionId: Option<string>,
    date: DateText,
    status: PaymentStatus)

  datatype Expense = Expense(
    id: string,
    category: string,
    item: string,
    quantity: int,
    unitPrice: int,
    totalPrice: int,
    supplierId: Option<string>,
    date: DateText,
    description: Option<string>)

  datatype Supplier = Supplier(
    id: string,
    name: string,
    phone: string,
    address: string,
    previousDue: int,
    todaysBill: int,
    todaysDeposit: int,
    totalDue: int,
    lastUpdated: string)

  datatype DueCustomer = DueCustomer(
    id: string,
    name: string,
    phone: string,
    previousDue: int,
    todaysDue: int,
    deposit: int,
    totalDue: int,
    dueDate: DateText,
    reminderSent: bool)

  /** Where cash came from; `ExpenseSource` is the 'expense' source that the
      seed data and the cash-entry form use for money going out. */
  datatype CashSource = Home | Match | Shop | MealPayment | ExpenseSource | Other

  datatype CashEntry = CashEntry(
    id: string,
    source: CashSource,
    amount: int,
    description: string,
    date: DateText)

  datatype DeviceStatus = Connected | Disconnected | Scanning | Error

  datatype BiometricDevice = BiometricDevice(
    id: string,
    name: string,
    ip: string,
    port: Option<int>,
    model: Option<string>,
    location: Option<string>,
    status: DeviceStatus,
    lastSync: string,
    isActive: bool,
    maxUsers: Option<int>,
    currentUsers: Option<int>,
    firmwareVersion: Option<string>,
    serialNumber: Option<string>)

  /** A select box whose first option is 'all'. */
  datatype Choice<T> = All | Only(value: T)

  predicate Chosen<T(==)>(c: Choice<T>, x: T)
  {
    c.All? || c.value == x
  }

  /** The field projections the screens sum and compare. */
  function PaymentAmount(p: Payment): int { p.amount }
  function CashAmount(c: CashEntry): int { c.amount }
  function ExpenseTotal(e: Expense): int { e.totalPrice }

  function PaymentDateIs(day: DateText): Payment -> bool { (p: Payment) => p.date == day }
  function CashDateIs(day: DateText): CashEntry -> bool { (c: CashEntry) => c.date == day }
  function ExpenseDateIs(day: DateText): Expense -> bool { (e: Expense) => e.date == day }
  function AttendanceDateIs(day: DateText): Attendance -> bool { (a: Attendance) => a.date == day }
  function PaymentOf(studentId: string): Payment -> bool { (p: Payment) => p.studentId == studentId }
  function AttendanceOf(studentId: string): Attendance -> bool { (a: Attendance) => a.studentId == studentId }
  function IsPresent(a: Attendance): bool { a.present }
  function PaymentVia(p: Payment): PaymentMethod { p.via }
  function PaymentStatusOf(p: Payment): PaymentStatus { p.status }
  function IsMobilePayment(p: Payment): bool { IsMobile(p.via) }
  function StudentIdIs(id: string): Student -> bool { (s: Student) => s.id == id }
}
