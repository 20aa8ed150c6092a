/** The side menu (src/components/Layout/Sidebar.tsx): the fixed menu and the items a
    signed-in user's role may see. */
module Sidebar {
  import opened Seqs
  import opened Types

  /** The pages the menu links to. */
  datatype Page = HomePage | StudentPaymentPage | StudentsPage | AttendancePage | BiometricPage | QrPage |
                  PaymentsPage | MobilePaymentPage | ExpensesPage | SuppliersPage | DuePage | CashPage |
                  ReportsPage | SettingsRoute

  /** The route of each page. */
  function Route(page: Page): string
  {
    match page
    case HomePage => "/"
    case StudentPaymentPage => "/student-payment"
    case StudentsPage => "/students"
    case AttendancePage => "/attendance"
    case BiometricPage => "/biometric-attendance"
    case QrPage => "/qr-attendance"
    case PaymentsPage => "/payments"
    case MobilePaymentPage => "/mobile-payment"
    case ExpensesPage => "/expenses"
    case SuppliersPage => "/suppliers"
    case DuePage => "/due-customers"
    case CashPage => "/cash-tracking"
    case ReportsPage => "/reports"
    case SettingsRoute => "/settings"
  }

  datatype MenuItem = MenuItem(path: Page, roles: seq<Role>)

  /** The roles of the staff pages. */
  const Staff: seq<Role> := [Admin, Supervisor]

  /** The staff pages, in menu order, from the student list to the reports. */
  const StaffPaths: seq<Page> := [
    StudentsPage, AttendancePage, BiometricPage, QrPage, PaymentsPage, MobilePaymentPage, ExpensesPage,
    SuppliersPage, DuePage, CashPage, ReportsPage]

  /** Menu items open to the staff roles, one per path. */
  function StaffItems(paths: seq<Page>): (r: seq<MenuItem>)
    ensures |r| == |paths|
    ensures forall i :: 0 <= i < |paths| ==> r[i] == MenuItem(paths[i], Staff)
  {
    if paths == [] then [] else [MenuItem(paths[0], Staff)] + StaffItems(paths[1..])
  }

  const Dashboard := MenuItem(HomePage, [Admin, Supervisor, StudentRole])
  const StudentPayment := MenuItem(StudentPaymentPage, [StudentRole])
  const SettingsItem := MenuItem(SettingsRoute, [Admin])

  /** A menu of this shape: the dashboard, the student payment page, the given staff
      pages, the settings. */
  function Menu(staff: seq<Page>): (r: seq<MenuItem>)
    ensures |r| == |staff| + 3
  {
    [Dashboard, StudentPayment] + StaffItems(staff) + [SettingsItem]
  }

  /** The sidebar's menu, in display order. */
  function MenuItems(): seq<MenuItem>
  {
    Menu(StaffPaths)
  }

  function Allows(role: Role): MenuItem -> bool
  {
    (item: MenuItem) => role in item.roles
  }

  /** filteredItems: nothing without a user, else the items whose roles include the
      user's role, in menu order. */
  function VisibleItems(menu: seq<MenuItem>, user: Option<User>): (r: seq<MenuItem>)
    ensures user.None? ==> r == []
    ensures user.Some? ==> forall item :: item in r <==> item in menu && user.value.role in item.roles
  {
    if user.None? then [] else
      FilterMembers(menu, Allows(user.value.role));
      Filter(menu, Allows(user.value.role))
  }

  /** The settings item is shown to the administrator only. */
  lemma {:induction false} SettingsForAdminOnly(staff: seq<Page>, user: User)
    ensures SettingsItem in VisibleItems(Menu(staff), Some(user)) <==> user.role == Admin
  {
    assert Menu(staff)[|staff| + 2] == SettingsItem;
  }

  /** The student payment item is shown to students only. */
  lemma {:induction false} PaymentPageForStudentsOnly(staff: seq<Page>, user: User)
    ensures StudentPayment in VisibleItems(Menu(staff), Some(user)) <==> user.role == StudentRole
  {
    assert Menu(staff)[1] == StudentPayment;
  }

  /** The dashboard is shown to every signed-in user. */
  lemma {:induction false} DashboardForAll(staff: seq<Page>, user: User)
    ensures Dashboard in VisibleItems(Menu(staff), Some(user))
  {
    assert Menu(staff)[0] == Dashboard;
    assert user.role == Dashboard.roles[0] || user.role == Dashboard.roles[1] || user.role == Dashboard.roles[2];
  }

  /** The pages of a list of items. */
  function Paths(items: seq<MenuItem>): (r: seq<Page>)
    ensures |r| == |items|
  {
    if items == [] then [] else [items[0].path] + Paths(items[1..])
  }

  lemma {:induction false} PathsAppend(a: seq<MenuItem>, b: seq<MenuItem>)
    ensures Paths(a + b) == Paths(a) + Paths(b)
  {
    if a == [] {
      assert a + b == b;
    } else {
      calc {
        Paths(a + b);
        [(a + b)[0].path] + Paths((a + b)[1..]);
        { assert (a + b)[1..] == a[1..] + b; PathsAppend(a[1..], b); }
        [a[0].path] + (Paths(a[1..]) + Paths(b));
      }
    }
  }

  lemma {:induction false} PathsOfStaff(staff: seq<Page>)
    ensures Paths(StaffItems(staff)) == staff
  {
    if staff != [] {
      PathsOfStaff(staff[1..]);
      assert StaffItems(staff)[1..] == StaffItems(staff[1..]);
    }
  }

  lemma {:induction false} FilterAll<T(!new)>(xs: seq<T>, p: T -> bool)
    requires forall i :: 0 <= i < |xs| ==> p(xs[i])
    ensures Filter(xs, p) == xs
  {
    if xs != [] {
      FilterAll(xs[1..], p);
    }
  }

  /** The menu splits into its segments under any role's filter, in order. */
  lemma {:induction false} MenuSplits(staff: seq<Page>, role: Role)
    ensures Filter(Menu(staff), Allows(role)) ==
            Filter([Dashboard, StudentPayment], Allows(role)) + Filter(StaffItems(staff), Allows(role)) +
            Filter([SettingsItem], Allows(role))
  {
    var p := Allows(role);
    FilterAppend([Dashboard, StudentPayment] + StaffItems(staff), [SettingsItem], p);
    FilterAppend([Dashboard, StudentPayment], StaffItems(staff), p);
  }

  /** The administrator sees every item but the student payment page, in menu order. */
  lemma {:induction false} AdminMenu(staff: seq<Page>, admin: User)
    requires admin.role == Admin
    ensures Paths(VisibleItems(Menu(staff), Some(admin))) == [HomePage] + staff + [SettingsRoute]
  {
    var items := StaffItems(staff);
    AdminItems(staff);
    PathsAppend([Dashboard] + items, [SettingsItem]);
    PathsAppend([Dashboard], items);
    PathsOfStaff(staff);
  }

  lemma {:induction false} AdminItems(staff: seq<Page>)
    ensures Filter(Menu(staff), Allows(Admin)) == [Dashboard] + StaffItems(staff) + [SettingsItem]
  {
    var p := Allows(Admin);
    MenuSplits(staff, Admin);
    FilterAll(StaffItems(staff), p);
    assert Filter([Dashboard, StudentPayment], p) == [Dashboard];
    assert Filter([SettingsItem], p) == [SettingsItem];
  }

  /** A supervisor sees what the administrator sees except the settings. */
  lemma {:induction false} SupervisorMenu(staff: seq<Page>, supervisor: User)
    requires supervisor.role == Supervisor
    ensures Paths(VisibleItems(Menu(staff), Some(supervisor))) == [HomePage] + staff
  {
    SupervisorItems(staff);
    PathsAppend([Dashboard], StaffItems(staff));
    PathsOfStaff(staff);
  }

  lemma {:induction false} SupervisorItems(staff: seq<Page>)
    ensures Filter(Menu(staff), Allows(Supervisor)) == [Dashboard] + StaffItems(staff)
  {
    var p := Allows(Supervisor);
    MenuSplits(staff, Supervisor);
    FilterAll(StaffItems(staff), p);
    assert Filter([Dashboard, StudentPayment], p) == [Dashboard];
    assert Filter([SettingsItem], p) == [];
  }

  /** A student sees the dashboard and the payment page only. */
  lemma {:induction false} StudentMenu(staff: seq<Page>, student: User)
    requires student.role == StudentRole
    ensures Paths(VisibleItems(Menu(staff), Some(student))) == [HomePage, StudentPaymentPage]
  {
    var p := Allows(StudentRole);
    MenuSplits(staff, StudentRole);
    FilterEmpty(StaffItems(staff), p);
    assert Filter([Dashboard, StudentPayment], p) == [Dashboard, StudentPayment];
    assert Filter([SettingsItem], p) == [];
    assert Paths([Dashboard, StudentPayment]) == [HomePage, StudentPaymentPage];
  }
}
