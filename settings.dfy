/** The settings page (src/components/Settings/SettingsManager.tsx): the settings held
    per category and key, the password change, and the tab shown. */
module SettingsPage {
  import opened Seqs

  /** A setting's value: a text, a switch or a number, as the inputs supply them. */
  datatype SettingValue = Text(text: string) | Flag(on: bool) | Num(n: int)

  /** The settings, category by category, each a record of keys to values. */
  type Settings = map<string, map<string, SettingValue>>

  /** The settings the page opens with. */
  function DefaultSettings(): (s: Settings)
    ensures s.Keys == {"general", "notifications", "security", "appearance", "system"}
  {
    map[
      "general" := map[
        "schoolName" := Text("স্কুল ডাইনিং ম্যানেজমেন্ট সিস্টেম"),
        "address" := Text("ঢাকা, বাংলাদেশ"),
        "phone" := Text("০১৭১২৩৪৫৬৭৮"),
        "email" := Text("admin@school.com"),
        "currency" := Text("BDT"),
        "timezone" := Text("Asia/Dhaka"),
        "language" := Text("bn")],
      "notifications" := map[
        "lowBalanceAlert" := Flag(true),
        "paymentNotification" := Flag(true),
        "attendanceReminder" := Flag(true),
        "expenseAlert" := Flag(true),
        "emailNotifications" := Flag(false),
        "smsNotifications" := Flag(true),
        "pushNotifications" := Flag(true)],
      "security" := map[
        "twoFactorAuth" := Flag(false),
        "sessionTimeout" := Num(30),
        "passwordExpiry" := Num(90),
        "loginAttempts" := Num(5),
        "requirePasswordChange" := Flag(false)],
      "appearance" := map[
        "theme" := Text("light"),
        "primaryColor" := Text("#3B82F6"),
        "fontSize" := Text("medium"),
        "compactMode" := Flag(false),
        "showAnimations" := Flag(true)],
      "system" := map[
        "autoBackup" := Flag(true),
        "backupFrequency" := Text("daily"),
        "dataRetention" := Num(365),
        "debugMode" := Flag(false),
        "maintenanceMode" := Flag(false)]
    ]
  }

  /** The record of a category; spreading a missing category gives an empty record. */
  function CategoryOf(s: Settings, category: string): (r: map<string, SettingValue>)
    ensures category !in s ==> r == map[]
    ensures category in s ==> r == s[category]
  {
    if category in s then s[category] else map[]
  }

  /** handleSettingChange: key `key` of category `category` takes the value. */
  function ChangeSetting(s: Settings, category: string, key: string, value: SettingValue): (r: Settings)
    ensures r.Keys == s.Keys + {category}
    ensures r[category].Keys == CategoryOf(s, category).Keys + {key}
    ensures r[category][key] == value
    ensures category in s ==> r[category] == s[category][key := value]
    ensures category !in s ==> r[category] == map[key := value]
  {
    s[category := CategoryOf(s, category)[key := value]]
  }

  /** Nothing but the one key changes: every other category, and every other key of the
      category, keeps its value. */
  lemma {:induction false} ChangeSettingLeavesOthers(s: Settings, category: string, key: string, value: SettingValue)
    ensures forall c :: c in s && c != category ==> ChangeSetting(s, category, key, value)[c] == s[c]
    ensures forall k :: k in CategoryOf(s, category) && k != key ==>
              ChangeSetting(s, category, key, value)[category][k] == s[category][k]
  {
  }

  /** A second change of the same key overrides the first. */
  lemma {:induction false} LastChangeWins(s: Settings, category: string, key: string, v: SettingValue, w: SettingValue)
    ensures ChangeSetting(ChangeSetting(s, category, key, v), category, key, w) == ChangeSetting(s, category, key, w)
  {
    var once := ChangeSetting(s, category, key, v);
    assert CategoryOf(once, category)[key := w] == CategoryOf(s, category)[key := w];
  }

  /** Putting an existing setting back to its old value restores all the settings. */
  lemma {:induction false} ChangeBackRestores(s: Settings, category: string, key: string, v: SettingValue)
    requires category in s && key in s[category]
    ensures ChangeSetting(ChangeSetting(s, category, key, v), category, key, s[category][key]) == s
  {
    var once := ChangeSetting(s, category, key, v);
    assert CategoryOf(once, category)[key := s[category][key]] == s[category];
  }

  /** Changing two different keys commutes. */
  lemma {:induction false} ChangesCommute(s: Settings, c1: string, k1: string, v1: SettingValue,
                                          c2: string, k2: string, v2: SettingValue)
    requires c1 != c2 || k1 != k2
    ensures ChangeSetting(ChangeSetting(s, c1, k1, v1), c2, k2, v2) ==
            ChangeSetting(ChangeSetting(s, c2, k2, v2), c1, k1, v1)
  {
    if c1 == c2 {
      SameCategoryCommute(s, c1, k1, v1, k2, v2);
    } else {
      OtherCategoriesCommute(s, c1, k1, v1, c2, k2, v2);
    }
  }

  lemma {:induction false} SameCategoryCommute(s: Settings, c: string, k1: string, v1: SettingValue,
                                               k2: string, v2: SettingValue)
    requires k1 != k2
    ensures ChangeSetting(ChangeSetting(s, c, k1, v1), c, k2, v2) ==
            ChangeSetting(ChangeSetting(s, c, k2, v2), c, k1, v1)
  {
    var m := CategoryOf(s, c);
    UpdatesCommute(m, k1, v1, k2, v2);
    assert CategoryOf(ChangeSetting(s, c, k1, v1), c) == m[k1 := v1];
    assert CategoryOf(ChangeSetting(s, c, k2, v2), c) == m[k2 := v2];
  }

  lemma {:induction false} UpdatesCommute<K, V>(m: map<K, V>, k1: K, v1: V, k2: K, v2: V)
    requires k1 != k2
    ensures m[k1 := v1][k2 := v2] == m[k2 := v2][k1 := v1]
  {
  }

  lemma {:induction false} OtherCategoriesCommute(s: Settings, c1: string, k1: string, v1: SettingValue,
                                                  c2: string, k2: string, v2: SettingValue)
    requires c1 != c2
    ensures ChangeSetting(ChangeSetting(s, c1, k1, v1), c2, k2, v2) ==
            ChangeSetting(ChangeSetting(s, c2, k2, v2), c1, k1, v1)
  {
    var a := CategoryOf(s, c1)[k1 := v1];
    var b := CategoryOf(s, c2)[k2 := v2];
    assert CategoryOf(s[c1 := a], c2) == CategoryOf(s, c2);
    assert CategoryOf(s[c2 := b], c1) == CategoryOf(s, c1);
    UpdatesCommute(s, c1, a, c2, b);
  }

  /** The minimum length of a new password. */
  const MinPasswordLength: nat := 6

  datatype PasswordError = Mismatch | TooShort

  /** changePassword's checks in their order: the confirmation first, then the length. */
  function CheckNewPassword(newPassword: string, confirmPassword: string): (r: Option<PasswordError>)
    ensures r == Some(Mismatch) <==> newPassword != confirmPassword
    ensures r == Some(TooShort) <==> newPassword == confirmPassword && |newPassword| < MinPasswordLength
    ensures r.None? <==> newPassword == confirmPassword && |newPassword| >= MinPasswordLength
  {
    if newPassword != confirmPassword then Some(Mismatch)
    else if |newPassword| < MinPasswordLength then Some(TooShort)
    else None
  }

  /** The panels of the page. */
  datatype Panel = GeneralPanel | NotificationsPanel | SecurityPanel | AppearancePanel | SystemPanel

  /** The tab list: each tab's id and the panel it opens. */
  const Tabs: seq<(string, Panel)> := [
    ("general", GeneralPanel), ("notifications", NotificationsPanel), ("security", SecurityPanel),
    ("appearance", AppearancePanel), ("system", SystemPanel)]

  /** renderTabContent: the panel of the active tab, the general one for any other id. */
  function PanelFor(tab: string): (p: Panel)
    ensures tab !in {"notifications", "security", "appearance", "system"} ==> p == GeneralPanel
  {
    if tab == "notifications" then NotificationsPanel
    else if tab == "security" then SecurityPanel
    else if tab == "appearance" then AppearancePanel
    else if tab == "system" then SystemPanel
    else GeneralPanel
  }

  /** Every tab of the list opens its own panel. */
  lemma {:induction false} EachTabOpensItsPanel(i: nat)
    requires i < |Tabs|
    ensures PanelFor(Tabs[i].0) == Tabs[i].1
  {
  }

  /** The page's state. */
  class SettingsView {
    var settings: Settings
    var activeTab: string
    var newPassword: string
    var confirmPassword: string

    constructor ()
      ensures settings == DefaultSettings() && activeTab == "general"
      ensures newPassword == "" && confirmPassword == ""
    {
      settings := DefaultSettings();
      activeTab := "general";
      newPassword := "";
      confirmPassword := "";
    }

    function Shown(): (p: Panel)
      reads this
    {
      PanelFor(activeTab)
    }

    method SelectTab(tab: string)
      modifies this
      ensures activeTab == tab
      ensures settings == old(settings) && newPassword == old(newPassword) && confirmPassword == old(confirmPassword)
    {
      activeTab := tab;
    }

    method Change(category: string, key: string, value: SettingValue)
      modifies this
      ensures settings == ChangeSetting(old(settings), category, key, value)
      ensures activeTab == old(activeTab) && newPassword == old(newPassword) && confirmPassword == old(confirmPassword)
    {
      settings := ChangeSetting(settings, category, key, value);
    }

    method TypePasswords(typedNew: string, typedConfirm: string)
      modifies this
      ensures newPassword == typedNew && confirmPassword == typedConfirm
      ensures settings == old(settings) && activeTab == old(activeTab)
    {
      newPassword := typedNew;
      confirmPassword := typedConfirm;
    }

    /** changePassword: a rejected password leaves both fields as typed, an accepted one
        clears them. */
    method ChangePassword() returns (err: Option<PasswordError>)
      modifies this
      ensures err == CheckNewPassword(old(newPassword), old(confirmPassword))
      ensures err.Some? ==> newPassword == old(newPassword) && confirmPassword == old(confirmPassword)
      ensures err.None? ==> newPassword == "" && confirmPassword == ""
      ensures settings == old(settings) && activeTab == old(activeTab)
    {
      err := CheckNewPassword(newPassword, confirmPassword);
      if err.None? {
        newPassword := "";
        confirmPassword := "";
      }
    }
  }
}
