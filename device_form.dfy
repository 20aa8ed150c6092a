/** The new-device form (src/components/BiometricAttendance/BiometricDeviceForm.tsx):
    required fields, the dotted-quad address pattern, the port range, and the record
    handed to the store. */
module DeviceForm {
  import opened Seqs
  import opened Types
  import opened Store
  import opened Forms

  // ---------------------------------------------------------------------------
  // The address pattern
  //   ^(?:(?:25[0-5]|2[0-4][0-9]|[01]?[0-9][0-9]?)\.){3}(?:25[0-5]|2[0-4][0-9]|[01]?[0-9][0-9]?)$

  /** One octet of the pattern, alternative by alternative. */
  predicate OctetPattern(s: string)
  {
    // 25[0-5]
    (|s| == 3 && s[0] == '2' && s[1] == '5' && '0' <= s[2] <= '5') ||
    // 2[0-4][0-9]
    (|s| == 3 && s[0] == '2' && '0' <= s[1] <= '4' && IsDigit(s[2])) ||
    // [01]?[0-9][0-9]? with all three parts present, with the first or the last part, or alone
    (|s| == 3 && (s[0] == '0' || s[0] == '1') && IsDigit(s[1]) && IsDigit(s[2])) ||
    (|s| == 2 && (s[0] == '0' || s[0] == '1') && IsDigit(s[1])) ||
    (|s| == 2 && IsDigit(s[0]) && IsDigit(s[1])) ||
    (|s| == 1 && IsDigit(s[0]))
  }

  /** One to three digits of value at most 255. */
  predicate SmallOctet(s: string)
  {
    1 <= |s| <= 3 && AllDigits(s) && DigitsValue(s) <= 255
  }

  function Digit(c: char): int { c as int - '0' as int }

  lemma {:induction false} DigitsValueShort(s: string)
    requires 1 <= |s| <= 3 && AllDigits(s)
    ensures |s| == 1 ==> DigitsValue(s) == Digit(s[0])
    ensures |s| == 2 ==> DigitsValue(s) == Digit(s[0]) * 10 + Digit(s[1])
    ensures |s| == 3 ==> DigitsValue(s) == Digit(s[0]) * 100 + Digit(s[1]) * 10 + Digit(s[2])
  {
    var s1 := s[..|s| - 1];
    assert DigitsValue(s) == DigitsValue(s1) * 10 + Digit(s[|s| - 1]);
    if |s| >= 2 {
      var s2 := s1[..|s1| - 1];
      assert s1[|s1| - 1] == s[|s| - 2];
      assert DigitsValue(s1) == DigitsValue(s2) * 10 + Digit(s[|s| - 2]);
      if |s| == 3 {
        assert s2[..0] == [];
        assert s2[0] == s[0];
        assert DigitsValue(s2) == Digit(s[0]);
      } else {
        assert s2 == [];
      }
    } else {
      assert s1 == [];
    }
  }

  /** An octet of the pattern is exactly one to three digits whose value is at most 255;
      leading zeros are allowed. */
  lemma {:induction false} OctetPatternIff(s: string)
    ensures OctetPattern(s) <==> SmallOctet(s)
  {
    if 1 <= |s| <= 3 && AllDigits(s) {
      DigitsValueShort(s);
    }
  }

  /** The dec-octet rule of section 3.2.2 of RFC 3986:
      DIGIT / %x31-39 DIGIT / "1" 2DIGIT / "2" %x30-34 DIGIT / "25" %x30-35. */
  predicate DecOctet(s: string)
  {
    (|s| == 1 && IsDigit(s[0])) ||
    (|s| == 2 && '1' <= s[0] <= '9' && IsDigit(s[1])) ||
    (|s| == 3 && s[0] == '1' && IsDigit(s[1]) && IsDigit(s[2])) ||
    (|s| == 3 && s[0] == '2' && '0' <= s[1] <= '4' && IsDigit(s[2])) ||
    (|s| == 3 && s[0] == '2' && s[1] == '5' && '0' <= s[2] <= '5')
  }

  /** The form's octet accepts every dec-octet, and beyond them exactly the octets written
      with a leading zero, such as "010". */
  lemma {:induction false} OctetPatternVersusRfc(s: string)
    ensures DecOctet(s) ==> OctetPattern(s)
    ensures OctetPattern(s) && !DecOctet(s) <==> OctetPattern(s) && |s| >= 2 && s[0] == '0'
    ensures OctetPattern("010") && !DecOctet("010")
  {
  }

  /** `s.split('.')` */
  function Fields(s: string): (r: seq<string>)
    ensures |r| >= 1
    ensures forall i :: 0 <= i < |r| ==> '.' !in r[i]
    decreases |s|
  {
    match FindIndex(s, IsDot)
    case None => [s]
    case Some(i) =>
      assert '.' !in s[..i] by {
        forall j | 0 <= j < i ensures s[..i][j] != '.' { assert !IsDot(s[j]); }
      }
      [s[..i]] + Fields(s[i + 1..])
  }

  function IsDot(c: char): bool { c == '.' }

  /** A text without a dot is a single field, and a first field that has no dot is split off. */
  lemma {:induction false} FieldsCons(a: string, rest: string)
    requires '.' !in a
    ensures Fields(a) == [a]
    ensures Fields(a + "." + rest) == [a] + Fields(rest)
  {
    var s := a + "." + rest;
    assert forall j :: 0 <= j < |a| ==> !IsDot(a[j]);
    assert FindIndex(a, IsDot).None?;
    assert s[|a|] == '.' && forall j :: 0 <= j < |a| ==> s[j] == a[j];
    assert FindIndex(s, IsDot) == Some(|a|);
    assert s[..|a|] == a && s[|a| + 1..] == rest;
  }

  /** The address test of handleSubmit: four dot-separated octets of the pattern. */
  predicate IpPattern(ip: string)
  {
    var f := Fields(ip);
    |f| == 4 && forall i :: 0 <= i < 4 ==> OctetPattern(f[i])
  }

  /** A dotted quad a.b.c.d whose parts have no dots splits into exactly its four parts. */
  lemma {:induction false} FieldsQuad(a: string, b: string, c: string, d: string)
    requires '.' !in a && '.' !in b && '.' !in c && '.' !in d
    ensures Fields(a + "." + b + "." + c + "." + d) == [a, b, c, d]
  {
    var cd := c + "." + d;
    var bcd := b + "." + cd;
    var abcd := a + "." + bcd;
    FieldsCons(d, "");
    FieldsCons(c, d);
    assert Fields(cd) == [c, d];
    FieldsCons(b, cd);
    assert Fields(bcd) == [b, c, d];
    FieldsCons(a, bcd);
    ConsThree(a, b, c, d);
    var x := a + "." + b + ".";
    Assoc(x + c, ".", d);
    Assoc(x, c, "." + d);
    Assoc(c, ".", d);
    Assoc(a + "." + b, ".", cd);
    Assoc(b, ".", cd);
    Assoc(a + ".", b, "." + cd);
  }

  lemma {:induction false} ConsThree(a: string, b: string, c: string, d: string)
    ensures [a] + [b, c, d] == [a, b, c, d]
  {
  }

  lemma {:induction false} Assoc(x: string, y: string, z: string)
    ensures x + y + z == x + (y + z)
  {
  }

  /** Read on a dotted quad a.b.c.d (no dots inside the parts), the test accepts exactly
      when every part is one to three digits of value at most 255. */
  lemma {:induction false} IpPatternIff(a: string, b: string, c: string, d: string)
    requires '.' !in a && '.' !in b && '.' !in c && '.' !in d
    ensures IpPattern(a + "." + b + "." + c + "." + d) <==> SmallOctet(a) && SmallOctet(b) && SmallOctet(c) && SmallOctet(d)
  {
    FieldsQuad(a, b, c, d);
    var f := [a, b, c, d];
    assert f[0] == a && f[1] == b && f[2] == c && f[3] == d;
    OctetPatternIff(a);
    OctetPatternIff(b);
    OctetPatternIff(c);
    OctetPatternIff(d);
  }

  /** A text with more or fewer than three dots is always refused. */
  lemma {:induction false} IpPatternNeedsFourFields(ip: string)
    requires |Fields(ip)| != 4
    ensures !IpPattern(ip)
  {
  }

  // ---------------------------------------------------------------------------
  // The form

  datatype DeviceFormData = DeviceFormData(
    name: string, ip: string, port: int, model: string, location: string,
    maxUsers: int, serialNumber: string, firmwareVersion: string)

  /** The initial form: port 4370 and room for 1000 users. */
  const EmptyDeviceForm := DeviceFormData("", "", 4370, "", "", 1000, "", "")

  datatype DeviceField = Name | Ip | Port | Model | Location | MaxUsers | SerialNumber | FirmwareVersion

  predicate IsNumericField(f: DeviceField) { f == Port || f == MaxUsers }

  /** handleChange: the named field takes the typed text; port and maxUsers take the
      number the text denotes instead. */
  function ChangeDeviceField(d: DeviceFormData, field: DeviceField, value: string): (r: DeviceFormData)
    requires IsNumericField(field) ==> IsNumericInput(value)
  {
    match field
    case Name => d.(name := value)
    case Ip => d.(ip := value)
    case Port => d.(port := NumberOf(value))
    case Model => d.(model := value)
    case Location => d.(location := value)
    case MaxUsers => d.(maxUsers := NumberOf(value))
    case SerialNumber => d.(serialNumber := value)
    case FirmwareVersion => d.(firmwareVersion := value)
  }

  /** Reading the changed field back gives the typed text, or for port and maxUsers the
      number n whose decimal text was typed; every other field keeps its value. */
  lemma {:induction false} ChangeDeviceFieldReadBack(d: DeviceFormData, field: DeviceField, value: string, n: nat)
    requires IsNumericField(field) ==> value == DecimalText(n)
    ensures IsNumericField(field) ==> IsNumericInput(value)
    ensures field == Name ==> ChangeDeviceField(d, field, value) == d.(name := value)
    ensures field == Ip ==> ChangeDeviceField(d, field, value) == d.(ip := value)
    ensures field == Port ==> ChangeDeviceField(d, field, value) == d.(port := n)
    ensures field == Model ==> ChangeDeviceField(d, field, value) == d.(model := value)
    ensures field == Location ==> ChangeDeviceField(d, field, value) == d.(location := value)
    ensures field == MaxUsers ==> ChangeDeviceField(d, field, value) == d.(maxUsers := n)
    ensures field == SerialNumber ==> ChangeDeviceField(d, field, value) == d.(serialNumber := value)
    ensures field == FirmwareVersion ==> ChangeDeviceField(d, field, value) == d.(firmwareVersion := value)
  {
    if IsNumericField(field) {
      NumberOfDigits(n);
    }
  }

  datatype DeviceError = MissingRequired | BadIp | BadPort

  /** The checks of handleSubmit in their order; the first failing one is reported. */
  function ValidateDevice(d: DeviceFormData): (r: Option<DeviceError>)
    ensures r == Some(MissingRequired) <==> d.name == "" || d.ip == "" || d.location == ""
    ensures r == Some(BadIp) <==> d.name != "" && d.ip != "" && d.location != "" && !IpPattern(d.ip)
    ensures r == Some(BadPort) <==>
      d.name != "" && d.ip != "" && d.location != "" && IpPattern(d.ip) && !(1 <= d.port <= 65535)
    ensures r.None? <==> d.name != "" && d.location != "" && IpPattern(d.ip) && 1 <= d.port <= 65535
  {
    if d.name == "" || d.ip == "" || d.location == "" then Some(MissingRequired)
    else if !IpPattern(d.ip) then Some(BadIp)
    else if d.port < 1 || d.port > 65535 then Some(BadPort)
    else None
  }

  /** The constraints the browser checks before handleSubmit runs: name, location and
      address are required, the address must match the same pattern as the handler's, the
      port lies in 1..65535 and the user capacity in 100..10000. */
  predicate DeviceInputsValid(d: DeviceFormData)
  {
    d.name != "" && d.location != "" && d.ip != "" && IpPattern(d.ip) &&
    1 <= d.port <= 65535 && 100 <= d.maxUsers <= 10000
  }

  /** The browser's constraints are the handler's checks plus the bounds on the capacity. */
  lemma {:induction false} DeviceInputsValidIff(d: DeviceFormData)
    ensures DeviceInputsValid(d) <==> ValidateDevice(d).None? && 100 <= d.maxUsers <= 10000
  {
  }

  /** The record handed to addBiometricDevice: empty model, serial number and firmware
      version become missing values; port and maxUsers are always given. */
  function DeviceInputOf(d: DeviceFormData): (input: DeviceInput)
    ensures input.name == d.name && input.ip == d.ip && input.location == Some(d.location)
    ensures input.port == Some(d.port) && input.maxUsers == Some(d.maxUsers)
    ensures input.model.None? <==> d.model == ""
    ensures input.serialNumber.None? <==> d.serialNumber == ""
    ensures input.firmwareVersion.None? <==> d.firmwareVersion == ""
  {
    DeviceInput(d.name, d.ip, Some(d.port), OrUndefined(d.model), Some(d.location), Some(d.maxUsers),
                OrUndefined(d.firmwareVersion), OrUndefined(d.serialNumber))
  }

  /** The form component's state. */
  class DeviceEntry {
    var data: DeviceFormData

    constructor ()
      ensures data == EmptyDeviceForm
    {
      data := EmptyDeviceForm;
    }

    method Change(field: DeviceField, value: string)
      requires IsNumericField(field) ==> IsNumericInput(value)
      modifies this
      ensures data == ChangeDeviceField(old(data), field, value)
    {
      data := ChangeDeviceField(data, field, value);
    }

    /** Submitting: the browser checks the inputs' constraints, then handleSubmit runs its
        own checks. A form that fails either changes nothing; otherwise exactly one device
        is added. */
    method Submit(store: DataStore, id: string, now: string) returns (ok: bool)
      modifies store
      ensures ok <==> DeviceInputsValid(data)
      ensures !ok ==> store.State() == old(store.State())
      ensures ok ==>
        store.State() == old(store.State()).(devices := old(store.biometricDevices) + [NewDevice(DeviceInputOf(data), id, now)])
    {
      DeviceInputsValidIff(data);
      ok := DeviceInputsValid(data) && ValidateDevice(data).None?;
      if ok {
        store.AddBiometricDevice(DeviceInputOf(data), id, now);
      }
    }
  }
}
