/** The fingerprint terminal screen (src/components/BiometricAttendance/BiometricAttendance.tsx):
    device selection, the scan cycle, manual stop and sync, device deletion, the periodic
    status refresh and the fingerprint-to-student lookup. */
module BiometricTerminal {
  import opened Seqs
  import opened Types
  import opened Store

  /** One line of the recent-scans panel. */
  datatype BioScan = BioScan(deviceId: string, fingerprintId: string, timestamp: string, quality: int)

  /** How many older scans are kept behind a new one (`prev.slice(0, 9)`). */
  const KeptScans: nat := 9

  const FingerprintPrefix: string := "FP_"

  function IsConnected(d: BiometricDevice): bool { d.status == Connected }

  /** The default-device effect: with nothing selected and at least one device, pick
      `connectedDevice?.id || biometricDevices[0].id`; otherwise keep the selection. */
  function DefaultSelection(devices: seq<BiometricDevice>, selected: string): (r: string)
    ensures selected != "" || devices == [] ==> r == selected
    ensures selected == "" && devices != [] ==>
      (exists i :: 0 <= i < |devices| && devices[i].id == r)
    ensures selected == "" && devices != [] && r != devices[0].id ==>
      exists i :: 0 <= i < |devices| && devices[i].id == r && IsConnected(devices[i]) &&
                  forall j :: 0 <= j < i ==> !IsConnected(devices[j])
  {
    if devices == [] || selected != "" then selected
    else match FindIndex(devices, IsConnected)
      case Some(k) => if devices[k].id != "" then devices[k].id else devices[0].id
      case None => devices[0].id
  }

  /** With nothing selected, the first connected device wins when it has an id, and the
      first device is the fallback when none is connected. */
  lemma {:induction false} DefaultPrefersConnected(devices: seq<BiometricDevice>)
    requires devices != []
    ensures (forall i :: 0 <= i < |devices| ==> !IsConnected(devices[i])) ==> DefaultSelection(devices, "") == devices[0].id
    ensures forall k :: 0 <= k < |devices| && IsConnected(devices[k]) && devices[k].id != "" &&
                        (forall j :: 0 <= j < k ==> !IsConnected(devices[j])) ==>
                        DefaultSelection(devices, "") == devices[k].id
  {
    var f := FindIndex(devices, IsConnected);
    forall k | 0 <= k < |devices| && IsConnected(devices[k]) && devices[k].id != "" &&
               (forall j :: 0 <= j < k ==> !IsConnected(devices[j]))
      ensures DefaultSelection(devices, "") == devices[k].id
    {
      assert f.Some?;
      assert f.value == k;
    }
  }

  /** `biometricDevices.find(d => d.id === id)` */
  function DeviceById(devices: seq<BiometricDevice>, id: string): (r: Option<BiometricDevice>)
    ensures r.Some? ==> r.value in devices && r.value.id == id
    ensures r.None? <==> forall d <- devices :: d.id != id
  {
    match FindIndex(devices, DeviceIdIs(id))
    case None => None
    case Some(k) => Some(devices[k])
  }

  /** The guard of startScanning. */
  predicate CanStart(devices: seq<BiometricDevice>, selected: string)
  {
    var d := DeviceById(devices, selected);
    d.Some? && d.value.status == Connected
  }

  /** With distinct ids, a scan can start exactly when the selected id names a connected device. */
  lemma {:induction false} CanStartIff(devices: seq<BiometricDevice>, selected: string)
    requires DistinctDeviceIds(devices)
    ensures CanStart(devices, selected) <==> exists d <- devices :: d.id == selected && IsConnected(d)
  {
    if d :| d in devices && d.id == selected && IsConnected(d) {
      var i :| 0 <= i < |devices| && devices[i] == d;
      var k := FindIndex(devices, DeviceIdIs(selected));
      assert k.Some?;
      assert devices[k.value].id == devices[i].id;
      assert k.value == i;
    }
  }

  /** With distinct ids, choosing a listed device in the select lets a scan start exactly
      when that device is connected. */
  lemma {:induction false} ChosenDeviceStarts(devices: seq<BiometricDevice>, i: nat)
    requires DistinctDeviceIds(devices) && i < |devices|
    ensures CanStart(devices, devices[i].id) <==> devices[i].status == Connected
  {
    var k := FindIndex(devices, DeviceIdIs(devices[i].id));
    assert DeviceIdIs(devices[i].id)(devices[i]);
    assert k.Some? && devices[k.value].id == devices[i].id;
  }

  /** The drawn status of the periodic refresh: above 0.95 disconnected, above 0.9 error,
      otherwise connected. */
  function DrawnStatus(draw: real): (s: DeviceStatus)
    ensures s != Scanning
    ensures s == Connected <==> draw <= 0.9
    ensures s == Disconnected <==> draw > 0.95
  {
    if draw > 0.95 then Disconnected else if draw > 0.9 then Error else Connected
  }

  /** One turn of the refresh loop: the i-th device adds its update to the plan, or nothing. */
  lemma {:induction false} RefreshStep(devices: seq<BiometricDevice>, draws: seq<real>, now: string, i: nat)
    requires |draws| == |devices| && i < |devices|
    ensures var before := ApplyPlan(devices, RefreshPlan(devices[..i], draws[..i]), now);
            var after := ApplyPlan(devices, RefreshPlan(devices[..i + 1], draws[..i + 1]), now);
            match RefreshOf(devices[i], draws[i])
            case None => after == before
            case Some(st) => after == MapWhere(before, DeviceIdIs(devices[i].id), MergeDevice(SyncPatch(st, now)))
  {
    assert devices[..i + 1][..i] == devices[..i] && draws[..i + 1][..i] == draws[..i];
    var plan := RefreshPlan(devices[..i], draws[..i]);
    match RefreshOf(devices[i], draws[i])
    case None =>
      assert RefreshPlan(devices[..i + 1], draws[..i + 1]) == plan + [];
      assert plan + [] == plan;
    case Some(st) =>
      assert RefreshPlan(devices[..i + 1], draws[..i + 1]) == plan + [(devices[i].id, st)];
      assert (plan + [(devices[i].id, st)])[..|plan|] == plan;
  }

  /** The status one device is moved to by one refresh, if it is moved at all: only
      active devices that are not scanning, and only when the draw differs. */
  function RefreshOf(d: BiometricDevice, draw: real): Option<DeviceStatus>
  {
    if d.isActive && d.status != Scanning && DrawnStatus(draw) != d.status then Some(DrawnStatus(draw)) else None
  }

  /** The updates one refresh issues, in device order: (device id, new status). */
  function RefreshPlan(devices: seq<BiometricDevice>, draws: seq<real>): (plan: seq<(string, DeviceStatus)>)
    requires |draws| == |devices|
    ensures |plan| <= |devices|
  {
    if devices == [] then []
    else
      var n := |devices| - 1;
      RefreshPlan(devices[..n], draws[..n]) +
        (match RefreshOf(devices[n], draws[n]) case None => [] case Some(st) => [(devices[n].id, st)])
  }

  /** Every update of a refresh names an active, non-scanning device whose drawn status
      differs from its current one. */
  lemma {:induction false} RefreshPlanOnlyChanges(devices: seq<BiometricDevice>, draws: seq<real>)
    requires |draws| == |devices|
    ensures forall u <- RefreshPlan(devices, draws) ::
      exists i :: 0 <= i < |devices| && devices[i].id == u.0 &&
        devices[i].isActive && devices[i].status != Scanning && u.1 != devices[i].status &&
        u.1 == DrawnStatus(draws[i])
  {
    if devices != [] {
      var n := |devices| - 1;
      RefreshPlanOnlyChanges(devices[..n], draws[..n]);
      forall u <- RefreshPlan(devices, draws)
        ensures exists i ::
          0 <= i < |devices| && devices[i].id == u.0 &&
          devices[i].isActive && devices[i].status != Scanning && u.1 != devices[i].status &&
          u.1 == DrawnStatus(draws[i])
      {
        if u in RefreshPlan(devices[..n], draws[..n]) {
          var i :| 0 <= i < n && devices[..n][i].id == u.0 &&
              devices[..n][i].isActive && devices[..n][i].status != Scanning && u.1 != devices[..n][i].status &&
              u.1 == DrawnStatus(draws[..n][i]);
          assert devices[i] == devices[..n][i] && draws[i] == draws[..n][i];
        } else {
          assert u == (devices[n].id, DrawnStatus(draws[n]));
        }
      }
    }
  }

  /** updateBiometricDevice(id, { status, lastSync: now }) for each planned update in turn. */
  function ApplyPlan(devices: seq<BiometricDevice>, plan: seq<(string, DeviceStatus)>, now: string): (r: seq<BiometricDevice>)
    ensures |r| == |devices|
  {
    if plan == [] then devices
    else
      var n := |plan| - 1;
      MapWhere(ApplyPlan(devices, plan[..n], now), DeviceIdIs(plan[n].0), MergeDevice(SyncPatch(plan[n].1, now)))
  }

  /** One device after the refresh: moved to the drawn status with a fresh lastSync, or untouched. */
  function Refreshed(d: BiometricDevice, draw: real, now: string): BiometricDevice
  {
    match RefreshOf(d, draw)
    case None => d
    case Some(st) => d.(status := st, lastSync := now)
  }

  predicate DistinctDeviceIds(devices: seq<BiometricDevice>)
  {
    forall i, j :: 0 <= i < j < |devices| ==> devices[i].id != devices[j].id
  }

  /** With distinct ids, the refresh acts on each device by itself: inactive and scanning
      devices, and devices whose draw matches their status, are left exactly as they were. */
  lemma {:induction false} RefreshPointwise(devices: seq<BiometricDevice>, draws: seq<real>, now: string, k: nat)
    requires |draws| == |devices| && DistinctDeviceIds(devices) && k <= |devices|
    ensures forall j :: 0 <= j < |devices| ==>
      ApplyPlan(devices, RefreshPlan(devices[..k], draws[..k]), now)[j] ==
      if j < k then Refreshed(devices[j], draws[j], now) else devices[j]
  {
    if k == 0 {
      assert devices[..0] == [] && draws[..0] == [];
    } else {
      var n := k - 1;
      RefreshPointwise(devices, draws, now, n);
      RefreshStep(devices, draws, now, n);
      assert n + 1 == k;
      var before := ApplyPlan(devices, RefreshPlan(devices[..n], draws[..n]), now);
      var after := ApplyPlan(devices, RefreshPlan(devices[..k], draws[..k]), now);
      RefreshedOneMore(devices, draws, now, n, before, after);
    }
  }

  /** The induction step of RefreshPointwise, over the lists before and after one update. */
  lemma {:induction false} RefreshedOneMore(devices: seq<BiometricDevice>, draws: seq<real>, now: string, n: nat,
                                            before: seq<BiometricDevice>, after: seq<BiometricDevice>)
    requires |draws| == |devices| && DistinctDeviceIds(devices) && n < |devices| && |before| == |devices|
    requires forall j :: 0 <= j < |devices| ==> before[j] == if j < n then Refreshed(devices[j], draws[j], now) else devices[j]
    requires match RefreshOf(devices[n], draws[n])
             case None => after == before
             case Some(st) => after == MapWhere(before, DeviceIdIs(devices[n].id), MergeDevice(SyncPatch(st, now)))
    ensures forall j :: 0 <= j < |devices| ==> after[j] == if j <= n then Refreshed(devices[j], draws[j], now) else devices[j]
  {
    match RefreshOf(devices[n], draws[n])
    case None =>
    case Some(st) =>
      var f := MergeDevice(SyncPatch(st, now));
      forall j | 0 <= j < |devices|
        ensures after[j] == if j <= n then Refreshed(devices[j], draws[j], now) else devices[j]
      {
        if j == n {
          assert after[n] == f(devices[n]);
        } else {
          assert devices[j].id != devices[n].id;
          assert after[j] == before[j];
        }
      }
  }

  /** The refresh over the whole list: each device refreshed on its own draw. */
  lemma {:induction false} RefreshAll(devices: seq<BiometricDevice>, draws: seq<real>, now: string)
    requires |draws| == |devices| && DistinctDeviceIds(devices)
    ensures forall j :: 0 <= j < |devices| ==>
      ApplyPlan(devices, RefreshPlan(devices, draws), now)[j] == Refreshed(devices[j], draws[j], now)
  {
    RefreshPointwise(devices, draws, now, |devices|);
    assert devices[..|devices|] == devices && draws[..|draws|] == draws;
  }

  /** A device the refresh does not draw for (inactive or scanning) is never changed by it. */
  lemma {:induction false} RefreshSparesIdle(d: BiometricDevice, draw: real, now: string)
    ensures !d.isActive || d.status == Scanning ==> Refreshed(d, draw, now) == d
    ensures Refreshed(d, draw, now).status == d.status <==> Refreshed(d, draw, now) == d
  {
  }

  /** The student behind a fingerprint id (getStudentByFingerprint): drop the first
      "FP_" and find the student with the rest as id. */
  function StudentByFingerprint(students: seq<Student>, fingerprintId: string): (r: Option<Student>)
    ensures r.Some? ==> r.value in students && r.value.id == ReplaceFirst(fingerprintId, FingerprintPrefix, "")
    ensures r.None? ==> forall s <- students :: s.id != ReplaceFirst(fingerprintId, FingerprintPrefix, "")
  {
    match FindIndex(students, StudentIdIs(ReplaceFirst(fingerprintId, FingerprintPrefix, "")))
    case None => None
    case Some(k) => Some(students[k])
  }

  /** A scan's fingerprint id `FP_<id>` leads back to a student with that id. */
  lemma {:induction false} FingerprintRoundTrip(students: seq<Student>, s: Student)
    requires s in students
    ensures StudentByFingerprint(students, FingerprintPrefix + s.id).Some?
    ensures StudentByFingerprint(students, FingerprintPrefix + s.id).value.id == s.id
  {
    ReplacePrefix(FingerprintPrefix, s.id);
  }

  /** The scan of a student's finger on a device: `FP_<id>` and a quality of 60 + draw. */
  function ScanOf(deviceId: string, s: Student, timestamp: string, qualityDraw: nat): (scan: BioScan)
    requires qualityDraw < 40
    ensures 60 <= scan.quality <= 99
    ensures scan.fingerprintId == FingerprintPrefix + s.id
  {
    BioScan(deviceId, FingerprintPrefix + s.id, timestamp, qualityDraw + 60)
  }

  /** The screen's own state. `selectedDevice == ""` means no device is selected. */
  class Terminal {
    var selectedDevice: string
    var isScanning: bool
    var recentScans: seq<BioScan>
    var autoSync: bool

    ghost predicate Valid()
      reads this
    {
      |recentScans| <= KeptScans + 1
    }

    constructor ()
      ensures selectedDevice == "" && !isScanning && recentScans == [] && autoSync && Valid()
    {
      selectedDevice := "";
      isScanning := false;
      recentScans := [];
      autoSync := true;
    }

    /** The default-device effect. */
    method PickDefault(devices: seq<BiometricDevice>)
      modifies this
      ensures selectedDevice == DefaultSelection(devices, old(selectedDevice))
      ensures isScanning == old(isScanning) && recentScans == old(recentScans) && autoSync == old(autoSync)
    {
      selectedDevice := DefaultSelection(devices, selectedDevice);
    }

    /** The device select: the empty option or one of the listed devices. */
    method SelectDevice(devices: seq<BiometricDevice>, id: string)
      requires id == "" || DeviceById(devices, id).Some?
      modifies this
      ensures selectedDevice == id
      ensures isScanning == old(isScanning) && recentScans == old(recentScans) && autoSync == old(autoSync)
    {
      selectedDevice := id;
    }

    /** The auto-sync checkbox. */
    method SetAutoSync(on: bool)
      modifies this
      ensures autoSync == on
      ensures selectedDevice == old(selectedDevice) && isScanning == old(isScanning) && recentScans == old(recentScans)
    {
      autoSync := on;
    }

    /** startScanning: only a selected device that exists and is connected starts a
        scan; it is then marked scanning. */
    method StartScanning(store: DataStore) returns (started: bool)
      modifies this, store
      ensures started == CanStart(old(store.biometricDevices), selectedDevice)
      ensures started ==>
        isScanning &&
        store.State() == old(store.State()).(devices := MapWhere(old(store.biometricDevices), DeviceIdIs(selectedDevice),
                                                                 MergeDevice(StatusPatch(Scanning))))
      ensures !started ==> isScanning == old(isScanning) && store.State() == old(store.State())
      ensures selectedDevice == old(selectedDevice) && recentScans == old(recentScans) && autoSync == old(autoSync)
    {
      var device := DeviceById(store.biometricDevices, selectedDevice);
      if device.None? || device.value.status != Connected {
        return false;
      }
      isScanning := true;
      store.UpdateBiometricDevice(selectedDevice, StatusPatch(Scanning));
      started := true;
    }

    /** The end of a scan (the delayed callback of startScanning): the drawn student's
        fingerprint is logged, a present biometric record for today is added, and the
        device returns to connected. `pick` is the drawn student index. */
    method FinishScan(store: DataStore, pick: nat, today: DateText, id: string, timestamp: string, qualityDraw: nat)
      requires Valid() && pick < |store.students| && qualityDraw < 40
      modifies this, store
      ensures Valid()
      ensures var s := old(store.students)[pick];
        recentScans == PushRecent(old(recentScans), ScanOf(selectedDevice, s, timestamp, qualityDraw), KeptScans) &&
        store.State() == RecordAttendance(old(store.State()), Attendance(id, s.id, today, true, Biometric, timestamp))
                           .(devices := MapWhere(old(store.biometricDevices), DeviceIdIs(selectedDevice),
                                                 MergeDevice(StatusPatch(Connected))))
      ensures !isScanning && selectedDevice == old(selectedDevice) && autoSync == old(autoSync)
    {
      var s := store.students[pick];
      recentScans := PushRecent(recentScans, ScanOf(selectedDevice, s, timestamp, qualityDraw), KeptScans);
      store.AddAttendance(Attendance(id, s.id, today, true, Biometric, timestamp));
      isScanning := false;
      store.UpdateBiometricDevice(selectedDevice, StatusPatch(Connected));
    }

    /** stopScanning: the selected device goes back to connected. */
    method StopScanning(store: DataStore)
      modifies this, store
      ensures !isScanning
      ensures store.State() == old(store.State()).(devices := MapWhere(old(store.biometricDevices), DeviceIdIs(selectedDevice),
                                                                        MergeDevice(StatusPatch(Connected))))
      ensures selectedDevice == old(selectedDevice) && recentScans == old(recentScans) && autoSync == old(autoSync)
    {
      isScanning := false;
      store.UpdateBiometricDevice(selectedDevice, StatusPatch(Connected));
    }

    /** syncDevice: the device is marked connected and synced now. */
    method SyncDevice(store: DataStore, deviceId: string, now: string)
      modifies store
      ensures store.State() == old(store.State()).(devices := MapWhere(old(store.biometricDevices), DeviceIdIs(deviceId),
                                                                        MergeDevice(SyncPatch(Connected, now))))
    {
      store.UpdateBiometricDevice(deviceId, SyncPatch(Connected, now));
    }

    /** deleteDevice: after confirmation the device is deleted, and the selection is
        cleared when it was that device. */
    method DeleteDevice(store: DataStore, deviceId: string, confirmed: bool)
      modifies this, store
      ensures !confirmed ==> store.State() == old(store.State()) && selectedDevice == old(selectedDevice)
      ensures confirmed ==> store.State() == old(store.State()).(devices := RemoveDevice(old(store.biometricDevices), deviceId))
      ensures confirmed && old(selectedDevice) == deviceId ==> selectedDevice == ""
      ensures confirmed && old(selectedDevice) != deviceId ==> selectedDevice == old(selectedDevice)
      ensures isScanning == old(isScanning) && recentScans == old(recentScans) && autoSync == old(autoSync)
    {
      if confirmed {
        store.DeleteBiometricDevice(deviceId);
        if selectedDevice == deviceId {
          selectedDevice := "";
        }
      }
    }

    /** One tick of the periodic refresh (when auto-sync is on): for each device of the
        list as the tick sees it, draw a status and update the device when it differs.
        `draws[i]` is the draw for the i-th device. */
    method RefreshTick(store: DataStore, draws: seq<real>, now: string)
      requires |draws| == |store.biometricDevices|
      modifies store
      ensures !autoSync ==> store.State() == old(store.State())
      ensures autoSync ==> store.State() == old(store.State()).(devices := ApplyPlan(old(store.biometricDevices),
                              RefreshPlan(old(store.biometricDevices), draws), now))
    {
      if !autoSync {
        return;
      }
      var devices := store.biometricDevices;
      var i := 0;
      while i < |devices|
        invariant 0 <= i <= |devices|
        invariant store.State() == old(store.State()).(devices := ApplyPlan(devices, RefreshPlan(devices[..i], draws[..i]), now))
      {
        RefreshStep(devices, draws, now, i);
        var d := devices[i];
        if d.isActive && d.status != Scanning {
          var status := DrawnStatus(draws[i]);
          if status != d.status {
            store.UpdateBiometricDevice(d.id, SyncPatch(status, now));
          }
        }
        i := i + 1;
      }
      assert devices[..i] == devices && draws[..i] == draws;
    }
  }
}
