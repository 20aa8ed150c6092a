/** QR attendance (src/components/QRAttendance/QRAttendance.tsx): payload checks, the
    marking of a scanned code, the simulated scan, the selection of students for code
    generation and the window of recent scans. */
module QrAttendance {
  import opened Seqs
  import opened Types
  import opened Store
  import opened AttendanceSheet

  /** The parsed JSON of a code; a key missing from the JSON is None. */
  datatype QrPayload = QrPayload(
    kind: Option<string>,
    studentId: Option<string>,
    name: Option<string>,
    roll: Option<string>,
    validUntil: Option<int>)

  /** What markAttendanceByQR does with a payload. */
  datatype QrVerdict = Invalid | Expired | AlreadyMarked | Accept

  /** One line of the recent-scans panel. */
  datatype Scan = Scan(stamp: int, student: Option<string>, roll: Option<string>, time: string)

  /** How many older scans are kept behind a new one (`prev.slice(0, 9)`). */
  const KeptScans: nat := 9

  /** `!data.studentId`: a missing or empty id. */
  predicate MissingId(id: Option<string>)
  {
    id.None? || id.value == ""
  }

  /** `data.validUntil && now > data.validUntil`: a missing or zero expiry never expires. */
  predicate IsExpired(validUntil: Option<int>, nowMs: int)
  {
    validUntil.Some? && validUntil.value != 0 && nowMs > validUntil.value
  }

  /** The three checks of markAttendanceByQR in their order; the first failing one decides. */
  function Check(p: QrPayload, nowMs: int, dayRecs: seq<Attendance>): (v: QrVerdict)
    ensures v == Invalid <==> p.kind != Some("attendance") || MissingId(p.studentId)
    ensures v == Expired <==> p.kind == Some("attendance") && !MissingId(p.studentId) && IsExpired(p.validUntil, nowMs)
    ensures v == AlreadyMarked <==>
      p.kind == Some("attendance") && !MissingId(p.studentId) &&
      !IsExpired(p.validUntil, nowMs) && Recorded(dayRecs, p.studentId.value)
    ensures v == Accept ==> p.studentId.Some? && !Recorded(dayRecs, p.studentId.value)
  {
    if p.kind != Some("attendance") || MissingId(p.studentId) then Invalid
    else if IsExpired(p.validUntil, nowMs) then Expired
    else if Recorded(dayRecs, p.studentId.value) then AlreadyMarked
    else Accept
  }

  /** The record a scan adds: present, by QR, dated today. */
  function QrRecord(id: string, studentId: string, today: DateText, nowIso: string): Attendance
  {
    Attendance(id, studentId, today, true, Qr, nowIso)
  }

  /** An accepted code leaves its student with exactly one record for today: codes alone
      never mark a student twice on one day. */
  lemma {:induction false} AcceptedOncePerDay(db: Db, p: QrPayload, nowMs: int, today: DateText, id: string, nowIso: string)
    requires Check(p, nowMs, DayRecords(db.attendance, today)) == Accept
    ensures var after := RecordAttendance(db, QrRecord(id, p.studentId.value, today, nowIso));
            |Filter(DayRecords(after.attendance, today), AttendanceOf(p.studentId.value))| == 1
  {
    var sid := p.studentId.value;
    var rec := QrRecord(id, sid, today, nowIso);
    var day := DayRecords(db.attendance, today);
    FilterAppend(db.attendance, [rec], AttendanceDateIs(today));
    assert Filter([rec], AttendanceDateIs(today)) == [rec];
    FilterAppend(day, [rec], AttendanceOf(sid));
    FilterEmpty(day, AttendanceOf(sid));
    assert Filter([rec], AttendanceOf(sid)) == [rec];
  }

  /** handleStudentSelection: remove the id if selected, else append it. */
  function Toggle(selected: seq<string>, studentId: string): (r: seq<string>)
    ensures studentId in r <==> studentId !in selected
    ensures forall x :: x != studentId ==> (x in r <==> x in selected)
  {
    FilterMembers(selected, (x: string) => x != studentId);
    if studentId in selected then Filter(selected, (x: string) => x != studentId) else selected + [studentId]
  }

  /** Toggling the same student twice gives back the same set of selected students. */
  lemma {:induction false} ToggleTwice(selected: seq<string>, studentId: string)
    ensures forall x :: x in Toggle(Toggle(selected, studentId), studentId) <==> x in selected
  {
  }

  /** The ids of the students, in order (`students.map(s => s.id)`). */
  function StudentIds(students: seq<Student>): (r: seq<string>)
    ensures |r| == |students|
    ensures forall i :: 0 <= i < |students| ==> r[i] == students[i].id
  {
    if students == [] then [] else [students[0].id] + StudentIds(students[1..])
  }

  /** The code station's own state: the students picked for code generation and the
      panel of recent scans. */
  class Station {
    var selected: seq<string>
    var recentScans: seq<Scan>

    ghost predicate Valid()
      reads this
    {
      |recentScans| <= KeptScans + 1
    }

    constructor ()
      ensures selected == [] && recentScans == [] && Valid()
    {
      selected := [];
      recentScans := [];
    }

    method ToggleStudent(studentId: string)
      modifies this
      ensures selected == Toggle(old(selected), studentId) && recentScans == old(recentScans)
    {
      selected := Toggle(selected, studentId);
    }

    /** selectAllStudents: clear when as many ids are selected as there are students,
        otherwise select every student. */
    method SelectAll(students: seq<Student>)
      modifies this
      ensures |old(selected)| == |students| ==> selected == []
      ensures |old(selected)| != |students| ==> selected == StudentIds(students)
      ensures recentScans == old(recentScans)
    {
      if |selected| == |students| {
        selected := [];
      } else {
        selected := StudentIds(students);
      }
    }

    /** simulateQRScan: record the scan and add a present QR record, with no check. */
    method SimulateScan(store: DataStore, student: Student, today: DateText, id: string, nowIso: string,
                        stamp: int, time: string)
      requires Valid()
      modifies this, store
      ensures Valid()
      ensures recentScans == PushRecent(old(recentScans), Scan(stamp, Some(student.name), Some(student.roll), time), KeptScans)
      ensures store.State() == RecordAttendance(old(store.State()), QrRecord(id, student.id, today, nowIso))
      ensures selected == old(selected)
    {
      recentScans := PushRecent(recentScans, Scan(stamp, Some(student.name), Some(student.roll), time), KeptScans);
      store.AddAttendance(QrRecord(id, student.id, today, nowIso));
    }

    /** startDemoScan: a random student is scanned, or nothing happens without students;
        `pick` is the drawn index `Math.floor(Math.random() * students.length)`. */
    method DemoScan(store: DataStore, pick: nat, today: DateText, id: string, nowIso: string, stamp: int, time: string)
      returns (ok: bool)
      requires Valid() && (|store.students| == 0 || pick < |store.students|)
      modifies this, store
      ensures Valid()
      ensures ok <==> |old(store.students)| > 0
      ensures !ok ==> store.State() == old(store.State()) && recentScans == old(recentScans)
      ensures ok ==> store.State() == RecordAttendance(old(store.State()),
                       QrRecord(id, old(store.students)[pick].id, today, nowIso))
      ensures selected == old(selected)
    {
      if |store.students| == 0 {
        return false;
      }
      var student := store.students[pick];
      SimulateScan(store, student, today, id, nowIso, stamp, time);
      return true;
    }

    /** markAttendanceByQR on an already parsed payload: the verdict of the checks, and
        on acceptance one present QR record for today and a new line in the panel. */
    method MarkByQr(store: DataStore, p: QrPayload, today: DateText, nowMs: int, id: string, nowIso: string, time: string)
      returns (v: QrVerdict)
      requires Valid()
      modifies this, store
      ensures Valid()
      ensures v == Check(p, nowMs, DayRecords(old(store.attendance), today))
      ensures v != Accept ==> store.State() == old(store.State()) && recentScans == old(recentScans)
      ensures v == Accept ==>
        store.State() == RecordAttendance(old(store.State()), QrRecord(id, p.studentId.value, today, nowIso)) &&
        recentScans == PushRecent(old(recentScans), Scan(nowMs, p.name, p.roll, time), KeptScans)
      ensures selected == old(selected)
    {
      v := Check(p, nowMs, DayRecords(store.attendance, today));
      if v == Accept {
        store.AddAttendance(QrRecord(id, p.studentId.value, today, nowIso));
        recentScans := PushRecent(recentScans, Scan(nowMs, p.name, p.roll, time), KeptScans);
      }
    }
  }
}
