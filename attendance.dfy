/** The manual attendance sheet (src/components/Attendance/AttendanceManager.tsx):
    the stored flags of the selected day, the pending edits, and the batch save. */
module AttendanceSheet {
  import opened Seqs
  import opened Types
  import opened Store

  /** One pending edit: `attendanceData[studentId] = present`. */
  datatype Mark = Mark(studentId: string, present: bool)

  /** The records stored for the selected date. */
  function DayRecords(att: seq<Attendance>, date: DateText): seq<Attendance>
  {
    Filter(att, AttendanceDateIs(date))
  }

  /** attendanceMap: the reduce that writes each record's flag under its student, later records winning. */
  function DayMap(recs: seq<Attendance>): (m: map<string, bool>)
    ensures forall k :: k in m <==> exists i :: 0 <= i < |recs| && recs[i].studentId == k
  {
    if recs == [] then map[]
    else
      var init := recs[..|recs| - 1];
      var last := recs[|recs| - 1];
      assert forall i :: 0 <= i < |init| ==> init[i] == recs[i];
      DayMap(init)[last.studentId := last.present]
  }

  /** The flag attendanceMap holds for a student is that of the last record for them. */
  lemma {:induction false} DayMapLast(recs: seq<Attendance>, k: string)
    requires k in DayMap(recs)
    ensures exists i :: 0 <= i < |recs| && recs[i].studentId == k && recs[i].present == DayMap(recs)[k] &&
                        forall j :: i < j < |recs| ==> recs[j].studentId != k
  {
    var init := recs[..|recs| - 1];
    var last := recs[|recs| - 1];
    assert DayMap(recs) == DayMap(init)[last.studentId := last.present];
    if last.studentId != k {
      assert k in DayMap(init) && DayMap(recs)[k] == DayMap(init)[k];
      DayMapLast(init, k);
      var i :| 0 <= i < |init| && init[i].studentId == k && init[i].present == DayMap(init)[k] &&
               forall j :: i < j < |init| ==> init[j].studentId != k;
      LaterRecordsOthers(recs, init, k, i);
      assert recs[i] == init[i];
    } else {
      assert recs[|recs| - 1].present == DayMap(recs)[k];
    }
  }

  /** No record after position i in the list without its last record is for k, nor is the
      last record: then no record after position i is. */
  lemma {:induction false} LaterRecordsOthers(recs: seq<Attendance>, init: seq<Attendance>, k: string, i: nat)
    requires i < |recs| - 1 && init == recs[..|recs| - 1] && recs[|recs| - 1].studentId != k
    requires forall j :: i < j < |init| ==> init[j].studentId != k
    ensures forall j :: i < j < |recs| ==> recs[j].studentId != k
  {
    forall j | i < j < |recs|
      ensures recs[j].studentId != k
    {
      if j < |recs| - 1 {
        assert recs[j] == init[j];
      }
    }
  }

  /** The pending edits as the record `attendanceData`. */
  function PendingMap(marks: seq<Mark>): map<string, bool>
  {
    if marks == [] then map[]
    else PendingMap(marks[..|marks| - 1])[marks[|marks| - 1].studentId := marks[|marks| - 1].present]
  }

  /** The record has a key for exactly the students with a pending edit, and holds the
      flag of each student's last edit. */
  lemma {:induction false} PendingMapKeys(marks: seq<Mark>)
    ensures forall k :: k in PendingMap(marks) <==> exists i :: 0 <= i < |marks| && marks[i].studentId == k
    ensures marks != [] ==> PendingMap(marks)[marks[|marks| - 1].studentId] == marks[|marks| - 1].present
  {
    if marks != [] {
      var init := marks[..|marks| - 1];
      PendingMapKeys(init);
      assert forall i :: 0 <= i < |init| ==> init[i] == marks[i];
    }
  }

  predicate DistinctMarks(marks: seq<Mark>)
  {
    forall i, j :: 0 <= i < j < |marks| ==> marks[i].studentId != marks[j].studentId
  }

  /** Selects the edit of one student. */
  function MarkFor(studentId: string): Mark -> bool
  {
    (m: Mark) => m.studentId == studentId
  }

  /** handleAttendanceChange: the student's mark becomes the given one. An existing key keeps
      its place and takes the new value; a new key goes to the end. */
  function SetMark(marks: seq<Mark>, studentId: string, present: bool): (r: seq<Mark>)
  {
    match FindIndex(marks, MarkFor(studentId))
    case None => marks + [Mark(studentId, present)]
    case Some(k) => marks[k := Mark(studentId, present)]
  }

  /** The edit keeps one entry per student and writes exactly one key of the record. */
  lemma {:induction false} SetMarkIsUpdate(marks: seq<Mark>, studentId: string, present: bool)
    requires DistinctMarks(marks)
    ensures DistinctMarks(SetMark(marks, studentId, present))
    ensures PendingMap(SetMark(marks, studentId, present)) == PendingMap(marks)[studentId := present]
  {
    match FindIndex(marks, MarkFor(studentId))
    case None =>
      AppendNewMark(marks, Mark(studentId, present));
    case Some(k) =>
      assert MarkFor(studentId)(marks[k]);
      ReplaceKeepsDistinct(marks, k, present);
      PendingMapReplace(marks, k, present);
  }

  /** A new student's edit goes to the end of the record. */
  lemma {:induction false} AppendNewMark(marks: seq<Mark>, m: Mark)
    requires DistinctMarks(marks)
    requires forall i :: 0 <= i < |marks| ==> !MarkFor(m.studentId)(marks[i])
    ensures DistinctMarks(marks + [m])
    ensures PendingMap(marks + [m]) == PendingMap(marks)[m.studentId := m.present]
  {
    PendingMapSnoc(marks, m);
  }

  /** Rewriting the flag of an entry keeps one entry per student. */
  lemma {:induction false} ReplaceKeepsDistinct(marks: seq<Mark>, k: nat, present: bool)
    requires DistinctMarks(marks) && k < |marks|
    ensures DistinctMarks(marks[k := Mark(marks[k].studentId, present)])
  {
  }

  lemma {:induction false} DistinctInit(marks: seq<Mark>)
    requires DistinctMarks(marks) && marks != []
    ensures DistinctMarks(marks[..|marks| - 1])
    ensures forall i :: 0 <= i < |marks| - 1 ==> marks[i].studentId != marks[|marks| - 1].studentId
  {
  }

  /** Overwriting the value of one entry of a distinct-key list overwrites that key. */
  lemma {:induction false} PendingMapReplace(marks: seq<Mark>, k: nat, present: bool)
    requires DistinctMarks(marks) && k < |marks|
    ensures PendingMap(marks[k := Mark(marks[k].studentId, present)]) == PendingMap(marks)[marks[k].studentId := present]
  {
    var r := marks[k := Mark(marks[k].studentId, present)];
    var init := marks[..|marks| - 1];
    var last := marks[|marks| - 1];
    var id := marks[k].studentId;
    assert marks == init + [last];
    PendingMapSnoc(init, last);
    if k == |marks| - 1 {
      assert r == init + [Mark(id, present)];
      PendingMapSnoc(init, Mark(id, present));
    } else {
      var init' := init[k := Mark(init[k].studentId, present)];
      assert r == init' + [last];
      PendingMapSnoc(init', last);
      DistinctInit(marks);
      assert init[k] == marks[k];
      PendingMapReplace(init, k, present);
      MapUpdatesCommute(PendingMap(init), id, present, last.studentId, last.present);
      calc {
        PendingMap(r);
        PendingMap(init')[last.studentId := last.present];
        PendingMap(init)[id := present][last.studentId := last.present];
        PendingMap(init)[last.studentId := last.present][id := present];
        PendingMap(marks)[id := present];
      }
    }
  }

  lemma {:induction false} PendingMapSnoc(init: seq<Mark>, m: Mark)
    ensures PendingMap(init + [m]) == PendingMap(init)[m.studentId := m.present]
  {
    var r := init + [m];
    assert r[..|r| - 1] == init;
  }

  lemma {:induction false} MapUpdatesCommute(m: map<string, bool>, a: string, x: bool, b: string, y: bool)
    requires a != b
    ensures m[a := x][b := y] == m[b := y][a := x]
  {
  }

  /** The status a row shows: the pending edit if any, else the stored flag, else absent. */
  function Displayed(pending: map<string, bool>, stored: map<string, bool>, studentId: string): bool
  {
    if studentId in pending then pending[studentId]
    else studentId in stored && stored[studentId]
  }

  /** presentCount: the true values of `{ ...attendanceMap, ...attendanceData }`. */
  function PresentCount(stored: map<string, bool>, pending: map<string, bool>): (n: nat)
  {
    var merged := stored + pending;
    |set k | k in merged && merged[k]|
  }

  /** The merged record agrees with the displayed status, so presentCount counts the
      students shown present among those with a stored or pending entry, and is bounded
      by the number of such students. */
  lemma {:induction false} PresentCountIsDisplayed(stored: map<string, bool>, pending: map<string, bool>)
    ensures PresentCount(stored, pending) == |set k | k in stored.Keys + pending.Keys && Displayed(pending, stored, k)|
    ensures PresentCount(stored, pending) <= |stored.Keys + pending.Keys|
  {
    var merged := stored + pending;
    var a := set k | k in merged && merged[k];
    var b := set k | k in stored.Keys + pending.Keys && Displayed(pending, stored, k);
    assert a == b;
    assert a <= merged.Keys;
    assert merged.Keys == stored.Keys + pending.Keys;
    SubsetCard(a, merged.Keys);
  }

  lemma {:induction false} SubsetCard<T>(a: set<T>, b: set<T>)
    requires a <= b
    ensures |a| <= |b|
  {
    if a != {} {
      var x :| x in a;
      SubsetCard(a - {x}, b - {x});
    }
  }

  /** True when the day already has a record for the student (`todayAttendance.find`). */
  predicate Recorded(dayRecs: seq<Attendance>, studentId: string)
  {
    FindIndex(dayRecs, AttendanceOf(studentId)).Some?
  }

  /** The record saveAttendance adds for one pending edit, if any. */
  function SaveStep(m: Mark, dayRecs: seq<Attendance>, date: DateText, now: string, id: string): seq<Attendance>
  {
    if Recorded(dayRecs, m.studentId) then [] else [Attendance(id, m.studentId, date, m.present, Manual, now)]
  }

  /** The records saveAttendance adds, in the order of the pending edits; the i-th edit's record gets ids[i]. */
  function ToSave(marks: seq<Mark>, dayRecs: seq<Attendance>, date: DateText, now: string, ids: seq<string>): seq<Attendance>
    requires |ids| == |marks|
  {
    if marks == [] then []
    else ToSave(marks[..|marks| - 1], dayRecs, date, now, ids[..|ids| - 1]) +
         SaveStep(marks[|marks| - 1], dayRecs, date, now, ids[|ids| - 1])
  }

  /** Every saved record is a manual record for the selected date carrying a pending choice
      of a student without a record that day; every such pending choice is saved. */
  lemma {:induction false} ToSaveFacts(marks: seq<Mark>, dayRecs: seq<Attendance>, date: DateText, now: string, ids: seq<string>)
    requires |ids| == |marks|
    ensures forall r <- ToSave(marks, dayRecs, date, now, ids) ::
      r.date == date && r.via == Manual && !Recorded(dayRecs, r.studentId) && Mark(r.studentId, r.present) in marks
    ensures forall m <- marks :: !Recorded(dayRecs, m.studentId) ==>
      Attendance(ids[IndexOfMark(marks, m)], m.studentId, date, m.present, Manual, now) in ToSave(marks, dayRecs, date, now, ids)
    ensures |ToSave(marks, dayRecs, date, now, ids)| <= |marks|
  {
    ToSaveSound(marks, dayRecs, date, now, ids);
    ToSaveComplete(marks, dayRecs, date, now, ids);
    ToSaveLength(marks, dayRecs, date, now, ids);
  }

  lemma {:induction false} ToSaveSound(marks: seq<Mark>, dayRecs: seq<Attendance>, date: DateText, now: string, ids: seq<string>)
    requires |ids| == |marks|
    ensures forall r <- ToSave(marks, dayRecs, date, now, ids) ::
      r.date == date && r.via == Manual && !Recorded(dayRecs, r.studentId) && Mark(r.studentId, r.present) in marks
  {
    if marks != [] {
      var init := marks[..|marks| - 1];
      var last := marks[|marks| - 1];
      ToSaveSound(init, dayRecs, date, now, ids[..|ids| - 1]);
      var s0 := ToSave(init, dayRecs, date, now, ids[..|ids| - 1]);
      var step := SaveStep(last, dayRecs, date, now, ids[|ids| - 1]);
      assert ToSave(marks, dayRecs, date, now, ids) == s0 + step;
      assert forall m <- init :: m in marks;
    }
  }

  lemma {:induction false} ToSaveComplete(marks: seq<Mark>, dayRecs: seq<Attendance>, date: DateText, now: string, ids: seq<string>)
    requires |ids| == |marks|
    ensures forall m <- marks :: !Recorded(dayRecs, m.studentId) ==>
      Attendance(ids[IndexOfMark(marks, m)], m.studentId, date, m.present, Manual, now) in ToSave(marks, dayRecs, date, now, ids)
  {
    if marks != [] {
      var init := marks[..|marks| - 1];
      var last := marks[|marks| - 1];
      ToSaveComplete(init, dayRecs, date, now, ids[..|ids| - 1]);
      var s := ToSave(marks, dayRecs, date, now, ids);
      var s0 := ToSave(init, dayRecs, date, now, ids[..|ids| - 1]);
      assert s == s0 + SaveStep(last, dayRecs, date, now, ids[|ids| - 1]);
      forall m <- marks | !Recorded(dayRecs, m.studentId)
        ensures Attendance(ids[IndexOfMark(marks, m)], m.studentId, date, m.present, Manual, now) in s
      {
        IndexOfMarkPrefix(marks, m);
        if m in init {
          assert ids[IndexOfMark(marks, m)] == ids[..|ids| - 1][IndexOfMark(init, m)];
        }
      }
    }
  }

  lemma {:induction false} ToSaveLength(marks: seq<Mark>, dayRecs: seq<Attendance>, date: DateText, now: string, ids: seq<string>)
    requires |ids| == |marks|
    ensures |ToSave(marks, dayRecs, date, now, ids)| <= |marks|
  {
    if marks != [] {
      ToSaveLength(marks[..|marks| - 1], dayRecs, date, now, ids[..|ids| - 1]);
    }
  }

  /** The position of a pending edit in the list (its first occurrence). */
  function IndexOfMark(marks: seq<Mark>, m: Mark): (k: nat)
    requires m in marks
    ensures k < |marks| && marks[k] == m
    ensures forall j :: 0 <= j < k ==> marks[j] != m
  {
    if marks[0] == m then 0 else 1 + IndexOfMark(marks[1..], m)
  }

  lemma {:induction false} IndexOfMarkPrefix(marks: seq<Mark>, m: Mark)
    requires m in marks && marks != []
    ensures m in marks[..|marks| - 1] ==> IndexOfMark(marks, m) == IndexOfMark(marks[..|marks| - 1], m)
    ensures m !in marks[..|marks| - 1] ==> IndexOfMark(marks, m) == |marks| - 1
  {
    var init := marks[..|marks| - 1];
    var k := IndexOfMark(marks, m);
    if m in init {
      var k0 := IndexOfMark(init, m);
      assert marks[k0] == m;
      assert k <= k0;
      assert k < |init| && init[k] == m;
    } else {
      assert forall j :: 0 <= j < |init| ==> init[j] == marks[j];
    }
  }

  /** addAttendance applied to each record in turn. */
  function RecordAll(db: Db, recs: seq<Attendance>): (r: Db)
    ensures r.attendance == db.attendance + recs
  {
    if recs == [] then db
    else
      var init := recs[..|recs| - 1];
      assert init + [recs[|recs| - 1]] == recs;
      RecordAttendance(RecordAll(db, init), recs[|recs| - 1])
  }

  /** One turn of the save loop: the next pending edit adds its record or nothing. */
  lemma {:induction false} SaveOne(db: Db, marks: seq<Mark>, dayRecs: seq<Attendance>, date: DateText, now: string,
                                   ids: seq<string>, i: nat)
    requires |ids| == |marks| && i < |marks|
    ensures var before := RecordAll(db, ToSave(marks[..i], dayRecs, date, now, ids[..i]));
            var m := marks[i];
            RecordAll(db, ToSave(marks[..i + 1], dayRecs, date, now, ids[..i + 1])) ==
            if Recorded(dayRecs, m.studentId) then before
            else RecordAttendance(before, Attendance(ids[i], m.studentId, date, m.present, Manual, now))
  {
    var before := ToSave(marks[..i], dayRecs, date, now, ids[..i]);
    assert marks[..i + 1][..i] == marks[..i] && ids[..i + 1][..i] == ids[..i];
    var step := SaveStep(marks[i], dayRecs, date, now, ids[i]);
    assert ToSave(marks[..i + 1], dayRecs, date, now, ids[..i + 1]) == before + step;
    if step == [] {
      assert before + step == before;
    } else {
      assert (before + step)[..|before|] == before;
    }
  }

  /** The sheet's own state: the date picker and the pending edits. */
  class Sheet {
    var selectedDate: DateText
    var marks: seq<Mark>

    ghost predicate Valid()
      reads this
    {
      DistinctMarks(marks)
    }

    constructor (today: DateText)
      ensures selectedDate == today && marks == [] && Valid()
    {
      selectedDate := today;
      marks := [];
    }

    method SelectDate(date: DateText)
      modifies this
      ensures selectedDate == date && marks == old(marks)
    {
      selectedDate := date;
    }

    /** handleAttendanceChange */
    method Change(studentId: string, present: bool)
      requires Valid()
      modifies this
      ensures Valid()
      ensures marks == SetMark(old(marks), studentId, present) && selectedDate == old(selectedDate)
      ensures PendingMap(marks) == PendingMap(old(marks))[studentId := present]
    {
      SetMarkIsUpdate(marks, studentId, present);
      marks := SetMark(marks, studentId, present);
    }

    /** saveAttendance: one manual record per pending edit whose student has no record on the
        selected date (checked against the records as they were when the save began), then
        the pending edits are cleared. */
    method Save(store: DataStore, ids: seq<string>, now: string)
      requires |ids| == |marks|
      modifies this, store
      ensures store.State() == RecordAll(old(store.State()),
                ToSave(old(marks), DayRecords(old(store.attendance), selectedDate), selectedDate, now, ids))
      ensures marks == [] && selectedDate == old(selectedDate) && Valid()
    {
      var date, pending := selectedDate, marks;
      var dayRecs := DayRecords(store.attendance, date);
      ghost var start := store.State();
      var i := 0;
      while i < |pending|
        invariant 0 <= i <= |pending|
        modifies store
        invariant store.State() == RecordAll(start, ToSave(pending[..i], dayRecs, date, now, ids[..i]))
      {
        var m := pending[i];
        SaveOne(start, pending, dayRecs, date, now, ids, i);
        if FindIndex(dayRecs, AttendanceOf(m.studentId)).None? {
          store.AddAttendance(Attendance(ids[i], m.studentId, date, m.present, Manual, now));
        }
        i := i + 1;
      }
      assert pending[..i] == pending && ids[..i] == ids;
      marks := [];
    }
  }
}
