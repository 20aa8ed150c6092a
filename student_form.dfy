/** The new-student form (src/components/Students/StudentForm.tsx): its defaults, the
    number inputs, the photo checks and the student it adds. */
module StudentForm {
  import opened Seqs
  import opened Types
  import opened Store
  import opened Forms
  import opened StudentList

  datatype StudentFormData = StudentFormData(
    name: string,
    roll: string,
    className: string,
    section: string,
    parentName: string,
    parentPhone: string,
    address: string,
    mealCharge: int,
    balance: int,
    photo: string)

  /** The daily meal charge a new student starts with. */
  const DefaultMealCharge: int := 80

  /** The form as opened: every text empty, meal charge 80, balance 0, no photo. */
  const EmptyStudentForm := StudentFormData("", "", "", "", "", "", "", DefaultMealCharge, 0, "")

  /** The inputs, by their `name` attribute. */
  datatype StudentField = NameField | RollField | ClassField | SectionField | ParentNameField |
                          ParentPhoneField | AddressField | MealChargeField | BalanceField

  predicate IsNumberField(f: StudentField)
  {
    f == MealChargeField || f == BalanceField
  }

  /** handleChange: the meal charge and the balance go through Number(value), every other
      input is kept as typed. */
  function ChangeStudentField(d: StudentFormData, field: StudentField, value: string): (r: StudentFormData)
    requires IsNumberField(field) ==> IsNumericInput(value)
  {
    match field
    case NameField => d.(name := value)
    case RollField => d.(roll := value)
    case ClassField => d.(className := value)
    case SectionField => d.(section := value)
    case ParentNameField => d.(parentName := value)
    case ParentPhoneField => d.(parentPhone := value)
    case AddressField => d.(address := value)
    case MealChargeField => d.(mealCharge := NumberOf(value))
    case BalanceField => d.(balance := NumberOf(value))
  }

  /** A number typed as the digits of n is read back as n; a text input keeps its text;
      the photo never changes through these inputs. */
  lemma {:induction false} ChangeStudentFieldReadBack(d: StudentFormData, field: StudentField, value: string, n: nat)
    requires IsNumberField(field) ==> value == DecimalText(n)
    ensures IsNumberField(field) ==> IsNumericInput(value)
    ensures field == MealChargeField ==> ChangeStudentField(d, field, value) == d.(mealCharge := n)
    ensures field == BalanceField ==> ChangeStudentField(d, field, value) == d.(balance := n)
    ensures !IsNumberField(field) ==> ChangeStudentField(d, field, value).mealCharge == d.mealCharge &&
                                      ChangeStudentField(d, field, value).balance == d.balance
    ensures ChangeStudentField(d, field, value).photo == d.photo
  {
    if IsNumberField(field) {
      NumberOfDigits(n);
    }
  }

  /** The `required` inputs the browser checks before the submit handler runs. */
  predicate RequiredFilled(d: StudentFormData)
  {
    d.name != "" && d.roll != "" && d.className != "" && d.section != "" &&
    d.parentName != "" && d.parentPhone != "" && d.address != ""
  }

  /** The student handleSubmit adds: the form's values, active, stamped with the time. The
      photo is kept as the form holds it, the empty text when none was chosen. */
  function FormStudent(d: StudentFormData, id: string, createdAt: string): (s: Student)
    ensures s.id == id && s.status == Active && s.createdAt == createdAt
    ensures s.name == d.name && s.roll == d.roll && s.className == d.className && s.section == d.section
    ensures s.parentName == d.parentName && s.parentPhone == d.parentPhone && s.address == d.address
    ensures s.mealCharge == d.mealCharge && s.balance == d.balance && s.photo == Some(d.photo)
  {
    Student(id, d.name, d.roll, d.className, d.section, Some(d.photo), d.parentPhone, d.parentName,
            d.address, d.mealCharge, d.balance, Active, createdAt)
  }

  /** A student added with the opening balance of 0 starts on the low-balance list. */
  lemma {:induction false} NewStudentStartsLow(students: seq<Student>, d: StudentFormData, id: string, createdAt: string)
    requires d.balance == EmptyStudentForm.balance
    ensures FormStudent(d, id, createdAt) in LowBalanceStudents(students + [FormStudent(d, id, createdAt)])
  {
  }

  /** A fresh id keeps the ids of the students distinct. */
  lemma {:induction false} FreshIdKeepsUnique(students: seq<Student>, s: Student)
    requires UniqueIds(students)
    requires forall i :: 0 <= i < |students| ==> students[i].id != s.id
    ensures UniqueIds(students + [s])
  {
    var after := students + [s];
    forall i, j | 0 <= i < j < |after|
      ensures after[i].id != after[j].id
    {
      assert after[i] == students[i];
    }
  }

  /** The photo size limit: 5 MB. */
  const MaxPhotoBytes: int := 5 * 1024 * 1024

  datatype PhotoError = TooLarge | NotImage

  predicate StartsWith(s: string, prefix: string)
  {
    |prefix| <= |s| && s[..|prefix|] == prefix
  }

  /** handlePhotoUpload's checks in their order: the size first, then the MIME type. */
  function CheckPhoto(size: int, mime: string): (r: Option<PhotoError>)
    ensures r == Some(TooLarge) <==> size > MaxPhotoBytes
    ensures r == Some(NotImage) <==> size <= MaxPhotoBytes && !StartsWith(mime, "image/")
    ensures r.None? <==> size <= MaxPhotoBytes && StartsWith(mime, "image/")
  {
    if size > MaxPhotoBytes then Some(TooLarge)
    else if !StartsWith(mime, "image/") then Some(NotImage)
    else None
  }

  class StudentEntry {
    var data: StudentFormData

    constructor ()
      ensures data == EmptyStudentForm
    {
      data := EmptyStudentForm;
    }

    method Change(field: StudentField, value: string)
      requires IsNumberField(field) ==> IsNumericInput(value)
      modifies this
      ensures data == ChangeStudentField(old(data), field, value)
    {
      data := ChangeStudentField(data, field, value);
    }

    /** handlePhotoUpload: a rejected file leaves the form alone; an accepted one becomes
        the photo, as the data URL the file reader produces. */
    method UploadPhoto(size: int, mime: string, dataUrl: string) returns (err: Option<PhotoError>)
      modifies this
      ensures err == CheckPhoto(size, mime)
      ensures err.Some? ==> data == old(data)
      ensures err.None? ==> data == old(data).(photo := dataUrl)
    {
      err := CheckPhoto(size, mime);
      if err.None? {
        data := data.(photo := dataUrl);
      }
    }

    /** removePhoto */
    method RemovePhoto()
      modifies this
      ensures data == old(data).(photo := "")
    {
      data := data.(photo := "");
    }

    /** handleSubmit, reached only when the browser finds every required input filled:
        the student is added; an unfilled form adds nothing. */
    method Submit(store: DataStore, id: string, createdAt: string) returns (ok: bool)
      modifies store
      ensures ok <==> RequiredFilled(data)
      ensures !ok ==> store.State() == old(store.State())
      ensures ok ==> store.State() == old(store.State()).(students := old(store.students) + [FormStudent(data, id, createdAt)])
    {
      ok := RequiredFilled(data);
      if ok {
        store.AddStudent(FormStudent(data, id, createdAt));
      }
    }
  }

  /** Uploading a photo and removing it again leaves the form as it was apart from the
      photo being empty. */
  method UploadThenRemove(entry: StudentEntry, size: int, mime: string, dataUrl: string)
    modifies entry
    ensures entry.data == old(entry.data).(photo := "")
  {
    var _ := entry.UploadPhoto(size, mime, dataUrl);
    entry.RemovePhoto();
  }
}
