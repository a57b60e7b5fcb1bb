/**
 * The additional-details form of the wizard (src/pages/wizard/Step2.tsx):
 * its validation, its field updates, and the employee-id count fetch that
 * runs whenever the department changes.
 */
module Step2 {
  import opened Wrappers
  import opened Autocomplete
  import opened EmpId

  datatype Step2Values = Step2Values(
    department: Option<Item>,
    location: Option<Item>,
    employeeId: string,
    photoDataUrl: Option<string>,
    notes: string)

  datatype Step2Field = Department | Location | EmployeeId | Photo | Notes

  datatype Step2Errors = Step2Errors(department: string, location: string, employeeId: string, photo: string)

  const DepartmentRequired := "Silakan pilih department."
  const LocationRequired := "Silakan pilih lokasi."
  const EmployeeIdMissing := "Employee ID belum terbentuk."
  const PhotoRequired := "Foto wajib diunggah."

  /** A photo counts only when present and non-empty (the empty string is falsy). */
  predicate HasPhoto(v: Step2Values) {
    v.photoDataUrl.Some? && v.photoDataUrl.value != ""
  }

  /** `errors`: each message is non-empty exactly when its field is missing or empty. */
  function Errors(v: Step2Values): (e: Step2Errors)
    ensures e.department != "" <==> v.department.None?
    ensures e.location != "" <==> v.location.None?
    ensures e.employeeId != "" <==> v.employeeId == ""
    ensures e.photo != "" <==> !HasPhoto(v)
  {
    Step2Errors(
      if v.department.Some? then "" else DepartmentRequired,
      if v.location.Some? then "" else LocationRequired,
      if v.employeeId != "" then "" else EmployeeIdMissing,
      if HasPhoto(v) then "" else PhotoRequired)
  }

  /** `isValid`: all four messages are empty, i.e. all four fields are filled. */
  function IsValid(v: Step2Values): (valid: bool)
    ensures valid <==> v.department.Some? && v.location.Some? && v.employeeId != "" && HasPhoto(v)
  {
    var e := Errors(v);
    e.department == "" && e.location == "" && e.employeeId == "" && e.photo == ""
  }

  /** Two records agree on every field except possibly `field`. */
  predicate SameExcept(a: Step2Values, b: Step2Values, field: Step2Field) {
    && (field != Department ==> a.department == b.department)
    && (field != Location ==> a.location == b.location)
    && (field != EmployeeId ==> a.employeeId == b.employeeId)
    && (field != Photo ==> a.photoDataUrl == b.photoDataUrl)
    && (field != Notes ==> a.notes == b.notes)
  }

  /** `handleNotesChange` */
  function ChangeNotes(v: Step2Values, notes: string): (r: Step2Values)
    ensures SameExcept(v, r, Notes) && r.notes == notes
  {
    v.(notes := notes)
  }

  /** The department `onSelect` */
  function SelectDepartment(v: Step2Values, option: Item): (r: Step2Values)
    ensures SameExcept(v, r, Department) && r.department == Some(option)
  {
    v.(department := Some(option))
  }

  /** The location `onSelect` */
  function SelectLocation(v: Step2Values, option: Item): (r: Step2Values)
    ensures SameExcept(v, r, Location) && r.location == Some(option)
  {
    v.(location := Some(option))
  }

  /** The photo picker's `onChange` (null when the photo is removed). */
  function ChangePhoto(v: Step2Values, photo: Option<string>): (r: Step2Values)
    ensures SameExcept(v, r, Photo) && r.photoDataUrl == photo
  {
    v.(photoDataUrl := photo)
  }

  /** The body of the count response: an array (of some length) or anything else. */
  datatype CountBody = ArrayBody(length: nat) | OtherBody

  /** How the count request ends. */
  datatype CountResult = CountLoaded(body: CountBody) | CountFailed

  /** `value.department?.name ?? ''` */
  function DepartmentName(department: Option<Item>): (name: string)
    ensures department.None? ==> name == ""
    ensures department.Some? ==>
              name == (if "name" in department.value.fields then department.value.fields["name"] else "")
  {
    match department
    case Some(d) => if "name" in d.fields then d.fields["name"] else ""
    case None => ""
  }

  /** The existing count: the array length, or 0 for a non-array body. */
  function ExistingCount(body: CountBody): (n: nat)
    ensures body.OtherBody? ==> n == 0
    ensures body.ArrayBody? ==> n == body.length
  {
    match body
    case ArrayBody(length) => length
    case OtherBody => 0
  }

  /**
   * The record `fetchCount` hands to `onChange` once the request ends: a
   * success sets the employee id derived from the department name and the
   * existing count, a failure clears it; nothing else changes.
   */
  function ApplyCountResult(v: Step2Values, result: CountResult): (r: Step2Values)
    ensures SameExcept(v, r, EmployeeId)
    ensures result.CountFailed? ==> r.employeeId == ""
    ensures result.CountLoaded? ==>
              (r.employeeId == "" <==> DepartmentName(v.department) == "")
    ensures result.CountLoaded? ==>
              r.employeeId == MakeEmpId(DepartmentName(v.department), ExistingCount(result.body))
    ensures result.CountLoaded? && DepartmentName(v.department) != "" ==>
              |r.employeeId| >= 7 && r.employeeId[..3] == Prefix(DepartmentName(v.department))
              && r.employeeId[3] == '-' && r.employeeId[4..] == NumberPart(ExistingCount(result.body))
  {
    match result
    case CountLoaded(body) =>
      v.(employeeId := MakeEmpId(DepartmentName(v.department), ExistingCount(body)))
    case CountFailed => v.(employeeId := "")
  }

  /**
   * What a department change starts: an immediate clear of the id, or a
   * count request together with the values the effect captured, which the
   * request's outcome is later applied to.
   */
  datatype CountStart = ClearEmployeeId(next: Step2Values) | RequestCount(departmentId: OptionId, captured: Step2Values)

  /** `handleSubmit`'s result and the count display: the component's own state. */
  class Step2Form {
    var submitAttempted: bool
    var isFetchingCount: bool

    constructor ()
      ensures !submitAttempted && !isFetchingCount
    {
      submitAttempted := false;
      isFetchingCount := false;
    }

    /** `handleSubmit`: always marks the attempt; returns whether `onSubmit` is called. */
    method HandleSubmit(v: Step2Values) returns (submitted: bool)
      modifies this
      ensures submitAttempted && isFetchingCount == old(isFetchingCount)
      ensures submitted <==> IsValid(v)
    {
      submitAttempted := true;
      if !IsValid(v) {
        return false;
      }
      submitted := true;
    }

    /** The start of `fetchCount`: with no department, the id is cleared and nothing is requested. */
    method StartCountFetch(v: Step2Values) returns (start: CountStart)
      modifies this
      ensures submitAttempted == old(submitAttempted)
      ensures v.department.None? ==>
                start == ClearEmployeeId(v.(employeeId := "")) && isFetchingCount == old(isFetchingCount)
      ensures v.department.Some? ==>
                start == RequestCount(v.department.value.id, v) && isFetchingCount
    {
      if v.department.None? {
        start := ClearEmployeeId(v.(employeeId := ""));
        return;
      }
      isFetchingCount := true;
      start := RequestCount(v.department.value.id, v);
    }

    /**
     * The end of `fetchCount`: the record handed to `onChange`, built from
     * the values captured when the request started, and the `finally`.
     */
    method FinishCountFetch(start: CountStart, result: CountResult) returns (next: Step2Values)
      requires start.RequestCount?
      modifies this
      ensures next == ApplyCountResult(start.captured, result)
      ensures !isFetchingCount && submitAttempted == old(submitAttempted)
    {
      next := ApplyCountResult(start.captured, result);
      isFetchingCount := false;
    }

    /** The text of the read-only employee-id input. */
    function EmployeeIdDisplay(v: Step2Values): (text: string)
      reads this
      ensures isFetchingCount ==> text == "Menghitung..."
      ensures !isFetchingCount ==> text == v.employeeId
    {
      if isFetchingCount then "Menghitung..." else v.employeeId
    }
  }

  /** Without a department, whatever the count request returns, the employee id ends up empty. */
  lemma NoDepartmentNoEmployeeId(v: Step2Values, result: CountResult)
    requires v.department.None?
    ensures ApplyCountResult(v, result).employeeId == ""
    ensures !IsValid(ApplyCountResult(v, result))
  {
  }

  /**
   * Selecting a named department and receiving the count completes the id
   * field: the form is then valid exactly when location and photo are set.
   */
  lemma CountCompletesEmployeeId(v: Step2Values, option: Item, n: nat)
    requires "name" in option.fields && option.fields["name"] != ""
    ensures var r := ApplyCountResult(SelectDepartment(v, option), CountLoaded(ArrayBody(n)));
      r.employeeId != "" && (IsValid(r) <==> v.location.Some? && HasPhoto(v))
  {
  }

  /**
   * The count's outcome is applied to the values captured when the department
   * changed, so a field edited while the request is in flight (here the notes)
   * is overwritten with its earlier value.
   */
  lemma InFlightEditIsOverwritten(v: Step2Values, notes: string, result: CountResult)
    requires v.department.Some? && notes != v.notes
    ensures var edited := ChangeNotes(v, notes);
      ApplyCountResult(v, result).notes == v.notes != edited.notes
  {
  }
}
