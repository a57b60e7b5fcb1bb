/**
 * The wizard page (src/pages/wizard/Wizard.tsx): the role decides the start
 * step, the two forms' values are drafted under a per-role key, and submit or
 * "Clear Draft" resets everything.
 */
module Wizard {
  import opened Wrappers
  import opened Roles
  import opened Draft
  import opened Autocomplete
  import opened Step1
  import opened Step2

  /** `createInitialStep1Values()` */
  function InitialStep1(): Step1Values {
    Step1Values("", "")
  }

  /** `createInitialStep2Values()` */
  function InitialStep2(): Step2Values {
    Step2Values(None, None, "", None, "")
  }

  /** A stored step-1 object: each property may be missing from the stored JSON. */
  datatype Step1Stored = Step1Stored(phone: Option<string>, emergencyContact: Option<string>)

  /** A stored step-2 object; the nullable properties may be missing, null, or set. */
  datatype Step2Stored = Step2Stored(
    department: Option<Option<Item>>,
    location: Option<Option<Item>>,
    employeeId: Option<string>,
    photoDataUrl: Option<Option<string>>,
    notes: Option<string>)

  /** A top-level property of the `WizardDraft` record. */
  datatype Part = Part1(step1: Step1Stored) | Part2(step2: Step2Stored)

  /** What a full step-1 record is stored as: every property present. */
  function Store1(v: Step1Values): Step1Stored {
    Step1Stored(Some(v.phone), Some(v.emergencyContact))
  }

  function Store2(v: Step2Values): Step2Stored {
    Step2Stored(Some(v.department), Some(v.location), Some(v.employeeId), Some(v.photoDataUrl), Some(v.notes))
  }

  /** `{ ...base, ...stored }` for step 1: stored properties win, missing ones keep the base. */
  function Overlay1(base: Step1Values, s: Step1Stored): (r: Step1Values)
    ensures s.phone.Some? ==> r.phone == s.phone.value
    ensures s.phone.None? ==> r.phone == base.phone
    ensures s.emergencyContact.Some? ==> r.emergencyContact == s.emergencyContact.value
    ensures s.emergencyContact.None? ==> r.emergencyContact == base.emergencyContact
  {
    Step1Values(s.phone.GetOr(base.phone), s.emergencyContact.GetOr(base.emergencyContact))
  }

  /** `{ ...base, ...stored }` for step 2. */
  function Overlay2(base: Step2Values, s: Step2Stored): (r: Step2Values)
    ensures s.department.Some? ==> r.department == s.department.value
    ensures s.department.None? ==> r.department == base.department
    ensures s.location.Some? ==> r.location == s.location.value
    ensures s.location.None? ==> r.location == base.location
    ensures s.employeeId.Some? ==> r.employeeId == s.employeeId.value
    ensures s.employeeId.None? ==> r.employeeId == base.employeeId
    ensures s.photoDataUrl.Some? ==> r.photoDataUrl == s.photoDataUrl.value
    ensures s.photoDataUrl.None? ==> r.photoDataUrl == base.photoDataUrl
    ensures s.notes.Some? ==> r.notes == s.notes.value
    ensures s.notes.None? ==> r.notes == base.notes
  {
    Step2Values(
      s.department.GetOr(base.department),
      s.location.GetOr(base.location),
      s.employeeId.GetOr(base.employeeId),
      s.photoDataUrl.GetOr(base.photoDataUrl),
      s.notes.GetOr(base.notes))
  }

  /** The step-1 values the restore effect sets from a loaded draft. */
  function Restored1(stored: Option<Record<Part>>): (v: Step1Values)
    ensures stored.None? || "step1" !in stored.value ==> v == InitialStep1()
    ensures stored.Some? && "step1" in stored.value && stored.value["step1"].Part1? ==>
              v == Overlay1(InitialStep1(), stored.value["step1"].step1)
    ensures stored.Some? && "step1" in stored.value && !stored.value["step1"].Part1? ==> v == InitialStep1()
  {
    if stored.Some? && "step1" in stored.value && stored.value["step1"].Part1? then
      Overlay1(InitialStep1(), stored.value["step1"].step1)
    else InitialStep1()
  }

  /** The step-2 values the restore effect sets from a loaded draft. */
  function Restored2(stored: Option<Record<Part>>): (v: Step2Values)
    ensures stored.None? || "step2" !in stored.value ==> v == InitialStep2()
    ensures stored.Some? && "step2" in stored.value && stored.value["step2"].Part2? ==>
              v == Overlay2(InitialStep2(), stored.value["step2"].step2)
    ensures stored.Some? && "step2" in stored.value && !stored.value["step2"].Part2? ==> v == InitialStep2()
  {
    if stored.Some? && "step2" in stored.value && stored.value["step2"].Part2? then
      Overlay2(InitialStep2(), stored.value["step2"].step2)
    else InitialStep2()
  }

  /** Restoring a stored full record gives that record back, whatever the base. */
  lemma RestoreRoundTrip(base1: Step1Values, v1: Step1Values, base2: Step2Values, v2: Step2Values)
    ensures Overlay1(base1, Store1(v1)) == v1
    ensures Overlay2(base2, Store2(v2)) == v2
  {
  }

  /** `draftKey`: `draft_` followed by the role. */
  function DraftKey(role: Role): (key: string)
    ensures |key| > 6 && key[..6] == "draft_" && key[6..] == RoleValue(role)
  {
    "draft_" + RoleValue(role)
  }

  /** Different roles draft under different keys, so one role never restores the other's draft. */
  lemma DraftKeyInjective(a: Role, b: Role)
    ensures DraftKey(a) == DraftKey(b) ==> a == b
  {
    if DraftKey(a) == DraftKey(b) {
      assert RoleValue(a) == DraftKey(a)[6..] == DraftKey(b)[6..] == RoleValue(b);
    }
  }

  /** The start step: 1 for admin, 2 otherwise. */
  function StartStep(role: Role): (step: int)
    ensures step == 1 || step == 2
    ensures step == 1 <==> role == Admin
  {
    if role == Admin then 1 else 2
  }

  /** `handleBack`'s step: non-admin stays, admin goes back one step but never below 1. */
  function BackStep(role: Role, step: int): (r: int)
    ensures role != Admin ==> r == step
    ensures role == Admin && step > 1 ==> r == step - 1
    ensures step >= 1 ==> r >= 1
    ensures r <= step
  {
    if role != Admin then step
    else if step > 1 then step - 1 else step
  }

  /** `isBackVisible` */
  function IsBackVisible(role: Role, step: int): (visible: bool)
    ensures visible ==> role == Admin && step > 1
    // on every reachable step, Back is offered exactly when pressing it would move
    ensures step >= 1 ==> (visible <==> BackStep(role, step) < step)
  {
    role == Admin && step > 1
  }

  /** The render choice: Step 1 only for admin on step 1, Step 2 in every other case. */
  function ShowsStep1(role: Role, step: int): (step1: bool)
    ensures step1 <==> role == Admin && step == StartStep(role)
    ensures role == Ops ==> !step1
  {
    step == 1 && role == Admin
  }

  /** Whenever Back is offered, pressing it moves to an earlier step that is still at least 1. */
  lemma VisibleBackMoves(role: Role, step: int)
    requires IsBackVisible(role, step)
    ensures 1 <= BackStep(role, step) < step
  {
  }

  class WizardPage {
    var role: Role
    var step: int
    var step1Values: Step1Values
    var step2Values: Step2Values
    const draft: DraftStore<Part>

    ghost predicate Valid()
      reads this, draft
    {
      draft.Valid() && draft.key == DraftKey(role) && (step == 1 || step == 2)
    }

    /** Mounting the page: start step of the role, then the restore effect. */
    constructor (role: Role, available: bool, storage: map<string, Entry<Part>>)
      ensures Valid() && fresh(draft)
      ensures this.role == role && step == StartStep(role)
      ensures draft.storage == storage && draft.pending.None? && draft.available == available
      ensures draft.latest == ReadDraft(available, storage, DraftKey(role))
      ensures step1Values == Restored1(draft.latest) && step2Values == Restored2(draft.latest)
    {
      this.role := role;
      draft := new DraftStore(available, DraftKey(role), storage);
      step := StartStep(role);
      step1Values := InitialStep1();
      step2Values := InitialStep2();
      new;
      Restore();
    }

    /** The restore effect: load the draft, lay each stored part over the initial values. */
    method Restore()
      requires Valid()
      modifies this, draft
      ensures Valid()
      ensures role == old(role) && step == old(step)
      ensures draft.storage == old(draft.storage) && draft.pending == old(draft.pending)
      ensures draft.latest == ReadDraft(draft.available, draft.storage, DraftKey(role))
      ensures step1Values == Restored1(draft.latest) && step2Values == Restored2(draft.latest)
    {
      var stored := draft.Load();
      step1Values := Restored1(stored);
      step2Values := Restored2(stored);
    }

    /** A new role: the draft key follows it, the step is recomputed, and the draft is restored. */
    method RoleChange(newRole: Role)
      requires Valid()
      modifies this, draft
      ensures Valid()
      ensures role == newRole
      ensures newRole == old(role) ==>
                step == old(step) && step1Values == old(step1Values) && step2Values == old(step2Values)
      ensures newRole != old(role) ==>
                && step == StartStep(newRole)
                && draft.latest == ReadDraft(draft.available, draft.storage, DraftKey(newRole))
                && step1Values == Restored1(draft.latest) && step2Values == Restored2(draft.latest)
      ensures draft.storage == old(draft.storage) && draft.pending == old(draft.pending)
    {
      if newRole == role {
        return;
      }
      role := newRole;
      draft.SetKey(DraftKey(newRole));
      step := StartStep(newRole);
      Restore();
    }

    /** `handleStep1Change(next)`: the values, and a save of `{ step1: next }` only. */
    method Step1Change(next: Step1Values)
      requires Valid()
      modifies this, draft
      ensures Valid()
      ensures step1Values == next && step2Values == old(step2Values)
      ensures role == old(role) && step == old(step)
      ensures draft.storage == old(draft.storage)
      ensures draft.available ==>
                draft.latest == Some(Merge(MergeBase(old(draft.latest), ReadDraft(true, draft.storage, DraftKey(role))),
                                           map["step1" := Part1(Store1(next))]))
      ensures draft.available ==> draft.pending == Some(PendingWrite(DraftKey(role), draft.latest.value))
      ensures !draft.available ==> draft.pending == old(draft.pending) && draft.latest == old(draft.latest)
    {
      step1Values := next;
      draft.Save(map["step1" := Part1(Store1(next))]);
    }

    /** `handleStep2Change(next)`: the values, and a save of `{ step2: next }` only. */
    method Step2Change(next: Step2Values)
      requires Valid()
      modifies this, draft
      ensures Valid()
      ensures step2Values == next && step1Values == old(step1Values)
      ensures role == old(role) && step == old(step)
      ensures draft.storage == old(draft.storage)
      ensures draft.available ==>
                draft.latest == Some(Merge(MergeBase(old(draft.latest), ReadDraft(true, draft.storage, DraftKey(role))),
                                           map["step2" := Part2(Store2(next))]))
      ensures draft.available ==> draft.pending == Some(PendingWrite(DraftKey(role), draft.latest.value))
      ensures !draft.available ==> draft.pending == old(draft.pending) && draft.latest == old(draft.latest)
    {
      step2Values := next;
      draft.Save(map["step2" := Part2(Store2(next))]);
    }

    /** `handleStep1Next` */
    method Step1Next()
      requires Valid()
      modifies this
      ensures Valid()
      ensures step == 2
      ensures role == old(role) && step1Values == old(step1Values) && step2Values == old(step2Values)
    {
      step := 2;
    }

    /** `handleBack` */
    method Back()
      requires Valid()
      modifies this
      ensures Valid()
      ensures step == BackStep(role, old(step))
      ensures role == old(role) && step1Values == old(step1Values) && step2Values == old(step2Values)
    {
      if role != Admin {
        return;
      }
      step := if step > 1 then step - 1 else step;
    }

    /** `handleStep2Submit` and `handleClearDraft`: clear the draft, reset both forms and the step. */
    method Reset(removeOk: bool)
      requires Valid()
      modifies this, draft
      ensures Valid()
      ensures role == old(role) && step == StartStep(role)
      ensures step1Values == InitialStep1() && step2Values == InitialStep2()
      ensures draft.pending.None? && draft.latest.None?
      ensures draft.available && removeOk ==> draft.storage == old(draft.storage) - {DraftKey(role)}
      ensures !(draft.available && removeOk) ==> draft.storage == old(draft.storage)
    {
      draft.Clear(removeOk);
      step1Values := InitialStep1();
      step2Values := InitialStep2();
      step := StartStep(role);
    }

    method Step2Submit(removeOk: bool)
      requires Valid()
      modifies this, draft
      ensures Valid()
      ensures role == old(role) && step == StartStep(role)
      ensures step1Values == InitialStep1() && step2Values == InitialStep2()
      ensures draft.pending.None? && draft.latest.None?
      ensures draft.available && removeOk ==> draft.storage == old(draft.storage) - {DraftKey(role)}
      ensures !(draft.available && removeOk) ==> draft.storage == old(draft.storage)
    {
      Reset(removeOk);
    }

    method ClearDraft(removeOk: bool)
      requires Valid()
      modifies this, draft
      ensures Valid()
      ensures role == old(role) && step == StartStep(role)
      ensures step1Values == InitialStep1() && step2Values == InitialStep2()
      ensures draft.pending.None? && draft.latest.None?
      ensures draft.available && removeOk ==> draft.storage == old(draft.storage) - {DraftKey(role)}
      ensures !(draft.available && removeOk) ==> draft.storage == old(draft.storage)
    {
      Reset(removeOk);
    }
  }

  /**
   * Editing both forms, letting the timer fire and reloading the page under
   * the same role restores exactly the edited values.
   */
  method DraftSurvivesReload(storage: map<string, Entry<Part>>, role: Role, v1: Step1Values, v2: Step2Values)
    returns (restored1: Step1Values, restored2: Step2Values)
    ensures restored1 == v1 && restored2 == v2
  {
    var page := new WizardPage(role, true, storage);
    page.Step1Change(v1);
    page.Step2Change(v2);
    var merged := page.draft.latest.value;
    assert merged["step1"] == Part1(Store1(v1)) && merged["step2"] == Part2(Store2(v2));
    page.draft.Fire(true);
    var reloaded := new WizardPage(role, true, page.draft.storage);
    assert reloaded.draft.latest == Some(merged);
    restored1 := reloaded.step1Values;
    restored2 := reloaded.step2Values;
    RestoreRoundTrip(InitialStep1(), v1, InitialStep2(), v2);
  }

  /** After "Clear Draft" the page reloads with the initial values, even if an edit was still pending. */
  method ClearedDraftReloadsEmpty(storage: map<string, Entry<Part>>, role: Role, v1: Step1Values)
    returns (restored1: Step1Values, restored2: Step2Values, step: int)
    ensures restored1 == InitialStep1() && restored2 == InitialStep2()
    ensures step == StartStep(role)
  {
    var page := new WizardPage(role, true, storage);
    page.Step1Change(v1);
    page.ClearDraft(true);
    page.draft.Fire(true);
    var reloaded := new WizardPage(role, true, page.draft.storage);
    restored1 := reloaded.step1Values;
    restored2 := reloaded.step2Values;
    step := reloaded.step;
  }

  /** An ops user never sees Step 1: from any reachable step, Back changes nothing. */
  method OpsStaysOnStep2(storage: map<string, Entry<Part>>) returns (step: int, step1Shown: bool)
    ensures step == 2 && !step1Shown
  {
    var page := new WizardPage(Ops, true, storage);
    page.Back();
    step := page.step;
    step1Shown := ShowsStep1(page.role, page.step);
  }
}
