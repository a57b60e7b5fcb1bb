# Onboarding wizard core, modelled in Dafny

This project models the logic behind the employee onboarding wizard of
`frontend-assignment`, a React single-page app. The logic covers:

- the typeahead used to pick a department and a location;
- the Step 1 and Step 2 validators;
- the photo picker's accept/reject decision;
- the wizard's step/role state machine and its debounced draft store;
- the employee-ID generator;
- the employee list's record join and pagination arithmetic;
- the `role` query parameter, read and written with `URLSearchParams`
  semantics;
- the progress-state labels.

One Dafny module stands for each source file:

| module | file | form |
|---|---|---|
| `Autocomplete` | `autocomplete.dfy` | event functions on a `TypeaheadState` value, and class `Typeahead`, whose methods make the same updates to its fields |
| `EmpId` | `emp_id.dfy` | pure functions, with a reference definition (maximal letter runs) and lemmas |
| `Step1`, `Step2` | `step1.dfy`, `step2.dfy` | pure validators and field-update functions; `Step2.Step2Form` holds `submitAttempted`/`isFetchingCount` |
| `PhotoPicker` | `photo_picker.dfy` | a pure `Decide`, and class `Picker` for the error and input state |
| `Draft` | `draft.dfy` | class `DraftStore` over a storage map, with one pending write |
| `Wizard` | `wizard.dfy` | class `WizardPage`: role, step and both value sets, plus the draft store it owns |
| `Employees`, `Pagination` | `employees.dfy`, `pagination.dfy` | query building (with a `URLSearchParams` object), a details index filled by a loop, the join, and page arithmetic |
| `Roles`, `RoleContext` | `roles.dfy`, `role_context.dfy` | role parsing, and the `setRole` rewrite on a copied `SearchParams` object |
| `Progress` | `progress.dfy` | the five-case variant and its labels |

Shared support lives in three more modules:

- `Wrappers` holds `Option`.
- `Text` holds ASCII whitespace, case and trimming, decimal strings and padding.
- `UrlParams` holds `URLSearchParams` as an ordered list of name/value pairs, with `get`, `getAll`, `set`, `delete`, `toString` and parsing.

How the model treats the browser and the network:

- **Requests.** An HTTP response is an input to the method that applies it.
- **Timers.** A debounce timer is an explicit "fire" event.
- **Abort.** The typeahead's abort controller is a generation counter. A response changes the widget only if its generation is still current and was not aborted.
- **Storage.** `localStorage` is a map from key to a saved draft, a blank entry or an unparsable entry. A failed write or remove is a boolean input.

## Model

| member | source | states |
|---|---|---|
| Autocomplete.DeriveLabel | src/components/Autocomplete.tsx:41-49 | no option gives `""`; with `getOptionLabel` the label is its result; otherwise the label is the `name` field, or `""` when there is none |
| Autocomplete.HasQuery | src/components/Autocomplete.tsx:61-62 | a query needs at least `minChars` characters; surrounding whitespace never counts, so with a positive `minChars` blank input is no query; with `minChars <= 0` every input is a query |
| Autocomplete.ShowEmptyState | src/components/Autocomplete.tsx:177 | shown only for a query with no options while nothing loads; then, under the invariant, nothing is highlighted |
| Autocomplete.FilterByLabel | src/components/Autocomplete.tsx:100-105 | an option is kept iff it is in the response and its lower-cased label contains the query; never longer than the response |
| Autocomplete.FilterByLabelAppend | src/components/Autocomplete.tsx:100-105 | filtering keeps response order: filtering `a + b` is filtering `a` then filtering `b` |
| Autocomplete.KeepAllWhenQueryEmpty | src/components/Autocomplete.tsx:97-99 | with an empty lower-cased query the whole response is kept, as the unfiltered branch does |
| Autocomplete.FilterResponse | src/components/Autocomplete.tsx:90-105 | the options shown equal the label filter with the lower-cased trimmed query, so the two branches agree |
| Autocomplete.ArrowDownIndex | src/components/Autocomplete.tsx:155-157 | the index moves up by one iff it is below `len-1`, and stays in `[-1, len)` when it started there |
| Autocomplete.ArrowUpIndex | src/components/Autocomplete.tsx:160 | the index moves down by one iff it is above 0; never goes below 0 from 0, and -1 stays -1 |
| Autocomplete.EffectBody | src/components/Autocomplete.tsx:69-82 | the fetch effect body (skip once, clear on short query, or open and arm the timer) keeps the highlight invariant |
| Autocomplete.RunEffect | src/components/Autocomplete.tsx:68-121 | the effect reruns only when the trimmed input changes: cleanup aborts and disarms; a pending skip is consumed without fetching; a short query empties the options, closes and sets the highlight to -1; otherwise it opens and arms the timer for the trimmed query |
| Autocomplete.Mount | src/components/Autocomplete.tsx:51-82 | the first state shows the value's label with no options and highlight -1, and is open iff the query is long enough |
| Autocomplete.OnInputChange | src/components/Autocomplete.tsx:61-139 | typing fewer than `minChars` characters closes the list; a new short trimmed query clears options and highlight, arms no timer and leaves no request live; a new long one opens and arms the timer |
| Autocomplete.OnValue | src/components/Autocomplete.tsx:64-66 | a new `value` prop puts its label into the input and keeps the invariant |
| Autocomplete.OnSelect | src/components/Autocomplete.tsx:69-148 | the input becomes the label; list closed, options empty, highlight -1; if the trimmed text changed, the skip flag is consumed, no fetch starts and no request is live; otherwise the flag stays set |
| Autocomplete.OnKeyDown | src/components/Autocomplete.tsx:150-170 | every key is ignored while closed or empty; arrows move the highlight by the clamped updaters; Enter selects exactly the highlighted option, or does nothing without one; Escape only closes |
| Autocomplete.OnTimer | src/components/Autocomplete.tsx:83-93 | firing issues one request for `<searchField>_like` with the captured query, marks loading, and makes every earlier request stale |
| Autocomplete.OnSettle | src/components/Autocomplete.tsx:106-114 | a live success replaces options by the filtered response and sets the highlight to 0 or -1; a stale request changes nothing and is not logged; a live failure is logged and keeps options; loading always ends |
| Autocomplete.OnFocus | src/components/Autocomplete.tsx:191-195 | focus opens the list iff it has options, changing nothing else |
| Autocomplete.OnClickOutside | src/components/Autocomplete.tsx:123-128 | an outside click closes the list and changes nothing else |
| Autocomplete.ShortQueryIssuesNoRequest | src/components/Autocomplete.tsx:74-79 | after a short query the timer has nothing to fire and "no results" is not shown |
| Autocomplete.SupersededResponseIsIgnored | src/components/Autocomplete.tsx:84-120 | when an older request succeeds after a newer one, the newer request's filtered options stay and nothing is logged |
| Autocomplete.StaleFinallyClearsLoading | src/components/Autocomplete.tsx:112-114 | a superseded request settling while the newer one is in flight clears `isLoading` yet leaves options and the newer request live |
| Autocomplete.EmptyAnswerShowsNoResults | src/components/Autocomplete.tsx:177 | an empty filtered answer to a live request for a long-enough query shows the empty state |
| Autocomplete.Typeahead.constructor | src/components/Autocomplete.tsx:51-82 | the fields hold the mount state and the invariant holds |
| Autocomplete.Typeahead.FetchEffectBody | src/components/Autocomplete.tsx:69-82 | the fields change as `EffectBody` says |
| Autocomplete.Typeahead.RunFetchEffect | src/components/Autocomplete.tsx:68-121 | the fields change as `RunEffect` says |
| Autocomplete.Typeahead.InputChange | src/components/Autocomplete.tsx:134-139 | the fields change as `OnInputChange` says and the invariant is kept |
| Autocomplete.Typeahead.ValueChange | src/components/Autocomplete.tsx:64-66 | the fields change as `OnValue` says and the invariant is kept |
| Autocomplete.Typeahead.Select | src/components/Autocomplete.tsx:141-148 | the option handed to `onSelect` is the selected one; the fields change as `OnSelect` says |
| Autocomplete.Typeahead.KeyDown | src/components/Autocomplete.tsx:150-170 | new fields and selected option are those of `OnKeyDown`; invariant kept |
| Autocomplete.Typeahead.TimerFires | src/components/Autocomplete.tsx:83-87 | new fields and request are those of `OnTimer`; invariant kept |
| Autocomplete.Typeahead.Settle | src/components/Autocomplete.tsx:106-114 | new fields and the logged flag are those of `OnSettle`; invariant kept |
| Autocomplete.Typeahead.Focus | src/components/Autocomplete.tsx:191-195 | the fields change as `OnFocus` says |
| Autocomplete.Typeahead.ClickOutside | src/components/Autocomplete.tsx:123-128 | the fields change as `OnClickOutside` says |
| EmpId.ReplaceNonLetters | src/lib/empId.ts:5 | the result holds only ASCII letters and spaces |
| EmpId.Prefix | src/lib/empId.ts:4-12 | the prefix is exactly 3 characters |
| EmpId.NumberPart | src/lib/empId.ts:14 | the number part has at least 3 characters |
| EmpId.MakeEmpId | src/lib/empId.ts:1-16 | empty name iff empty id; otherwise prefix, `-`, number part |
| EmpId.Runs | src/lib/empId.ts:5-7 | reference definition: maximal runs, each non-empty and made of matching characters |
| EmpId.WordsOfReplace | src/lib/empId.ts:5-7 | the whitespace-separated words after the replacement are the ASCII-letter runs of the name |
| EmpId.SplitTrimmed | src/lib/empId.ts:6-7 | splitting trimmed text on whitespace gives its non-blank runs, or `[""]` when there are none |
| EmpId.WordsAreLetterRuns | src/lib/empId.ts:5-7 | the words the initials come from are exactly the maximal ASCII-letter runs (or `[""]`) |
| EmpId.InitialsOfWords | src/lib/empId.ts:9-10 | one initial per word, the upper-cased first letter |
| EmpId.PrefixIsPaddedInitials | src/lib/empId.ts:4-12 | position i of the prefix is the upper-cased initial of run i, or `X` past the last run |
| EmpId.NoLettersGivesXXX | src/lib/empId.ts:4-12 | a name with no ASCII letter gets prefix `XXX` |
| EmpId.NumberPartDenotesNextCount | src/lib/empId.ts:14 | the number part is all digits, denotes `count+1`, is zero-padded to 3 and ends with the full decimal form |
| EmpId.PrefixOfTwoWords | src/lib/empId.ts:4-12 | two letter words split by non-letters give their two initials then `X` |
| EmpId.PrefixOfOneWord | src/lib/empId.ts:4-12 | one letter word gives its initial then `XX` |
| EmpId.ExampleHumanResources | src/lib/empId.ts:1-16 | `("Human Resources", 4)` gives `HRX-005` |
| EmpId.ExampleRAndD | src/lib/empId.ts:1-16 | `("R&D", 0)` gives `RDX-001` |
| EmpId.ExampleThousandth | src/lib/empId.ts:14 | 999 existing gives the untruncated `1000` |
| Step1.HasNonDigit | src/pages/wizard/Step1.tsx:23 | the `\D` test finds a character iff the text is not all digits |
| Step1.PhoneError | src/pages/wizard/Step1.tsx:16-25 | "minimal 9" iff trimmed length < 9; digits-only error iff long enough with a non-digit; empty iff long enough and all digits |
| Step1.ContactError | src/pages/wizard/Step1.tsx:17-26 | empty iff the trimmed contact is non-empty, else the required message |
| Step1.Errors | src/pages/wizard/Step1.tsx:15-28 | the phone message is empty iff the trimmed phone has at least 9 characters, all digits; otherwise it is the length message when too short, else the digits message; the contact message is empty iff the trimmed contact is non-empty, else the required message |
| Step1.IsValid | src/pages/wizard/Step1.tsx:30 | valid iff both messages are empty iff the trimmed phone has ≥ 9 digits only and the trimmed contact is non-empty |
| Step1.HandleSubmit | src/pages/wizard/Step1.tsx:32-36 | `onNext` is called once iff valid, otherwise not at all |
| Step1.HandleFieldChange | src/pages/wizard/Step1.tsx:38-45 | the named field takes the text, the other field is unchanged |
| Step1.TypeIntoAppends | src/pages/wizard/Step1.tsx:38-45 | typing keystrokes into a field appends them to it and leaves the other field |
| Step1.TypingFillsEmptyForm | src/pages/wizard/__tests__/Step1.test.tsx:43-45 | typing both values into the empty form yields exactly those values |
| Step1.TypingValidValuesEnablesNext | src/pages/wizard/__tests__/Step1.test.tsx:43-51 | after typing `0812345678` and `Budi 08123` the form is valid and submit calls `onNext` once |
| Step2.Errors | src/pages/wizard/Step2.tsx:57-62 | each of the four messages is non-empty iff its field is missing or empty |
| Step2.IsValid | src/pages/wizard/Step2.tsx:72 | valid iff department, location, employee id and photo are all present |
| Step2.ChangeNotes | src/pages/wizard/Step2.tsx:81-86 | only `notes` changes |
| Step2.SelectDepartment | src/pages/wizard/Step2.tsx:144-149 | only `department` changes |
| Step2.SelectLocation | src/pages/wizard/Step2.tsx:184-189 | only `location` changes |
| Step2.ChangePhoto | src/pages/wizard/Step2.tsx:200-205 | only `photoDataUrl` changes |
| Step2.DepartmentName | src/pages/wizard/Step2.tsx:110 | the department's `name` field; `""` when there is no department or no name |
| Step2.ExistingCount | src/pages/wizard/Step2.tsx:104-106 | an array body counts its length; any other body counts as 0 |
| Step2.ApplyCountResult | src/pages/wizard/Step2.tsx:104-116 | only `employeeId` changes; a failure empties it; a success sets it to `MakeEmpId` of the department name and the existing count: empty without a name, else prefix, `-`, number part |
| Step2.Step2Form.constructor | src/pages/wizard/Step2.tsx:54-55 | nothing submitted, nothing fetching |
| Step2.Step2Form.HandleSubmit | src/pages/wizard/Step2.tsx:74-79 | always marks the attempt; submits iff valid |
| Step2.Step2Form.StartCountFetch | src/pages/wizard/Step2.tsx:88-103 | no department: clear the id and send no request; otherwise start fetching for the department id, capturing the current values |
| Step2.Step2Form.FinishCountFetch | src/pages/wizard/Step2.tsx:104-119 | the new values are `ApplyCountResult` of the values captured when the request started, and fetching stops |
| Step2.Step2Form.EmployeeIdDisplay | src/pages/wizard/Step2.tsx:159-163 | shows `Menghitung...` while fetching, the id otherwise |
| Step2.NoDepartmentNoEmployeeId | src/pages/wizard/Step2.tsx:90-110 | without a department the id stays empty and the form is invalid |
| Step2.InFlightEditIsOverwritten | src/pages/wizard/Step2.tsx:107-116 | a notes edit made while the count request is in flight is replaced by the captured notes |
| Step2.CountCompletesEmployeeId | src/pages/wizard/Step2.tsx:104-149 | after picking a named department and a count, the id is set, and validity depends only on location and photo |
| PhotoPicker.DefaultLimitBytes | src/components/PhotoPicker.tsx:10-35 | the default limit is 2,097,152 bytes |
| PhotoPicker.Decide | src/components/PhotoPicker.tsx:24-39 | no file, wrong type, too large, or accepted, each stated iff, with the type checked first |
| PhotoPicker.SizeError | src/components/PhotoPicker.tsx:36 | the size message embeds the limit in megabytes |
| PhotoPicker.TypeCheckedBeforeSize | src/components/PhotoPicker.tsx:29-39 | an oversized file of the wrong type reports the type error |
| PhotoPicker.SizeLimitIsInclusive | src/components/PhotoPicker.tsx:35 | a file exactly at the limit is accepted, one byte more is rejected |
| PhotoPicker.Picker.constructor | src/components/PhotoPicker.tsx:12-19 | the limit defaults to 2 MB; no error; no read pending |
| PhotoPicker.Picker.FileChange | src/components/PhotoPicker.tsx:21-47 | no file clears the error; a rejected file sets its error and resets the input; an accepted file starts one more read, earlier ones are not cancelled; `onChange` is not called here |
| PhotoPicker.Picker.ReaderLoad | src/components/PhotoPicker.tsx:42-46 | one pending read completes: `onChange` receives its result and the error is cleared |
| PhotoPicker.TwoQuickPicksBothEmit | src/components/PhotoPicker.tsx:41-47 | two accepted picks in a row start two reads, and both `onload`s call `onChange` |
| PhotoPicker.Picker.Remove | src/components/PhotoPicker.tsx:54-60 | `onChange(null)`, the error is cleared and the input reset |
| PhotoPicker.RejectedFileKeepsValue | src/components/PhotoPicker.tsx:29-33 | a wrong-type file never reaches `onChange` and shows the type error |
| PhotoPicker.DefaultLimitExamples | src/components/PhotoPicker.tsx:10-35 | with the default limit, 3 MB is too large and 2 MB is accepted |
| Draft.ReadDraft | src/lib/useDraft.ts:5-14 | a draft is read iff storage is available and the key holds a parsable non-empty entry, and it is that entry |
| Draft.MergeBase | src/lib/useDraft.ts:44 | the base is `latest`, else the stored draft, else `{}` |
| Draft.Merge | src/lib/useDraft.ts:45 | keys of the partial take its values; the others keep theirs; the domain is the union |
| Draft.DraftStore.constructor | src/lib/useDraft.ts:38-85 | the base is the stored draft for the key; nothing pending |
| Draft.DraftStore.Save | src/lib/useDraft.ts:41-58 | unavailable: nothing changes; otherwise the base becomes the merge and the single pending write is replaced by it |
| Draft.DraftStore.Fire | src/lib/useDraft.ts:16-55 | the pending value is stored under its key unless the write fails; nothing stays pending |
| Draft.DraftStore.Load | src/lib/useDraft.ts:60-64 | returns the stored draft and makes it the base |
| Draft.DraftStore.Clear | src/lib/useDraft.ts:25-73 | cancels the pending write, empties the base and removes the key unless removal fails |
| Draft.DraftStore.SetKey | src/lib/useDraft.ts:83-85 | a new key resets the base to its stored draft |
| Draft.SaveBurst | src/lib/useDraft.ts:44-55 | two quick saves write only the last merged value, once; other keys are untouched |
| Draft.SaveThenClear | src/lib/useDraft.ts:48-73 | a save followed by clear is never persisted and the key is gone |
| Draft.LoadThenSave | src/lib/useDraft.ts:44-64 | after load, a save merges over the loaded draft |
| Draft.Unavailable | src/lib/useDraft.ts:3-43 | without storage, load returns nothing and saving writes nothing |
| Draft.FailedWrite | src/lib/useDraft.ts:18-22 | a failed write leaves storage as it was and nothing pending |
| Wizard.Overlay1 | src/pages/wizard/Wizard.tsx:46 | each stored step-1 field overrides the initial one; absent ones keep it |
| Wizard.Overlay2 | src/pages/wizard/Wizard.tsx:52 | each stored step-2 field overrides the initial one; absent ones keep it |
| Wizard.Restored1 | src/pages/wizard/Wizard.tsx:44-49 | a stored `step1` is laid over the initial values; without one the values are the initial ones |
| Wizard.Restored2 | src/pages/wizard/Wizard.tsx:44-55 | a stored `step2` is laid over the initial values; without one the values are the initial ones |
| Wizard.RestoreRoundTrip | src/pages/wizard/Wizard.tsx:46-65 | restoring what a change saved gives back exactly the saved values |
| Wizard.DraftKey | src/pages/wizard/Wizard.tsx:29 | the key splits into the `draft_` prefix and the role's value |
| Wizard.DraftKeyInjective | src/pages/wizard/Wizard.tsx:29 | equal keys mean equal roles, so the two roles never share a draft |
| Wizard.StartStep | src/pages/wizard/Wizard.tsx:31-40 | step 1 iff admin, else 2 |
| Wizard.BackStep | src/pages/wizard/Wizard.tsx:84-87 | non-admin: no change; admin: one back but never below 1 |
| Wizard.IsBackVisible | src/pages/wizard/Wizard.tsx:96 | visible only to admin past step 1; on any step from 1 up, visible exactly when Back would move |
| Wizard.ShowsStep1 | src/pages/wizard/Wizard.tsx:111-124 | Step 1 is shown exactly to admin on admin's start step; never to ops |
| Wizard.VisibleBackMoves | src/pages/wizard/Wizard.tsx:84-96 | whenever Back is visible it moves to a smaller step that is still ≥ 1 |
| Wizard.WizardPage.constructor | src/pages/wizard/Wizard.tsx:29-56 | start step by role; values restored from the role's draft |
| Wizard.WizardPage.Restore | src/pages/wizard/Wizard.tsx:43-56 | the base is reloaded and both value sets are laid over the initial values |
| Wizard.WizardPage.RoleChange | src/pages/wizard/Wizard.tsx:29-85 | a new role resets the step, switches the draft key and restores that role's draft |
| Wizard.WizardPage.Step1Change | src/pages/wizard/Wizard.tsx:58-61 | sets step 1 and saves only `{step1}` under the role's key |
| Wizard.WizardPage.Step2Change | src/pages/wizard/Wizard.tsx:63-66 | sets step 2 and saves only `{step2}` under the role's key |
| Wizard.WizardPage.Step1Next | src/pages/wizard/Wizard.tsx:68-70 | moves to step 2, nothing else |
| Wizard.WizardPage.Back | src/pages/wizard/Wizard.tsx:84-87 | the step becomes `BackStep` |
| Wizard.WizardPage.Reset | src/pages/wizard/Wizard.tsx:78-93 | draft cleared, both value sets initial, step back to the role's start |
| Wizard.WizardPage.Step2Submit | src/pages/wizard/Wizard.tsx:72-82 | draft cleared, both value sets initial, step back to the role's start |
| Wizard.WizardPage.ClearDraft | src/pages/wizard/Wizard.tsx:89-94 | draft cleared, both value sets initial, step back to the role's start |
| Wizard.DraftSurvivesReload | src/pages/wizard/Wizard.tsx:43-66 | values changed, written, then reloaded with a new page come back unchanged |
| Wizard.ClearedDraftReloadsEmpty | src/pages/wizard/Wizard.tsx:58-94 | after Clear Draft a reload shows the initial values |
| Wizard.OpsStaysOnStep2 | src/pages/wizard/Wizard.tsx:31-124 | ops starts on step 2, Back keeps it there, and Step 1 is never shown |
| Employees.QueryParams | src/lib/employees.ts:38-43 | `_page` present iff the page is non-zero, `_limit` iff the limit is, with their decimal values, in that order, and no other pair |
| Employees.BuildQuery | src/lib/employees.ts:38-43 | the query string serializes those parameters |
| Employees.BuildQueryParses | src/lib/employees.ts:38-43 | parsing the built query gives back the parameters |
| Employees.RequestedPage | src/lib/employees.ts:46 | the page defaults to 1 |
| Employees.RequestedLimit | src/lib/employees.ts:47 | the limit defaults to 10 |
| Employees.Total | src/lib/employees.ts:58-61 | a non-zero header wins; otherwise the basic list's length |
| Employees.DetailsIndex | src/lib/employees.ts:63-69 | no empty key; each entry sits under its own id and is one of the details |
| Employees.BuildDetailsMap | src/lib/employees.ts:63-69 | the loop builds exactly `DetailsIndex` |
| Employees.LastIndexOf | src/lib/employees.ts:63-69 | reference definition: the last position holding a key |
| Employees.DetailsIndexLastWins | src/lib/employees.ts:63-69 | a non-empty id is indexed iff some detail has it, and maps to the last such detail |
| Employees.RecordId | src/lib/employees.ts:72-73 | `employeeId`, else the numeric id as a string, else `""` |
| Employees.OrDash | src/lib/employees.ts:78-79 | absent or empty becomes `-` |
| Employees.MergeOne | src/lib/employees.ts:74-82 | record id, `Unknown` name default, `-` defaults, location `location`/`locationId`/`N/A`, photo or null |
| Employees.MergeRecords | src/lib/employees.ts:71-83 | one record per basic record, in order: its id, name (`Unknown` by default), department and role (`-` by default), and the detail join of `MergeOne` |
| Employees.JoinTakesLastMatchingDetail | src/lib/employees.ts:63-82 | each record joins the last detail with its non-empty id, or gets `N/A` and no photo |
| Pagination.CeilDiv | src/components/Pagination.tsx:9 | the ceiling quotient: `(c-1)*limit < total <= c*limit` |
| Pagination.TotalPages | src/components/Pagination.tsx:9 | at least 1; exactly 1 when there is nothing; bounds the total when there is |
| Pagination.CanPrev | src/components/Pagination.tsx:10 | Prev is enabled exactly when the previous page is at least 1 |
| Pagination.CanNext | src/components/Pagination.tsx:9-11 | on a page from 1 up, Next is enabled exactly when rows lie beyond the current page |
| Pagination.PrevTarget | src/components/Pagination.tsx:10-25 | Prev emits `page-1` iff `page > 1`, so never below 1 |
| Pagination.NextTarget | src/components/Pagination.tsx:11-45 | Next emits `page+1` iff `page < totalPages`, so never past the last page |
| Pagination.NextStaysOnPopulatedPages | src/components/Pagination.tsx:9-45 | the page Next reaches still starts before the end of the list |
| Pagination.EmptyListHasOnePage | src/components/Pagination.tsx:9-11 | an empty list has one page and neither button is enabled |
| UrlParams.ValuesOf | src/lib/role-context.tsx:19-22 | `getAll`: no values iff no pair has the name |
| UrlParams.GetParam | src/lib/role.ts:12 | `get`: none iff no pair has the name; otherwise a value of it |
| UrlParams.DeleteParam | src/lib/role-context.tsx:19-20 | `delete` leaves no pair with the name |
| UrlParams.SetParam | src/lib/role-context.tsx:22 | `set` adds at most one pair |
| UrlParams.SetParamMeaning | src/lib/role-context.tsx:22 | after `set` the name has exactly one value; other pairs stay in order; a new name is appended |
| UrlParams.DeleteKeepsOthers | src/lib/role-context.tsx:19-20 | after `delete` the name has no value; deleting twice is deleting once |
| UrlParams.GetIsFirstValue | src/lib/role.ts:12 | `get` is the first value of `getAll` |
| UrlParams.DeletePreservesOtherValues | src/lib/role-context.tsx:17-20 | deleting one name keeps every other name's values |
| UrlParams.OtherNamesUnaffected | src/lib/role-context.tsx:17-22 | `set` and `delete` keep every other name's values |
| UrlParams.GetAfterSetAndDelete | src/lib/role-context.tsx:19-22 | `get` after `set` is the value; after `delete` it is none |
| UrlParams.SetIdempotent | src/lib/role-context.tsx:22 | setting the same value twice is setting it once |
| UrlParams.SetParamAppendFound | src/lib/role-context.tsx:22 | when the name occurs in the head, `set` there and delete it in the tail |
| UrlParams.SetParamAppendMissing | src/lib/role-context.tsx:22 | when the name is absent from the head, `set` acts on the tail |
| UrlParams.Serialize | src/lib/role-context.tsx:8 | the query string is empty iff there are no pairs |
| UrlParams.Parse | src/lib/role.ts:11 | an empty query, or a bare `?`, has no pairs |
| UrlParams.ParseEncoded | src/lib/role-context.tsx:8-11 | one pair parses back from its `name=value` form |
| UrlParams.ParseSerialize | src/lib/role-context.tsx:8-11 | parsing the serialized pairs gives them back |
| UrlParams.ParseQueryOfSerialize | src/lib/role-context.tsx:8-13 | parsing `?` plus the serialized pairs gives them back |
| UrlParams.SearchParams.constructor | src/lib/employees.ts:39 | a new object has no pairs |
| UrlParams.SearchParams.Copy | src/lib/role-context.tsx:17 | the copy has the same pairs |
| UrlParams.SearchParams.Delete | src/lib/role-context.tsx:19-20 | the pairs become `DeleteParam` of the old ones |
| UrlParams.SearchParams.Set | src/lib/role-context.tsx:17-22 | the pairs become `SetParam` of the old ones |
| Roles.RoleValue | src/lib/role.ts:1 | the role's string is non-empty and is `admin` exactly for Admin |
| Roles.RoleOf | src/lib/role.ts:12-14 | Admin exactly when the first `role` value is `admin` in some letter case; no `role` parameter, or any other first value, gives Ops |
| Roles.GetRoleFromUrl | src/lib/role.ts:3-15 | the empty query gives Ops |
| Roles.FirstRoleParamDecides | src/lib/role.ts:11-12 | only the first `role` parameter counts: later ones never change the role |
| Roles.LowerIsAdmin | src/lib/role.ts:12-14 | lower-casing a value gives `admin` exactly when the value is `admin` in some letter case |
| Roles.OtherValuesAreOps | src/lib/role.ts:12-14 | `administrator`, `ops`, `""` and a later `admin` give Ops; `ADMIN` after another parameter gives Admin |
| RoleContext.SetRole | src/lib/role-context.tsx:15-28 | the new parameters are a fresh copy rewritten by the role; the current ones are unchanged |
| RoleContext.WithRole | src/lib/role-context.tsx:17-22 | ops leaves no `role` value; admin leaves exactly `["admin"]`; deleting `role` from the result gives what deleting it from the input gives, so all other pairs are kept in order |
| RoleContext.SetRoleIdempotent | src/lib/role-context.tsx:17-22 | rewriting twice with a role is rewriting once |
| RoleContext.MemberOfRewrite | src/lib/role-context.tsx:17-22 | the rewrite adds no pair except `role=admin` |
| RoleContext.WithRoleKeepsPlain | src/lib/role-context.tsx:17-22 | the rewrite keeps the parameters serializable without escaping |
| RoleContext.DeriveRole | src/lib/role-context.tsx:8-13 | no parameters derive Ops; for plain parameters, deriving through the query string gives the role the pairs select |
| RoleContext.ParseOfPlainQuery | src/lib/role-context.tsx:8-11 | `?` plus the serialized plain parameters parses back to them |
| RoleContext.SetRoleRoundTrip | src/lib/role-context.tsx:8-25 | the role derived after `setRole(r)` is `r` |
| Progress.Value | src/lib/progress.ts:1-7 | each value is a non-empty string of capital letters and underscores; the constructors stand for the object's keys, and each key maps to the same text |
| Progress.Label | src/lib/progress.ts:12-18 | every state has a non-empty label |
| Progress.AllStates | src/lib/progress.ts:1-7 | five pairwise distinct states |
| Progress.AllStatesComplete | src/lib/progress.ts:1-7 | every state is one of the five |
| Progress.ValuesAreDistinct | src/lib/progress.ts:2-6 | distinct states have distinct values |
| Progress.LabelsAreDistinct | src/lib/progress.ts:13-17 | distinct states have distinct labels |
| Progress.EndpointLabels | src/lib/progress.ts:13-17 | READY is `Menunggu submit`, DONE is `Selesai` |
| Text.Trim | src/pages/wizard/Step1.tsx:16-17 | the result is the slice of the input after its leading whitespace, only whitespace follows it, and it starts and ends with non-whitespace |
| Text.Lower | src/lib/role.ts:12 | lower-casing maps each character and keeps the length |
| Text.NatToString | src/lib/empId.ts:14 | the decimal form is all digits, with no leading zero |
| Text.DecimalValueOfNatToString | src/lib/empId.ts:14 | the decimal form denotes the number |
| Text.PadStart | src/lib/empId.ts:14 | left padding reaches the width and keeps the text as a suffix |
| Text.PadEnd | src/lib/empId.ts:11 | right padding reaches the width and keeps the text as a prefix |

## Left out

- HTTP requests, and the env-based base URLs, are not part of this model. Each response is an input (`Response`, `CountResult`, the header and the lists passed to `MergeRecords`).
- Real timers, `AbortController` and the parallel fetches are not modelled. The debounce delays are explicit events (`TimerFires`, `Fire`); abort is a generation counter, so cancellation takes effect at the moment the source calls `abort()`.
- Percent-encoding, and `+` decoding, in `URLSearchParams` are left out. Serializing and parsing round-trip for names without `&` or `=` and values without `&`.
- JSON parsing and stringifying of drafts are opaque. A stored entry is a saved draft, blank, or unparsable; draft fields that are not the wizard's own are not modelled.
- Option items carry string-valued properties only; non-string properties and their labels are not modelled.
- `trim`, `toLowerCase` and `toUpperCase` act on ASCII only; Unicode whitespace and case mapping are left out.
- Fractional `maxSizeMb`, fractional pages and a fractional or non-numeric `x-total-count` header are not modelled: these numbers are integers here.
- Pagination.TotalPages: requires `limit > 0`; with a zero or negative limit the source's division yields `Infinity` or `NaN`, which is not modelled.
- Roles.GetRoleFromUrl: takes the query string as an argument; the fallback to `window.location.search` when none is given is not modelled.
- Step 2 submit only logs and clears, so there is no submission pipeline here. `postBasicInfo`/`postDetails` and the progress constants are never sequenced.
- Console logging is left out. The only trace of it is the `logged` result of `Autocomplete.Typeahead.Settle`.
- The department-count fetch has no staleness protection in the source, so none is stated. Its outcome is applied to the values captured when it started (`CountStart.captured`), so edits made in flight are overwritten, as `Step2.InFlightEditIsOverwritten` states; two overlapping requests are not ordered against each other.
- The draft timer's cleanup on unmount is not modelled (there is no unmount event).
- `handleReplace` in the photo picker only clicks a hidden input, and the `FileReader` encoding is opaque (`ReaderLoad` receives its result).
- JSX rendering, styles, ARIA ids (`optionId`) and DOM containment are left out; click-outside is the abstract `ClickOutside` event.
- The employees page, the app's routing and the React context plumbing behind `useRole` are not part of this model.
- The `endpoint`, `debounceMs` and `placeholder` props of the typeahead are constant for a mounted widget and are not modelled.
- Wizard.Restored1: a stored draft part of the wrong shape (a `step1` property holding something other than a step-1 object) reads as absent. In the source its properties would be spread over the initial values; drafts are typed here, so this case is not modelled. The same holds for `Wizard.Restored2`.
- The Step 1 test also types into a full-name field that the form no longer has; that field is not modelled.
