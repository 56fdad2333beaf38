# Loan application form: draft and validation model

A Dafny model of the `LoanForm` React component of a browser loan-application
form. The component keeps nine form fields (name, phone, age, employment flag,
salary bucket, loan amount, loan purpose, repayment period, comments), an error
map, and a low-salary advisory. It saves a draft of the nine fields in the
browser's local storage under the key `"loanFormData"` and reads it back on
mount. On submit it requires name, phone and age to be non-blank after trimming.
A submit that passes removes the draft and resets the form.

Files:

- `wrappers.dfy`: `Option` (for JavaScript `null`) and `Result` (for an operation that throws).
- `js_string.dfy`: JavaScript's `trim` and the whitespace set it strips, and the facts that
  `!s.trim()` holds exactly for strings made only of whitespace.
- `loan_rules.dfy`: the pure rules. It has the field record, validation, the salary advisory,
  and how a stored draft is read back (`Restore`, `LoadFrom`), with lemmas about them.
- `loan_form.dfy`: the component as a class. Its fields are the state cells and `localStorage`.
  Its methods are the handlers and the two effects, each proved against the pure rules.
  Two client methods at the end walk through a save/reload and a rejected submit.

Modelling choices:

- Every input holds text, the number inputs included. So `age`, `loanAmount` and
  `payLoanPeriod` are strings, as in the component; `parseInt` only feeds a logged object.
- The employment flag is `Option<bool>`, with `None` for `null`. It starts as `null`.
  A successful submit resets it to `false`.
- Local storage is a `map<string, Stored>`. A `Stored` value is either a draft the form wrote
  (its JSON text, taken abstractly as the nine values) or text that `JSON.parse` rejects.
- The handlers are modelled exactly as written, with no effect inside them. The save effect is
  `Save` (its body) plus `SaveEffect(prev)` (it runs only when one of its nine dependencies
  changed since the previous render). `Edit` and `SubmitEvent` compose a handler with that
  effect and state the net result.

Behaviour of the component worth knowing:

- A draft that does not parse is not discarded. `JSON.parse` throws, no field changes, and the
  text stays in storage (`Load` returns `Failure`).
- The save/load round trip is lossy. `loanAmount` is saved but never read back. An employment
  flag of `false` comes back as `null`, because `false || null` is `null`.
- There is no phone pattern, no minimum age and no numeric range check. The only rule is
  "required", tested with `trim`.
- `handleSubmit` removes the draft, but the save effect runs right after the reset and writes
  the reset values back under the key (`SubmitEvent`).
- `salaryWarning` is not recomputed on load, and a submit does not clear it.

## Model

| member | source | states |
|---|---|---|
| JsString.TrimStartSpec | src/components/LoanForm.jsx:74 | the leading part `trim` removes is all whitespace; what remains is a suffix of the input that does not start with whitespace |
| JsString.TrimEndSpec | src/components/LoanForm.jsx:74 | the trailing part `trim` removes is all whitespace; what remains is a prefix of the input that does not end with whitespace |
| JsString.TrimHasNoOuterWhitespace | src/components/LoanForm.jsx:74 | a non-empty trimmed string neither starts nor ends with whitespace |
| JsString.BlankIffAllWhitespace | src/components/LoanForm.jsx:74-81 | `!s.trim()` holds exactly when every character of `s` is JavaScript whitespace (the empty string included) |
| LoanRules.FormValues.WithText | src/components/LoanForm.jsx:128-216 | an input's setter changes its own field to the new text and leaves the other eight fields as they were |
| LoanRules.Validate | src/components/LoanForm.jsx:73-82 | the error map has a `name` entry exactly when name is all whitespace, and likewise for `phone` and `age`; each entry holds that field's fixed message; no other field ever has an entry; the map is empty exactly when all three are non-blank |
| LoanRules.ValidateReadsOnlyRequiredFields | src/components/LoanForm.jsx:73-82 | two forms that agree on name, phone and age get the same error map, whatever the other six fields hold |
| LoanRules.PassingValuesDifferFromReset | src/components/LoanForm.jsx:71-115 | values that pass validation have a non-empty name, so they are never the reset values |
| LoanRules.SalaryWarningFor | src/components/LoanForm.jsx:64-68 | the advisory is the low-salary message exactly when the bucket is `"under-20000"`, and empty for every other bucket |
| LoanRules.OrEmpty | src/components/LoanForm.jsx:25-32 | `s \|\| ""` gives back `s` for every string |
| LoanRules.EmployedOrNull | src/components/LoanForm.jsx:28 | `e \|\| null` is `null` exactly when `e` is `false` or `null`, and is `true` when `e` is `true` |
| LoanRules.LoadWithoutDraft | src/components/LoanForm.jsx:22-23 | with no stored item, or an empty one, loading changes nothing, so at mount every field stays at its default |
| LoanRules.LoadUnparseableThrows | src/components/LoanForm.jsx:24 | non-empty text that is not JSON makes the load fail |
| LoanRules.LoadAfterSave | src/components/LoanForm.jsx:25-32 | loading a saved draft restores name, phone, age, salaryRange, loanPurpose, payLoanPeriod and comments unchanged; it turns `false`/`null` employment into `null` and keeps `true`; it leaves loanAmount as the form held it |
| LoanRules.LoadAfterSaveIsStable | src/components/LoanForm.jsx:20-60 | after one load, saving and loading again gives back exactly the loaded values |
| LoanRules.ResetDraftLoadsAsDefaults | src/components/LoanForm.jsx:105-114 | the reset values differ from the initial ones, but a draft of them loads as the initial values |
| LoanFormComponent.LoanForm.constructor | src/components/LoanForm.jsx:5-16 | the first render holds every field at its default, no errors and no advisory, over the page's existing storage |
| LoanFormComponent.LoanForm.Load | src/components/LoanForm.jsx:20-34 | the load effect's result is `LoadFrom` of the stored slot and the current fields; on success the fields become that value, on failure nothing changes; errors, advisory and storage are untouched |
| LoanFormComponent.LoanForm.Save | src/components/LoanForm.jsx:36-49 | the slot under `"loanFormData"` is overwritten with the complete snapshot of all nine fields, other keys are untouched, and the draft then mirrors the form |
| LoanFormComponent.LoanForm.SaveEffect | src/components/LoanForm.jsx:50-60 | storage is rewritten with the full snapshot exactly when one of the nine fields differs from the previous render, and is otherwise unchanged |
| LoanFormComponent.LoanForm.SetText | src/components/LoanForm.jsx:128-216 | a text input's setter changes only its own field; errors, advisory and storage are untouched |
| LoanFormComponent.LoanForm.SetEmployed | src/components/LoanForm.jsx:161 | the employment setter changes only the employment flag |
| LoanFormComponent.LoanForm.SalaryChange | src/components/LoanForm.jsx:62-69 | the salary bucket becomes `v` and nothing else among the nine fields changes; the advisory becomes the low-salary message iff `v` is `"under-20000"`, and empty otherwise |
| LoanFormComponent.LoanForm.ResetFields | src/components/LoanForm.jsx:104-114 | every text field becomes empty, the employment flag `false`, and the error map empty |
| LoanFormComponent.LoanForm.Submit | src/components/LoanForm.jsx:71-115 | it succeeds exactly when `Validate` gives no entries. On failure, `errors` is exactly the fresh `Validate` map, with no stale entry kept, and fields and storage are unchanged. On success the draft key is removed, other keys are kept, and fields and errors are reset. The advisory is never touched |
| LoanFormComponent.LoanForm.Edit | src/components/LoanForm.jsx:36-60 | a user edit followed by the save effect changes only that field, leaves errors and advisory as they were, and rewrites the draft exactly when the value changed, so a draft that mirrored the form still does |
| LoanFormComponent.LoanForm.SubmitEvent | src/components/LoanForm.jsx:103-114 | a rejected submit leaves fields and storage as they were and sets the fresh error map; an accepted one leaves the reset values, an empty error map and their snapshot under the key, because the save effect runs after the reset; the advisory is kept on both paths |

## Left out

- Rendering, labels, copy text, `alert` and `console.log`: they have no effect on the state.
- The `application` object built with `parseInt`: it is only logged.
- JSON serialisation: a draft written by `Save` is taken abstractly as its nine values. Text that
  parses as JSON but is not such a draft (for example `{}` or `null`) is not modelled.
- Load: a `SyntaxError` from `JSON.parse` is not caught anywhere in the component, so React
  unmounts the form; the unreadable text stays under `"loanFormData"`, and every later mount
  fails the same way. The model returns `Failure` and leaves the object usable, so a later
  `Edit` can overwrite the unreadable text, a recovery the component never reaches.
- Save: `localStorage.setItem` can throw (storage full or disabled); the model's write always
  succeeds.
- React scheduling: effects are explicit calls (`Save`, `SaveEffect`). At mount the save effect
  also runs once with the initial values before the loaded values render. StrictMode double
  effects are not modelled either.
- SetEmployed: takes the intended boolean. The checkbox actually passes `e.target.value`, a
  string, which the model does not represent.
- The salary select calls `setSalaryRange` directly: that path is `SetText(SalaryRange, v)`,
  which does not touch the advisory. `SalaryChange` models the handler, which no element calls.
- The rendering wrappers SelectField, CheckboxField, InputField and TextAreaField: they hold no
  logic of their own.
- Rules that the component does not have: phone pattern, minimum age, loan amount and
  repayment bounds, corrupt-draft recovery, a flush on page unload, and a submitting state with
  a delay.
