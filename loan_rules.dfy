/**
 * The pure rules of the loan application form: its nine saved fields, the
 * required-field validation run on submit, the low-salary advisory, and how a
 * saved draft is read back into the fields.
 */
module LoanRules {
  import opened Wrappers
  import opened JsString

  /** The names of the nine fields the form saves, as they appear in the draft and in the error map. */
  datatype FieldName =
    | Name | Phone | Age | IsEmloyed | SalaryRange | LoanAmount | LoanPurpose | PayLoanPeriod | Comments

  /**
   * The nine saved fields. Every input of the form holds text, including the
   * number inputs; `isEmloyed` is the one field that is not a string, and
   * `None` stands for JavaScript's `null`.
   */
  datatype FormValues = FormValues(
    name: string,
    phone: string,
    age: string,
    isEmloyed: Option<bool>,
    salaryRange: string,
    loanAmount: string,
    loanPurpose: string,
    payLoanPeriod: string,
    comments: string)
  {
    /** The text held by field `f`. */
    function Text(f: FieldName): string
      requires f != IsEmloyed
    {
      match f
      case Name => name
      case Phone => phone
      case Age => age
      case SalaryRange => salaryRange
      case LoanAmount => loanAmount
      case LoanPurpose => loanPurpose
      case PayLoanPeriod => payLoanPeriod
      case Comments => comments
    }

    /** The values after the setter of text field `f` stores `v`: that field changes and no other. */
    function WithText(f: FieldName, v: string): (r: FormValues)
      requires f != IsEmloyed
      ensures r.Text(f) == v
      ensures r.isEmloyed == isEmloyed
      ensures forall g :: g != IsEmloyed && g != f ==> r.Text(g) == Text(g)
    {
      match f
      case Name => this.(name := v)
      case Phone => this.(phone := v)
      case Age => this.(age := v)
      case SalaryRange => this.(salaryRange := v)
      case LoanAmount => this.(loanAmount := v)
      case LoanPurpose => this.(loanPurpose := v)
      case PayLoanPeriod => this.(payLoanPeriod := v)
      case Comments => this.(comments := v)
    }
  }

  /** The initial value of every field: empty text, and `null` for `isEmloyed`. */
  function Defaults(): FormValues
  {
    FormValues("", "", "", None, "", "", "", "", "")
  }

  /** The values a successful submit resets the fields to: as `Defaults`, except that `isEmloyed` becomes `false`. */
  function ResetValues(): FormValues
  {
    Defaults().(isEmloyed := Some(false))
  }

  const NameRequired := "Namn får inte vara tomt."
  const PhoneRequired := "Telefonnummer får inte vara tomt."
  const AgeRequired := "Ålder får inte vara tomt."

  /**
   * The error map a submit computes: starting from no entries, one entry for
   * each of name, phone and age whose trimmed text is empty.
   */
  function Validate(v: FormValues): (r: map<FieldName, string>)
    ensures Name in r <==> AllWhitespace(v.name)
    ensures Phone in r <==> AllWhitespace(v.phone)
    ensures Age in r <==> AllWhitespace(v.age)
    ensures r.Keys <= {Name, Phone, Age}
    ensures Name in r ==> r[Name] == NameRequired
    ensures Phone in r ==> r[Phone] == PhoneRequired
    ensures Age in r ==> r[Age] == AgeRequired
    ensures r == map[] <==> !AllWhitespace(v.name) && !AllWhitespace(v.phone) && !AllWhitespace(v.age)
  {
    BlankIffAllWhitespace(v.name);
    BlankIffAllWhitespace(v.phone);
    BlankIffAllWhitespace(v.age);
    var e0: map<FieldName, string> := map[];
    var e1 := if IsBlank(v.name) then e0[Name := NameRequired] else e0;
    var e2 := if IsBlank(v.phone) then e1[Phone := PhoneRequired] else e1;
    if IsBlank(v.age) then e2[Age := AgeRequired] else e2
  }

  /** Only name, phone and age decide the outcome of validation; the other six fields never do. */
  lemma ValidateReadsOnlyRequiredFields(v: FormValues, w: FormValues)
    requires v.name == w.name && v.phone == w.phone && v.age == w.age
    ensures Validate(v) == Validate(w)
  {
  }

  /**
   * Values that pass validation are never the reset values: a successful
   * submit always changes at least the name, so the save effect runs after it.
   */
  lemma PassingValuesDifferFromReset(v: FormValues)
    requires Validate(v) == map[]
    ensures v != ResetValues() && v.name != ""
  {
    assert !AllWhitespace(v.name);
  }

  const LowestSalaryBucket := "under-20000"
  const LowSalaryWarning := "Observera att låg lön kan påverkar din lånesansökan."

  /** The advisory shown beside the salary select: the low-salary message for the lowest bucket, nothing otherwise. */
  function SalaryWarningFor(range: string): (w: string)
    ensures w == LowSalaryWarning <==> range == LowestSalaryBucket
    ensures range != LowestSalaryBucket ==> w == ""
  {
    if range == LowestSalaryBucket then LowSalaryWarning else ""
  }

  /** `s || ""`: a string is falsy only when empty, so this gives back `s` itself. */
  function OrEmpty(s: string): (r: string)
    ensures r == s
  {
    if s != "" then s else ""
  }

  /** `e || null`: only `true` is truthy, so `false` and `null` both come back as `null`. */
  function EmployedOrNull(e: Option<bool>): (r: Option<bool>)
    ensures r == None <==> e != Some(true)
    ensures r != None ==> r == e
  {
    match e
    case Some(true) => e
    case _ => None
  }

  /**
   * What the draft slot can hold: a draft the form itself wrote (the JSON
   * text of nine saved fields), or some text that is not valid JSON.
   */
  datatype Stored = Draft(values: FormValues) | Unparseable(raw: string)

  /** `JSON.parse` throws a SyntaxError on text that is not JSON. */
  datatype LoadError = SyntaxError(raw: string)

  /**
   * The fields after a draft is read back into the form whose values are
   * `current`: eight fields come from the draft, each through `|| ""` or
   * `|| null`; `loanAmount` is saved but never read back, so it keeps its
   * current value.
   */
  function Restore(draft: FormValues, current: FormValues): FormValues
  {
    FormValues(
      OrEmpty(draft.name),
      OrEmpty(draft.phone),
      OrEmpty(draft.age),
      EmployedOrNull(draft.isEmloyed),
      OrEmpty(draft.salaryRange),
      current.loanAmount,
      OrEmpty(draft.loanPurpose),
      OrEmpty(draft.payLoanPeriod),
      OrEmpty(draft.comments))
  }

  /**
   * The outcome of the load on mount, given what `getItem` returned: nothing
   * happens when the slot is empty or holds the empty string (both falsy),
   * `JSON.parse` throws on other unparseable text before any field is set,
   * and a draft is restored into the fields.
   */
  function LoadFrom(slot: Option<Stored>, current: FormValues): Result<FormValues, LoadError>
  {
    match slot
    case None => Success(current)
    case Some(Unparseable(raw)) => if raw == "" then Success(current) else Failure(SyntaxError(raw))
    case Some(Draft(d)) => Success(Restore(d, current))
  }

  /** With no draft stored, loading leaves every field as it was; at mount, at its default. */
  lemma LoadWithoutDraft(current: FormValues)
    ensures LoadFrom(None, current) == Success(current)
    ensures LoadFrom(Some(Unparseable("")), current) == Success(current)
  {
  }

  /** Text that is neither a draft nor empty makes the load throw, whatever the form holds. */
  lemma LoadUnparseableThrows(raw: string, current: FormValues)
    requires raw != ""
    ensures LoadFrom(Some(Unparseable(raw)), current).Failure?
  {
  }

  /**
   * Loading what was saved gives back name, phone, age, salaryRange,
   * loanPurpose, payLoanPeriod and comments unchanged, turns an `isEmloyed`
   * of `false` or `null` into `null` and keeps `true`, and leaves `loanAmount`
   * as the form held it before the load.
   */
  lemma LoadAfterSave(saved: FormValues, current: FormValues)
    ensures LoadFrom(Some(Draft(saved)), current).Success?
    ensures var r := LoadFrom(Some(Draft(saved)), current).value;
      && r.name == saved.name && r.phone == saved.phone && r.age == saved.age
      && r.salaryRange == saved.salaryRange && r.loanPurpose == saved.loanPurpose
      && r.payLoanPeriod == saved.payLoanPeriod && r.comments == saved.comments
      && r.isEmloyed == (if saved.isEmloyed == Some(true) then Some(true) else None)
      && r.loanAmount == current.loanAmount
  {
  }

  /**
   * The loss is confined to the first round trip: once a form has loaded a
   * draft, saving and loading again gives back exactly what it holds.
   */
  lemma LoadAfterSaveIsStable(saved: FormValues, current: FormValues)
    ensures var loaded := Restore(saved, current);
      LoadFrom(Some(Draft(loaded)), loaded) == Success(loaded)
  {
  }

  /** A draft of the reset values loads as a form at its initial values: `false` comes back as `null`. */
  lemma ResetDraftLoadsAsDefaults()
    ensures ResetValues() != Defaults()
    ensures LoadFrom(Some(Draft(ResetValues())), Defaults()) == Success(Defaults())
  {
  }
}
