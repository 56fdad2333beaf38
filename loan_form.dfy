/**
 * The loan form component as state: the nine field cells, the error map, the
 * salary advisory and the browser's local storage, changed in place by the
 * component's handlers and effects.
 */
module LoanFormComponent {
  import opened Wrappers
  import opened JsString
  import opened LoanRules

  /** The one storage key the draft lives under. */
  const StorageKey := "loanFormData"

  class LoanForm {
    var name: string
    var phone: string
    var age: string
    var isEmloyed: Option<bool>
    var salaryRange: string
    var salaryWarning: string
    var loanAmount: string
    var loanPurpose: string
    var payLoanPeriod: string
    var comments: string
    var errors: map<FieldName, string>
    /** The browser's local storage: the draft slot and whatever other keys the page holds. */
    var localStorage: map<string, Stored>

    /** The nine saved fields as one value. */
    function Values(): FormValues
      reads this
    {
      FormValues(name, phone, age, isEmloyed, salaryRange, loanAmount, loanPurpose, payLoanPeriod, comments)
    }

    /** `localStorage.getItem(StorageKey)`, with `None` for `null`. */
    function Slot(): Option<Stored>
      reads this
    {
      if StorageKey in localStorage then Some(localStorage[StorageKey]) else None
    }

    /** The stored draft is the snapshot of the current fields. */
    ghost predicate Synced()
      reads this
    {
      Slot() == Some(Draft(Values()))
    }

    /** The first render: every field at its initial value, over whatever the page's storage already holds. */
    constructor (storage: map<string, Stored>)
      ensures Values() == Defaults()
      ensures errors == map[] && salaryWarning == ""
      ensures localStorage == storage
    {
      name, phone, age := "", "", "";
      isEmloyed := None;
      salaryRange, salaryWarning, loanAmount := "", "", "";
      loanPurpose, payLoanPeriod, comments := "", "", "";
      errors := map[];
      localStorage := storage;
    }

    /**
     * The load effect run on mount: reads the slot and, when it holds a draft,
     * sets eight fields from it. On text that does not parse it fails with
     * nothing changed; the unreadable text stays in storage.
     */
    method Load() returns (r: Result<FormValues, LoadError>)
      modifies this
      ensures r == LoadFrom(old(Slot()), old(Values()))
      ensures Values() == if r.Success? then r.value else old(Values())
      ensures errors == old(errors) && salaryWarning == old(salaryWarning)
      ensures localStorage == old(localStorage)
    {
      var storedData := Slot();
      if storedData.Some? && storedData.value != Unparseable("") {
        match storedData.value
        case Unparseable(raw) =>
          return Failure(SyntaxError(raw));
        case Draft(parsedData) =>
          name := OrEmpty(parsedData.name);
          phone := OrEmpty(parsedData.phone);
          age := OrEmpty(parsedData.age);
          isEmloyed := EmployedOrNull(parsedData.isEmloyed);
          salaryRange := OrEmpty(parsedData.salaryRange);
          loanPurpose := OrEmpty(parsedData.loanPurpose);
          payLoanPeriod := OrEmpty(parsedData.payLoanPeriod);
          comments := OrEmpty(parsedData.comments);
      }
      r := Success(Values());
    }

    /** The body of the save effect: overwrites the slot with the snapshot of all nine fields. */
    method Save()
      modifies this`localStorage
      ensures localStorage == old(localStorage)[StorageKey := Draft(Values())]
      ensures Synced()
    {
      localStorage := localStorage[StorageKey := Draft(Values())];
    }

    /**
     * The save effect's trigger: after a render it runs only when one of its
     * nine dependencies differs from the render before, whose values were `prev`.
     */
    method SaveEffect(prev: FormValues)
      modifies this`localStorage
      ensures localStorage == if Values() != prev then old(localStorage)[StorageKey := Draft(Values())] else old(localStorage)
      ensures Values() != prev ==> Synced()
    {
      if Values() != prev {
        Save();
      }
    }

    /** The `onChange` setter of a text input: stores `v` in field `f` and changes nothing else. */
    method SetText(f: FieldName, v: string)
      requires f != IsEmloyed
      modifies this
      ensures Values() == old(Values()).WithText(f, v)
      ensures errors == old(errors) && salaryWarning == old(salaryWarning)
      ensures localStorage == old(localStorage)
    {
      match f
      case Name => name := v;
      case Phone => phone := v;
      case Age => age := v;
      case SalaryRange => salaryRange := v;
      case LoanAmount => loanAmount := v;
      case LoanPurpose => loanPurpose := v;
      case PayLoanPeriod => payLoanPeriod := v;
      case Comments => comments := v;
    }

    /** The setter of the employment flag. */
    method SetEmployed(e: Option<bool>)
      modifies this`isEmloyed
      ensures Values() == old(Values()).(isEmloyed := e)
    {
      isEmloyed := e;
    }

    /** `handleSalaryChange`: sets the salary bucket and recomputes the advisory from it. */
    method SalaryChange(v: string)
      modifies this`salaryRange, this`salaryWarning
      ensures Values() == old(Values()).(salaryRange := v)
      ensures salaryWarning == SalaryWarningFor(v)
      ensures salaryWarning == LowSalaryWarning <==> v == LowestSalaryBucket
    {
      salaryRange := v;
      if v == LowestSalaryBucket {
        salaryWarning := LowSalaryWarning;
      } else {
        salaryWarning := "";
      }
    }

    /** The "restore form" step of a successful submit: every saved field and the error map go back to empty. */
    method ResetFields()
      modifies this
      ensures Values() == ResetValues() && errors == map[]
      ensures salaryWarning == old(salaryWarning) && localStorage == old(localStorage)
    {
      name := "";
      phone := "";
      age := "";
      isEmloyed := Some(false);
      salaryRange := "";
      loanAmount := "";
      loanPurpose := "";
      payLoanPeriod := "";
      comments := "";
      errors := map[];
    }

    /**
     * `handleSubmit`. It builds a fresh error map for name, phone and age. If
     * the map has entries, it becomes `errors` and nothing else changes.
     * Otherwise the application is accepted (`submitted`): the draft is removed
     * from storage and every field and the error map are reset.
     */
    method Submit() returns (submitted: bool)
      modifies this
      ensures submitted <==> Validate(old(Values())) == map[]
      ensures !submitted ==> errors == Validate(old(Values())) && Values() == old(Values())
                             && localStorage == old(localStorage)
      ensures submitted ==> errors == map[] && Values() == ResetValues()
                            && localStorage == old(localStorage) - {StorageKey}
      ensures salaryWarning == old(salaryWarning)
    {
      var validationErrors: map<FieldName, string> := map[];
      if IsBlank(name) {
        validationErrors := validationErrors[Name := NameRequired];
      }
      if IsBlank(phone) {
        validationErrors := validationErrors[Phone := PhoneRequired];
      }
      if IsBlank(age) {
        validationErrors := validationErrors[Age := AgeRequired];
      }
      if |validationErrors| > 0 {
        errors := validationErrors;
        return false;
      }
      localStorage := localStorage - {StorageKey};
      ResetFields();
      submitted := true;
    }

    /**
     * A user edit of a text field followed by the save effect: when the value
     * really changed the slot is rewritten with the new snapshot, so a synced
     * draft stays synced.
     */
    method Edit(f: FieldName, v: string)
      requires f != IsEmloyed
      modifies this
      ensures Values() == old(Values()).WithText(f, v)
      ensures localStorage == if Values() != old(Values()) then old(localStorage)[StorageKey := Draft(Values())]
                              else old(localStorage)
      ensures old(Synced()) ==> Synced()
      ensures errors == old(errors) && salaryWarning == old(salaryWarning)
    {
      var prev := Values();
      SetText(f, v);
      SaveEffect(prev);
    }

    /**
     * A submit followed by the save effect. On success the handler removes the
     * draft, but the reset changes the name, so the effect writes the snapshot
     * of the reset values back under the key.
     */
    method SubmitEvent() returns (submitted: bool)
      modifies this
      ensures submitted <==> Validate(old(Values())) == map[]
      ensures !submitted ==> Values() == old(Values()) && localStorage == old(localStorage)
                             && errors == Validate(old(Values()))
      ensures submitted ==> Values() == ResetValues() && Synced()
                            && localStorage == old(localStorage)[StorageKey := Draft(ResetValues())]
      ensures submitted ==> errors == map[]
      ensures salaryWarning == old(salaryWarning)
    {
      var prev := Values();
      submitted := Submit();
      if submitted {
        PassingValuesDifferFromReset(prev);
      }
      SaveEffect(prev);
    }
  }

  /** A draft saved by one visit is what the next visit's form loads, as `LoadAfterSave` describes. */
  method SaveThenReloadScenario()
  {
    var form := new LoanForm(map[]);
    form.SetText(Name, "Anna");
    form.SetText(Age, "30");
    form.SetText(LoanAmount, "50000");
    form.SetEmployed(Some(false));
    form.Save();
    var saved := form.Values();
    assert saved == FormValues("Anna", "", "30", Some(false), "", "50000", "", "", "");
    var later := new LoanForm(form.localStorage);
    var r := later.Load();
    assert r == Success(FormValues("Anna", "", "30", None, "", "", "", "", ""));
  }

  /** A submit with the phone left blank reports only that field and keeps the entered draft. */
  method BlankPhoneScenario()
  {
    var form := new LoanForm(map[]);
    form.Edit(Name, "Anna");
    form.Edit(Age, "30");
    assert form.Values() == FormValues("Anna", "", "30", None, "", "", "", "", "");
    assert form.Synced();
    BlankIffAllWhitespace("Anna");
    assert form.Values().name[0] == 'A';
    var ok := form.Submit();
    assert !ok && form.errors == map[Phone := PhoneRequired];
    assert form.Synced();
  }
}
