/**
 * The expense form: five text fields that are filled from an edit target or
 * reset, a pre-flight validation with two ordered checks, and a submit that
 * issues one create or update request and reports its outcome.
 *
 * `parseFloat` is the parameter `parse` (None stands for NaN) and the
 * `String(...)` conversion of a record's amount is the parameter `show`.
 */
module ExpenseFormLogic {
  import opened Wrappers
  import opened Expenses

  /** The form's five fields, all held as text. */
  datatype FormFields = FormFields(
    title: string,
    amount: string,
    date: string,
    category: string,
    notes: string)

  /** The body of a create or update request; `amount` is a number, not text. */
  datatype Payload = Payload(
    title: string,
    amount: real,
    date: string,
    category: string,
    notes: string)

  /** Why the pre-flight check stopped a submission. */
  datatype Rejection = MissingField | NotPositive

  datatype Checked = Rejected(reason: Rejection) | Accepted(payload: Payload)

  /** The request a submission issues: an add, or an update of the record with that id. */
  datatype Request = Create(payload: Payload) | Update(id: nat, payload: Payload)

  /** What the backend answered: the saved record's title, or an error. */
  datatype Outcome = Success(returnedTitle: string) | Failure

  /** The notification shown to the user (its wording is not modelled). */
  datatype Notice = FillRequired | AmountNotPositive | Saved(title: string) | SaveFailed

  /** Everything a submission does: at most one request, one notice, and whether onSaveComplete ran. */
  datatype Submission = Submission(request: Option<Request>, notice: Notice, saveCompleted: bool)

  datatype Field = Title | Amount | Date | Category | Notes

  /** The record's notes, or the empty text when they are absent. */
  function NotesText(notes: Option<string>): (r: string)
    ensures notes.Some? ==> r == notes.value
    ensures notes.None? ==> r == ""
  {
    match notes
    case Some(n) => n
    case None => ""
  }

  /** The fields the populate/reset effect leaves for an edit target (or for none). */
  function FieldsFor(target: Option<Expense>, show: real -> string): FormFields {
    match target
    case Some(e) => FormFields(e.title, show(e.amount), e.date, e.category, NotesText(e.notes))
    case None => FormFields("", "", "", DefaultCategory, "")
  }

  predicate AnyRequiredEmpty(f: FormFields) {
    f.title == "" || f.amount == "" || f.date == "" || f.category == ""
  }

  /** A payload the backend's data model can hold: required text present, amount positive. */
  predicate WellFormed(p: Payload) {
    p.title != "" && p.date != "" && p.category != "" && p.amount > 0.0
  }

  /**
   * The pre-flight check and the payload it builds. The emptiness check
   * comes first; only then is the amount parsed and required to be a
   * positive number.
   */
  function Validate(f: FormFields, parse: string -> Option<real>): (r: Checked)
    ensures r == Rejected(MissingField) <==> AnyRequiredEmpty(f)
    ensures r == Rejected(NotPositive) <==>
      !AnyRequiredEmpty(f) && (parse(f.amount).None? || parse(f.amount).value <= 0.0)
    ensures r.Accepted? ==>
      && WellFormed(r.payload)
      && parse(f.amount) == Some(r.payload.amount)
      && r.payload.title == f.title
      && r.payload.date == f.date
      && r.payload.category == f.category
      && r.payload.notes == f.notes
  {
    if AnyRequiredEmpty(f) then
      Rejected(MissingField)
    else
      var numericAmount := parse(f.amount);
      if numericAmount.None? || numericAmount.value <= 0.0 then
        Rejected(NotPositive)
      else
        Accepted(Payload(f.title, numericAmount.value, f.date, f.category, f.notes))
  }

  /**
   * Opening a valid record for editing and submitting it untouched sends the
   * record's own values back, provided the amount survives the round trip
   * through its text form and empty text parses to NaN.
   */
  lemma EditRoundTrip(e: Expense, show: real -> string, parse: string -> Option<real>)
    requires e.title != "" && e.date != "" && e.category != "" && e.amount > 0.0
    requires parse(show(e.amount)) == Some(e.amount)
    requires parse("") == None
    ensures Validate(FieldsFor(Some(e), show), parse)
         == Accepted(Payload(e.title, e.amount, e.date, e.category, NotesText(e.notes)))
  {
  }

  /** A freshly reset form cannot be submitted: its title is empty. */
  lemma BlankFormRejected(show: real -> string, parse: string -> Option<real>)
    ensures Validate(FieldsFor(None, show), parse) == Rejected(MissingField)
  {
  }

  class ExpenseForm {
    /** The `expenseToEdit` prop. */
    var expenseToEdit: Option<Expense>
    /** Whether an `onSaveComplete` callback was passed. */
    const hasSaveCallback: bool

    var title: string
    var amount: string
    var date: string
    var category: string
    var notes: string

    function Fields(): FormFields
      reads this
    {
      FormFields(title, amount, date, category, notes)
    }

    /** Edit mode: an edit target was passed. */
    predicate IsEditMode()
      reads this
      ensures IsEditMode() <==> expenseToEdit.Some?
    {
      expenseToEdit.Some?
    }

    /** Mounting: the state initialisers, then the first run of the populate/reset effect. */
    constructor (target: Option<Expense>, onSaveComplete: bool, show: real -> string)
      ensures expenseToEdit == target && hasSaveCallback == onSaveComplete
      ensures Fields() == FieldsFor(target, show)
    {
      expenseToEdit := target;
      hasSaveCallback := onSaveComplete;
      title, amount, date, category, notes := "", "", "", DefaultCategory, "";
      new;
      Populate(show);
    }

    /** The populate/reset effect: copy the edit target into the fields, or blank them. */
    method Populate(show: real -> string)
      modifies this`title, this`amount, this`date, this`category, this`notes
      ensures IsEditMode() ==>
        && title == expenseToEdit.value.title
        && amount == show(expenseToEdit.value.amount)
        && date == expenseToEdit.value.date
        && category == expenseToEdit.value.category
        && notes == NotesText(expenseToEdit.value.notes)
      ensures !IsEditMode() ==>
        title == "" && amount == "" && date == "" && category == DefaultCategory && notes == ""
      ensures Fields() == FieldsFor(expenseToEdit, show)
    {
      if IsEditMode() {
        var e := expenseToEdit.value;
        title := e.title;
        amount := show(e.amount);
        date := e.date;
        category := e.category;
        notes := NotesText(e.notes);
      } else {
        title := "";
        amount := "";
        date := "";
        category := DefaultCategory;
        notes := "";
      }
    }

    /**
     * A re-render that passes `target` as the `expenseToEdit` prop without
     * remounting the form: App keys the form by the record's id, or by one
     * key for create mode, so the mode and the id stay the same. The
     * populate/reset effect runs again only if the prop is a different
     * object (`sameObject` is false), and then it overwrites whatever the
     * user had typed. Two nulls are always the same, so a create-mode form
     * keeps its fields.
     */
    method ReceiveTarget(target: Option<Expense>, sameObject: bool, show: real -> string)
      requires target.Some? <==> expenseToEdit.Some?
      requires target.Some? ==> target.value.id == expenseToEdit.value.id
      requires sameObject ==> target == expenseToEdit
      requires target.None? ==> sameObject
      modifies this
      ensures expenseToEdit == target
      ensures sameObject ==> Fields() == old(Fields())
      ensures !sameObject ==> Fields() == FieldsFor(target, show)
    {
      expenseToEdit := target;
      if !sameObject {
        Populate(show);
      }
    }

    /** The user edits one input; the other four keep their values. */
    method Input(field: Field, value: string)
      modifies this
      ensures title == (if field == Title then value else old(title))
      ensures amount == (if field == Amount then value else old(amount))
      ensures date == (if field == Date then value else old(date))
      ensures category == (if field == Category then value else old(category))
      ensures notes == (if field == Notes then value else old(notes))
      ensures expenseToEdit == old(expenseToEdit)
    {
      match field
      case Title => title := value;
      case Amount => amount := value;
      case Date => date := value;
      case Category => category := value;
      case Notes => notes := value;
    }

    /**
     * handleSubmit. A rejected form issues no request; an accepted one issues
     * exactly one, an update of the edit target in edit mode and an add
     * otherwise, and onSaveComplete runs only after a success. The method
     * changes no field of the form, whatever the outcome.
     */
    method Submit(parse: string -> Option<real>, outcome: Outcome) returns (s: Submission)
      ensures AnyRequiredEmpty(Fields()) ==> s == Submission(None, FillRequired, false)
      ensures Validate(Fields(), parse) == Rejected(NotPositive) ==>
        s == Submission(None, AmountNotPositive, false)
      ensures s.request.Some? <==> Validate(Fields(), parse).Accepted?
      ensures s.request.Some? ==>
        s.request.value.payload == Validate(Fields(), parse).payload
      ensures s.request.Some? ==>
        (s.request.value.Update? <==> IsEditMode())
      ensures s.request.Some? && IsEditMode() ==>
        s.request.value.id == expenseToEdit.value.id
      ensures s.saveCompleted <==> s.request.Some? && outcome.Success? && hasSaveCallback
      ensures s.request.Some? ==>
        s.notice == (if outcome.Success? then Saved(outcome.returnedTitle) else SaveFailed)
    {
      var checked := Validate(Fields(), parse);
      if checked == Rejected(MissingField) {
        return Submission(None, FillRequired, false);
      }
      if checked.Rejected? {
        return Submission(None, AmountNotPositive, false);
      }
      var expenseData := checked.payload;
      var request: Request;
      if IsEditMode() {
        request := Update(expenseToEdit.value.id, expenseData);
      } else {
        request := Create(expenseData);
      }
      match outcome
      case Success(returnedTitle) =>
        s := Submission(Some(request), Saved(returnedTitle), hasSaveCallback);
      case Failure =>
        s := Submission(Some(request), SaveFailed, false);
    }
  }
}
