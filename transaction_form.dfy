/**
 * The add/edit transaction form. It holds the field values as typed, the
 * validation messages and a submitting flag; submitting a valid form either
 * adds a new transaction or, when the store has a transaction being
 * edited, updates that one. The amount text is read by `parse` (`None` for
 * text that is not a number), "today" is a parameter, and the server's
 * answers are parameters too.
 */
module TransactionForm {
  import opened Model
  import opened Aggregates
  import opened Patches
  import opened RemoteProvider

  const DESCRIPTION_REQUIRED := "Description is required"
  const AMOUNT_REQUIRED := "Amount is required"
  const AMOUNT_NOT_POSITIVE := "Amount must be a positive number"
  const DATE_REQUIRED := "Date is required"

  /** The form's fields. A cleared date picker leaves no date. */
  datatype FormData = FormData(description: string, amount: string, date: Option<Date>, category: string)

  /** One optional message per field. */
  datatype FormErrors = FormErrors(description: Option<string>, amount: Option<string>, date: Option<string>)

  const NO_ERRORS := FormErrors(None, None, None)

  /** The form as a fresh page or a reset shows it. */
  function EmptyForm(today: Date): FormData {
    FormData("", "", Some(today), "other")
  }

  /** The characters `String.prototype.trim` removes: white space and line terminators. */
  predicate IsWhitespace(c: char) {
    var n := c as int;
    n == 0x09 || n == 0x0A || n == 0x0B || n == 0x0C || n == 0x0D || n == 0x20 || n == 0xA0
    || n == 0x1680 || (0x2000 <= n <= 0x200A) || n == 0x2028 || n == 0x2029 || n == 0x202F
    || n == 0x205F || n == 0x3000 || n == 0xFEFF
  }

  /** `!s.trim()`: nothing but white space is left. */
  predicate IsBlank(s: string) {
    forall i :: 0 <= i < |s| ==> IsWhitespace(s[i])
  }

  /** A form `validateForm` accepts. */
  predicate ValidInput(f: FormData, parse: string -> Option<real>) {
    && !IsBlank(f.description)
    && f.amount != "" && parse(f.amount).Some? && parse(f.amount).value > 0.0
    && f.date.Some?
  }

  /** The messages `validateForm` sets: one per failed field check, none for a field that passes. */
  function ErrorsOf(f: FormData, parse: string -> Option<real>): FormErrors {
    FormErrors(
      if IsBlank(f.description) then Some(DESCRIPTION_REQUIRED) else None,
      if f.amount == "" then Some(AMOUNT_REQUIRED)
      else if parse(f.amount).None? || parse(f.amount).value <= 0.0 then Some(AMOUNT_NOT_POSITIVE)
      else None,
      if f.date.None? then Some(DATE_REQUIRED) else None)
  }

  /** A form passes validation exactly when it draws no message. */
  lemma ValidIffNoErrors(f: FormData, parse: string -> Option<real>)
    ensures ValidInput(f, parse) <==> ErrorsOf(f, parse) == NO_ERRORS
  {
  }

  /** Submitting a fresh or reset form asks for a description and an amount, and for nothing else. */
  lemma EmptyFormMessages(today: Date, parse: string -> Option<real>)
    ensures ErrorsOf(EmptyForm(today), parse) == FormErrors(Some(DESCRIPTION_REQUIRED), Some(AMOUNT_REQUIRED), None)
  {
  }

  /** The form holds no complete transaction until it is filled in again. */
  lemma EmptyFormInvalid(today: Date, parse: string -> Option<real>)
    ensures !ValidInput(EmptyForm(today), parse)
  {
  }

  /** A description with anything but white space in it is not blank. */
  lemma NonBlank(s: string, i: nat)
    requires i < |s| && !IsWhitespace(s[i])
    ensures !IsBlank(s)
  {
  }

  /** The `transactionData` a valid form sends: every field given, the amount parsed. */
  function FullPatch(f: FormData, parse: string -> Option<real>): (p: Patch)
    requires ValidInput(f, parse)
    ensures p.description == Some(f.description) && p.category == Some(f.category)
    ensures p.amount.Some? && p.amount.value > 0.0 && Some(p.amount.value) == parse(f.amount)
    ensures p.date == f.date
  {
    Patch(Some(f.description), parse(f.amount), f.date, Some(f.category))
  }

  /** The record the server creates from a valid form's data under the id it assigns. */
  function NewRecord(id: string, f: FormData, parse: string -> Option<real>): (t: Transaction)
    requires ValidInput(f, parse)
    ensures t.id == id && t.amount > 0.0 && !IsBlank(t.description)
  {
    Transaction(id, f.description, parse(f.amount).value, f.date.value, f.category)
  }

  /** The form fields a `handleInputChange` event can name. */
  datatype Field = DescriptionField | AmountField

  class TransactionFormState {
    var formData: FormData
    var errors: FormErrors
    var isSubmitting: bool
    const store: TransactionsProvider

    constructor (store: TransactionsProvider, today: Date)
      ensures this.store == store && formData == EmptyForm(today) && errors == NO_ERRORS && !isSubmitting
    {
      this.store := store;
      formData, errors, isSubmitting := EmptyForm(today), NO_ERRORS, false;
    }

    /**
     * The `useEffect` on `editingTransaction`: a transaction being edited is
     * copied into the form, its category falling back to "other"; with none
     * the form is left as it is.
     */
    method Prefill(show: real -> string)
      modifies this
      ensures store.editingTransaction.Some? ==>
        (var t := store.editingTransaction.value;
         formData == FormData(t.description, show(t.amount), Some(t.date), Resolve(t.category)))
      ensures store.editingTransaction.None? ==> formData == old(formData)
      ensures errors == old(errors) && isSubmitting == old(isSubmitting)
    {
      if store.editingTransaction.Some? {
        var t := store.editingTransaction.value;
        formData := FormData(t.description, show(t.amount), Some(t.date), Resolve(t.category));
      }
    }

    /** `validateForm`: one message per failed check, and valid exactly when there is none. */
    method Validate(parse: string -> Option<real>) returns (valid: bool)
      modifies this
      ensures errors == ErrorsOf(formData, parse)
      ensures valid <==> errors == NO_ERRORS
      ensures valid <==> ValidInput(formData, parse)
      ensures formData == old(formData) && isSubmitting == old(isSubmitting)
    {
      var newErrors := NO_ERRORS;
      if IsBlank(formData.description) {
        newErrors := newErrors.(description := Some(DESCRIPTION_REQUIRED));
      }
      if formData.amount == "" {
        newErrors := newErrors.(amount := Some(AMOUNT_REQUIRED));
      } else if parse(formData.amount).None? || parse(formData.amount).value <= 0.0 {
        newErrors := newErrors.(amount := Some(AMOUNT_NOT_POSITIVE));
      }
      if formData.date.None? {
        newErrors := newErrors.(date := Some(DATE_REQUIRED));
      }
      errors := newErrors;
      valid := errors == NO_ERRORS;
    }

    /**
     * `handleSubmit`. An invalid form sends nothing. Otherwise the form's
     * data goes to `updateTransaction` for the transaction being edited
     * (`updateOk` is the server's answer), or to `addTransaction`
     * (`createdId` is the id the server gives the new record, `None` when the
     * request fails). On success edit mode ends and the form is reset. The
     * store reports failures by its return value and never throws, so the
     * `catch` branch is never taken.
     */
    method Submit(parse: string -> Option<real>, createdId: Option<string>, updateOk: bool, today: Date) returns (valid: bool)
      modifies this, store
      ensures valid <==> ValidInput(old(formData), parse)
      ensures errors == ErrorsOf(old(formData), parse)
      ensures isSubmitting == (!valid && old(isSubmitting))
      ensures store.budgets == old(store.budgets) && store.isLoading == old(store.isLoading)
      ensures !valid ==>
        && formData == old(formData)
        && store.transactions == old(store.transactions) && store.editingTransaction == old(store.editingTransaction)
        && store.error == old(store.error)
      ensures valid && old(store.editingTransaction).Some? ==>
        && store.transactions == (if updateOk
             then UpdateWhere(old(store.transactions), old(store.editingTransaction).value.id, FullPatch(old(formData), parse))
             else old(store.transactions))
        && store.editingTransaction == (if updateOk then None else old(store.editingTransaction))
        && store.error == (if updateOk then old(store.error) else Some(UPDATE_FAILED))
        && formData == (if updateOk then EmptyForm(today) else old(formData))
      ensures valid && old(store.editingTransaction).None? ==>
        && store.transactions == (if createdId.Some?
             then Prepend(NewRecord(createdId.value, old(formData), parse), old(store.transactions))
             else old(store.transactions))
        && store.editingTransaction == None
        && store.error == (if createdId.Some? then old(store.error) else Some(ADD_FAILED))
        && formData == (if createdId.Some? then EmptyForm(today) else old(formData))
    {
      valid := Validate(parse);
      if !valid {
        return;
      }
      isSubmitting := true;
      var data := FullPatch(formData, parse);
      var success := false;
      if store.editingTransaction.Some? {
        success := store.UpdateTransaction(store.editingTransaction.value.id, data, updateOk);
        if success {
          store.SetEditingTransaction(None);
        }
      } else {
        var created := if createdId.Some? then Some(NewRecord(createdId.value, formData, parse)) else None;
        success := store.AddTransaction(created);
      }
      if success {
        formData := EmptyForm(today);
      }
      isSubmitting := false;
    }

    /** `handleCancel`: edit mode ends and the form is reset. */
    method Cancel(today: Date)
      modifies this, store
      ensures store.editingTransaction == None && formData == EmptyForm(today)
      ensures store.transactions == old(store.transactions) && store.budgets == old(store.budgets)
      ensures store.error == old(store.error) && store.isLoading == old(store.isLoading)
      ensures errors == old(errors) && isSubmitting == old(isSubmitting)
    {
      store.SetEditingTransaction(None);
      formData := EmptyForm(today);
    }

    /** `handleInputChange`: only the named text field changes. */
    method InputChange(field: Field, value: string)
      modifies this
      ensures field == DescriptionField ==> formData == old(formData).(description := value)
      ensures field == AmountField ==> formData == old(formData).(amount := value)
      ensures errors == old(errors) && isSubmitting == old(isSubmitting)
    {
      match field
      case DescriptionField => formData := formData.(description := value);
      case AmountField => formData := formData.(amount := value);
    }

    /** `handleDateChange`. */
    method DateChange(date: Option<Date>)
      modifies this
      ensures formData == old(formData).(date := date)
      ensures errors == old(errors) && isSubmitting == old(isSubmitting)
    {
      formData := formData.(date := date);
    }

    /** `handleCategoryChange`. */
    method CategoryChange(category: string)
      modifies this
      ensures formData == old(formData).(category := category)
      ensures errors == old(errors) && isSubmitting == old(isSubmitting)
    {
      formData := formData.(category := category);
    }
  }

  /** A prefilled form is valid when the record's description is not blank, its amount positive and `parse` reads `show` back. */
  lemma PrefillValid(t: Transaction, show: real -> string, parse: string -> Option<real>)
    requires !IsBlank(t.description) && t.amount > 0.0
    requires show(t.amount) != "" && parse(show(t.amount)) == Some(t.amount)
    ensures ValidInput(FormData(t.description, show(t.amount), Some(t.date), Resolve(t.category)), parse)
  {
  }

  /** Saving a prefilled, untouched form rewrites the record with its own values (a missing category becoming "other"). */
  lemma ResubmitUnchanged(t: Transaction, show: real -> string, parse: string -> Option<real>)
    requires !IsBlank(t.description) && t.amount > 0.0
    requires show(t.amount) != "" && parse(show(t.amount)) == Some(t.amount)
    ensures var f := FormData(t.description, show(t.amount), Some(t.date), Resolve(t.category));
      ValidInput(f, parse) && Merge(t, FullPatch(f, parse)) == t.(category := Resolve(t.category))
  {
  }
}
