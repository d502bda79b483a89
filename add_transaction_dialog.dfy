/** The modal "Add New Transaction" dialog: a form whose five slots (the form, its errors,
    the validity flag, the error-dialog flag and the submitted flag) are rewritten by three
    kinds of event — a field change, a submit, and the OK / close button of the nested
    "Incomplete Request" dialog — plus the Cancel button, which hands control back to the
    parent through its `toggleDialog` callback. */
module AddTransactionDialog {
  import opened JsRuntime
  import opened Validation
  import opened TransactionRules

  /** The keys the error record type declares; `Date` is declared but never checked. */
  datatype Field = Date | Category | Type | Detail | Amount

  /** Every slot holds the string its widget last reported (the amount comes from a number input). */
  datatype Form = Form(date: string, category: string, transactionType: string, detail: string, amount: string)

  function Get(f: Form, k: Field): string {
    match k
    case Date => f.date
    case Category => f.category
    case Type => f.transactionType
    case Detail => f.detail
    case Amount => f.amount
  }

  /** The shallow copy `{ ...form, [name]: value }`. */
  function Put(f: Form, name: Field, value: string): (r: Form)
    ensures Get(r, name) == value
    ensures forall k :: k != name ==> Get(r, k) == Get(f, k)
  {
    match name
    case Date => f.(date := value)
    case Category => f.(category := value)
    case Type => f.(transactionType := value)
    case Detail => f.(detail := value)
    case Amount => f.(amount := value)
  }

  // ---------------------------------------------------------------------------
  // Validator
  // ---------------------------------------------------------------------------

  type ErrorRecord = Entries<Field>

  /** The rule for one field. */
  predicate Fails(f: Form, k: Field) {
    match k
    case Type => f.transactionType == SELECT_TYPE
    case Category => f.category == SELECT_CATEGORY
    case Detail => f.detail == ""
    case Amount => ParsesToZero(f.amount)  // `parseInt(form.amount) === 0`, by ParsesToZeroIff
    case Date => false
  }

  function Message(k: Field): string {
    match k
    case Type => TYPE_REQUIRED
    case Category => CATEGORY_REQUIRED
    case Detail => DETAIL_REQUIRED
    case Amount => AMOUNT_REQUIRED
    case Date => ""
  }

  /** Position in the order in which the validator assigns its keys. */
  function Rank(k: Field): nat {
    match k
    case Type => 0
    case Category => 1
    case Detail => 2
    case Amount => 3
    case Date => 4
  }

  /** The fields `isFormTransactionValid` checks, in the order it checks them. */
  const CHECK_ORDER: seq<Field> := [Type, Category, Detail, Amount]

  /** The rules applied to one form. */
  function FailsOn(f: Form): Field -> bool {
    k => Fails(f, k)
  }

  /** The record `isFormTransactionValid` stores in `formErrors`: an entry for exactly each
      failing field, holding that field's message, never one for the date, in the order
      type, category, detail, amount. */
  function Validate(f: Form): (e: ErrorRecord)
    ensures forall k :: k in Keys(e) <==> k != Date && Fails(f, k)
    ensures forall i :: 0 <= i < |e| ==> e[i].0 != Date && e[i].1 == Message(e[i].0)
    ensures Increasing(Rank, Keys(e))
  {
    var e := ErrorsOver(FailsOn(f), Message, CHECK_ORDER);
    ErrorsOverSound(FailsOn(f), Message, CHECK_ORDER);
    ErrorsOverOrdered(FailsOn(f), Message, Rank, CHECK_ORDER);
    assert forall k :: k in Keys(e) ==> k in CHECK_ORDER && Fails(f, k) by {
      forall k | k in Keys(e) ensures k in CHECK_ORDER && Fails(f, k) {
        var i :| 0 <= i < |e| && Keys(e)[i] == k;
      }
    }
    forall k | k != Date && Fails(f, k) ensures k in Keys(e) {
      ErrorsOverComplete(FailsOn(f), Message, CHECK_ORDER, k);
    }
    assert forall i :: 0 <= i < |e| ==> Keys(e)[i] == e[i].0;
    e
  }

  /** The four rules, one by one. */
  lemma ValidateByField(f: Form)
    ensures Type in Keys(Validate(f)) <==> f.transactionType == SELECT_TYPE
    ensures Category in Keys(Validate(f)) <==> f.category == SELECT_CATEGORY
    ensures Detail in Keys(Validate(f)) <==> f.detail == ""
    ensures Amount in Keys(Validate(f)) <==> ParseInt(f.amount) == Some(0)
    ensures Date !in Keys(Validate(f))
  {
    ParsesToZeroIff(f.amount);
  }

  /** The form is valid exactly when no field fails. */
  lemma ValidIff(f: Form)
    ensures Validate(f) == [] <==>
      f.transactionType != SELECT_TYPE && f.category != SELECT_CATEGORY && f.detail != "" &&
      ParseInt(f.amount) != Some(0)
  {
    ValidateByField(f);
    var e := Validate(f);
    if e != [] {
      assert Keys(e)[0] in Keys(e);
    }
  }

  /** The record spelled out the way the handler fills it. */
  lemma ValidateUnrolled(f: Form)
    ensures Validate(f) ==
      Entry(FailsOn(f), Message, Type) + Entry(FailsOn(f), Message, Category) +
      Entry(FailsOn(f), Message, Detail) + Entry(FailsOn(f), Message, Amount)
  {
    ErrorsOverFour(FailsOn(f), Message, CHECK_ORDER);
  }

  /** The record as `isFormTransactionValid` assigns it, one conditional key at a time. */
  lemma ValidateAsAssigned(f: Form)
    ensures Validate(f) ==
      (if f.transactionType == SELECT_TYPE then [(Type, TYPE_REQUIRED)] else []) +
      (if f.category == SELECT_CATEGORY then [(Category, CATEGORY_REQUIRED)] else []) +
      (if f.detail == "" then [(Detail, DETAIL_REQUIRED)] else []) +
      (if ParsesToZero(f.amount) then [(Amount, AMOUNT_REQUIRED)] else [])
  {
    ValidateUnrolled(f);
  }

  /** The list the error dialog shows: the messages of the failing fields, in the order
      type, category, detail, amount. */
  lemma ListedMessagesInOrder(f: Form)
    ensures Messages(Validate(f)) ==
      (if f.transactionType == SELECT_TYPE then [TYPE_REQUIRED] else []) +
      (if f.category == SELECT_CATEGORY then [CATEGORY_REQUIRED] else []) +
      (if f.detail == "" then [DETAIL_REQUIRED] else []) +
      (if ParseInt(f.amount) == Some(0) then [AMOUNT_REQUIRED] else [])
  {
    ParsesToZeroIff(f.amount);
    MessagesOfFour(FailsOn(f), Message, CHECK_ORDER);
  }

  // ---------------------------------------------------------------------------
  // The component's state and its transitions
  // ---------------------------------------------------------------------------

  /** The calls the component makes into code it does not own. */
  datatype Call = AddTransaction(form: Form) | ToggleDialog

  datatype DialogState = DialogState(
    form: Form,
    formErrors: ErrorRecord,
    isFormValid: bool,
    openUserInputDialog: bool,
    transactionSubmit: bool,
    calls: seq<Call>)

  /** The state on mount; `today` is the ISO date (yyyy-mm-dd) of the current instant. */
  function Init(today: string): DialogState {
    DialogState(
      Form(today, SELECT_CATEGORY, SELECT_TYPE, "", ""),
      [(Date, ""), (Category, ""), (Type, ""), (Detail, ""), (Amount, "")],
      true, false, false, [])
  }

  /** What is on screen: whether the form panel is displayed, and the list of the nested
      error dialog when that dialog is rendered. */
  datatype View = View(formDisplayed: bool, errorDialog: Option<seq<string>>)

  /** The form panel is `display: none` and the error dialog rendered under the same
      condition, so exactly one of them is on screen. */
  function Render(s: DialogState): (v: View)
    ensures v.formDisplayed <==> v.errorDialog.None?
    ensures v.errorDialog.Some? <==> !s.isFormValid && s.openUserInputDialog
    ensures v.errorDialog.Some? ==> v.errorDialog.value == Messages(s.formErrors)
  {
    var formDisplayed := !(!s.isFormValid && s.openUserInputDialog);
    var errorDialog := if !s.isFormValid && s.openUserInputDialog then Some(Messages(s.formErrors)) else None;
    View(formDisplayed, errorDialog)
  }

  /** `handleTransactionChange(name, value)`: only the named field changes, nothing is validated. */
  function ChangeStep(s: DialogState, name: Field, value: string): (r: DialogState)
    ensures Get(r.form, name) == value
    ensures forall k :: k != name ==> Get(r.form, k) == Get(s.form, k)
    ensures r.formErrors == s.formErrors && r.isFormValid == s.isFormValid
    ensures r.openUserInputDialog == s.openUserInputDialog
    ensures r.transactionSubmit == s.transactionSubmit && r.calls == s.calls
  {
    s.(form := Put(s.form, name, value))
  }

  /** The state writes of `isFormTransactionValid`. */
  function Validated(s: DialogState): DialogState {
    var errors := Validate(s.form);
    s.(formErrors := errors, isFormValid := |Keys(errors)| == 0)
  }

  /** `handleSubmit`: validate; if valid and the token is truthy, dispatch the form, then mark
      it submitted and close the dialog unless the dispatch threw; if invalid, flip the
      error-dialog flag. */
  function SubmitStep(s: DialogState, token: Option<string>, outcome: DispatchOutcome): (r: DialogState)
    ensures r.form == s.form
    ensures r.formErrors == Validate(s.form)
    ensures r.isFormValid <==> Validate(s.form) == []
    ensures r.isFormValid && Truthy(token) && outcome == Returns ==>
      r.calls == s.calls + [AddTransaction(s.form), ToggleDialog] && r.transactionSubmit
    ensures r.isFormValid && Truthy(token) && outcome == Throws ==>
      r.calls == s.calls + [AddTransaction(s.form)] && r.transactionSubmit == s.transactionSubmit
    ensures r.isFormValid && !Truthy(token) ==>
      r.calls == s.calls && r.transactionSubmit == s.transactionSubmit
    ensures r.isFormValid ==> r.openUserInputDialog == s.openUserInputDialog
    ensures !r.isFormValid ==>
      r.calls == s.calls && r.transactionSubmit == s.transactionSubmit &&
      r.openUserInputDialog == !s.openUserInputDialog
  {
    var v := Validated(s);
    if !v.isFormValid then v.(openUserInputDialog := !s.openUserInputDialog)
    else if !Truthy(token) then v
    else if outcome == Throws then v.(calls := s.calls + [AddTransaction(s.form)])
    else v.(transactionSubmit := true, calls := s.calls + [AddTransaction(s.form), ToggleDialog])
  }

  /** The OK button and the close control of the error dialog: both flip the flag. */
  function OkStep(s: DialogState): (r: DialogState)
    ensures r.openUserInputDialog == !s.openUserInputDialog
    ensures r.form == s.form && r.formErrors == s.formErrors && r.isFormValid == s.isFormValid
    ensures r.transactionSubmit == s.transactionSubmit && r.calls == s.calls
  {
    s.(openUserInputDialog := !s.openUserInputDialog)
  }

  /** The Cancel button and the outer dialog's close control call the parent's `toggleDialog`. */
  function CancelStep(s: DialogState): (r: DialogState)
    ensures r.calls == s.calls + [ToggleDialog]
    ensures r.form == s.form && r.formErrors == s.formErrors && r.isFormValid == s.isFormValid
    ensures r.openUserInputDialog == s.openUserInputDialog && r.transactionSubmit == s.transactionSubmit
  {
    s.(calls := s.calls + [ToggleDialog])
  }

  datatype Event =
    | Change(name: Field, value: string)
    | Submit(token: Option<string>, outcome: DispatchOutcome)
    | Ok
    | Cancel

  function Step(s: DialogState, ev: Event): DialogState {
    match ev
    case Change(name, value) => ChangeStep(s, name, value)
    case Submit(token, outcome) => SubmitStep(s, token, outcome)
    case Ok => OkStep(s)
    case Cancel => CancelStep(s)
  }

  function Run(s: DialogState, evs: seq<Event>): DialogState
    decreases |evs|
  {
    if evs == [] then s else Run(Step(s, evs[0]), evs[1..])
  }

  // ---------------------------------------------------------------------------
  // Properties
  // ---------------------------------------------------------------------------

  /** Pressing OK twice, or closing twice, restores the flag. */
  lemma OkTwiceRestores(s: DialogState)
    ensures OkStep(OkStep(s)) == s
  {
  }

  /** An invalid submit followed by OK leaves the form and the flag where they were; only
      the error record and the validity flag now describe the failed attempt. */
  lemma InvalidSubmitThenOk(s: DialogState, token: Option<string>, outcome: DispatchOutcome)
    requires Validate(s.form) != []
    ensures OkStep(SubmitStep(s, token, outcome)) == s.(formErrors := Validate(s.form), isFormValid := false)
  {
  }

  /** After a submit the error dialog is on screen exactly when the form was invalid and the
      flag was down: the flag is flipped, not set, so an invalid submit with the flag already
      up hides the dialog. */
  lemma ErrorDialogAfterSubmit(s: DialogState, token: Option<string>, outcome: DispatchOutcome)
    ensures Render(SubmitStep(s, token, outcome)).errorDialog.Some? <==>
      Validate(s.form) != [] && !s.openUserInputDialog
    ensures Render(SubmitStep(s, token, outcome)).errorDialog.Some? ==>
      Render(SubmitStep(s, token, outcome)).errorDialog.value == Messages(Validate(s.form))
  {
  }

  /** What the state must satisfy for the error dialog never to show the blank entries the
      record starts with: whenever the last validation failed, the record holds at least one
      entry, and every entry is a field's "required" message. */
  predicate ErrorsMeaningful(s: DialogState) {
    !s.isFormValid ==>
      s.formErrors != [] &&
      forall i :: 0 <= i < |s.formErrors| ==>
        s.formErrors[i].0 != Date && s.formErrors[i].1 == Message(s.formErrors[i].0)
  }

  /** Every dispatched form passed validation. */
  predicate OnlyValidDispatched(s: DialogState) {
    forall i :: 0 <= i < |s.calls| && s.calls[i].AddTransaction? ==> Validate(s.calls[i].form) == []
  }

  predicate Inv(s: DialogState) {
    ErrorsMeaningful(s) && OnlyValidDispatched(s)
  }

  lemma InitInv(today: string)
    ensures Inv(Init(today))
  {
  }

  lemma StepInv(s: DialogState, ev: Event)
    requires Inv(s)
    ensures Inv(Step(s, ev))
  {
    var r := Step(s, ev);
    forall i | 0 <= i < |r.calls| && r.calls[i].AddTransaction?
      ensures Validate(r.calls[i].form) == []
    {
      if i >= |s.calls| {
        assert ev.Submit? && r.calls[i] == AddTransaction(s.form);
      }
    }
  }

  lemma {:induction false} RunInv(s: DialogState, evs: seq<Event>)
    requires Inv(s)
    ensures Inv(Run(s, evs))
    decreases |evs|
  {
    if evs != [] {
      StepInv(s, evs[0]);
      RunInv(Step(s, evs[0]), evs[1..]);
    }
  }

  /** From mount on, whatever the events: no form that fails validation is ever dispatched,
      and whenever the error dialog is on screen it lists at least one message, each a
      field's "required" message. */
  lemma {:induction false} ReachableStatesAreSound(today: string, evs: seq<Event>)
    ensures OnlyValidDispatched(Run(Init(today), evs))
    ensures var v := Render(Run(Init(today), evs));
      v.errorDialog.Some? ==>
        |v.errorDialog.value| > 0 &&
        forall m :: m in v.errorDialog.value ==>
          m in {TYPE_REQUIRED, CATEGORY_REQUIRED, DETAIL_REQUIRED, AMOUNT_REQUIRED}
  {
    InitInv(today);
    RunInv(Init(today), evs);
    var s := Run(Init(today), evs);
    var v := Render(s);
    if v.errorDialog.Some? {
      forall m | m in v.errorDialog.value
        ensures m in {TYPE_REQUIRED, CATEGORY_REQUIRED, DETAIL_REQUIRED, AMOUNT_REQUIRED}
      {
        var i :| 0 <= i < |v.errorDialog.value| && v.errorDialog.value[i] == m;
        assert s.formErrors[i].0 != Date;
      }
    }
  }

  /** Submitting the untouched form: the amount is "" and parseInt("") is NaN, so only the
      type, category and detail messages are listed. */
  lemma SubmitOnMount(today: string, token: Option<string>, outcome: DispatchOutcome)
    ensures var r := SubmitStep(Init(today), token, outcome);
      r.calls == [] &&
      Render(r).errorDialog == Some([TYPE_REQUIRED, CATEGORY_REQUIRED, DETAIL_REQUIRED])
  {
    var f := Init(today).form;
    MessagesOfFour(FailsOn(f), Message, CHECK_ORDER);
    assert !ParsesToZero(f.amount);
    assert Messages(Validate(f)) == [TYPE_REQUIRED, CATEGORY_REQUIRED, DETAIL_REQUIRED];
    var r := SubmitStep(Init(today), token, outcome);
    assert !r.isFormValid && r.openUserInputDialog;
  }

  /** An amount of "0" is the one failure left once the other fields are filled in. */
  lemma ZeroAmountAlone(s: DialogState, token: Option<string>, outcome: DispatchOutcome)
    requires s.form.transactionType != SELECT_TYPE && s.form.category != SELECT_CATEGORY
    requires s.form.detail != "" && s.form.amount == "0"
    requires !s.openUserInputDialog
    ensures var r := SubmitStep(s, token, outcome);
      r.calls == s.calls && Render(r).errorDialog == Some([AMOUNT_REQUIRED])
  {
    MessagesOfFour(FailsOn(s.form), Message, CHECK_ORDER);
    assert ParsesToZero(s.form.amount);
    assert Messages(Validate(s.form)) == [AMOUNT_REQUIRED];
  }

  /** A valid submit without a truthy token is a silent no-op apart from the validation slots. */
  lemma ValidSubmitWithoutToken(s: DialogState, token: Option<string>, outcome: DispatchOutcome)
    requires Validate(s.form) == [] && !Truthy(token)
    ensures SubmitStep(s, token, outcome) == s.(formErrors := [], isFormValid := true)
  {
  }

  // ---------------------------------------------------------------------------
  // The component as the source holds it: state slots rewritten by the handlers
  // ---------------------------------------------------------------------------

  class Component {
    var form: Form
    var formErrors: ErrorRecord
    var isFormValid: bool
    var openUserInputDialog: bool
    var transactionSubmit: bool
    /** The calls made so far into `addTransaction` and the parent's `toggleDialog`. */
    var calls: seq<Call>

    function State(): DialogState
      reads this
    {
      DialogState(form, formErrors, isFormValid, openUserInputDialog, transactionSubmit, calls)
    }

    constructor (today: string)
      ensures State() == Init(today)
    {
      form := Form(today, SELECT_CATEGORY, SELECT_TYPE, "", "");
      formErrors := [(Date, ""), (Category, ""), (Type, ""), (Detail, ""), (Amount, "")];
      isFormValid := true;
      openUserInputDialog := false;
      transactionSubmit := false;
      calls := [];
    }

    method HandleTransactionChange(name: Field, value: string)
      modifies this
      ensures State() == ChangeStep(old(State()), name, value)
    {
      form := Put(form, name, value);
    }

    /** Fills a fresh record key by key, then stores it and whether it is empty. */
    method IsFormTransactionValid() returns (valid: bool)
      modifies this
      ensures State() == Validated(old(State()))
      ensures valid == isFormValid
      ensures valid <==> Validate(form) == []
    {
      ValidateAsAssigned(form);
      ghost var t := if form.transactionType == SELECT_TYPE then [(Type, TYPE_REQUIRED)] else [];
      ghost var c := if form.category == SELECT_CATEGORY then [(Category, CATEGORY_REQUIRED)] else [];
      ghost var d := if form.detail == "" then [(Detail, DETAIL_REQUIRED)] else [];
      ghost var a := if ParsesToZero(form.amount) then [(Amount, AMOUNT_REQUIRED)] else [];
      var newErrors: ErrorRecord := [];
      if form.transactionType == SELECT_TYPE {
        newErrors := newErrors + [(Type, TYPE_REQUIRED)];
      }
      assert newErrors == t;
      if form.category == SELECT_CATEGORY {
        newErrors := newErrors + [(Category, CATEGORY_REQUIRED)];
      }
      assert newErrors == t + c;
      if form.detail == "" {
        newErrors := newErrors + [(Detail, DETAIL_REQUIRED)];
      }
      assert newErrors == t + c + d;
      var amountIsZero := ParseIntIsZero(form.amount);
      if amountIsZero {
        newErrors := newErrors + [(Amount, AMOUNT_REQUIRED)];
      }
      assert newErrors == Validate(form);
      formErrors := newErrors;
      isFormValid := |Keys(newErrors)| == 0;
      valid := |Keys(newErrors)| == 0;
    }

    /** `parseInt(amount) === 0`. */
    static method ParseIntIsZero(amount: string) returns (zero: bool)
      ensures zero <==> ParsesToZero(amount)
    {
      zero := ParseInt(amount) == Some(0);
      ParsesToZeroIff(amount);
    }

    /** `dispatch` stands for the outcome of `addTransaction(form)`. */
    method HandleSubmit(token: Option<string>, dispatch: DispatchOutcome)
      modifies this
      ensures State() == SubmitStep(old(State()), token, dispatch)
    {
      var wasOpen := openUserInputDialog;
      var valid := IsFormTransactionValid();
      if valid {
        if Truthy(token) {
          calls := calls + [AddTransaction(form)];
          if dispatch == Returns {
            transactionSubmit := true;
            calls := calls + [ToggleDialog];
          }
        }
      } else {
        openUserInputDialog := !wasOpen;
      }
    }

    /** OK, or the close control of the error dialog. */
    method ToggleUserInputDialog()
      modifies this
      ensures State() == OkStep(old(State()))
    {
      openUserInputDialog := !openUserInputDialog;
    }

    /** Cancel, or the close control of the outer dialog. */
    method CloseDialog()
      modifies this
      ensures State() == CancelStep(old(State()))
    {
      calls := calls + [ToggleDialog];
    }
  }
}
