/** The standalone "Add Transaction" page: the same form, validator and error dialog as the
    modal dialog, over four fields and with an amount that starts as the number 0. It has
    no Cancel button. Instead of closing itself after a submit, it watches the store's
    `addTransactionResult`, and when that value changes (as its JSON text) while the result
    is truthy and a transaction was submitted, it navigates to the transaction list. */
module AddTransactionPage {
  import opened JsRuntime
  import opened Validation
  import opened TransactionRules
  import Dialog = AddTransactionDialog

  /** The keys of the page's form and of its error record; the page has no date. */
  datatype Field = Category | Type | Detail | Amount

  /** A slot of the form: the number 0 the amount starts as, or the string that a widget
      reported through `handleChange`. */
  datatype Value = Zero | Text(s: string)

  datatype Form = Form(category: Value, transactionType: Value, detail: Value, amount: Value)

  function Get(f: Form, k: Field): Value {
    match k
    case Category => f.category
    case Type => f.transactionType
    case Detail => f.detail
    case Amount => f.amount
  }

  /** The shallow copy `{ ...form, [name]: value }`: the named slot now holds a string. */
  function Put(f: Form, name: Field, value: string): (r: Form)
    ensures Get(r, name) == Text(value)
    ensures forall k :: k != name ==> Get(r, k) == Get(f, k)
  {
    match name
    case Category => f.(category := Text(value))
    case Type => f.(transactionType := Text(value))
    case Detail => f.(detail := Text(value))
    case Amount => f.(amount := Text(value))
  }

  // ---------------------------------------------------------------------------
  // Validator
  // ---------------------------------------------------------------------------

  type ErrorRecord = Entries<Field>

  /** The rule for one field, with JavaScript's strict equality: a string never equals the
      number 0, so the amount fails only while it is still the initial number. */
  predicate Fails(f: Form, k: Field) {
    match k
    case Type => f.transactionType == Text(SELECT_TYPE)
    case Category => f.category == Text(SELECT_CATEGORY)
    case Detail => f.detail == Text("")
    case Amount => f.amount == Zero
  }

  function Message(k: Field): string {
    match k
    case Type => TYPE_REQUIRED
    case Category => CATEGORY_REQUIRED
    case Detail => DETAIL_REQUIRED
    case Amount => AMOUNT_REQUIRED
  }

  /** Position in the order in which the validator assigns its keys. */
  function Rank(k: Field): nat {
    match k
    case Type => 0
    case Category => 1
    case Detail => 2
    case Amount => 3
  }

  /** The fields `isFormTransactionValid` checks, in the order it checks them. */
  const CHECK_ORDER: seq<Field> := [Type, Category, Detail, Amount]

  /** The rules applied to one form. */
  function FailsOn(f: Form): Field -> bool {
    k => Fails(f, k)
  }

  /** The record `isFormTransactionValid` stores in `formErrors`: an entry for exactly each
      failing field, holding that field's message, in the order type, category, detail,
      amount. */
  function Validate(f: Form): (e: ErrorRecord)
    ensures forall k :: k in Keys(e) <==> Fails(f, k)
    ensures forall i :: 0 <= i < |e| ==> e[i].1 == Message(e[i].0)
    ensures Increasing(Rank, Keys(e))
  {
    var e := ErrorsOver(FailsOn(f), Message, CHECK_ORDER);
    ErrorsOverSound(FailsOn(f), Message, CHECK_ORDER);
    ErrorsOverOrdered(FailsOn(f), Message, Rank, CHECK_ORDER);
    forall k | Fails(f, k) ensures k in Keys(e) {
      ErrorsOverComplete(FailsOn(f), Message, CHECK_ORDER, k);
    }
    assert forall i :: 0 <= i < |e| ==> Keys(e)[i] == e[i].0;
    e
  }

  /** The four rules, one by one. */
  lemma ValidateByField(f: Form)
    ensures Type in Keys(Validate(f)) <==> f.transactionType == Text(SELECT_TYPE)
    ensures Category in Keys(Validate(f)) <==> f.category == Text(SELECT_CATEGORY)
    ensures Detail in Keys(Validate(f)) <==> f.detail == Text("")
    ensures Amount in Keys(Validate(f)) <==> f.amount == Zero
  {
  }

  /** The form is valid exactly when no field fails. */
  lemma ValidIff(f: Form)
    ensures Validate(f) == [] <==>
      f.transactionType != Text(SELECT_TYPE) && f.category != Text(SELECT_CATEGORY) &&
      f.detail != Text("") && f.amount != Zero
  {
    var e := Validate(f);
    if e != [] {
      assert Keys(e)[0] in Keys(e);
    }
  }

  /** Once the amount has been edited, to any text at all (even "0" or ""), it can no longer
      fail: only the untouched initial number does. */
  lemma EditedAmountNeverFails(f: Form, value: string)
    ensures Amount !in Keys(Validate(Put(f, Amount, value)))
  {
  }

  /** The type, category and detail rules and messages are those of the modal dialog: a page
      form and a dialog form holding the same strings in those slots fail the same of the
      three checks, with the same messages. */
  lemma SameRulesAsDialog(f: Form, g: Dialog.Form)
    requires f.transactionType == Text(g.transactionType)
    requires f.category == Text(g.category) && f.detail == Text(g.detail)
    ensures Type in Keys(Validate(f)) <==> Dialog.Type in Keys(Dialog.Validate(g))
    ensures Category in Keys(Validate(f)) <==> Dialog.Category in Keys(Dialog.Validate(g))
    ensures Detail in Keys(Validate(f)) <==> Dialog.Detail in Keys(Dialog.Validate(g))
    ensures Message(Type) == Dialog.Message(Dialog.Type)
    ensures Message(Category) == Dialog.Message(Dialog.Category)
    ensures Message(Detail) == Dialog.Message(Dialog.Detail)
  {
  }

  /** The record as `isFormTransactionValid` assigns it, one conditional key at a time. */
  lemma ValidateAsAssigned(f: Form)
    ensures Validate(f) ==
      (if f.transactionType == Text(SELECT_TYPE) then [(Type, TYPE_REQUIRED)] else []) +
      (if f.category == Text(SELECT_CATEGORY) then [(Category, CATEGORY_REQUIRED)] else []) +
      (if f.detail == Text("") then [(Detail, DETAIL_REQUIRED)] else []) +
      (if f.amount == Zero then [(Amount, AMOUNT_REQUIRED)] else [])
  {
    ErrorsOverFour(FailsOn(f), Message, CHECK_ORDER);
  }

  /** The list the error dialog shows: the messages of the failing fields, in the order
      type, category, detail, amount. */
  lemma ListedMessagesInOrder(f: Form)
    ensures Messages(Validate(f)) ==
      (if f.transactionType == Text(SELECT_TYPE) then [TYPE_REQUIRED] else []) +
      (if f.category == Text(SELECT_CATEGORY) then [CATEGORY_REQUIRED] else []) +
      (if f.detail == Text("") then [DETAIL_REQUIRED] else []) +
      (if f.amount == Zero then [AMOUNT_REQUIRED] else [])
  {
    MessagesOfFour(FailsOn(f), Message, CHECK_ORDER);
  }

  // ---------------------------------------------------------------------------
  // The page's state and its transitions
  // ---------------------------------------------------------------------------

  /** The route constant the page navigates to; its text is not part of this model. */
  datatype Route = Transactions

  /** The calls the page makes into code it does not own. */
  datatype Call = AddTransaction(form: Form, token: string) | Navigate(route: Route)

  /** The store's `addTransactionResult` as the page observes it: its JSON text (`None` when
      `JSON.stringify` yields `undefined`) and whether the value is truthy. */
  datatype StoreResult = StoreResult(serialized: Option<string>, truthy: bool)

  /** The five state slots, the JSON text the navigation effect last ran on (the
      dependency React compares against), and the log of outgoing calls. */
  datatype PageState = PageState(
    form: Form,
    formErrors: ErrorRecord,
    isFormValid: bool,
    openUserInputDialog: bool,
    transactionSubmit: bool,
    effectSeen: Option<string>,
    calls: seq<Call>)

  /** The state once mounted: the effect has run once on the store's current result, and
      since nothing was submitted yet it did not navigate. */
  function Init(result: StoreResult): PageState {
    PageState(
      Form(Text(SELECT_CATEGORY), Text(SELECT_TYPE), Text(""), Zero),
      [(Category, ""), (Type, ""), (Detail, ""), (Amount, "")],
      true, false, false, result.serialized, [])
  }

  /** The list of the error dialog when it is rendered; the form is always displayed. */
  function ErrorDialog(s: PageState): (d: Option<seq<string>>)
    ensures d.Some? <==> !s.isFormValid && s.openUserInputDialog
    ensures d.Some? ==> d.value == Messages(s.formErrors)
  {
    if !s.isFormValid && s.openUserInputDialog then Some(Messages(s.formErrors)) else None
  }

  /** `handleChange(name, value)`: only the named field changes, nothing is validated. */
  function ChangeStep(s: PageState, name: Field, value: string): (r: PageState)
    ensures Get(r.form, name) == Text(value)
    ensures forall k :: k != name ==> Get(r.form, k) == Get(s.form, k)
    ensures r.formErrors == s.formErrors && r.isFormValid == s.isFormValid
    ensures r.openUserInputDialog == s.openUserInputDialog
    ensures r.transactionSubmit == s.transactionSubmit
    ensures r.effectSeen == s.effectSeen && r.calls == s.calls
  {
    s.(form := Put(s.form, name, value))
  }

  /** The state writes of `isFormTransactionValid`. */
  function Validated(s: PageState): PageState {
    var errors := Validate(s.form);
    s.(formErrors := errors, isFormValid := |Keys(errors)| == 0)
  }

  /** `handleSubmit`: validate; if valid and the token is truthy, dispatch the form with the
      token, then mark it submitted unless the dispatch threw; if invalid, flip the
      error-dialog flag. The submit never navigates by itself. */
  function SubmitStep(s: PageState, token: Option<string>, outcome: DispatchOutcome): (r: PageState)
    ensures r.form == s.form && r.effectSeen == s.effectSeen
    ensures r.formErrors == Validate(s.form)
    ensures r.isFormValid <==> Validate(s.form) == []
    ensures r.isFormValid && Truthy(token) && outcome == Returns ==>
      r.calls == s.calls + [AddTransaction(s.form, token.value)] && r.transactionSubmit
    ensures r.isFormValid && Truthy(token) && outcome == Throws ==>
      r.calls == s.calls + [AddTransaction(s.form, token.value)] &&
      r.transactionSubmit == s.transactionSubmit
    ensures r.isFormValid && !Truthy(token) ==>
      r.calls == s.calls && r.transactionSubmit == s.transactionSubmit
    ensures r.isFormValid ==> r.openUserInputDialog == s.openUserInputDialog
    ensures !r.isFormValid ==>
      r.calls == s.calls && r.transactionSubmit == s.transactionSubmit &&
      r.openUserInputDialog == !s.openUserInputDialog
  {
    var v := Validated(s);
    if !v.isFormValid then v.(openUserInputDialog := !s.openUserInputDialog)
    else if !Truthy(token) then v
    else if outcome == Throws then v.(calls := s.calls + [AddTransaction(s.form, token.value)])
    else v.(transactionSubmit := true, calls := s.calls + [AddTransaction(s.form, token.value)])
  }

  /** The OK button and the close control of the error dialog: both flip the flag. */
  function OkStep(s: PageState): (r: PageState)
    ensures r.openUserInputDialog == !s.openUserInputDialog
    ensures r.form == s.form && r.formErrors == s.formErrors && r.isFormValid == s.isFormValid
    ensures r.transactionSubmit == s.transactionSubmit
    ensures r.effectSeen == s.effectSeen && r.calls == s.calls
  {
    s.(openUserInputDialog := !s.openUserInputDialog)
  }

  /** A render after the store published `result`: the effect runs only when the JSON text
      differs from the one it last ran on, and then navigates only when the result is truthy
      and a transaction was submitted. */
  function ResultStep(s: PageState, result: StoreResult): (r: PageState)
    ensures r.form == s.form && r.formErrors == s.formErrors && r.isFormValid == s.isFormValid
    ensures r.openUserInputDialog == s.openUserInputDialog
    ensures r.transactionSubmit == s.transactionSubmit
    ensures r.effectSeen == result.serialized
    ensures result.serialized != s.effectSeen && result.truthy && s.transactionSubmit ==>
      r.calls == s.calls + [Navigate(Transactions)]
    ensures !(result.serialized != s.effectSeen && result.truthy && s.transactionSubmit) ==>
      r.calls == s.calls
  {
    if result.serialized == s.effectSeen then s
    else if result.truthy && s.transactionSubmit then
      s.(effectSeen := result.serialized, calls := s.calls + [Navigate(Transactions)])
    else s.(effectSeen := result.serialized)
  }

  datatype Event =
    | Change(name: Field, value: string)
    | Submit(token: Option<string>, outcome: DispatchOutcome)
    | Ok
    | Result(result: StoreResult)

  function Step(s: PageState, ev: Event): PageState {
    match ev
    case Change(name, value) => ChangeStep(s, name, value)
    case Submit(token, outcome) => SubmitStep(s, token, outcome)
    case Ok => OkStep(s)
    case Result(result) => ResultStep(s, result)
  }

  function Run(s: PageState, evs: seq<Event>): PageState
    decreases |evs|
  {
    if evs == [] then s else Run(Step(s, evs[0]), evs[1..])
  }

  // ---------------------------------------------------------------------------
  // Properties
  // ---------------------------------------------------------------------------

  /** OK twice restores the state. */
  lemma OkTwiceRestores(s: PageState)
    ensures OkStep(OkStep(s)) == s
  {
  }

  /** After a submit the error dialog is on screen exactly when the form was invalid and the
      flag was down. */
  lemma ErrorDialogAfterSubmit(s: PageState, token: Option<string>, outcome: DispatchOutcome)
    ensures ErrorDialog(SubmitStep(s, token, outcome)).Some? <==>
      Validate(s.form) != [] && !s.openUserInputDialog
    ensures ErrorDialog(SubmitStep(s, token, outcome)).Some? ==>
      ErrorDialog(SubmitStep(s, token, outcome)).value == Messages(Validate(s.form))
  {
  }

  /** Submitting the untouched page: the amount is still the number 0, so all four
      messages are listed. */
  lemma SubmitOnMount(result: StoreResult, token: Option<string>, outcome: DispatchOutcome)
    ensures var r := SubmitStep(Init(result), token, outcome);
      r.calls == [] &&
      ErrorDialog(r) == Some([TYPE_REQUIRED, CATEGORY_REQUIRED, DETAIL_REQUIRED, AMOUNT_REQUIRED])
  {
    var f := Init(result).form;
    MessagesOfFour(FailsOn(f), Message, CHECK_ORDER);
    assert Messages(Validate(f)) == [TYPE_REQUIRED, CATEGORY_REQUIRED, DETAIL_REQUIRED, AMOUNT_REQUIRED];
    var r := SubmitStep(Init(result), token, outcome);
    assert !r.isFormValid && r.openUserInputDialog;
  }

  /** A draft valid except for the untouched amount lists exactly the amount message. */
  lemma ZeroAmountAlone(s: PageState, token: Option<string>, outcome: DispatchOutcome)
    requires s.form.transactionType != Text(SELECT_TYPE) && s.form.category != Text(SELECT_CATEGORY)
    requires s.form.detail != Text("") && s.form.amount == Zero
    requires !s.openUserInputDialog
    ensures var r := SubmitStep(s, token, outcome);
      r.calls == s.calls && ErrorDialog(r) == Some([AMOUNT_REQUIRED])
  {
    MessagesOfFour(FailsOn(s.form), Message, CHECK_ORDER);
    assert Messages(Validate(s.form)) == [AMOUNT_REQUIRED];
  }

  /** A valid submit without a truthy token is a silent no-op apart from the validation slots. */
  lemma ValidSubmitWithoutToken(s: PageState, token: Option<string>, outcome: DispatchOutcome)
    requires Validate(s.form) == [] && !Truthy(token)
    ensures SubmitStep(s, token, outcome) == s.(formErrors := [], isFormValid := true)
  {
  }

  /** Filling in every field and submitting with a token dispatches the draft once and shows
      no error; the navigation waits for the store to publish a new truthy result. */
  lemma FillSubmitNavigate(result: StoreResult, token: string, reply: string)
    requires token != "" && result.serialized != Some(reply)
    ensures var s := Run(Init(result), [Change(Type, "Expense"), Change(Category, "Food"),
      Change(Detail, "Lunch"), Change(Amount, "12"), Submit(Some(token), Returns)]);
      var draft := Form(Text("Food"), Text("Expense"), Text("Lunch"), Text("12"));
      s.calls == [AddTransaction(draft, token)] && ErrorDialog(s) == None &&
      ResultStep(s, StoreResult(Some(reply), true)).calls ==
        [AddTransaction(draft, token), Navigate(Transactions)]
  {
    var draft := Form(Text("Food"), Text("Expense"), Text("Lunch"), Text("12"));
    ValidIff(draft);
    var s0 := Init(result);
    var s1 := ChangeStep(s0, Type, "Expense");
    var s2 := ChangeStep(s1, Category, "Food");
    var s3 := ChangeStep(s2, Detail, "Lunch");
    var s4 := ChangeStep(s3, Amount, "12");
    assert s4.form == draft;
    var s5 := SubmitStep(s4, Some(token), Returns);
    var evs := [Change(Type, "Expense"), Change(Category, "Food"),
      Change(Detail, "Lunch"), Change(Amount, "12"), Submit(Some(token), Returns)];
    assert Run(s5, evs[5..]) == s5;
    assert Run(s4, evs[4..]) == s5;
    assert Run(s3, evs[3..]) == s5;
    assert Run(s2, evs[2..]) == s5;
    assert Run(s1, evs[1..]) == s5;
  }

  /** A result whose JSON text is unchanged does nothing, however truthy it is. */
  lemma UnchangedResultIsIgnored(s: PageState, result: StoreResult)
    requires result.serialized == s.effectSeen
    ensures ResultStep(s, result) == s
  {
  }

  /** Every dispatched form passed validation and went out with a non-empty token. */
  predicate OnlyValidDispatched(s: PageState) {
    forall i :: 0 <= i < |s.calls| && s.calls[i].AddTransaction? ==>
      Validate(s.calls[i].form) == [] && s.calls[i].token != ""
  }

  /** Some transaction has been dispatched. */
  predicate Dispatched(calls: seq<Call>) {
    exists j :: 0 <= j < |calls| && calls[j].AddTransaction?
  }

  /** Every navigation comes after a dispatch. */
  predicate NavigatesAfterDispatch(s: PageState) {
    forall i :: 0 <= i < |s.calls| && s.calls[i].Navigate? ==> Dispatched(s.calls[..i])
  }

  /** The submitted flag is only up once a transaction was dispatched. */
  predicate SubmittedMeansDispatched(s: PageState) {
    s.transactionSubmit ==> Dispatched(s.calls)
  }

  /** Whenever the last validation failed, the record holds at least one entry. */
  predicate ErrorsMeaningful(s: PageState) {
    !s.isFormValid ==> s.formErrors != []
  }

  predicate Inv(s: PageState) {
    OnlyValidDispatched(s) && NavigatesAfterDispatch(s) && SubmittedMeansDispatched(s) &&
    ErrorsMeaningful(s)
  }

  lemma InitInv(result: StoreResult)
    ensures Inv(Init(result))
  {
  }

  /** Appending calls keeps an earlier dispatch in the log. */
  lemma DispatchedAppend(calls: seq<Call>, more: seq<Call>)
    requires Dispatched(calls)
    ensures Dispatched(calls + more)
  {
    var j :| 0 <= j < |calls| && calls[j].AddTransaction?;
    assert (calls + more)[j] == calls[j];
  }

  lemma StepInv(s: PageState, ev: Event)
    requires Inv(s)
    ensures Inv(Step(s, ev))
  {
    var r := Step(s, ev);
    if ev.Submit? {
      forall i | 0 <= i < |r.calls| && r.calls[i].AddTransaction?
        ensures Validate(r.calls[i].form) == [] && r.calls[i].token != ""
      {
        if i >= |s.calls| {
          assert r.calls[i] == AddTransaction(s.form, ev.token.value);
        }
      }
      forall i | 0 <= i < |r.calls| && r.calls[i].Navigate?
        ensures Dispatched(r.calls[..i])
      {
        assert i < |s.calls| && r.calls[..i] == s.calls[..i];
      }
      if r.calls != s.calls {
        var n := |s.calls|;
        assert r.calls[n].AddTransaction?;
      }
    } else if ev.Result? && r.calls != s.calls {
      var n := |s.calls|;
      assert r.calls == s.calls + [Navigate(Transactions)];
      DispatchedAppend(s.calls, [Navigate(Transactions)]);
      forall i | 0 <= i < |r.calls| && r.calls[i].Navigate?
        ensures Dispatched(r.calls[..i])
      {
        if i < n {
          assert r.calls[..i] == s.calls[..i];
        } else {
          assert r.calls[..i] == s.calls;
        }
      }
    }
  }

  lemma {:induction false} RunInv(s: PageState, evs: seq<Event>)
    requires Inv(s)
    ensures Inv(Run(s, evs))
    decreases |evs|
  {
    if evs != [] {
      StepInv(s, evs[0]);
      RunInv(Step(s, evs[0]), evs[1..]);
    }
  }

  /** From mount on, whatever the events: no form that fails validation is dispatched, none
      without a token, and the page never navigates before it has dispatched a
      transaction. */
  lemma {:induction false} ReachableStatesAreSound(result: StoreResult, evs: seq<Event>)
    ensures var s := Run(Init(result), evs);
      OnlyValidDispatched(s) && NavigatesAfterDispatch(s)
  {
    InitInv(result);
    RunInv(Init(result), evs);
  }

  /** No submit in `evs` both has a truthy token and returns normally. */
  predicate NoSuccessfulSubmit(evs: seq<Event>) {
    forall i :: 0 <= i < |evs| && evs[i].Submit? ==>
      !Truthy(evs[i].token) || evs[i].outcome == Throws
  }

  /** Without a submit that carries a token and dispatches without throwing, the submitted
      flag stays down and the page never navigates. */
  lemma {:induction false} NoNavigationWithoutSuccessfulSubmit(s: PageState, evs: seq<Event>)
    requires !s.transactionSubmit
    requires forall i :: 0 <= i < |s.calls| ==> !s.calls[i].Navigate?
    requires NoSuccessfulSubmit(evs)
    ensures !Run(s, evs).transactionSubmit
    ensures forall i :: 0 <= i < |Run(s, evs).calls| ==> !Run(s, evs).calls[i].Navigate?
    decreases |evs|
  {
    if evs != [] {
      var r := Step(s, evs[0]);
      assert forall i :: 0 <= i < |r.calls| ==> !r.calls[i].Navigate? by {
        forall i | 0 <= i < |r.calls| ensures !r.calls[i].Navigate? {
          if i >= |s.calls| {
            assert evs[0].Submit?;
          }
        }
      }
      assert NoSuccessfulSubmit(evs[1..]) by {
        forall i | 0 <= i < |evs[1..]| && evs[1..][i].Submit?
          ensures !Truthy(evs[1..][i].token) || evs[1..][i].outcome == Throws
        {
          assert evs[1..][i] == evs[i + 1];
        }
      }
      NoNavigationWithoutSuccessfulSubmit(r, evs[1..]);
    }
  }

  /** Once the amount has been edited it stays text, so from then on no submit can report it. */
  lemma {:induction false} AmountStaysEdited(s: PageState, evs: seq<Event>)
    requires s.form.amount.Text?
    ensures Run(s, evs).form.amount.Text?
    ensures Amount !in Keys(Validate(Run(s, evs).form))
    decreases |evs|
  {
    if evs != [] {
      AmountStaysEdited(Step(s, evs[0]), evs[1..]);
    }
  }

  // ---------------------------------------------------------------------------
  // The page as the source holds it: state slots rewritten by the handlers
  // ---------------------------------------------------------------------------

  class Page {
    var form: Form
    var formErrors: ErrorRecord
    var isFormValid: bool
    var openUserInputDialog: bool
    var transactionSubmit: bool
    /** The JSON text of the store result on the last render, as the effect saw it. */
    var effectSeen: Option<string>
    /** The calls made so far into `addTransaction` and `navigate`. */
    var calls: seq<Call>

    function State(): PageState
      reads this
    {
      PageState(form, formErrors, isFormValid, openUserInputDialog, transactionSubmit, effectSeen, calls)
    }

    /** Mounting: the initial slots, then the effect's first run on the current result. */
    constructor (result: StoreResult)
      ensures State() == Init(result)
    {
      form := Form(Text(SELECT_CATEGORY), Text(SELECT_TYPE), Text(""), Zero);
      formErrors := [(Category, ""), (Type, ""), (Detail, ""), (Amount, "")];
      isFormValid := true;
      openUserInputDialog := false;
      transactionSubmit := false;
      effectSeen := result.serialized;
      calls := [];
    }

    method HandleChange(name: Field, value: string)
      modifies this
      ensures State() == ChangeStep(old(State()), name, value)
    {
      form := Put(form, name, value);
    }

    /** Fills a fresh record key by key, then stores it and whether it is empty. */
    method IsFormTransactionValid() returns (valid: bool)
      modifies this
      ensures State() == Validated(old(State()))
      ensures valid == isFormValid
      ensures valid <==> Validate(form) == []
    {
      ValidateAsAssigned(form);
      ghost var t := if form.transactionType == Text(SELECT_TYPE) then [(Type, TYPE_REQUIRED)] else [];
      ghost var c := if form.category == Text(SELECT_CATEGORY) then [(Category, CATEGORY_REQUIRED)] else [];
      ghost var d := if form.detail == Text("") then [(Detail, DETAIL_REQUIRED)] else [];
      var newErrors: ErrorRecord := [];
      if form.transactionType == Text(SELECT_TYPE) {
        newErrors := newErrors + [(Type, TYPE_REQUIRED)];
      }
      assert newErrors == t;
      if form.category == Text(SELECT_CATEGORY) {
        newErrors := newErrors + [(Category, CATEGORY_REQUIRED)];
      }
      assert newErrors == t + c;
      if form.detail == Text("") {
        newErrors := newErrors + [(Detail, DETAIL_REQUIRED)];
      }
      assert newErrors == t + c + d;
      if form.amount == Zero {
        newErrors := newErrors + [(Amount, AMOUNT_REQUIRED)];
      }
      assert newErrors == Validate(form);
      formErrors := newErrors;
      isFormValid := |Keys(newErrors)| == 0;
      valid := |Keys(newErrors)| == 0;
    }

    /** `token` is what `localStorage.getItem("token")` gave on this render; `dispatch`
        stands for the outcome of `addTransaction(form, token)`. */
    method HandleSubmit(token: Option<string>, dispatch: DispatchOutcome)
      modifies this
      ensures State() == SubmitStep(old(State()), token, dispatch)
    {
      var wasOpen := openUserInputDialog;
      var valid := IsFormTransactionValid();
      if valid {
        if Truthy(token) {
          calls := calls + [AddTransaction(form, token.value)];
          if dispatch == Returns {
            transactionSubmit := true;
          }
        }
      } else {
        openUserInputDialog := !wasOpen;
      }
    }

    /** OK, or the close control of the error dialog. */
    method ToggleUserInputDialog()
      modifies this
      ensures State() == OkStep(old(State()))
    {
      openUserInputDialog := !openUserInputDialog;
    }

    /** The navigation effect on a render whose store result is `result`. */
    method NavigationEffect(result: StoreResult)
      modifies this
      ensures State() == ResultStep(old(State()), result)
    {
      if result.serialized != effectSeen {
        effectSeen := result.serialized;
        if result.truthy && transactionSubmit {
          calls := calls + [Navigate(Transactions)];
        }
      }
    }
  }
}
