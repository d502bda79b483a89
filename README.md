# Transaction entry of FinanceTracking, modelled in Dafny

FinanceTracking is a personal finance tracker with a React front end. A user enters an
income or expense transaction on one of two surfaces that share the same logic:

- **the modal "Add New Transaction" dialog**
  (`src/components/Transactions/AddTransactionDialog.tsx`);
- **the standalone "Add Transaction" page** (`src/pages/AddTransaction.tsx`).

Each surface holds five state slots: `form`, `formErrors`, `isFormValid`,
`openUserInputDialog` and `transactionSubmit`. Its handlers rewrite those slots:

- a field change replaces one field of the draft;
- a submit validates the draft, then either dispatches it to the store or flips the flag of
  the nested "Incomplete Request" error dialog;
- the OK and close controls of that error dialog flip the flag back.

The dialog also has a Cancel button, which calls its parent's `toggleDialog`. The page has
no Cancel button. Instead it has a navigation effect: when the store's
`addTransactionResult` changes (compared as JSON text) while the result is truthy and a
transaction was submitted, the page navigates to the transaction list.

How the model is built:

- **Modules.** `JsRuntime` holds the JavaScript semantics the components rely on: `parseInt`
  per section 19.2.5 of ECMA-262, token truthiness, and the insertion order of
  `Object.keys` / `Object.entries`. `Validation` is the validator shape both surfaces share:
  a fresh record filled key by key. `TransactionRules` holds the placeholder and message
  strings.
- **One module per surface.** `AddTransactionDialog` and `AddTransactionPage` each give the
  slots as a state datatype, with one step function per handler. Each also has a class
  (`Component`, `Page`) whose fields are the slots and whose methods perform the handlers'
  writes, each method proved against its step function.
- **Traces.** Event sequences (`Run`) carry the trace invariants.
- **Outside calls.** They are recorded in a call log inside the state: `addTransaction`,
  the parent's `toggleDialog`, and `navigate`. The token, today's date, the outcome of the
  dispatch (returns or throws) and the store's result are inputs.

Points where the code decides and the model follows it:

- **Non-numeric amount in the dialog.** The system's written description says a
  non-numeric amount counts as 0 and fails the amount rule. In the code, `parseInt` of such
  text is NaN, and `NaN === 0` is false, so the dialog accepts it. That includes the empty
  amount the dialog starts with. Only text that `parseInt` reads as zero fails, such as
  "0", "-0", "00" or "0.5".
- **Four messages only on the page.** The description's example of submitting an untouched
  form with four messages holds on the page, where the amount starts as the number 0. On
  the dialog only three messages are listed (`AddTransactionDialog.SubmitOnMount`,
  `AddTransactionPage.SubmitOnMount`).
- **Edited amount on the page.** The amount check is `form.amount === 0`, and every edit
  stores a string. So once the field has been edited, even to "0" or "", no amount error
  can arise (`AddTransactionPage.EditedAmountNeverFails`, `AmountStaysEdited`).
- **A dispatch that throws.** The `addTransaction` call still appears in the call log,
  because it was made. What the throw skips is the write of `transactionSubmit`, and on the
  dialog the call to `toggleDialog`.

## Model

| member | source | states |
|---|---|---|
| JsRuntime.ParseInt | src/components/Transactions/AddTransactionDialog.tsx:89 | `parseInt(s)` is NaN exactly when no digit of the chosen radix follows the white space, the sign and a 0x prefix |
| JsRuntime.ParsesToZeroIff | src/components/Transactions/AddTransactionDialog.tsx:89 | `parseInt(s) === 0` holds exactly when, after white space, a sign and a 0x prefix, a non-empty run of '0' comes that no further digit follows |
| JsRuntime.DigitsValueZeroIff | src/components/Transactions/AddTransactionDialog.tsx:89 | a digit string is worth 0 exactly when all its digits are '0' |
| JsRuntime.ParseIntOfEmptyIsNaN | src/components/Transactions/AddTransactionDialog.tsx:38 | the initial empty amount parses to NaN, so it is not 0 |
| JsRuntime.ParseIntOfZeros | src/components/Transactions/AddTransactionDialog.tsx:89 | "0", "-0" and "0.5" all parse to 0 |
| JsRuntime.Keys | src/components/Transactions/AddTransactionDialog.tsx:94-96 | `Object.keys` lists the keys of the record in insertion order, one per entry |
| JsRuntime.Messages | src/components/Transactions/AddTransactionDialog.tsx:178-180 | `Object.entries(...).map` lists the values in insertion order, one per entry |
| JsRuntime.MessagesAppend | src/components/Transactions/AddTransactionDialog.tsx:178-180 | the listed values of a record grown by later assignments are the earlier list followed by the new values |
| Validation.ErrorsOverSound | src/components/Transactions/AddTransactionDialog.tsx:76-91 | every entry of a record filled by the checks is a checked key that fails, holding its message |
| Validation.ErrorsOverComplete | src/components/Transactions/AddTransactionDialog.tsx:76-91 | every checked key that fails gets an entry |
| Validation.ErrorsOverOrdered | src/components/Transactions/AddTransactionDialog.tsx:76-91 | entries come in checking order, so no key appears twice |
| Validation.ErrorsOverFour | src/components/Transactions/AddTransactionDialog.tsx:78-91 | four checks give the four conditional entries, concatenated in order |
| Validation.MessagesOfFour | src/components/Transactions/AddTransactionDialog.tsx:178-180 | the listed messages of four checks are those of the failing keys, in order |
| AddTransactionDialog.Put | src/components/Transactions/AddTransactionDialog.tsx:53-55 | the named field takes the new value, and every other field keeps its value |
| AddTransactionDialog.Validate | src/components/Transactions/AddTransactionDialog.tsx:75-91 | the record has an entry exactly for each failing field, never the date, each holding its field's message, in the order type, category, detail, amount |
| AddTransactionDialog.ValidateByField | src/components/Transactions/AddTransactionDialog.tsx:13-19 | type fails iff "Select type", category iff "Select category", detail iff "", amount iff `parseInt(amount) === 0`, and the declared date key never appears |
| AddTransactionDialog.ValidIff | src/components/Transactions/AddTransactionDialog.tsx:94-96 | the record is empty exactly when all four rules pass |
| AddTransactionDialog.ValidateAsAssigned | src/components/Transactions/AddTransactionDialog.tsx:76-91 | the record equals the four conditional assignments, in source order |
| AddTransactionDialog.ListedMessagesInOrder | src/components/Transactions/AddTransactionDialog.tsx:178-180 | the error dialog lists the messages of the failing fields, in the order type, category, detail, amount |
| AddTransactionDialog.Render | src/components/Transactions/AddTransactionDialog.tsx:105-165 | the form panel is hidden exactly when the error dialog shows, namely when `!isFormValid && openUserInputDialog`, and the dialog lists the record's messages |
| AddTransactionDialog.ChangeStep | src/components/Transactions/AddTransactionDialog.tsx:53-55 | a change replaces only the named field and validates nothing |
| AddTransactionDialog.SubmitStep | src/components/Transactions/AddTransactionDialog.tsx:57-73 | the record is replaced and validity set; a valid submit with a token dispatches the form once and then, unless the dispatch throws, sets `transactionSubmit` and calls `toggleDialog` once; without a token nothing is called; an invalid submit calls nothing and flips the flag |
| AddTransactionDialog.OkStep | src/components/Transactions/AddTransactionDialog.tsx:186-192 | OK flips the error-dialog flag and changes nothing else |
| AddTransactionDialog.CancelStep | src/components/Transactions/AddTransactionDialog.tsx:154-156 | Cancel calls `toggleDialog` once and changes no slot |
| AddTransactionDialog.OkTwiceRestores | src/components/Transactions/AddTransactionDialog.tsx:168-169 | two flips restore the state |
| AddTransactionDialog.InvalidSubmitThenOk | src/components/Transactions/AddTransactionDialog.tsx:70-72 | an invalid submit followed by OK leaves the form, the flag and the call log as they were |
| AddTransactionDialog.ErrorDialogAfterSubmit | src/components/Transactions/AddTransactionDialog.tsx:165 | after a submit the error dialog shows exactly when the form was invalid and the flag was down, listing the new record's messages |
| AddTransactionDialog.InitInv | src/components/Transactions/AddTransactionDialog.tsx:33-51 | the mount state satisfies the invariant, even though its record holds five blank entries |
| AddTransactionDialog.StepInv | src/components/Transactions/AddTransactionDialog.tsx:53-97 | every handler keeps the invariant: dispatched forms are valid, and a failed validation leaves real messages |
| AddTransactionDialog.RunInv | src/components/Transactions/AddTransactionDialog.tsx:53-97 | any event sequence keeps the invariant |
| AddTransactionDialog.ReachableStatesAreSound | src/components/Transactions/AddTransactionDialog.tsx:60-72 | after any events from mount, every dispatched form is valid, and a visible error dialog lists at least one message, each a "required" message |
| AddTransactionDialog.SubmitOnMount | src/components/Transactions/AddTransactionDialog.tsx:33-39 | submitting the untouched dialog dispatches nothing and lists the type, category and detail messages only |
| AddTransactionDialog.ZeroAmountAlone | src/components/Transactions/AddTransactionDialog.tsx:89-91 | with the other fields filled in, an amount of "0" lists exactly the amount message |
| AddTransactionDialog.ValidSubmitWithoutToken | src/components/Transactions/AddTransactionDialog.tsx:62 | a valid submit without a token only records the validation |
| AddTransactionDialog.Component.constructor | src/components/Transactions/AddTransactionDialog.tsx:33-51 | mounting sets the initial slots |
| AddTransactionDialog.Component.HandleTransactionChange | src/components/Transactions/AddTransactionDialog.tsx:53-55 | the new state is `ChangeStep` of the old |
| AddTransactionDialog.Component.IsFormTransactionValid | src/components/Transactions/AddTransactionDialog.tsx:75-97 | filling the record key by key stores `Validate(form)` and returns whether it is empty, also stored in `isFormValid` |
| AddTransactionDialog.Component.ParseIntIsZero | src/components/Transactions/AddTransactionDialog.tsx:89 | decides `parseInt(amount) === 0` |
| AddTransactionDialog.Component.HandleSubmit | src/components/Transactions/AddTransactionDialog.tsx:57-73 | the new state is `SubmitStep` of the old |
| AddTransactionDialog.Component.ToggleUserInputDialog | src/components/Transactions/AddTransactionDialog.tsx:189 | the new state is `OkStep` of the old |
| AddTransactionDialog.Component.CloseDialog | src/components/Transactions/AddTransactionDialog.tsx:154 | the new state is `CancelStep` of the old |
| AddTransactionPage.Put | src/pages/AddTransaction.tsx:49-51 | the named slot now holds the reported string, and every other slot keeps its value |
| AddTransactionPage.Validate | src/pages/AddTransaction.tsx:70-86 | the record has an entry exactly for each failing field, each holding its field's message, in the order type, category, detail, amount |
| AddTransactionPage.ValidateByField | src/pages/AddTransaction.tsx:73-86 | type, category and detail fail on the placeholder or empty strings; the amount fails only while it is the number 0 |
| AddTransactionPage.ValidIff | src/pages/AddTransaction.tsx:89-91 | the record is empty exactly when all four rules pass |
| AddTransactionPage.EditedAmountNeverFails | src/pages/AddTransaction.tsx:84-86 | after an edit of the amount to any text, including "0", no amount error arises |
| AddTransactionPage.SameRulesAsDialog | src/pages/AddTransaction.tsx:73-82 | on the same strings the type, category and detail rules decide as the dialog's do, with the same messages |
| AddTransactionPage.ValidateAsAssigned | src/pages/AddTransaction.tsx:71-86 | the record equals the four conditional assignments, in source order |
| AddTransactionPage.ListedMessagesInOrder | src/pages/AddTransaction.tsx:152-154 | the error dialog lists the messages of the failing fields, in the order type, category, detail, amount |
| AddTransactionPage.ErrorDialog | src/pages/AddTransaction.tsx:141 | the error dialog shows exactly when `!isFormValid && openUserInputDialog`, listing the record's messages |
| AddTransactionPage.ChangeStep | src/pages/AddTransaction.tsx:49-51 | a change replaces only the named slot and validates nothing |
| AddTransactionPage.SubmitStep | src/pages/AddTransaction.tsx:53-68 | the record is replaced and validity set; a valid submit with a token dispatches the form with the token once and, unless the dispatch throws, sets `transactionSubmit`; it never navigates; an invalid submit calls nothing and flips the flag |
| AddTransactionPage.OkStep | src/pages/AddTransaction.tsx:160-167 | OK flips the error-dialog flag and changes nothing else |
| AddTransactionPage.ResultStep | src/pages/AddTransaction.tsx:94-98 | the effect runs only on a changed JSON text of the store result, and navigates once exactly when that result is truthy and a transaction was submitted |
| AddTransactionPage.OkTwiceRestores | src/pages/AddTransaction.tsx:144 | two flips restore the state |
| AddTransactionPage.ErrorDialogAfterSubmit | src/pages/AddTransaction.tsx:65-67 | after a submit the error dialog shows exactly when the form was invalid and the flag was down |
| AddTransactionPage.SubmitOnMount | src/pages/AddTransaction.tsx:32-37 | submitting the untouched page dispatches nothing and lists all four messages |
| AddTransactionPage.ZeroAmountAlone | src/pages/AddTransaction.tsx:84-86 | with the other fields filled in and the amount untouched, exactly the amount message is listed |
| AddTransactionPage.ValidSubmitWithoutToken | src/pages/AddTransaction.tsx:58 | a valid submit without a token only records the validation |
| AddTransactionPage.FillSubmitNavigate | src/pages/AddTransaction.tsx:53-98 | filling in every field and submitting with a token dispatches that draft once with no error shown, and a new truthy store result then navigates once |
| AddTransactionPage.UnchangedResultIsIgnored | src/pages/AddTransaction.tsx:98 | a store result with unchanged JSON text changes nothing |
| AddTransactionPage.InitInv | src/pages/AddTransaction.tsx:32-47 | the mount state satisfies the invariant |
| AddTransactionPage.StepInv | src/pages/AddTransaction.tsx:49-98 | every handler and the effect keep the invariant: dispatched forms are valid and carry a token, `transactionSubmit` implies a dispatch, and each navigation comes after a dispatch |
| AddTransactionPage.RunInv | src/pages/AddTransaction.tsx:49-98 | any event sequence keeps the invariant |
| AddTransactionPage.ReachableStatesAreSound | src/pages/AddTransaction.tsx:56-98 | after any events from mount, every dispatched form is valid and went out with a non-empty token, and the page never navigates before a dispatch |
| AddTransactionPage.NoNavigationWithoutSuccessfulSubmit | src/pages/AddTransaction.tsx:57-64 | if no submit has both a token and a dispatch that returns, `transactionSubmit` stays false and the page never navigates |
| AddTransactionPage.AmountStaysEdited | src/pages/AddTransaction.tsx:49-51 | once the amount has been edited, it stays text through any events, and no amount error arises again |
| AddTransactionPage.Page.constructor | src/pages/AddTransaction.tsx:32-47 | mounting sets the initial slots, and the effect's first run records the current result without navigating |
| AddTransactionPage.Page.HandleChange | src/pages/AddTransaction.tsx:49-51 | the new state is `ChangeStep` of the old |
| AddTransactionPage.Page.IsFormTransactionValid | src/pages/AddTransaction.tsx:70-92 | filling the record key by key stores `Validate(form)` and returns whether it is empty, also stored in `isFormValid` |
| AddTransactionPage.Page.HandleSubmit | src/pages/AddTransaction.tsx:53-68 | the new state is `SubmitStep` of the old |
| AddTransactionPage.Page.ToggleUserInputDialog | src/pages/AddTransaction.tsx:163 | the new state is `OkStep` of the old |
| AddTransactionPage.Page.NavigationEffect | src/pages/AddTransaction.tsx:94-98 | the new state is `ResultStep` of the old |

## Left out

- JSX, CSS classes and the `Dialog`, `Input`, `Dropdown` and `InputDate` widgets are not modelled; only the two visibility conditions and the listed messages are.
- The `min`/`max` date bounds of the date widget are not modelled, because that widget enforces them. The date is an arbitrary string that no rule checks.
- The Redux store is not modelled: `bindActionCreators`, `transactionCreators` and the reducer. `addTransaction` is a logged call whose outcome (returns or throws) is an input, and `addTransactionResult` is an input, given as its JSON text and its truthiness.
- Host I/O and the clock are inputs. `localStorage.getItem("token")` is the `token` parameter of a submit, and today's ISO date is the `today` parameter of the dialog's mount.
- React scheduling is not modelled. State writes are applied in order; no handler reads a slot after writing it, so batching does not change the outcome. The effect is an explicit event carrying the store result of a render.
- The `console.log` in the catch blocks is left out: it is output only.
- The text of `PATH.TRANSACTIONS` is left out: config/Path is not part of this model, so the route is one constant.
- The parent that mounts the dialog and what its `toggleDialog` does are left out. src/App.tsx, src/components/Button.tsx and src/layout/Header.tsx are left out as routing and presentation.
- The contents of `TypeOptions` and `CategoryOptions` are left out: utils/Constant is not part of this model, so options are arbitrary strings.
- JsRuntime.ParseInt: does not round very long numerals to the nearest double. Rounding never turns a non-zero value into 0, so `parseInt(amount) === 0` is unaffected.
- JsRuntime.TrimStart: its contract only states that no leading white space remains and the string does not grow. The lemmas about `parseInt` work from its body.
