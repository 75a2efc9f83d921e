/** The ledger page of `src/pages/Transactions.tsx`: the category filter and
    search over the ledger, the add/edit form with its validation and sign
    rule, and the edit, cancel and delete handlers. */
module TransactionsPage {
  import opened Js
  import opened Api
  import opened Lists
  import TransactionContext

  const Categories: seq<string> := ["All", "Food", "Transport", "Entertainment", "Utilities", "Shopping", "Income", "Other"]

  /** `categories.filter(c => c !== "All")`: the choices of the form's select. */
  function WithoutAll(cs: seq<string>): (r: seq<string>)
    ensures IsSubsequence(r, cs)
    ensures forall c :: c in r <==> c in cs && c != "All"
    ensures forall c :: multiset(r)[c] == (if c != "All" then multiset(cs)[c] else 0)
  {
    if cs == [] then []
    else
      assert cs == [cs[0]] + cs[1..];
      if cs[0] == "All" then WithoutAll(cs[1..])
      else [cs[0]] + WithoutAll(cs[1..])
  }

  /** A list without "All" loses nothing to `WithoutAll`. */
  lemma {:induction false} WithoutAllKeepsOthers(cs: seq<string>)
    requires "All" !in cs
    ensures WithoutAll(cs) == cs
  {
    if cs != [] {
      WithoutAllKeepsOthers(cs[1..]);
    }
  }

  /** The form's select offers every entry of the filter bar after "All", in
      the same order, and the reset form's "Food" is one of them. */
  lemma FormChoices()
    ensures WithoutAll(Categories) == Categories[1..]
    ensures "Food" in WithoutAll(Categories)
  {
    assert Categories[0] == "All";
    WithoutAllKeepsOthers(Categories[1..]);
    assert Categories[1..][0] == "Food";
  }

  // ---------------------------------------------------------------------------
  // Filter and search
  // ---------------------------------------------------------------------------

  predicate MatchesCategory(t: Transaction, filter: string) {
    filter == "All" || t.category == filter
  }

  /** The lower-cased name includes the lower-cased search string. */
  predicate MatchesSearch(t: Transaction, search: string) {
    Includes(ToLowerCase(t.name), ToLowerCase(search))
  }

  function FilterByCategory(ts: seq<Transaction>, filter: string): (r: seq<Transaction>)
    ensures IsSubsequence(r, ts)
    ensures forall t :: t in r <==> t in ts && MatchesCategory(t, filter)
    ensures forall t :: multiset(r)[t] == (if MatchesCategory(t, filter) then multiset(ts)[t] else 0)
  {
    if ts == [] then []
    else
      assert ts == [ts[0]] + ts[1..];
      if MatchesCategory(ts[0], filter) then [ts[0]] + FilterByCategory(ts[1..], filter)
      else FilterByCategory(ts[1..], filter)
  }

  function FilterBySearch(ts: seq<Transaction>, search: string): (r: seq<Transaction>)
    ensures IsSubsequence(r, ts)
    ensures forall t :: t in r <==> t in ts && MatchesSearch(t, search)
    ensures forall t :: multiset(r)[t] == (if MatchesSearch(t, search) then multiset(ts)[t] else 0)
  {
    if ts == [] then []
    else
      assert ts == [ts[0]] + ts[1..];
      if MatchesSearch(ts[0], search) then [ts[0]] + FilterBySearch(ts[1..], search)
      else FilterBySearch(ts[1..], search)
  }

  /** `filteredTransactions`: the category filter, then the search. */
  function FilteredTransactions(ts: seq<Transaction>, filter: string, search: string): (r: seq<Transaction>)
    ensures IsSubsequence(r, ts)
    ensures forall t :: t in r <==> t in ts && MatchesCategory(t, filter) && MatchesSearch(t, search)
    ensures forall t :: multiset(r)[t] == (if MatchesCategory(t, filter) && MatchesSearch(t, search) then multiset(ts)[t] else 0)
    ensures |r| <= |ts|
  {
    var byCategory := FilterByCategory(ts, filter);
    var r := FilterBySearch(byCategory, search);
    SubsequenceTransitive(r, byCategory, ts);
    SubsequenceElements(r, ts);
    r
  }

  /** With the filter "All" only the search applies. */
  lemma {:induction false} FilterAllKeepsEverything(ts: seq<Transaction>)
    ensures FilterByCategory(ts, "All") == ts
  {
    if ts != [] {
      FilterAllKeepsEverything(ts[1..]);
    }
  }

  /** An empty search keeps every transaction. */
  lemma {:induction false} EmptySearchKeepsEverything(ts: seq<Transaction>)
    ensures FilterBySearch(ts, "") == ts
  {
    if ts != [] {
      IncludesEmpty(ToLowerCase(ts[0].name));
      assert ToLowerCase("") == "";
      EmptySearchKeepsEverything(ts[1..]);
    }
  }

  // ---------------------------------------------------------------------------
  // The form, its validation and the sign rule
  // ---------------------------------------------------------------------------

  /** `newTransaction`: the form's fields as the user typed them. */
  datatype TxForm = TxForm(name: string, amount: string, date: string, category: string)

  /** The `formErrors` object: one optional message per field. */
  datatype Errors = Errors(name: Option<string>, amount: Option<string>, category: Option<string>) {
    /** `Object.keys(errors).length === 0`. */
    predicate IsEmpty() {
      name.None? && amount.None? && category.None?
    }
  }

  const NoErrors := Errors(None, None, None)

  /** The ledger's state as the page sees it: list, `loading`, `error`, and
      the browser's token and location. */
  datatype StoreSnapshot = StoreSnapshot(transactions: seq<Transaction>, loading: bool, error: Option<string>,
                                         token: Option<string>, location: string)

  /** The payload handed to `addTransaction` or `updateTransaction`; an
      amount of None is NaN. */
  datatype TxDraft = TxDraft(name: string, amount: Option<real>, date: string, category: string)

  const NameRequired := "Description is required"
  const AmountRequired := "Amount is required"
  const AmountNotNumber := "Amount must be a number"
  const CategoryRequired := "Category is required"

  /** The form's reset state; `today` is `format(new Date(), "yyyy-MM-dd")`.
      Submitted as it is, it asks for a description and an amount. */
  function DefaultForm(today: string): (f: TxForm)
    ensures Validation(f).name == Some(NameRequired)
    ensures Validation(f).amount == Some(AmountRequired)
    ensures Validation(f).category.None?
  {
    TxForm("", "", today, "Food")
  }

  /** The amount check of lines 41-42 as written: `!amount` lets a
      whitespace-only amount through. */
  function AmountErrorAsWritten(amount: string): (e: Option<string>)
    ensures e.Some? <==> amount == "" || ToNumber(amount).None?
    ensures amount == "" ==> e == Some(AmountRequired)
    ensures ToNumber(amount).None? ==> e == Some(AmountNotNumber)
  {
    var required := if amount == "" then Some(AmountRequired) else None;
    if ToNumber(amount).None? then Some(AmountNotNumber) else required
  }

  /** The amount check with a blank amount counted as missing, as the name is:
      "required" for a blank amount, "must be a number" when `Number()` gives NaN. */
  function AmountError(amount: string): (e: Option<string>)
    ensures e.Some? <==> IsBlank(amount) || ToNumber(amount).None?
    ensures IsBlank(amount) ==> e == Some(AmountRequired)
    ensures ToNumber(amount).None? ==> e == Some(AmountNotNumber)
  {
    var required := if Trim(amount) == "" then Some(AmountRequired) else None;
    if ToNumber(amount).None? then Some(AmountNotNumber) else required
  }

  /** As written, a whitespace-only amount passes validation and
      `parseFloat` turns it into NaN, which is then saved. */
  lemma BlankAmountSavesNaN()
    ensures AmountErrorAsWritten(" ") == None
    ensures ParseFloat(" ") == None
    ensures AmountError(" ") == Some(AmountRequired)
  {
    assert IsBlank(" ");
  }

  /** The two checks differ only on whitespace-only amounts. */
  lemma AmountChecksAgreeOffWhitespace(amount: string)
    requires amount == "" || !IsBlank(amount)
    ensures AmountError(amount) == AmountErrorAsWritten(amount)
  {
  }

  /** What `parseFloat` makes of an amount the check as written accepts: NaN
      exactly for a whitespace-only amount, 0 for a `0x`/`0o`/`0b` literal,
      and otherwise the very number `Number()` accepted. */
  lemma ValidAmountParses(amount: string)
    requires AmountErrorAsWritten(amount).None?
    ensures ParseFloat(amount).None? <==> IsBlank(amount)
    ensures NonDecimalLiteral(Trim(amount)).Some? ==> ParseFloat(amount) == Some(0.0)
    ensures NonDecimalLiteral(Trim(amount)).None? && !IsBlank(amount) ==> ParseFloat(amount) == ToNumber(amount)
  {
    if NonDecimalLiteral(Trim(amount)).Some? {
      NonDecimalParsesAsZero(amount);
    } else if !IsBlank(amount) {
      ParseFloatAgreesWithNumber(amount);
    }
  }

  /** The `errors` object lines 39-43 build: the name must not be blank, the
      amount must pass `AmountErrorAsWritten`, a category must be chosen. */
  function Validation(form: TxForm): (errors: Errors)
    ensures errors.name.Some? <==> IsBlank(form.name)
    ensures errors.name.Some? ==> errors.name.value == NameRequired
    ensures errors.amount == AmountErrorAsWritten(form.amount)
    ensures errors.category.Some? <==> form.category == ""
    ensures errors.category.Some? ==> errors.category.value == CategoryRequired
  {
    Errors(if Trim(form.name) == [] then Some(NameRequired) else None,
           AmountErrorAsWritten(form.amount),
           if form.category == "" then Some(CategoryRequired) else None)
  }

  /** The corrected validation: the same, with the amount checked by `AmountError`. */
  function CorrectedValidation(form: TxForm): (errors: Errors)
    ensures errors == Validation(form).(amount := AmountError(form.amount))
    ensures errors.IsEmpty() ==> Validation(form).IsEmpty()
  {
    Errors(if Trim(form.name) == [] then Some(NameRequired) else None,
           AmountError(form.amount),
           if form.category == "" then Some(CategoryRequired) else None)
  }

  /** Lines 39-43: the successive assignments into `errors`. */
  method ValidateForm(form: TxForm) returns (errors: Errors)
    ensures errors == Validation(form)
  {
    errors := NoErrors;
    if Trim(form.name) == "" {
      errors := errors.(name := Some(NameRequired));
    }
    if form.amount == "" {
      errors := errors.(amount := Some(AmountRequired));
    }
    if ToNumber(form.amount).None? {
      errors := errors.(amount := Some(AmountNotNumber));
    }
    if form.category == "" {
      errors := errors.(category := Some(CategoryRequired));
    }
  }

  /** The sign rule: Income is saved as `|x|`, every other category as `-|x|`. */
  function SignedAmount(category: string, x: real): (r: real)
    ensures Abs(r) == Abs(x)
    ensures category == "Income" ==> r >= 0.0
    ensures category != "Income" ==> r <= 0.0
  {
    if category == "Income" then Abs(x) else -Abs(x)
  }

  /** The payload lines 51-67 send for a form that passed the check as written:
      the sign rule applied to `parseFloat(amount)`, where NaN stays NaN. */
  function Draft(form: TxForm): (d: TxDraft)
    requires Validation(form).IsEmpty()
    ensures d.name == form.name && d.date == form.date && d.category == form.category
    ensures d.amount.None? <==> IsBlank(form.amount)
    ensures NonDecimalLiteral(Trim(form.amount)).Some? ==> d.amount == Some(0.0)
    ensures NonDecimalLiteral(Trim(form.amount)).None? && d.amount.Some? ==>
      Abs(d.amount.value) == Abs(ToNumber(form.amount).value)
    ensures d.amount.Some? && form.category == "Income" ==> d.amount.value >= 0.0
    ensures d.amount.Some? && form.category != "Income" ==> d.amount.value <= 0.0
  {
    ValidAmountParses(form.amount);
    var amount := ParseFloat(form.amount);
    TxDraft(form.name, if amount.Some? then Some(SignedAmount(form.category, amount.value)) else None,
            form.date, form.category)
  }

  /** The corrected payload: the sign rule applied to the number the check
      accepted, so the amount saved is always that number. */
  function CorrectedDraft(form: TxForm): (d: TxDraft)
    requires CorrectedValidation(form).IsEmpty()
    ensures d.name == form.name && d.date == form.date && d.category == form.category
    ensures d.amount.Some? && Abs(d.amount.value) == Abs(ToNumber(form.amount).value)
    ensures form.category == "Income" ==> d.amount.value >= 0.0
    ensures form.category != "Income" ==> d.amount.value <= 0.0
  {
    TxDraft(form.name, Some(SignedAmount(form.category, ToNumber(form.amount).value)), form.date, form.category)
  }

  /** A hexadecimal amount passes the check as written and is saved as 0,
      while the corrected payload carries the number the check accepted. */
  lemma HexAmountSavedAsZero(form: TxForm)
    requires form.amount == "0x10" && !IsBlank(form.name) && form.category != ""
    ensures ToNumber(form.amount) == Some(16.0)
    ensures Validation(form).IsEmpty() && Draft(form).amount == Some(0.0)
    ensures CorrectedValidation(form).IsEmpty() && Abs(CorrectedDraft(form).amount.value) == 16.0
  {
    var a := form.amount;
    assert LeadingBlanks(a) == 0 && TrailingBlanks(a) == 0;
    assert Trim(a) == a;
    assert a[2..] == "10";
    assert RadixValue("10", 16) == 16 by {
      assert "10"[..1] == "1" && "1"[..0] == [];
    }
    assert NonDecimalLiteral(a) == Some(16);
    NonDecimalParsesAsZero(a);
    assert !IsBlank(a) by {
      assert !IsWhitespace(a[0]);
    }
  }

  /** The ledger after a successful save: the edited id replaced, or the new
      record prepended. */
  function Saved(ts: seq<Transaction>, editing: Option<string>, data: Transaction): (r: seq<Transaction>)
    ensures Truthy(editing) ==> r == TransactionContext.ReplaceById(ts, editing.value, data)
    ensures !Truthy(editing) ==> r == [data] + ts
  {
    if Truthy(editing) then TransactionContext.ReplaceById(ts, editing.value, data) else [data] + ts
  }

  // ---------------------------------------------------------------------------
  // The page state and its handlers
  // ---------------------------------------------------------------------------

  class LedgerPage {
    var filter: string
    var search: string
    var showAddForm: bool
    var editing: Option<string>
    var form: TxForm
    var formErrors: Errors
    const store: TransactionContext.TransactionStore

    constructor (store: TransactionContext.TransactionStore, today: string)
      ensures this.store == store
      ensures filter == "All" && search == "" && !showAddForm && editing == None
      ensures form == DefaultForm(today) && formErrors == NoErrors
    {
      this.store := store;
      filter := "All";
      search := "";
      showAddForm := false;
      editing := None;
      form := DefaultForm(today);
      formErrors := NoErrors;
    }

    /** The list the page renders. */
    function Visible(): (r: seq<Transaction>)
      reads this, store
      ensures IsSubsequence(r, store.transactions)
      ensures forall t ::
        multiset(r)[t] == (if MatchesCategory(t, filter) && MatchesSearch(t, search) then multiset(store.transactions)[t] else 0)
    {
      FilteredTransactions(store.transactions, filter, search)
    }

    /** The ledger's whole state. */
    function StoreState(): StoreSnapshot
      reads store, store.browser
    {
      StoreSnapshot(store.transactions, store.loading, store.error, store.browser.token, store.browser.location)
    }

    /** `handleAddTransaction` as written: validate with the check of lines
        39-43, then save `Draft(form)` through the ledger. An invalid form
        only shows its errors; a valid one is saved as `Save` states. `sent`
        is the payload handed to the ledger, if any. */
    method HandleAddTransaction(today: string, response: CallOutcome<Transaction>) returns (sent: Option<TxDraft>)
      modifies this`showAddForm, this`editing, this`form, this`formErrors, store, store.browser
      ensures filter == old(filter) && search == old(search)
      ensures sent.Some? <==> Validation(old(form)).IsEmpty()
      ensures sent.Some? ==> sent.value == Draft(old(form))
      ensures sent.None? ==>
        && formErrors == Validation(old(form))
        && form == old(form) && showAddForm == old(showAddForm) && editing == old(editing)
        && StoreState() == old(StoreState())
      ensures sent.Some? ==> SavedAs(today, response, old(editing), old(form), old(formErrors), old(showAddForm), old(StoreState()))
    {
      var current := form;
      var errors := ValidateForm(current);
      if !errors.IsEmpty() {
        formErrors := errors;
        sent := None;
        return;
      }
      var draft := Draft(current);
      Save(today, response);
      sent := Some(draft);
    }

    /** The corrected `handleAddTransaction`: the same, with the blank amount
        refused and the checked number saved. */
    method HandleAddTransactionCorrected(today: string, response: CallOutcome<Transaction>) returns (sent: Option<TxDraft>)
      modifies this`showAddForm, this`editing, this`form, this`formErrors, store, store.browser
      ensures filter == old(filter) && search == old(search)
      ensures sent.Some? <==> CorrectedValidation(old(form)).IsEmpty()
      ensures sent.Some? ==> sent.value == CorrectedDraft(old(form)) && sent.value.amount.Some?
      ensures sent.None? ==>
        && formErrors == CorrectedValidation(old(form))
        && form == old(form) && showAddForm == old(showAddForm) && editing == old(editing)
        && StoreState() == old(StoreState())
      ensures sent.Some? ==> SavedAs(today, response, old(editing), old(form), old(formErrors), old(showAddForm), old(StoreState()))
    {
      var current := form;
      var errors := CorrectedValidation(current);
      if !errors.IsEmpty() {
        formErrors := errors;
        sent := None;
        return;
      }
      var draft := CorrectedDraft(current);
      Save(today, response);
      sent := Some(draft);
    }

    /** The state after a save settles, from the state before it: on success
        the ledger is `Saved`, the form reset and hidden and editing ended; on
        failure the page is as it was and the ledger only records the error. */
    predicate SavedAs(today: string, response: CallOutcome<Transaction>, editing0: Option<string>, form0: TxForm,
                      formErrors0: Errors, showAddForm0: bool, before: StoreSnapshot)
      reads this, store, store.browser
    {
      && !store.loading
      && store.browser.token == TokenAfterCall(before.token, response)
      && store.browser.location == LocationAfterCall(before.location, response)
      && (response.Ok? ==>
        && form == DefaultForm(today) && formErrors == NoErrors && !showAddForm
        && editing == (if Truthy(editing0) then None else editing0)
        && store.transactions == Saved(before.transactions, editing0, response.value) && store.error == None)
      && (response.Err? ==>
        && form == form0 && formErrors == formErrors0 && showAddForm == showAddForm0 && editing == editing0
        && store.transactions == before.transactions
        && store.error == Some(MessageOr(response.error,
             if Truthy(editing0) then TransactionContext.UpdateFailed else TransactionContext.AddFailed)))
    }

    /** The saving half of `handleAddTransaction`, once the form is valid:
        update the edited id or add a record, and on success reset the form and
        leave editing mode. */
    method Save(today: string, response: CallOutcome<Transaction>)
      modifies this`showAddForm, this`editing, this`form, this`formErrors, store, store.browser
      ensures filter == old(filter) && search == old(search)
      ensures SavedAs(today, response, old(editing), old(form), old(formErrors), old(showAddForm), old(StoreState()))
    {
      var thrown;
      if Truthy(editing) {
        thrown := store.UpdateTransaction(editing.value, response);
        if thrown.None? {
          editing := None;
        }
      } else {
        thrown := store.AddTransaction(response);
      }
      if thrown.None? {
        form := DefaultForm(today);
        formErrors := NoErrors;
        showAddForm := false;
      }
    }

    /** `handleEdit`: fill the form from a transaction and enter editing mode
        for its id. `dateText` is the formatted date and `amountText` is
        `String(Math.abs(t.amount))`, which `Number()` reads back as `|t.amount|`. */
    method HandleEdit(t: Transaction, dateText: string, amountText: string)
      requires ToNumber(amountText) == Some(Abs(t.amount))
      modifies this
      ensures editing == Some(t.id) && showAddForm
      ensures form == TxForm(t.name, amountText, dateText, t.category)
      ensures ToNumber(form.amount) == Some(Abs(t.amount))
      ensures formErrors == old(formErrors) && filter == old(filter) && search == old(search)
    {
      editing := Some(t.id);
      form := TxForm(t.name, amountText, dateText, t.category);
      showAddForm := true;
    }

    /** `handleCancelEdit`: leave editing mode and reset the form. */
    method HandleCancelEdit(today: string)
      modifies this
      ensures editing == None && form == DefaultForm(today) && formErrors == NoErrors && !showAddForm
      ensures filter == old(filter) && search == old(search)
    {
      editing := None;
      form := DefaultForm(today);
      formErrors := NoErrors;
      showAddForm := false;
    }

    /** `handleDelete`: delete only when the user confirms; a failure is
        swallowed. */
    method HandleDelete(id: string, confirmed: bool, response: CallOutcome<()>)
      modifies store, store.browser
      ensures !confirmed ==> StoreState() == old(StoreState())
      ensures confirmed ==>
        && !store.loading
        && store.browser.token == TokenAfterCall(old(store.browser.token), response)
        && store.browser.location == LocationAfterCall(old(store.browser.location), response)
      ensures confirmed && response.Ok? ==>
        store.transactions == TransactionContext.RemoveById(old(store.transactions), id) && store.error == None
      ensures confirmed && response.Err? ==>
        store.transactions == old(store.transactions)
        && store.error == Some(MessageOr(response.error, TransactionContext.DeleteFailed))
    {
      if confirmed {
        var _ := store.DeleteTransaction(id, response);
      }
    }

    /** The header button: show or hide the form. */
    method ToggleForm()
      modifies this`showAddForm
      ensures showAddForm == !old(showAddForm)
    {
      showAddForm := !showAddForm;
    }
  }
}
