/** The client-side ledger of `src/context/TransactionContext.tsx`: the list of
    transactions the user sees, with the `loading` and `error` fields, kept in
    step with the server by fetch, add, update and delete. */
module TransactionContext {
  import opened Js
  import opened Api
  import opened Lists

  const FetchFailed := "Failed to fetch transactions"
  const AddFailed := "Failed to add transaction"
  const UpdateFailed := "Failed to update transaction"
  const DeleteFailed := "Failed to delete transaction"

  /** `transactions.map(t => t._id === id ? data : t)`. */
  function ReplaceById(ts: seq<Transaction>, id: string, data: Transaction): (r: seq<Transaction>)
    ensures |r| == |ts|
    ensures forall i :: 0 <= i < |ts| ==> r[i] == if ts[i].id == id then data else ts[i]
  {
    if ts == [] then []
    else [if ts[0].id == id then data else ts[0]] + ReplaceById(ts[1..], id, data)
  }

  /** `transactions.filter(t => t._id !== id)`. */
  function RemoveById(ts: seq<Transaction>, id: string): (r: seq<Transaction>)
    ensures IsSubsequence(r, ts)
    ensures forall t :: t in r <==> t in ts && t.id != id
    ensures forall t :: multiset(r)[t] == (if t.id != id then multiset(ts)[t] else 0)
  {
    if ts == [] then []
    else
      assert ts == [ts[0]] + ts[1..];
      if ts[0].id == id then RemoveById(ts[1..], id)
      else [ts[0]] + RemoveById(ts[1..], id)
  }

  /** Deleting an id that no transaction carries leaves the list as it was. */
  lemma {:induction false} RemoveAbsentIsIdentity(ts: seq<Transaction>, id: string)
    requires forall t :: t in ts ==> t.id != id
    ensures RemoveById(ts, id) == ts
  {
    if ts != [] {
      RemoveAbsentIsIdentity(ts[1..], id);
    }
  }

  /** Deleting an id after updating it is the same as deleting it outright,
      when the server's record keeps the id. */
  lemma {:induction false} RemoveAfterReplace(ts: seq<Transaction>, id: string, data: Transaction)
    requires data.id == id
    ensures RemoveById(ReplaceById(ts, id, data), id) == RemoveById(ts, id)
  {
    if ts != [] {
      RemoveAfterReplace(ts[1..], id, data);
      assert ReplaceById(ts, id, data)[1..] == ReplaceById(ts[1..], id, data);
    }
  }

  /** The provider's state and its operations. Each operation raises `loading`,
      settles one server call and lowers `loading` again; the model keeps the
      settled state. A returned `thrown` is the `Error` the operation rethrows. */
  class TransactionStore {
    var transactions: seq<Transaction>
    var loading: bool
    var error: Option<string>
    const browser: Browser

    constructor (browser: Browser)
      ensures transactions == [] && !loading && error == None && this.browser == browser
    {
      transactions := [];
      loading := false;
      error := None;
      this.browser := browser;
    }

    /** `fetchTransactions`: a success replaces the list; a failure keeps it,
        records the message and does not throw. */
    method FetchTransactions(response: CallOutcome<seq<Transaction>>)
      modifies this, browser
      ensures !loading
      ensures browser.token == TokenAfterCall(old(browser.token), response)
      ensures browser.location == LocationAfterCall(old(browser.location), response)
      ensures response.Ok? ==> transactions == response.value && error == None
      ensures response.Err? ==> transactions == old(transactions) && error == Some(MessageOr(response.error, FetchFailed))
    {
      loading := true;
      Settle(browser, response);
      match response {
      case Ok(data) =>
        transactions := data;
        error := None;
      case Err(e) =>
        error := Some(MessageOr(e, FetchFailed));
      }
      loading := false;
    }

    /** `addTransaction`: the record the server returns goes first. */
    method AddTransaction(response: CallOutcome<Transaction>) returns (thrown: Option<ApiError>)
      modifies this, browser
      ensures !loading
      ensures browser.token == TokenAfterCall(old(browser.token), response)
      ensures browser.location == LocationAfterCall(old(browser.location), response)
      ensures response.Ok? ==> transactions == [response.value] + old(transactions) && error == None && thrown == None
      ensures response.Err? ==>
        && transactions == old(transactions)
        && error == Some(MessageOr(response.error, AddFailed))
        && thrown == Some(Rethrown(response.error, AddFailed))
    {
      loading := true;
      Settle(browser, response);
      match response {
      case Ok(data) =>
        transactions := [data] + transactions;
        error := None;
        thrown := None;
      case Err(e) =>
        var message := MessageOr(e, AddFailed);
        error := Some(message);
        thrown := Some(Rethrown(e, AddFailed));
      }
      loading := false;
    }

    /** `updateTransaction`: every record with the id becomes the server's record. */
    method UpdateTransaction(id: string, response: CallOutcome<Transaction>) returns (thrown: Option<ApiError>)
      modifies this, browser
      ensures !loading
      ensures browser.token == TokenAfterCall(old(browser.token), response)
      ensures browser.location == LocationAfterCall(old(browser.location), response)
      ensures response.Ok? ==>
        transactions == ReplaceById(old(transactions), id, response.value) && error == None && thrown == None
      ensures response.Err? ==>
        && transactions == old(transactions)
        && error == Some(MessageOr(response.error, UpdateFailed))
        && thrown == Some(Rethrown(response.error, UpdateFailed))
    {
      loading := true;
      Settle(browser, response);
      match response {
      case Ok(data) =>
        transactions := ReplaceById(transactions, id, data);
        error := None;
        thrown := None;
      case Err(e) =>
        error := Some(MessageOr(e, UpdateFailed));
        thrown := Some(Rethrown(e, UpdateFailed));
      }
      loading := false;
    }

    /** `deleteTransaction`: every record with the id leaves the list. */
    method DeleteTransaction(id: string, response: CallOutcome<()>) returns (thrown: Option<ApiError>)
      modifies this, browser
      ensures !loading
      ensures browser.token == TokenAfterCall(old(browser.token), response)
      ensures browser.location == LocationAfterCall(old(browser.location), response)
      ensures response.Ok? ==> transactions == RemoveById(old(transactions), id) && error == None && thrown == None
      ensures response.Err? ==>
        && transactions == old(transactions)
        && error == Some(MessageOr(response.error, DeleteFailed))
        && thrown == Some(Rethrown(response.error, DeleteFailed))
    {
      loading := true;
      Settle(browser, response);
      match response {
      case Ok(_) =>
        transactions := RemoveById(transactions, id);
        error := None;
        thrown := None;
      case Err(e) =>
        error := Some(MessageOr(e, DeleteFailed));
        thrown := Some(Rethrown(e, DeleteFailed));
      }
      loading := false;
    }

    /** `clearError`: only the error changes. */
    method ClearError()
      modifies this`error
      ensures error == None
    {
      error := None;
    }
  }
}
