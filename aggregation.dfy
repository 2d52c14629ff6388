/** The accounts join behind `AccountsViewModel.fetchAllAccounts`: for every account a
    balance request and an identifiers request are zipped into one `AccountComposite`, the
    per-account results are merged, and `toArray` collects them.

    Requests are not performed here: their outcomes are given as total functions from an
    account id to a `Result`, and the order in which the merged per-account results arrive is
    given as a sequence that holds the same results as the per-account requests, in any
    order. */
module Aggregation {
  import opened Wrappers

  /** A currency code with an amount in minor units. */
  datatype CurrencyAndAmount = CurrencyAndAmount(currency: string, minorUnits: int)

  datatype Account = Account(accountUid: string, defaultCategory: string, currency: string,
                             createdAt: string)

  datatype Balance = Balance(clearedBalance: CurrencyAndAmount, effectiveBalance: CurrencyAndAmount,
                             pendingTransactions: CurrencyAndAmount,
                             acceptedOverdraft: CurrencyAndAmount, amount: CurrencyAndAmount)

  datatype Identifiers = Identifiers(accountIdentifier: string, bankIdentifier: string,
                                     iban: string, bic: string, accountIdentifiers: seq<string>)

  datatype AccountComposite = AccountComposite(account: Account, balance: Balance,
                                               identifiers: Identifiers)

  /** What the balance and identifiers endpoints answer for each account id. */
  datatype Responses = Responses(balanceOf: string -> Result<Balance>,
                                 identifiersOf: string -> Result<Identifiers>)

  predicate Succeeds(account: Account, responses: Responses) {
    responses.balanceOf(account.accountUid).Ok? && responses.identifiersOf(account.accountUid).Ok?
  }

  /** The `request` closure: `zip(getBalance, getIdentifiers)` mapped to a composite. The zip
      fails as soon as either side fails; when both fail the balance error is reported. */
  function FetchComposite(account: Account, responses: Responses): (r: Result<AccountComposite>)
    ensures r.Ok? <==> Succeeds(account, responses)
    ensures r.Ok? ==> && Ok(r.value.balance) == responses.balanceOf(account.accountUid)
                      && Ok(r.value.identifiers) == responses.identifiersOf(account.accountUid)
                      && r.value.account == account
    ensures r.Err? ==> || responses.balanceOf(account.accountUid) == Err(r.error)
                       || responses.identifiersOf(account.accountUid) == Err(r.error)
  {
    match responses.balanceOf(account.accountUid)
    case Err(e) => Err(e)
    case Ok(balance) =>
      match responses.identifiersOf(account.accountUid)
      case Err(e) => Err(e)
      case Ok(identifiers) => Ok(AccountComposite(account, balance, identifiers))
  }

  /** `account.map(request)`: one per-account result, in account order. */
  function Requests(accounts: seq<Account>, responses: Responses): seq<Result<AccountComposite>> {
    seq(|accounts|, i requires 0 <= i < |accounts| => FetchComposite(accounts[i], responses))
  }

  /** The composites, in account order, when every request succeeds: the reference the join
      is measured against. */
  function Composites(accounts: seq<Account>, responses: Responses): seq<AccountComposite>
    requires forall a :: a in accounts ==> Succeeds(a, responses)
  {
    assert forall i :: 0 <= i < |accounts| ==> Succeeds(accounts[i], responses);
    seq(|accounts|, i requires 0 <= i < |accounts| && Succeeds(accounts[i], responses) =>
      AccountComposite(accounts[i], responses.balanceOf(accounts[i].accountUid).value,
                       responses.identifiersOf(accounts[i].accountUid).value))
  }

  /** `merge(...).toArray()` over results in arrival order: the values in arrival order once
      every result has arrived, or the first error to arrive. */
  function MergeToArray<T>(arrivals: seq<Result<T>>): (r: Result<seq<T>>)
    ensures r.Ok? <==> forall i :: 0 <= i < |arrivals| ==> arrivals[i].Ok?
    ensures r.Ok? ==> |r.value| == |arrivals|
                      && forall i :: 0 <= i < |arrivals| ==> r.value[i] == arrivals[i].value
    ensures r.Err? ==> exists i :: && 0 <= i < |arrivals| && arrivals[i] == Err(r.error)
                                   && forall j :: 0 <= j < i ==> arrivals[j].Ok?
    decreases |arrivals|
  {
    if arrivals == [] then Ok([])
    else
      match arrivals[0]
      case Err(e) => Err(e)
      case Ok(x) =>
        match MergeToArray(arrivals[1..])
        case Err(e) =>
          assert forall i :: 0 <= i < |arrivals| - 1 ==> arrivals[1..][i] == arrivals[i + 1];
          Err(e)
        case Ok(xs) => Ok([x] + xs)
  }

  /** `fetchAllAccounts(account:)`: `arrivals` is the order in which the merged per-account
      results come in, which is any order of those results. */
  function FetchAllAccounts(accounts: seq<Account>, responses: Responses,
                            arrivals: seq<Result<AccountComposite>>): Result<seq<AccountComposite>>
    requires multiset(arrivals) == multiset(Requests(accounts, responses))
  {
    MergeToArray(arrivals)
  }

  /** An element occurs in an arrival order exactly when it occurs among the requests. */
  lemma SameElements<T>(a: seq<T>, b: seq<T>)
    requires multiset(a) == multiset(b)
    ensures |a| == |b|
    ensures forall x :: x in a <==> x in b
  {
    assert |multiset(a)| == |multiset(b)|;
    forall x ensures x in a <==> x in b {
      assert x in a <==> x in multiset(a);
      assert x in b <==> x in multiset(b);
    }
  }

  /** The join succeeds exactly when every balance and every identifiers request succeeds,
      whatever order the results arrive in. */
  lemma FetchAllSucceedsIff(accounts: seq<Account>, responses: Responses,
                            arrivals: seq<Result<AccountComposite>>)
    requires multiset(arrivals) == multiset(Requests(accounts, responses))
    ensures FetchAllAccounts(accounts, responses, arrivals).Ok?
            <==> forall a :: a in accounts ==> Succeeds(a, responses)
  {
    var requests := Requests(accounts, responses);
    SameElements(arrivals, requests);
    if forall a :: a in accounts ==> Succeeds(a, responses) {
      forall i | 0 <= i < |arrivals| ensures arrivals[i].Ok? {
        assert arrivals[i] in requests;
        var k :| 0 <= k < |requests| && requests[k] == arrivals[i];
        assert accounts[k] in accounts;
      }
    } else {
      var a :| a in accounts && !Succeeds(a, responses);
      var k :| 0 <= k < |accounts| && accounts[k] == a;
      assert requests[k] in arrivals;
      var i :| 0 <= i < |arrivals| && arrivals[i] == requests[k];
      assert !arrivals[i].Ok?;
    }
  }

  /** The values of a sequence of successful results. */
  function Values<T>(rs: seq<Result<T>>): (vs: seq<T>)
    requires forall i :: 0 <= i < |rs| ==> rs[i].Ok?
    ensures |vs| == |rs| && forall i :: 0 <= i < |rs| ==> vs[i] == rs[i].value
  {
    seq(|rs|, i requires 0 <= i < |rs| && rs[i].Ok? => rs[i].value)
  }

  /** Among successful results, a value occurs as often as its `Ok` does. */
  lemma {:induction false} ValuesCount<T>(rs: seq<Result<T>>, x: T)
    requires forall i :: 0 <= i < |rs| ==> rs[i].Ok?
    ensures multiset(Values(rs))[x] == multiset(rs)[Ok(x)]
    decreases |rs|
  {
    if rs != [] {
      var init := rs[..|rs| - 1];
      ValuesCount(init, x);
      assert rs == init + [rs[|rs| - 1]];
      assert Values(rs) == Values(init) + [rs[|rs| - 1].value];
    }
  }

  /** When the join succeeds it holds the per-account composites, one per account, in
      arrival order: a permutation of the composites in account order. */
  lemma FetchAllIsPermutation(accounts: seq<Account>, responses: Responses,
                              arrivals: seq<Result<AccountComposite>>)
    requires multiset(arrivals) == multiset(Requests(accounts, responses))
    requires FetchAllAccounts(accounts, responses, arrivals).Ok?
    ensures forall a :: a in accounts ==> Succeeds(a, responses)
    ensures |FetchAllAccounts(accounts, responses, arrivals).value| == |accounts|
    ensures multiset(FetchAllAccounts(accounts, responses, arrivals).value)
            == multiset(Composites(accounts, responses))
  {
    FetchAllSucceedsIff(accounts, responses, arrivals);
    var requests := Requests(accounts, responses);
    SameElements(arrivals, requests);
    var r := FetchAllAccounts(accounts, responses, arrivals).value;
    var expected := Composites(accounts, responses);
    assert r == Values(arrivals);
    assert expected == Values(requests);
    forall x ensures multiset(r)[x] == multiset(expected)[x] {
      ValuesCount(arrivals, x);
      ValuesCount(requests, x);
    }
    assert multiset(r) == multiset(expected);
  }

  /** Every composite pairs an account of the list with the balance and the identifiers
      fetched for that account's id. */
  lemma FetchAllPairsEachAccount(accounts: seq<Account>, responses: Responses,
                                 arrivals: seq<Result<AccountComposite>>)
    requires multiset(arrivals) == multiset(Requests(accounts, responses))
    requires FetchAllAccounts(accounts, responses, arrivals).Ok?
    ensures forall c :: c in FetchAllAccounts(accounts, responses, arrivals).value ==>
              && c.account in accounts
              && responses.balanceOf(c.account.accountUid) == Ok(c.balance)
              && responses.identifiersOf(c.account.accountUid) == Ok(c.identifiers)
  {
    var requests := Requests(accounts, responses);
    SameElements(arrivals, requests);
    var r := FetchAllAccounts(accounts, responses, arrivals).value;
    forall c | c in r
      ensures && c.account in accounts
              && responses.balanceOf(c.account.accountUid) == Ok(c.balance)
              && responses.identifiersOf(c.account.accountUid) == Ok(c.identifiers)
    {
      var i :| 0 <= i < |r| && r[i] == c;
      assert arrivals[i] in requests;
      var k :| 0 <= k < |requests| && requests[k] == arrivals[i];
    }
  }

  /** A failed join reports the error of one of the failed balance or identifiers requests:
      no partial array is produced. */
  lemma FetchAllFailureIsSubRequestError(accounts: seq<Account>, responses: Responses,
                                         arrivals: seq<Result<AccountComposite>>)
    requires multiset(arrivals) == multiset(Requests(accounts, responses))
    requires FetchAllAccounts(accounts, responses, arrivals).Err?
    ensures exists a :: && a in accounts
                         && var e := FetchAllAccounts(accounts, responses, arrivals).error;
                            || responses.balanceOf(a.accountUid) == Err(e)
                            || responses.identifiersOf(a.accountUid) == Err(e)
  {
    var requests := Requests(accounts, responses);
    SameElements(arrivals, requests);
    var e := FetchAllAccounts(accounts, responses, arrivals).error;
    var i :| 0 <= i < |arrivals| && arrivals[i] == Err(e);
    assert arrivals[i] in requests;
    var k :| 0 <= k < |requests| && requests[k] == arrivals[i];
    assert accounts[k] in accounts;
  }

  /** An empty account list aggregates to an empty array. */
  lemma FetchAllOfNoAccounts(responses: Responses, arrivals: seq<Result<AccountComposite>>)
    requires multiset(arrivals) == multiset(Requests([], responses))
    ensures FetchAllAccounts([], responses, arrivals) == Ok([])
  {
    SameElements(arrivals, Requests([], responses));
  }

  /** When the results arrive in account order and all succeed, the array is exactly the
      composites in account order. */
  lemma FetchAllInAccountOrder(accounts: seq<Account>, responses: Responses)
    requires forall a :: a in accounts ==> Succeeds(a, responses)
    ensures FetchAllAccounts(accounts, responses, Requests(accounts, responses))
            == Ok(Composites(accounts, responses))
  {
    var r := FetchAllAccounts(accounts, responses, Requests(accounts, responses));
    assert r.Ok?;
    assert r.value == Composites(accounts, responses);
  }
}
