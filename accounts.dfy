/** The accounts screen's view model: its initial state and `refreshData`, which fetches the
    account list and then joins every account with its balance and identifiers. */
module Accounts {
  import opened Wrappers
  import opened Reactive
  import opened Aggregation

  /** `AccountsViewModel`. Its request provider only shapes requests, whose outcomes are
      parameters here. */
  class AccountsViewModel {
    var dataSource: seq<AccountComposite>
    /** Every value emitted on `isLoading`, oldest first. */
    var isLoading: seq<bool>
    /** Every error emitted on `errorPublisher`, oldest first. */
    var errorPublisher: seq<Error>
    /** Every emission on any of the outputs above, oldest first: the order across them. */
    var emissions: seq<Emission<seq<AccountComposite>>>

    /** `init(provider:)`: the data source starts as `[]` and nothing has been emitted. */
    constructor ()
      ensures dataSource == [] && isLoading == [] && errorPublisher == []
      ensures emissions == []
    {
      dataSource := [];
      isLoading := [];
      errorPublisher := [];
      emissions := [];
    }

    function Signals(): Signals<seq<AccountComposite>>
      reads this
    {
      Reactive.Signals(dataSource, isLoading, errorPublisher)
    }

    /** The `subscribe` handler of `refreshData`. */
    method HandleEvent(event: Event<seq<AccountComposite>>)
      modifies this
      ensures Signals() == OnEvent(old(Signals()), event)
      ensures emissions == old(emissions) + [EventEmission(event)]
    {
      emissions := emissions + [EventEmission(event)];
      match event
      case Next(composites) => dataSource := composites;
      case Failed(e) => errorPublisher := errorPublisher + [e];
      case Completed => isLoading := isLoading + [false];
    }

    /** `refreshData()` given the outcome of the account-list request, the balance and
        identifiers responses, and the order in which the per-account results arrive.

        A failed account list is published as the error and nothing else happens: `isLoading`
        is never set and the join is never attempted. Otherwise `true` is emitted when the list
        arrives (`do(onNext:)`), then the join either replaces the data source and completes
        with `false`, or publishes its error and leaves both the data source and `isLoading`
        as they were. */
    method RefreshData(accountList: Result<seq<Account>>, responses: Responses,
                       arrivals: seq<Result<AccountComposite>>)
      requires accountList.Ok? ==>
                 multiset(arrivals) == multiset(Requests(accountList.value, responses))
      modifies this
      ensures accountList.Err? ==>
                && dataSource == old(dataSource)
                && isLoading == old(isLoading)
                && errorPublisher == old(errorPublisher) + [accountList.error]
      ensures accountList.Ok? ==>
                var joined := FetchAllAccounts(accountList.value, responses, arrivals);
                && dataSource == (if joined.Ok? then joined.value else old(dataSource))
                && isLoading == old(isLoading) + [true] + (if joined.Ok? then [false] else [])
                && errorPublisher == old(errorPublisher) + (if joined.Err? then [joined.error] else [])
      ensures accountList.Err? ==> emissions == old(emissions) + [Published(accountList.error)]
      ensures accountList.Ok? ==>
                var joined := FetchAllAccounts(accountList.value, responses, arrivals);
                && Signals() == Run(old(Signals()).(loading := old(isLoading) + [true]),
                                    ObservableOf(joined))
                && emissions == old(emissions) + [Loading(true)] + StreamEmissions(ObservableOf(joined))
    {
      match accountList
      case Err(e) =>
        HandleEvent(Failed(e));
      case Ok(accounts) =>
        isLoading := isLoading + [true];
        emissions := emissions + [Loading(true)];
        var joined := FetchAllAccounts(accounts, responses, arrivals);
        RunSingle(Signals(), joined);
        match joined
        case Ok(composites) =>
          HandleEvent(Next(composites));
          HandleEvent(Completed);
        case Err(e) =>
          HandleEvent(Failed(e));
    }
  }

  /** A refresh whose every request succeeds ends with a data source that holds one
      composite per account (a permutation of the composites in account order), and with
      `true` then `false` on `isLoading`. */
  method RefreshSucceeds(accounts: seq<Account>, responses: Responses,
                         arrivals: seq<Result<AccountComposite>>)
      returns (model: AccountsViewModel)
    requires forall a :: a in accounts ==> Succeeds(a, responses)
    requires multiset(arrivals) == multiset(Requests(accounts, responses))
    ensures |model.dataSource| == |accounts|
    ensures multiset(model.dataSource) == multiset(Composites(accounts, responses))
    ensures model.isLoading == [true, false] && model.errorPublisher == []
    ensures model.emissions == [Loading(true), Accepted(model.dataSource), Loading(false)]
  {
    model := new AccountsViewModel();
    FetchAllSucceedsIff(accounts, responses, arrivals);
    FetchAllIsPermutation(accounts, responses, arrivals);
    model.RefreshData(Ok(accounts), responses, arrivals);
  }

  /** A refresh in which any balance or identifiers request fails publishes exactly one
      error, keeps the previous data source and never emits `false`. */
  method RefreshFails(accounts: seq<Account>, responses: Responses,
                      arrivals: seq<Result<AccountComposite>>, previous: seq<AccountComposite>)
      returns (model: AccountsViewModel)
    requires exists a :: a in accounts && !Succeeds(a, responses)
    requires multiset(arrivals) == multiset(Requests(accounts, responses))
    ensures model.dataSource == previous
    ensures model.isLoading == [true]
    ensures |model.errorPublisher| == 1
    ensures model.emissions == [Loading(true), Published(model.errorPublisher[0])]
    ensures exists a :: && a in accounts
                         && (|| responses.balanceOf(a.accountUid) == Err(model.errorPublisher[0])
                             || responses.identifiersOf(a.accountUid) == Err(model.errorPublisher[0]))
  {
    model := new AccountsViewModel();
    model.dataSource := previous;
    FetchAllSucceedsIff(accounts, responses, arrivals);
    FetchAllFailureIsSubRequestError(accounts, responses, arrivals);
    model.RefreshData(Ok(accounts), responses, arrivals);
  }
}
