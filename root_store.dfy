/** The root store's own state: the count of API calls in progress, its two
    mutations and its two getters. */
module RootStore {

  class Store {
    var apiCallsInProgress: int

    /** Starts with no call in progress, so no loading indicator. */
    constructor ()
      ensures apiCallsInProgress == 0
      ensures !ShowLoadingIndicator()
    {
      apiCallsInProgress := 0;
    }

    /** The `apiCallsInProgress` getter: the counter as it is. */
    function ApiCallsInProgress(): (n: int)
      reads this
      ensures n == apiCallsInProgress
    {
      apiCallsInProgress
    }

    /** The `showLoadingIndicator` getter: some API call is in progress. */
    predicate ShowLoadingIndicator()
      reads this
      ensures ShowLoadingIndicator() <==> ApiCallsInProgress() > 0
    {
      apiCallsInProgress > 0
    }

    method IncreaseApiCalls()
      modifies this
      ensures apiCallsInProgress == old(apiCallsInProgress) + 1
      ensures ShowLoadingIndicator() <==> old(apiCallsInProgress) >= 0
    {
      apiCallsInProgress := apiCallsInProgress + 1;
    }

    /** Has no lower bound: an unmatched decrease drives the counter below 0. */
    method DecreaseApiCalls()
      modifies this
      ensures apiCallsInProgress == old(apiCallsInProgress) - 1
      ensures ShowLoadingIndicator() <==> old(apiCallsInProgress) >= 2
    {
      apiCallsInProgress := apiCallsInProgress - 1;
    }
  }

  /** An increase then a decrease restores the counter. */
  method IncreaseThenDecrease(s: Store)
    modifies s
    ensures s.apiCallsInProgress == old(s.apiCallsInProgress)
    ensures s.ShowLoadingIndicator() == old(s.ShowLoadingIndicator())
  {
    s.IncreaseApiCalls();
    s.DecreaseApiCalls();
  }

  /** A decrease then an increase restores the counter. */
  method DecreaseThenIncrease(s: Store)
    modifies s
    ensures s.apiCallsInProgress == old(s.apiCallsInProgress)
    ensures s.ShowLoadingIndicator() == old(s.ShowLoadingIndicator())
  {
    s.DecreaseApiCalls();
    s.IncreaseApiCalls();
  }

  /** A fresh store decreased once holds -1 and shows no indicator. */
  method DecreaseFromInitial() returns (store: Store)
    ensures store.apiCallsInProgress == -1
    ensures !store.ShowLoadingIndicator()
  {
    store := new Store();
    store.DecreaseApiCalls();
  }
}
