/**
 * The query controller of the leaderboard page.
 *
 * The page keeps two state slots, the last accepted user list and a
 * `searching` flag. Whenever the debounced search text, the selected country
 * or the selected view changes, an effect assembles a `listUsers` request,
 * raises `searching`, awaits the response, stores it unless it is an error,
 * and lowers `searching` again. The network call itself is not modelled: its
 * response is a parameter.
 *
 * The effect is split at its await point into BeginQuery (everything up to
 * the call) and CompleteQuery (everything after the response arrives), so
 * that two overlapping queries can be expressed; RunQuery is the two run back
 * to back.
 */
module Leaderboard {

  datatype Option<T> = None | Some(value: T)

  /** Page size of every request. */
  const PAGINATION_LIMIT: int := 25

  /** The country selector's default value: no country filter. */
  const GLOBAL: string := "Global"

  /** The view selector's default value: rank by total points, no event filter. */
  const TOTAL_POINTS: string := "Total Points"

  // ---------------------------------------------------------------------------
  // Request assembly
  // ---------------------------------------------------------------------------

  /**
   * The argument object of `listUsers`. An optional key that the object does
   * not carry is `None`.
   */
  datatype ListUsersParams = ListUsersParams(
    limit: int,
    search: string,
    countryCode: Option<string>,
    eventType: Option<string>)

  /**
   * The request for a search text, a country value and a view value: the
   * country is sent only when it is not the "Global" sentinel, the view only
   * when it is not the "Total Points" sentinel.
   */
  function BuildRequest(search: string, country: string, eventType: string): (r: ListUsersParams)
    ensures r.limit == PAGINATION_LIMIT && r.search == search
    ensures r.countryCode == None <==> country == GLOBAL
    ensures r.countryCode != None ==> r.countryCode.value == country
    ensures r.eventType == None <==> eventType == TOTAL_POINTS
    ensures r.eventType != None ==> r.eventType.value == eventType
  {
    ListUsersParams(
      PAGINATION_LIMIT,
      search,
      if country != GLOBAL then Some(country) else None,
      if eventType != TOTAL_POINTS then Some(eventType) else None)
  }

  /**
   * How the request is read back: a missing key stands for its selector's
   * sentinel value.
   */
  function FilterOf(r: ListUsersParams): (string, string, string)
  {
    (r.search,
     if r.countryCode == None then GLOBAL else r.countryCode.value,
     if r.eventType == None then TOTAL_POINTS else r.eventType.value)
  }

  /** The request loses nothing: the selectors' values are recovered from it. */
  lemma BuildRequestRoundTrip(search: string, country: string, eventType: string)
    ensures FilterOf(BuildRequest(search, country, eventType)) == (search, country, eventType)
  {
  }

  /** Distinct selector values never produce the same request. */
  lemma BuildRequestInjective(s1: string, c1: string, e1: string, s2: string, c2: string, e2: string)
    requires BuildRequest(s1, c1, e1) == BuildRequest(s2, c2, e2)
    ensures s1 == s2 && c1 == c2 && e1 == e2
  {
  }

  /** The two sentinel cases and a fully filtered one. */
  lemma BuildRequestExamples()
    ensures BuildRequest("", GLOBAL, TOTAL_POINTS) == ListUsersParams(25, "", None, None)
    ensures BuildRequest("", "CA", "BUG_CAUGHT") == ListUsersParams(25, "", Some("CA"), Some("BUG_CAUGHT"))
  {
  }

  // ---------------------------------------------------------------------------
  // Responses and what the page shows
  // ---------------------------------------------------------------------------

  /** One row of the leaderboard as the API returns it. */
  datatype LeaderboardUser = LeaderboardUser(id: int, rank: int, graffiti: string, totalPoints: int)

  /** A successful `listUsers` response; only its `data` is used by the page. */
  datatype UsersPage = UsersPage(data: seq<LeaderboardUser>)

  /** What `listUsers` resolves to: a page, or an object carrying an `error` key. */
  datatype ListUsersResult = Listed(page: UsersPage) | ApiError(error: string)

  /** A field value is truthy when it is defined and not the empty string. */
  predicate Truthy(v: Option<string>)
    ensures Truthy(v) <==> v != None && |v.value| > 0
  {
    v.Some? && v.value != ""
  }

  /**
   * The user list after a response: an error keeps the current list, a page
   * replaces it as a whole.
   */
  function AcceptResult(current: Option<UsersPage>, result: ListUsersResult): (next: Option<UsersPage>)
    ensures result.ApiError? ==> next == current
    ensures result.Listed? ==> next != None && next.value == result.page
  {
    if result.ApiError? then current else Some(result.page)
  }

  /** The users listed on the page: the list's `data`, or nothing before any list arrived. */
  function DisplayedUsers(userList: Option<UsersPage>): (users: seq<LeaderboardUser>)
    ensures userList == None ==> users == []
    ensures userList != None ==> users == userList.value.data
  {
    if userList.Some? then userList.value.data else []
  }

  /**
   * After a response, the page lists the response's users if it is a page and
   * keeps listing what it listed before if it is an error.
   */
  lemma DisplayedAfterResult(current: Option<UsersPage>, result: ListUsersResult)
    ensures result.Listed? ==> DisplayedUsers(AcceptResult(current, result)) == result.page.data
    ensures result.ApiError? ==> DisplayedUsers(AcceptResult(current, result)) == DisplayedUsers(current)
  {
  }

  /** Which pagination buttons are disabled. */
  datatype PaginationButtons = PaginationButtons(previousDisabled: bool, nextDisabled: bool)

  /** Previous is disabled exactly when there is no previous page, Next when there is no next one. */
  function PaginationButtonsFor(hasPrevious: bool, hasNext: bool): (b: PaginationButtons)
    ensures b.previousDisabled <==> !hasPrevious
    ensures b.nextDisabled <==> !hasNext
  {
    PaginationButtons(!hasPrevious, !hasNext)
  }

  // ---------------------------------------------------------------------------
  // The page's query state
  // ---------------------------------------------------------------------------

  class LeaderboardPage {
    /** The last accepted `listUsers` response, undefined until one arrives. */
    var userList: Option<UsersPage>
    /** Whether the page shows its loader instead of the list. */
    var searching: bool
    /** Requests issued whose responses have not arrived yet. */
    ghost var pending: nat

    /** `searching` is only raised while some request is outstanding. */
    ghost predicate Valid()
      reads this
    {
      searching ==> pending > 0
    }

    /** The page as first rendered: no list, not searching. */
    constructor ()
      ensures Valid()
      ensures userList == None && !searching && pending == 0
    {
      userList := None;
      searching := false;
      pending := 0;
    }

    /**
     * The effect up to the await: when both selector values are truthy it
     * raises `searching` and issues the request for the current filter;
     * otherwise it does nothing at all.
     */
    method BeginQuery(debouncedSearch: string, countryValue: Option<string>, eventTypeValue: Option<string>)
      returns (request: Option<ListUsersParams>)
      requires Valid()
      modifies this
      ensures Valid()
      ensures request != None <==> Truthy(countryValue) && Truthy(eventTypeValue)
      ensures request != None ==>
        request.value == BuildRequest(debouncedSearch, countryValue.value, eventTypeValue.value) &&
        searching && pending == old(pending) + 1
      ensures request == None ==> searching == old(searching) && pending == old(pending)
      ensures userList == old(userList)
    {
      if Truthy(countryValue) && Truthy(eventTypeValue) {
        searching := true;
        request := Some(BuildRequest(debouncedSearch, countryValue.value, eventTypeValue.value));
        pending := pending + 1;
      } else {
        request := None;
      }
    }

    /**
     * The effect after the await: the response replaces the list unless it
     * is an error, and `searching` is lowered whatever the outcome, even if
     * another request is still outstanding. Responses are taken in whatever
     * order they arrive.
     */
    method CompleteQuery(result: ListUsersResult)
      requires Valid() && pending > 0
      modifies this
      ensures Valid()
      ensures userList == AcceptResult(old(userList), result)
      ensures result.ApiError? ==> userList == old(userList)
      ensures result.Listed? ==> userList == Some(result.page)
      ensures !searching && pending == old(pending) - 1
    {
      if result.Listed? {
        userList := Some(result.page);
      }
      searching := false;
      pending := pending - 1;
    }

    /**
     * The whole effect when its response arrives before any other query
     * starts: nothing changes when a selector value is missing; otherwise the
     * request is issued, `searching` is raised for its duration, and the list
     * is replaced unless the response is an error.
     */
    method RunQuery(debouncedSearch: string, countryValue: Option<string>, eventTypeValue: Option<string>,
                    result: ListUsersResult)
      returns (request: Option<ListUsersParams>)
      requires Valid()
      modifies this
      ensures Valid() && pending == old(pending)
      ensures request != None <==> Truthy(countryValue) && Truthy(eventTypeValue)
      ensures request == None ==> userList == old(userList) && searching == old(searching)
      ensures request != None ==>
        request.value == BuildRequest(debouncedSearch, countryValue.value, eventTypeValue.value) &&
        userList == AcceptResult(old(userList), result) && !searching
    {
      request := BeginQuery(debouncedSearch, countryValue, eventTypeValue);
      if request != None {
        assert searching;
        CompleteQuery(result);
      }
    }
  }

  /**
   * Two overlapping queries whose responses arrive out of order: the country
   * is changed from "Global" to "CA" while the first request is in flight,
   * the second response arrives first, then the first. The older response
   * is the one left on the page, and `searching` was already lowered while
   * the older request was still outstanding.
   */
  method OutOfOrderResponses(older: UsersPage, newer: UsersPage)
    returns (shown: seq<LeaderboardUser>, searchingAfterNewer: bool)
    ensures shown == older.data
    ensures !searchingAfterNewer
  {
    var p := new LeaderboardPage();
    var first := p.BeginQuery("", Some(GLOBAL), Some(TOTAL_POINTS));
    var second := p.BeginQuery("", Some("CA"), Some(TOTAL_POINTS));
    assert p.pending == 2;
    p.CompleteQuery(Listed(newer));
    searchingAfterNewer := p.searching;
    p.CompleteQuery(Listed(older));
    shown := DisplayedUsers(p.userList);
  }
}
