/** The paged exercise fetcher. It keeps the exercises loaded so far, the next page to
    ask for, whether more pages remain, a loading flag that keeps a second fetch from
    starting while one is in flight, and the last error. A fetch is split at its one
    suspension point: `BeginFetch` runs up to the request, `CompleteFetch` applies
    what the request returned. */
module ExercisePaging {
  import opened Wrappers
  import SwiftInt
  import opened Exercises
  import Network

  /** `ExerciseError`, the fetcher's own error vocabulary; `UnknownError` carries the
      wrapped error's localized description. */
  datatype ExerciseError =
    | NetworkNotConnected
    | InvalidURL
    | ServerError(code: int)
    | DecodingError
    | UnknownError(description: string)
    | ConnectionError(details: string)

  const ServerErrorHead: string := "服务器错误（"
  const ServerErrorTail: string := "），请稍后重试"

  /** `ExerciseError.errorDescription`: a fixed message per case, with the code, the
      details or the description spliced in where the case carries one. */
  function ErrorDescription(e: ExerciseError): (d: string)
    ensures e.ServerError? ==> d == ServerErrorHead + SwiftInt.IntToString(e.code) + ServerErrorTail
    ensures e.ConnectionError? ==> |e.details| <= |d| && d[|d| - |e.details|..] == e.details
    ensures e.UnknownError? ==> |e.description| <= |d| && d[|d| - |e.description|..] == e.description
  {
    match e
    case NetworkNotConnected => "网络连接失败，请检查网络设置"
    case InvalidURL => "无效的URL"
    case ServerError(code) => ServerErrorHead + SwiftInt.IntToString(code) + ServerErrorTail
    case DecodingError => "数据解析错误"
    case ConnectionError(details) => "连接服务器失败：" + details
    case UnknownError(description) => "未知错误：" + description
  }

  /** The description of a server error names its code: two codes never share one. */
  lemma ServerErrorDescriptionInjective(a: int, b: int)
    ensures ErrorDescription(ServerError(a)) == ErrorDescription(ServerError(b)) ==> a == b
  {
    if ErrorDescription(ServerError(a)) == ErrorDescription(ServerError(b)) {
      var n := |ServerErrorHead|;
      var da, db := ErrorDescription(ServerError(a)), ErrorDescription(ServerError(b));
      assert da[n..] == SwiftInt.IntToString(a) + ServerErrorTail;
      assert db[n..] == SwiftInt.IntToString(b) + ServerErrorTail;
      SwiftInt.IntToStringPrefixFree(a, b, ServerErrorTail, ServerErrorTail);
    }
  }

  const PageSize: int := 20

  /** Everything a fetch reads or writes. */
  datatype FetchState = FetchState(
    exercises: seq<Exercise>,
    currentPage: int,
    hasMorePages: bool,
    isLoading: bool,
    error: Option<Network.NetworkError>)

  /** A new fetcher: nothing loaded, page 1 next, more pages assumed, idle, no error. */
  const Initial: FetchState := FetchState([], 1, true, false, None)

  /** The guard at the top of `fetchExercises`. */
  predicate CanFetch(s: FetchState) {
    s.hasMorePages && !s.isLoading
  }

  const PageHead: string := "/exercises?page="
  const PageTail: string := "&pageSize=20"

  /** The request path for one page: the page number sits between a fixed head and the
      page-size parameter, and reads back as the page asked for. */
  function PageEndpoint(page: int): (path: string)
    ensures |PageHead| + |PageTail| < |path|
    ensures path[..|PageHead|] == PageHead && path[|path| - |PageTail|..] == PageTail
    ensures SwiftInt.ParseDecimal(path[|PageHead|..|path| - |PageTail|]) == Some(page)
  {
    assert SwiftInt.IntToString(PageSize) == "20" by {
      assert SwiftInt.NatToString(2) == ['2'];
    }
    var digits := SwiftInt.IntToString(page);
    var path := PageHead + digits + "&pageSize=" + SwiftInt.IntToString(PageSize);
    assert path[|PageHead|..|path| - |PageTail|] == digits;
    SwiftInt.DecimalRoundTrip(page);
    path
  }

  const ApplicationCodeHead: string := "错误代码："

  /** The error thrown when a page envelope's application code is not 200: a server
      error whose message is a fixed head followed by the code, which reads back. */
  function ApplicationCodeError(code: int): (e: Network.NetworkError)
    ensures e.ServerError? && |ApplicationCodeHead| < |e.message|
    ensures e.message[..|ApplicationCodeHead|] == ApplicationCodeHead
    ensures SwiftInt.ParseDecimal(e.message[|ApplicationCodeHead|..]) == Some(code)
  {
    var message := ApplicationCodeHead + SwiftInt.IntToString(code);
    assert message[|ApplicationCodeHead|..] == SwiftInt.IntToString(code);
    SwiftInt.DecimalRoundTrip(code);
    Network.ServerError(message)
  }

  /** Two application codes never produce the same error, so the stored error names
      the code the server sent. */
  lemma ApplicationCodeErrorInjective(a: int, b: int)
    ensures ApplicationCodeError(a) == ApplicationCodeError(b) ==> a == b
  {
    if ApplicationCodeError(a) == ApplicationCodeError(b) {
      var n := |ApplicationCodeHead|;
      assert ApplicationCodeError(a).message[n..] == ApplicationCodeError(b).message[n..];
    }
  }

  /** The cursor after a successful page: one past the server's page number when that
      string parses as an `Int`, the old cursor otherwise. */
  function NextCursor(page: string, cursor: int): (next: int)
    ensures SwiftInt.ParseInt(page).None? ==> next == cursor
    ensures SwiftInt.ParseInt(page).Some? ==>
              SwiftInt.IntMin < next <= SwiftInt.IntMax + 1 && SwiftInt.ParseDecimal(page) == Some(next - 1)
  {
    match SwiftInt.ParseInt(page)
    case Some(n) => n + 1
    case None => cursor
  }

  /** A page number the server writes as `"\(n)"` moves the cursor to `n + 1`. */
  lemma NextCursorReadsPage(n: int, cursor: int)
    requires SwiftInt.InIntRange(n)
    ensures NextCursor(SwiftInt.IntToString(n), cursor) == n + 1
  {
    SwiftInt.ParseIntRoundTrip(n);
  }

  /** `fetchExercises` up to the request: when the guard passes, loading starts and the
      last error is cleared. */
  function Begin(s: FetchState): (t: FetchState)
    ensures !CanFetch(t)
    ensures !CanFetch(s) ==> t == s
    ensures CanFetch(s) ==> t.isLoading && t.error == None
    ensures t.exercises == s.exercises && t.currentPage == s.currentPage && t.hasMorePages == s.hasMorePages
  {
    if CanFetch(s) then s.(isLoading := true, error := None) else s
  }

  /** `fetchExercises` after the request returned `outcome`. */
  function Complete(s: FetchState, outcome: Result<ExerciseResponse, Network.NetworkError>): (t: FetchState)
    ensures !t.isLoading && s.exercises <= t.exercises
    ensures outcome.Success? && outcome.value.code == 200 ==>
              && |t.exercises| == |s.exercises| + |outcome.value.data|
              && (t.hasMorePages <==> t.currentPage <= outcome.value.pagination.totalPages)
              && t.error == s.error
    ensures !(outcome.Success? && outcome.value.code == 200) ==>
              && t.exercises == s.exercises && t.currentPage == s.currentPage
              && t.hasMorePages == s.hasMorePages && t.error.Some?
  {
    match outcome
    case Success(response) =>
      if response.code == 200 then
        var cursor := NextCursor(response.pagination.page, s.currentPage);
        s.(exercises := s.exercises + response.data,
           currentPage := cursor,
           hasMorePages := cursor <= response.pagination.totalPages,
           isLoading := false)
      else
        s.(error := Some(ApplicationCodeError(response.code)), isLoading := false)
    case Failure(e) =>
      s.(error := Some(e), isLoading := false)
  }

  /** One whole call of `fetchExercises` that nothing else interleaves with. */
  function Fetch(s: FetchState, outcome: Result<ExerciseResponse, Network.NetworkError>): (t: FetchState)
    ensures !CanFetch(s) ==> t == s
    ensures CanFetch(s) ==> !t.isLoading
    ensures s.exercises <= t.exercises
  {
    if CanFetch(s) then Complete(Begin(s), outcome) else s
  }

  /** The first three statements of `refresh`. */
  function Reset(s: FetchState): (t: FetchState)
    ensures t.exercises == [] && t.currentPage == 1 && t.hasMorePages
    ensures t.isLoading == s.isLoading && t.error == s.error
    ensures CanFetch(t) <==> !s.isLoading
  {
    s.(exercises := [], currentPage := 1, hasMorePages := true)
  }

  /** What one whole fetch promises: a refused fetch changes nothing; an admitted one
      ends idle; a 200 envelope appends its exercises in order, moves the cursor and
      recomputes the exhausted flag from the new cursor; any other outcome keeps the
      list, cursor and flag and stores the error. */
  lemma FetchStep(s: FetchState, outcome: Result<ExerciseResponse, Network.NetworkError>)
    ensures var t := Fetch(s, outcome);
      && (!CanFetch(s) ==> t == s)
      && (CanFetch(s) ==> !t.isLoading)
      && (CanFetch(s) && outcome.Success? && outcome.value.code == 200 ==>
            && t.exercises == s.exercises + outcome.value.data
            && t.currentPage == NextCursor(outcome.value.pagination.page, s.currentPage)
            && (t.hasMorePages <==> t.currentPage <= outcome.value.pagination.totalPages)
            && t.error == None)
      && (CanFetch(s) && !(outcome.Success? && outcome.value.code == 200) ==>
            && t.exercises == s.exercises && t.currentPage == s.currentPage && t.hasMorePages == s.hasMorePages
            && t.error == Some(if outcome.Failure? then outcome.error else ApplicationCodeError(outcome.value.code)))
  {
  }

  /** A sequence of fetch calls, each completing before the next starts. */
  function FetchSession(s: FetchState, outcomes: seq<Result<ExerciseResponse, Network.NetworkError>>): FetchState
    decreases |outcomes|
  {
    if outcomes == [] then s else FetchSession(Fetch(s, outcomes[0]), outcomes[1..])
  }

  /** Every fetch of the session passes the guard. */
  predicate AllAdmitted(s: FetchState, outcomes: seq<Result<ExerciseResponse, Network.NetworkError>>)
    decreases |outcomes|
  {
    outcomes == [] || (CanFetch(s) && AllAdmitted(Fetch(s, outcomes[0]), outcomes[1..]))
  }

  /** The exercises the 200 envelopes among `outcomes` carry, in arrival order. */
  function Delivered(outcomes: seq<Result<ExerciseResponse, Network.NetworkError>>): seq<Exercise>
    decreases |outcomes|
  {
    if outcomes == [] then []
    else
      var first := if outcomes[0].Success? && outcomes[0].value.code == 200 then outcomes[0].value.data else [];
      first + Delivered(outcomes[1..])
  }

  /** Without a refresh the list only grows: what was loaded stays, in place. */
  lemma {:induction false} ListOnlyGrows(s: FetchState, outcomes: seq<Result<ExerciseResponse, Network.NetworkError>>)
    ensures s.exercises <= FetchSession(s, outcomes).exercises
    decreases |outcomes|
  {
    if outcomes != [] {
      var t := Fetch(s, outcomes[0]);
      assert s.exercises <= t.exercises;
      ListOnlyGrows(t, outcomes[1..]);
    }
  }

  /** When every fetch is admitted, the list is the old list followed by every page the
      server delivered, in arrival order, with nothing dropped or merged. */
  lemma {:induction false} AdmittedSessionAppends(s: FetchState, outcomes: seq<Result<ExerciseResponse, Network.NetworkError>>)
    requires AllAdmitted(s, outcomes)
    ensures FetchSession(s, outcomes).exercises == s.exercises + Delivered(outcomes)
    ensures |FetchSession(s, outcomes).exercises| == |s.exercises| + |Delivered(outcomes)|
    decreases |outcomes|
  {
    if outcomes != [] {
      var t := Fetch(s, outcomes[0]);
      AdmittedSessionAppends(t, outcomes[1..]);
      var first := if outcomes[0].Success? && outcomes[0].value.code == 200 then outcomes[0].value.data else [];
      FetchStep(s, outcomes[0]);
      assert t.exercises == s.exercises + first;
      assert FetchSession(s, outcomes) == FetchSession(t, outcomes[1..]);
      assert Delivered(outcomes) == first + Delivered(outcomes[1..]);
      assert s.exercises + first + Delivered(outcomes[1..]) == s.exercises + (first + Delivered(outcomes[1..]));
    }
  }

  /** A page envelope for the scenario below: 3 pages in all, this one numbered `page`. */
  function ScenarioPage(data: seq<Exercise>, page: string): ExerciseResponse {
    ExerciseResponse(200, "success", data, Pagination(60, page, 20, 3))
  }

  /** Three pages of 20 from a server that reports 3 pages: afterwards 60 exercises are
      loaded in page order, no more pages remain, and a fourth fetch is refused. */
  lemma ThreePageScenario(p1: seq<Exercise>, p2: seq<Exercise>, p3: seq<Exercise>,
                          fourth: Result<ExerciseResponse, Network.NetworkError>)
    requires |p1| == |p2| == |p3| == 20
    ensures var s := FetchSession(Initial, [Success(ScenarioPage(p1, "1")), Success(ScenarioPage(p2, "2")),
                                           Success(ScenarioPage(p3, "3"))]);
      && s.exercises == p1 + p2 + p3 && |s.exercises| == 60
      && !s.hasMorePages && !s.isLoading
      && Fetch(s, fourth) == s
  {
    SwiftInt.ParseIntRoundTrip(1);
    SwiftInt.ParseIntRoundTrip(2);
    SwiftInt.ParseIntRoundTrip(3);
    assert SwiftInt.IntToString(1) == "1" && SwiftInt.IntToString(2) == "2" && SwiftInt.IntToString(3) == "3";
    var outcomes: seq<Result<ExerciseResponse, Network.NetworkError>> := [Success(ScenarioPage(p1, "1")), Success(ScenarioPage(p2, "2")), Success(ScenarioPage(p3, "3"))];
    var s1 := Fetch(Initial, outcomes[0]);
    var s2 := Fetch(s1, outcomes[1]);
    var s3 := Fetch(s2, outcomes[2]);
    assert s1.currentPage == 2 && s1.hasMorePages;
    assert s2.currentPage == 3 && s2.hasMorePages;
    assert s3.currentPage == 4 && !s3.hasMorePages;
    assert FetchSession(Initial, outcomes) == FetchSession(s1, outcomes[1..]);
    assert FetchSession(s1, outcomes[1..]) == FetchSession(s2, outcomes[2..]) by {
      assert outcomes[1..][0] == outcomes[1] && outcomes[1..][1..] == outcomes[2..];
    }
    assert FetchSession(s2, outcomes[2..]) == FetchSession(s3, outcomes[3..]) by {
      assert outcomes[2..][0] == outcomes[2] && outcomes[2..][1..] == outcomes[3..];
    }
    assert outcomes[3..] == [];
  }

  /** A 200 envelope whose page number does not parse leaves the cursor where it was, so
      the next fetch asks for the same page again and its exercises arrive twice. */
  lemma UnparsedPageRepeats(s: FetchState, r: ExerciseResponse)
    requires CanFetch(s) && r.code == 200 && SwiftInt.ParseInt(r.pagination.page) == None
    requires s.currentPage <= r.pagination.totalPages
    ensures var t := Fetch(s, Success(r));
      && CanFetch(t) && PageEndpoint(t.currentPage) == PageEndpoint(s.currentPage)
      && Fetch(t, Success(r)).exercises == s.exercises + r.data + r.data
  {
  }

  /** `refresh` while a fetch is in flight: the reset happens, the latch refuses the
      refresh's own fetch, and the page that was in flight, whichever it was, becomes
      the first page of the refreshed list and sets the cursor. */
  lemma RefreshDuringFetch(s: FetchState, r: ExerciseResponse)
    requires CanFetch(s) && r.code == 200
    ensures var inFlight := Begin(s);
      var refreshed := Begin(Reset(inFlight));
      && refreshed == Reset(inFlight) && refreshed.isLoading
      && Complete(refreshed, Success(r)).exercises == r.data
      && Complete(refreshed, Success(r)).currentPage == NextCursor(r.pagination.page, 1)
  {
  }

  /** The fetcher's published and private state. Each method's first `ensures` pins its
      effect on `State()` to `Begin`, `Complete` or `Reset` above. */
  class ExerciseViewModel {
    var exercises: seq<Exercise>
    var isLoading: bool
    var error: Option<Network.NetworkError>
    var currentPage: int
    var hasMorePages: bool
    var isNetworkConnected: bool

    constructor ()
      ensures State() == Initial && !isNetworkConnected
    {
      exercises := [];
      isLoading := false;
      error := None;
      currentPage := 1;
      hasMorePages := true;
      isNetworkConnected := false;
    }

    function State(): FetchState
      reads this
    {
      FetchState(exercises, currentPage, hasMorePages, isLoading, error)
    }

    /** `fetchExercises` up to the request. Returns the path of the page to request, or
        nothing when the guard refuses (exhausted, or a fetch already in flight). */
    method BeginFetch() returns (endpoint: Option<string>)
      modifies this
      ensures State() == Begin(old(State()))
      ensures isNetworkConnected == old(isNetworkConnected)
      ensures endpoint.Some? <==> old(hasMorePages && !isLoading)
      ensures endpoint.None? ==> unchanged(this)
      ensures endpoint.Some? ==> isLoading && error == None && endpoint.value == PageEndpoint(currentPage)
      ensures exercises == old(exercises) && currentPage == old(currentPage) && hasMorePages == old(hasMorePages)
    {
      if !(hasMorePages && !isLoading) {
        return None;
      }
      isLoading := true;
      error := None;
      endpoint := Some(PageEndpoint(currentPage));
    }

    /** `fetchExercises` after the request returned `outcome`. Nothing is checked on
        resumption: whatever state the fetcher is in receives the outcome. */
    method CompleteFetch(outcome: Result<ExerciseResponse, Network.NetworkError>)
      modifies this
      ensures State() == Complete(old(State()), outcome)
      ensures isNetworkConnected == old(isNetworkConnected)
      ensures !isLoading
      ensures outcome.Success? && outcome.value.code == 200 ==>
        && exercises == old(exercises) + outcome.value.data
        && currentPage == NextCursor(outcome.value.pagination.page, old(currentPage))
        && (hasMorePages <==> currentPage <= outcome.value.pagination.totalPages)
        && error == old(error)
      ensures !(outcome.Success? && outcome.value.code == 200) ==>
        && exercises == old(exercises) && currentPage == old(currentPage) && hasMorePages == old(hasMorePages)
      ensures outcome.Success? && outcome.value.code != 200 ==> error == Some(ApplicationCodeError(outcome.value.code))
      ensures outcome.Failure? ==> error == Some(outcome.error)
    {
      match outcome {
        case Success(response) =>
          if response.code == 200 {
            exercises := exercises + response.data;
            match SwiftInt.ParseInt(response.pagination.page) {
              case Some(page) => currentPage := page + 1;
              case None =>
            }
            hasMorePages := currentPage <= response.pagination.totalPages;
            isLoading := false;
          } else {
            error := Some(ApplicationCodeError(response.code));
            isLoading := false;
          }
        case Failure(e) =>
          error := Some(e);
          isLoading := false;
      }
    }

    /** `refresh` up to its fetch's request: the list is emptied, the cursor goes back to
        1 and more pages are assumed; the fetch then starts unless one is in flight. */
    method Refresh() returns (endpoint: Option<string>)
      modifies this
      ensures State() == Begin(Reset(old(State())))
      ensures exercises == [] && currentPage == 1 && hasMorePages
      ensures isNetworkConnected == old(isNetworkConnected)
      ensures endpoint.Some? <==> !old(isLoading)
      ensures endpoint.Some? ==> endpoint.value == PageEndpoint(1) && error == None
      ensures endpoint.None? ==> isLoading && error == old(error)
    {
      exercises := [];
      currentPage := 1;
      hasMorePages := true;
      endpoint := BeginFetch();
    }

    /** The reachability handler: records whether the path is satisfied and, when it is
        and nothing is loaded, calls `fetchExercises` (which its own guard may refuse). */
    method PathUpdate(satisfied: bool) returns (triggered: bool, endpoint: Option<string>)
      modifies this
      ensures isNetworkConnected == satisfied
      ensures triggered <==> satisfied && old(exercises) == []
      ensures triggered ==> State() == Begin(old(State())) && (endpoint.Some? <==> CanFetch(old(State())))
      ensures !triggered ==> State() == old(State()) && endpoint == None
    {
      isNetworkConnected := satisfied;
      triggered := isNetworkConnected && exercises == [];
      if triggered {
        endpoint := BeginFetch();
      } else {
        endpoint := None;
      }
    }
  }
}
