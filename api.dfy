/**
 * The attendance API glue of `FactorialApi`: the endpoint table, the JSON body
 * of the clock and break calls, what each call makes of the status it gets
 * back, how `FactorialApi::new` completes the configuration (the user id from
 * the `access_id` cookie and the employee list, the weekly working hours from
 * the last contract), and how `delete_all_shifts` removes a day's shifts.
 *
 * Every exchange with the server comes in as an input. A parsed JSON list is
 * given as the `to_string` renderings of the fields the code reads (a JSON
 * integer renders as its digits, a float with its decimal point, a string with
 * its quotes, a missing field as `null`).
 */
module Api {
  import opened Wrappers
  import opened Text
  import opened Http
  import Login
  import Scraper

  datatype Endpoint = BreakStart | BreakEnd | ClockIn | ClockOut | Shifts | Leaves | Holidays
  {
    /** `ApiEndpoint::path`. */
    function Path(): (r: string)
      ensures |r| >= 2 && r[0] == '/' && r[|r| - 1] == '/'
    {
      match this
      case BreakStart => "/attendance/shifts/break_start/"
      case BreakEnd => "/attendance/shifts/break_end/"
      case ClockIn => "/attendance/shifts/clock_in/"
      case ClockOut => "/attendance/shifts/clock_out/"
      case Shifts => "/attendance/shifts/"
      case Leaves => "/leaves/"
      case Holidays => "/company_holidays/"
    }
  }

  const Base := "https://api.factorialhr.com"
  const CompaniesUrl := "https://api.factorialhr.com/companies"
  const EmployeesUrl := "https://api.factorialhr.com/employees"
  const ContractsUrl := "https://api.factorialhr.com/contracts/contract_versions"

  /** No two endpoints share a path. */
  lemma PathsDistinct(e1: Endpoint, e2: Endpoint)
    requires e1 != e2
    ensures e1.Path() != e2.Path()
  {
    var p1, p2 := e1.Path(), e2.Path();
    if |p1| == |p2| {
      assert p1[1] != p2[1] || p1[12] != p2[12] || p1[20] != p2[20];
    }
  }

  /** The URL `post_api_call` posts to. */
  function PostUrl(e: Endpoint): (r: string)
    ensures |r| == |Base| + |e.Path()| && r[..|Base|] == Base && r[|Base|..] == e.Path()
  {
    Base + e.Path()
  }

  /** Different endpoints are posted to different URLs. */
  lemma PostUrlInjective(e1: Endpoint, e2: Endpoint)
    ensures PostUrl(e1) == PostUrl(e2) <==> e1 == e2
  {
    if e1 != e2 {
      PathsDistinct(e1, e2);
      assert PostUrl(e1)[|Base|..] != PostUrl(e2)[|Base|..];
    }
  }

  /**
   * The fields of `Configuration` the API reads. A working-hours value of 0.0
   * means "not known yet".
   */
  datatype Configuration = Configuration(email: string, userId: string, workingHours: real, locationType: string)

  /** Why an API call or the set-up fails. */
  datatype ApiError =
    | LoginFailed(reason: Login.LoginError)  // `authenticate_client()?`
    | Transport                              // `send()?`
    | MalformedJson                          // `response.json()?`
    | OpenShiftExists                        // "An open shift already exists. Doing nothing."
    | CouldNotOpenShift                      // "Could not open shift"
    | CouldNotCloseShift                     // "Could not close shift"
    | BreakConflict                          // "There already in an ongoing break or no open shift ..."
    | CouldNotStartBreak                     // "Could not start a break"
    | CouldNotEndBreak                       // "Could not end break"
    | NoContract                             // "The employee has no contract. ..."
    | UnusualWorkingHours                    // "The amount of working hours is either in a format ..."
    | NotAFloat                              // `parse::<f32>()?`
    | DeleteFailed                           // the empty message of `delete_all_shifts`

  // ---------------------------------------------------------------------------
  // The clock and break calls
  // ---------------------------------------------------------------------------

  /** The JSON object of a clock or break call. */
  function RequestBody(config: Configuration, time: string): (body: map<string, string>)
    ensures body.Keys == {"now", "location_type", "source"}
    ensures body["now"] == time && body["location_type"] == config.locationType && body["source"] == "desktop"
  {
    map["now" := time, "location_type" := config.locationType, "source" := "desktop"]
  }

  /** `make_body`: three inserts into an empty map. */
  method MakeBody(config: Configuration, time: string) returns (params: map<string, string>)
    ensures params == RequestBody(config, time)
  {
    params := map[];
    params := params["now" := time];
    params := params["location_type" := config.locationType];
    params := params["source" := "desktop"];
  }

  /** `post_api_call`: a JSON POST of the body to the endpoint. */
  function PostApiCall(config: Configuration, e: Endpoint, time: string): (r: Request)
    ensures r.verb == Post && r.url == PostUrl(e) && r.query == []
    ensures r.body == Json(RequestBody(config, time))
  {
    Request(Post, PostUrl(e), [], Json(RequestBody(config, time)))
  }

  /** The result of a call the code classifies by status. */
  function Classify(reply: Exchange, success: int, conflict: ApiError, other: ApiError): (r: Result<(), ApiError>)
    ensures r.Ok? <==> reply.Delivered? && reply.response.status == success
    ensures reply.TransportFailed? ==> r == Err(Transport)
    ensures reply.Delivered? && reply.response.status == CONFLICT != success ==> r == Err(conflict)
    ensures reply.Delivered? && reply.response.status !in {success, CONFLICT} ==> r == Err(other)
  {
    if reply.TransportFailed? then Err(Transport)
    else if reply.response.status == success then Ok(())
    else if reply.response.status == CONFLICT then Err(conflict)
    else Err(other)
  }

  /** `clock_in`: 201 opens the shift, 409 means one is already open. */
  function ClockInResult(reply: Exchange): (r: Result<(), ApiError>)
    ensures r.Ok? <==> reply.Delivered? && reply.response.status == CREATED
    ensures reply.TransportFailed? ==> r == Err(Transport)
    ensures reply.Delivered? && reply.response.status == CONFLICT ==> r == Err(OpenShiftExists)
    ensures reply.Delivered? && reply.response.status !in {CREATED, CONFLICT} ==> r == Err(CouldNotOpenShift)
  {
    Classify(reply, CREATED, OpenShiftExists, CouldNotOpenShift)
  }

  /** `clock_out`: only 200 closes the shift. */
  function ClockOutResult(reply: Exchange): (r: Result<(), ApiError>)
    ensures r.Ok? <==> reply.Delivered? && reply.response.status == OK
    ensures reply.TransportFailed? ==> r == Err(Transport)
    ensures reply.Delivered? && reply.response.status != OK ==> r == Err(CouldNotCloseShift)
  {
    Classify(reply, OK, CouldNotCloseShift, CouldNotCloseShift)
  }

  /** `break_start`: 201 starts the break, 409 means a break is on or no shift is open. */
  function BreakStartResult(reply: Exchange): (r: Result<(), ApiError>)
    ensures r.Ok? <==> reply.Delivered? && reply.response.status == CREATED
    ensures reply.TransportFailed? ==> r == Err(Transport)
    ensures reply.Delivered? && reply.response.status == CONFLICT ==> r == Err(BreakConflict)
    ensures reply.Delivered? && reply.response.status !in {CREATED, CONFLICT} ==> r == Err(CouldNotStartBreak)
  {
    Classify(reply, CREATED, BreakConflict, CouldNotStartBreak)
  }

  /** `break_end`: only 200 ends the break. */
  function BreakEndResult(reply: Exchange): (r: Result<(), ApiError>)
    ensures r.Ok? <==> reply.Delivered? && reply.response.status == OK
    ensures reply.TransportFailed? ==> r == Err(Transport)
    ensures reply.Delivered? && reply.response.status != OK ==> r == Err(CouldNotEndBreak)
  {
    Classify(reply, OK, CouldNotEndBreak, CouldNotEndBreak)
  }

  /** An action of the command line: the request it posts and what it makes of the reply. */
  datatype Action = Action(request: Request, result: Result<(), ApiError>)

  function DoClockIn(config: Configuration, time: string, reply: Exchange): (a: Action)
    ensures a.request.verb == Post && a.request.url == PostUrl(ClockIn) && a.request.body == Json(RequestBody(config, time))
    ensures a.result.Ok? <==> reply.Delivered? && reply.response.status == CREATED
  {
    Action(PostApiCall(config, ClockIn, time), ClockInResult(reply))
  }

  function DoClockOut(config: Configuration, time: string, reply: Exchange): (a: Action)
    ensures a.request.verb == Post && a.request.url == PostUrl(ClockOut) && a.request.body == Json(RequestBody(config, time))
    ensures a.result.Ok? <==> reply.Delivered? && reply.response.status == OK
  {
    Action(PostApiCall(config, ClockOut, time), ClockOutResult(reply))
  }

  function DoBreakStart(config: Configuration, time: string, reply: Exchange): (a: Action)
    ensures a.request.verb == Post && a.request.url == PostUrl(BreakStart) && a.request.body == Json(RequestBody(config, time))
    ensures a.result.Ok? <==> reply.Delivered? && reply.response.status == CREATED
  {
    Action(PostApiCall(config, BreakStart, time), BreakStartResult(reply))
  }

  function DoBreakEnd(config: Configuration, time: string, reply: Exchange): (a: Action)
    ensures a.request.verb == Post && a.request.url == PostUrl(BreakEnd) && a.request.body == Json(RequestBody(config, time))
    ensures a.result.Ok? <==> reply.Delivered? && reply.response.status == OK
  {
    Action(PostApiCall(config, BreakEnd, time), BreakEndResult(reply))
  }

  /**
   * The four actions post to four different URLs, and a 409 tells the two
   * starting actions apart from every other failure: their messages differ.
   */
  lemma ActionsAreDistinguishable(config: Configuration, time: string, reply: Exchange)
    ensures var clockIn, clockOut := DoClockIn(config, time, reply).request.url, DoClockOut(config, time, reply).request.url;
            var breakStart, breakEnd := DoBreakStart(config, time, reply).request.url, DoBreakEnd(config, time, reply).request.url;
            && clockIn != clockOut && clockIn != breakStart && clockIn != breakEnd
            && clockOut != breakStart && clockOut != breakEnd && breakStart != breakEnd
    ensures reply.Delivered? && reply.response.status == CONFLICT ==>
              ClockInResult(reply) != Err(CouldNotOpenShift) && BreakStartResult(reply) != Err(CouldNotStartBreak)
  {
    PostUrlInjective(ClockIn, ClockOut);
    PostUrlInjective(ClockIn, BreakStart);
    PostUrlInjective(ClockIn, BreakEnd);
    PostUrlInjective(ClockOut, BreakStart);
    PostUrlInjective(ClockOut, BreakEnd);
    PostUrlInjective(BreakStart, BreakEnd);
  }

  // ---------------------------------------------------------------------------
  // The user id: the `access_id` cookie and the employee list
  // ---------------------------------------------------------------------------

  /** `access_id":` as it appears URL-encoded in the `factorial_data` cookie. */
  const Needle := "access_id%22%3A"

  /** Where the id starts in a cookie that holds the needle: just past its first occurrence. */
  function IdStart(cookie: string): (r: Option<nat>)
    ensures r.Some? <==> Contains(cookie, Needle)
    ensures r.Some? ==> |Needle| <= r.value <= |cookie| && OccursAt(cookie, Needle, r.value - |Needle|)
    ensures r.Some? ==> forall j: nat :: j < r.value - |Needle| ==> !OccursAt(cookie, Needle, j)
  {
    match Find(cookie, Needle, 0)
    case None => None
    case Some(i) => Some(i + |Needle|)
  }

  /** The cookies the code can read without an `unwrap` panicking: a `%` follows the needle. */
  predicate Terminated(cookie: string) {
    match IdStart(cookie)
    case None => true
    case Some(k) => '%' in cookie[k..]
  }

  /** The id a cookie carries: the text between the first needle and the next `%`. */
  function CookieId(cookie: string): (r: Option<string>)
    requires Terminated(cookie)
    ensures r.Some? <==> Contains(cookie, Needle)
    ensures r.Some? ==> '%' !in r.value
    ensures r.Some? ==> var k := IdStart(cookie).value;
                        k + |r.value| < |cookie| && cookie[k..k + |r.value|] == r.value &&
                        cookie[k + |r.value|] == '%'
  {
    match IdStart(cookie)
    case None => None
    case Some(k) =>
      var rest := cookie[k..];
      PercentFound(rest);
      var e := Find(rest, "%", 0).value;
      assert forall j :: 0 <= j < e ==> rest[j] != '%' by {
        forall j | 0 <= j < e ensures rest[j] != '%' {
          assert !OccursAt(rest, "%", j);
          assert rest[j..j + 1] == [rest[j]];
        }
      }
      Some(rest[..e])
  }

  /** `find('%')` on a text that holds a `%` finds one. */
  lemma PercentFound(rest: string)
    requires '%' in rest
    ensures Find(rest, "%", 0).Some?
  {
    var i := IndexOf(rest, '%');
    assert rest[i..i + 1] == "%";
    assert OccursAt(rest, "%", i);
  }

  /** Some index of `c` in `s`. */
  function IndexOf(s: string, c: char): (i: nat)
    requires c in s
    ensures i < |s| && s[i] == c
  {
    if s[0] == c then 0 else 1 + IndexOf(s[1..], c)
  }

  /** The id the cookie loop settles on: the last cookie that carries one wins; "" when none does. */
  function AccessIdOf(cookies: seq<string>): string
    requires forall i :: 0 <= i < |cookies| ==> Terminated(cookies[i])
  {
    if cookies == [] then ""
    else match CookieId(cookies[|cookies| - 1])
      case Some(id) => id
      case None => AccessIdOf(cookies[..|cookies| - 1])
  }

  /** No cookie holds the needle: the id stays "". */
  lemma {:induction false} AccessIdDefault(cookies: seq<string>)
    requires forall i :: 0 <= i < |cookies| ==> Terminated(cookies[i])
    requires forall i :: 0 <= i < |cookies| ==> !Contains(cookies[i], Needle)
    ensures AccessIdOf(cookies) == ""
    decreases |cookies|
  {
    if cookies != [] {
      AccessIdDefault(cookies[..|cookies| - 1]);
    }
  }

  /** The last cookie that holds the needle decides the id. */
  lemma {:induction false} AccessIdLastWins(cookies: seq<string>, k: nat)
    requires forall i :: 0 <= i < |cookies| ==> Terminated(cookies[i])
    requires k < |cookies| && Contains(cookies[k], Needle)
    requires forall j :: k < j < |cookies| ==> !Contains(cookies[j], Needle)
    ensures AccessIdOf(cookies) == CookieId(cookies[k]).value
    decreases |cookies|
  {
    if k < |cookies| - 1 {
      var init := cookies[..|cookies| - 1];
      assert init[k] == cookies[k];
      AccessIdLastWins(init, k);
    }
  }

  /** The id never contains a `%`. */
  lemma {:induction false} AccessIdHasNoPercent(cookies: seq<string>)
    requires forall i :: 0 <= i < |cookies| ==> Terminated(cookies[i])
    ensures '%' !in AccessIdOf(cookies)
    decreases |cookies|
  {
    if cookies != [] {
      AccessIdHasNoPercent(cookies[..|cookies| - 1]);
    }
  }

  /** The cookie loop of `FactorialApi::new`. */
  method ExtractAccessId(cookies: seq<string>) returns (accessId: string)
    requires forall i :: 0 <= i < |cookies| ==> Terminated(cookies[i])
    ensures accessId == AccessIdOf(cookies)
  {
    accessId := "";
    for i := 0 to |cookies|
      invariant accessId == AccessIdOf(cookies[..i])
    {
      assert cookies[..i + 1][..i] == cookies[..i];
      var haystack := cookies[i];
      var start := IdStart(haystack);
      if start.Some? {
        var id := haystack[start.value..];
        PercentFound(id);
        accessId := id[..Find(id, "%", 0).value];
      }
    }
    assert cookies[..|cookies|] == cookies;
  }

  /** An employee of the list, as the renderings of its `access_id` and `id` fields. */
  datatype Employee = Employee(accessId: string, id: string)

  /** The user id after the employee loop: the id of the last employee with that access id, else `userId` as it was. */
  function UserIdOf(employees: seq<Employee>, accessId: string, userId: string): string {
    if employees == [] then userId
    else
      var last := employees[|employees| - 1];
      if last.accessId == accessId then last.id else UserIdOf(employees[..|employees| - 1], accessId, userId)
  }

  /** The user id stays as it was when no employee has the access id. */
  lemma {:induction false} UserIdKeptWithoutMatch(employees: seq<Employee>, accessId: string, userId: string)
    requires forall i :: 0 <= i < |employees| ==> employees[i].accessId != accessId
    ensures UserIdOf(employees, accessId, userId) == userId
  {
    if employees != [] {
      var init := employees[..|employees| - 1];
      assert forall i :: 0 <= i < |init| ==> init[i] == employees[i];
      UserIdKeptWithoutMatch(init, accessId, userId);
    }
  }

  /** When some employee has the access id, the user id is the id of the last one that has it. */
  lemma {:induction false} UserIdIsLastMatch(employees: seq<Employee>, accessId: string, userId: string, i: nat)
    requires i < |employees| && employees[i].accessId == accessId
    ensures exists k :: i <= k < |employees| && employees[k].accessId == accessId &&
                        UserIdOf(employees, accessId, userId) == employees[k].id &&
                        forall j :: k < j < |employees| ==> employees[j].accessId != accessId
  {
    var n := |employees|;
    if employees[n - 1].accessId == accessId {
      assert employees[n - 1].id == UserIdOf(employees, accessId, userId);
    } else {
      var init := employees[..n - 1];
      UserIdIsLastMatch(init, accessId, userId, i);
      var k :| i <= k < |init| && init[k].accessId == accessId && UserIdOf(init, accessId, userId) == init[k].id &&
               forall j :: k < j < |init| ==> init[j].accessId != accessId;
      assert forall j :: k < j < n - 1 ==> employees[j] == init[j];
      assert employees[k] == init[k];
    }
  }

  /** The employee loop of `FactorialApi::new`, overwriting the user id in place. */
  method LookupUserId(employees: seq<Employee>, accessId: string, userId: string) returns (id: string)
    ensures id == UserIdOf(employees, accessId, userId)
  {
    id := userId;
    for i := 0 to |employees|
      invariant id == UserIdOf(employees[..i], accessId, userId)
    {
      assert employees[..i + 1][..i] == employees[..i];
      if employees[i].accessId == accessId {
        id := employees[i].id;
      }
    }
    assert employees[..|employees|] == employees;
  }

  // ---------------------------------------------------------------------------
  // The working hours: the last contract
  // ---------------------------------------------------------------------------

  /**
   * A weekly amount rendered in hundredths of an hour ("4000") as the decimal
   * the code hands to the float parser ("40.00").
   */
  function HoursText(s: seq<byte>): (r: seq<byte>)
    requires |s| == 4
    ensures |r| == 5 && r[2] == '.' as int && r[..2] + r[3..] == s
  {
    s[0..2] + ['.' as int] + s[2..4]
  }

  /**
   * `get(0..2)` and `get(2..4)` do not panic: a four-octet rendering of the
   * last contract's hours splits at a character boundary. (A string value such
   * as `"é"` renders in four octets and does not.)
   */
  predicate HoursSplittable(contracts: seq<seq<byte>>) {
    contracts != [] && |contracts[|contracts| - 1]| == 4 ==> Scraper.IsCharBoundary(contracts[|contracts| - 1], 2)
  }

  /** The working hours of the last contract, or why there are none. */
  function DeriveWorkingHours(contracts: seq<seq<byte>>, f32: seq<byte> -> Option<real>): (r: Result<real, ApiError>)
    requires HoursSplittable(contracts)
    ensures contracts == [] ==> r == Err(NoContract)
    ensures contracts != [] && |contracts[|contracts| - 1]| != 4 ==> r == Err(UnusualWorkingHours)
    ensures contracts != [] && |contracts[|contracts| - 1]| == 4 ==>
              var t := HoursText(contracts[|contracts| - 1]);
              && (r == Err(NotAFloat) <==> f32(t).None?)
              && (r.Ok? ==> Some(r.value) == f32(t))
              && (f32(t).Some? ==> r == Ok(f32(t).value))
  {
    if contracts == [] then Err(NoContract)
    else
      var hours := contracts[|contracts| - 1];
      if |hours| != 4 then Err(UnusualWorkingHours)
      else match f32(HoursText(hours))
        case None => Err(NotAFloat)
        case Some(v) => Ok(v)
  }

  // ---------------------------------------------------------------------------
  // FactorialApi::new
  // ---------------------------------------------------------------------------

  /** What a GET of a JSON list gives: the list, or why there is none. */
  datatype Listing<T> = Listed(items: seq<T>) | NotJson | NotDelivered

  /** Calls and their result. */
  datatype Trace<T> = Trace(sent: seq<Request>, result: Result<T, ApiError>)

  function ContractsRequest(userId: string): Request {
    Request(Get, ContractsUrl, [("employee_ids[]", userId)], NoBody)
  }

  /** The `access_id` extraction does not panic on the cookies of the companies reply. */
  predicate CookiesReadable(config: Configuration, companies: Exchange) {
    config.userId == "" && companies.Delivered? ==>
      forall i :: 0 <= i < |companies.response.cookies| ==> Terminated(companies.response.cookies[i])
  }

  /** The hours of the contracts reply are split without a panic, when they are asked for. */
  predicate ContractsReadable(config: Configuration, contracts: Listing<seq<byte>>) {
    config.workingHours == 0.0 && contracts.Listed? ==> HoursSplittable(contracts.items)
  }

  /** Step one of the set-up: the user id, looked up only when the configuration has none. */
  function UserStep(config: Configuration, companies: Exchange, employees: Listing<Employee>): Trace<string>
    requires CookiesReadable(config, companies)
  {
    if config.userId != "" then Trace([], Ok(config.userId))
    else if companies.TransportFailed? then Trace([GetRequest(CompaniesUrl)], Err(Transport))
    else
      var accessId := AccessIdOf(companies.response.cookies);
      var sent := [GetRequest(CompaniesUrl), GetRequest(EmployeesUrl)];
      match employees
      case NotDelivered => Trace(sent, Err(Transport))
      case NotJson => Trace(sent, Err(MalformedJson))
      case Listed(es) => Trace(sent, Ok(UserIdOf(es, accessId, "")))
  }

  /** Step two: the working hours, derived only when the configuration says 0.0. */
  function HoursStep(config: Configuration, userId: string, contracts: Listing<seq<byte>>,
                     f32: seq<byte> -> Option<real>): Trace<real>
    requires ContractsReadable(config, contracts)
  {
    if config.workingHours != 0.0 then Trace([], Ok(config.workingHours))
    else
      var sent := [ContractsRequest(userId)];
      match contracts
      case NotDelivered => Trace(sent, Err(Transport))
      case NotJson => Trace(sent, Err(MalformedJson))
      case Listed(cs) => Trace(sent, DeriveWorkingHours(cs, f32))
  }

  /** The whole set-up after the login: the configuration the API keeps, or the first error. */
  function Setup(login: Option<Login.LoginError>, config: Configuration, companies: Exchange,
                 employees: Listing<Employee>, contracts: Listing<seq<byte>>,
                 f32: seq<byte> -> Option<real>): Trace<Configuration>
    requires CookiesReadable(config, companies) && ContractsReadable(config, contracts)
  {
    if login.Some? then Trace([], Err(LoginFailed(login.value)))
    else
      var u := UserStep(config, companies, employees);
      if u.result.Err? then Trace(u.sent, Err(u.result.error))
      else
        var h := HoursStep(config, u.result.value, contracts, f32);
        if h.result.Err? then Trace(u.sent + h.sent, Err(h.result.error))
        else Trace(u.sent + h.sent, Ok(config.(userId := u.result.value, workingHours := h.result.value)))
  }

  /**
   * `FactorialApi::new` after the login: the requests it issues and the
   * configuration it keeps are those of `Setup`. The two blocks of the source,
   * the user id and the working hours, are the two methods it calls.
   */
  method New(login: Option<Login.LoginError>, config: Configuration, companies: Exchange,
             employees: Listing<Employee>, contracts: Listing<seq<byte>>, f32: seq<byte> -> Option<real>)
    returns (sent: seq<Request>, result: Result<Configuration, ApiError>)
    requires CookiesReadable(config, companies) && ContractsReadable(config, contracts)
    ensures Trace(sent, result) == Setup(login, config, companies, employees, contracts, f32)
  {
    if login.Some? {
      return [], Err(LoginFailed(login.value));
    }
    var userSent, userId := FindUserId(config, companies, employees);
    if userId.Err? {
      return userSent, Err(userId.error);
    }
    var hoursSent, hours := FindWorkingHours(config, userId.value, contracts, f32);
    sent := userSent + hoursSent;
    if hours.Err? {
      return sent, Err(hours.error);
    }
    result := Ok(config.(userId := userId.value, workingHours := hours.value));
  }

  /** The user-id block of `FactorialApi::new`: companies, cookies, employees. */
  method FindUserId(config: Configuration, companies: Exchange, employees: Listing<Employee>)
    returns (sent: seq<Request>, result: Result<string, ApiError>)
    requires CookiesReadable(config, companies)
    ensures Trace(sent, result) == UserStep(config, companies, employees)
  {
    if config.userId != "" {
      return [], Ok(config.userId);
    }
    sent := [GetRequest(CompaniesUrl)];
    if companies.TransportFailed? {
      return sent, Err(Transport);
    }
    var accessId := ExtractAccessId(companies.response.cookies);
    sent := sent + [GetRequest(EmployeesUrl)];
    if employees.NotDelivered? {
      return sent, Err(Transport);
    }
    if employees.NotJson? {
      return sent, Err(MalformedJson);
    }
    var id := LookupUserId(employees.items, accessId, config.userId);
    result := Ok(id);
  }

  /** The working-hours block of `FactorialApi::new`: the last contract's weekly hours. */
  method FindWorkingHours(config: Configuration, userId: string, contracts: Listing<seq<byte>>,
                          f32: seq<byte> -> Option<real>)
    returns (sent: seq<Request>, result: Result<real, ApiError>)
    requires ContractsReadable(config, contracts)
    ensures Trace(sent, result) == HoursStep(config, userId, contracts, f32)
  {
    if config.workingHours != 0.0 {
      return [], Ok(config.workingHours);
    }
    sent := [ContractsRequest(userId)];
    if contracts.NotDelivered? {
      return sent, Err(Transport);
    }
    if contracts.NotJson? {
      return sent, Err(MalformedJson);
    }
    var cs := contracts.items;
    if |cs| == 0 {
      return sent, Err(NoContract);
    }
    var hoursString := cs[|cs| - 1];
    if |hoursString| != 4 {
      return sent, Err(UnusualWorkingHours);
    }
    var hoursFloat := f32(hoursString[0..2] + ['.' as int] + hoursString[2..4]);
    if hoursFloat.None? {
      return sent, Err(NotAFloat);
    }
    result := Ok(hoursFloat.value);
  }

  /**
   * A configured user id is kept and costs no request; a configured
   * working-hours value is kept and the contracts are not asked for.
   */
  lemma SetupKeepsConfiguredValues(login: Option<Login.LoginError>, config: Configuration, companies: Exchange,
                                   employees: Listing<Employee>, contracts: Listing<seq<byte>>,
                                   f32: seq<byte> -> Option<real>)
    requires CookiesReadable(config, companies) && ContractsReadable(config, contracts)
    ensures var t := Setup(login, config, companies, employees, contracts, f32);
            && (config.userId != "" ==> GetRequest(CompaniesUrl) !in t.sent && GetRequest(EmployeesUrl) !in t.sent)
            && (config.userId != "" && t.result.Ok? ==> t.result.value.userId == config.userId)
            && (config.workingHours != 0.0 ==> forall r :: r in t.sent ==> r.url != ContractsUrl)
            && (config.workingHours != 0.0 && t.result.Ok? ==> t.result.value.workingHours == config.workingHours)
            && (t.result.Ok? ==> t.result.value.email == config.email && t.result.value.locationType == config.locationType)
  {
  }

  /**
   * Without a configured user id, a successful set-up takes the id of the last
   * employee whose access id is the one in the cookies (still "" when none
   * matches), and asks for the contracts of exactly that id.
   */
  lemma SetupLooksUpUserId(config: Configuration, companies: Exchange, employees: Listing<Employee>,
                           contracts: Listing<seq<byte>>, f32: seq<byte> -> Option<real>)
    requires CookiesReadable(config, companies) && ContractsReadable(config, contracts)
    requires config.userId == ""
    ensures var t := Setup(None, config, companies, employees, contracts, f32);
            t.result.Ok? ==>
              && companies.Delivered? && employees.Listed?
              && t.result.value.userId == UserIdOf(employees.items, AccessIdOf(companies.response.cookies), "")
              && t.sent[..2] == [GetRequest(CompaniesUrl), GetRequest(EmployeesUrl)]
              && (config.workingHours == 0.0 ==> t.sent == t.sent[..2] + [ContractsRequest(t.result.value.userId)])
  {
  }

  /**
   * Without configured working hours, the set-up fails on an empty contract
   * list and on a last contract whose rendering is not four octets long, and
   * otherwise keeps what the float parser makes of "ab.cd".
   */
  lemma SetupDerivesWorkingHours(config: Configuration, companies: Exchange, employees: Listing<Employee>,
                                 cs: seq<seq<byte>>, f32: seq<byte> -> Option<real>)
    requires CookiesReadable(config, companies) && ContractsReadable(config, Listed(cs))
    requires config.workingHours == 0.0
    requires UserStep(config, companies, employees).result.Ok?
    ensures var t := Setup(None, config, companies, employees, Listed(cs), f32);
            && (cs == [] ==> t.result == Err(NoContract))
            && (cs != [] && |cs[|cs| - 1]| != 4 ==> t.result == Err(UnusualWorkingHours))
            && (t.result.Ok? ==> |cs[|cs| - 1]| == 4 &&
                                 f32(HoursText(cs[|cs| - 1])) == Some(t.result.value.workingHours))
            && (cs != [] && |cs[|cs| - 1]| == 4 ==>
                  var v := f32(HoursText(cs[|cs| - 1]));
                  && (v.None? ==> t.result == Err(NotAFloat))
                  && (v.Some? ==> t.result.Ok? && t.result.value.workingHours == v.value))
  {
  }

  // ---------------------------------------------------------------------------
  // delete_all_shifts
  // ---------------------------------------------------------------------------

  /** A shift of the list, as the renderings of its `day` and `id` fields. */
  datatype Shift = Shift(day: string, id: string)

  /** `i32::to_string`. */
  function IntegerText(n: int): (r: string)
    ensures |r| > 0 && (r[0] == '-' <==> n < 0)
  {
    if n < 0 then "-" + DecimalText(-n) else DecimalText(n)
  }

  /** The GET of the shifts of a month. */
  function ShiftsRequest(userId: string, month: nat, year: int): Request {
    Request(Get, Base + Shifts.Path(), [("employee_id", userId), ("month", DecimalText(month)), ("year", IntegerText(year))], NoBody)
  }

  function DeleteRequest(id: string): Request {
    Request(Delete, Base + Shifts.Path() + id, [], NoBody)
  }

  /** Different years render differently, a negative one with its sign. */
  lemma IntegerTextInjective(m: int, n: int)
    requires IntegerText(m) == IntegerText(n)
    ensures m == n
  {
    if m < 0 {
      assert DecimalText(-m) == IntegerText(m)[1..] == IntegerText(n)[1..] == DecimalText(-n);
      DecimalTextInjective(-m, -n);
    } else {
      DecimalTextInjective(m, n);
    }
  }

  /** The GET of a month's shifts names its user, its month and its year: no two months share one. */
  lemma ShiftsRequestIdentifiesMonth(u1: string, m1: nat, y1: int, u2: string, m2: nat, y2: int)
    requires ShiftsRequest(u1, m1, y1) == ShiftsRequest(u2, m2, y2)
    ensures u1 == u2 && m1 == m2 && y1 == y2
  {
    var q1 := ShiftsRequest(u1, m1, y1).query;
    var q2 := ShiftsRequest(u2, m2, y2).query;
    assert q1[1].1 == q2[1].1 && q1[2].1 == q2[2].1;
    DecimalTextInjective(m1, m2);
    IntegerTextInjective(y1, y2);
  }

  /** A delete names the shift it removes: different ids give different requests. */
  lemma DeleteRequestIdentifiesShift(a: string, b: string)
    requires DeleteRequest(a) == DeleteRequest(b)
    ensures a == b
  {
    var prefix := Base + Shifts.Path();
    assert a == (prefix + a)[|prefix|..] == (prefix + b)[|prefix|..] == b;
  }

  /** The ids of the shifts on the given day, in list order. */
  function MatchingIds(shifts: seq<Shift>, day: string): (ids: seq<string>)
    ensures |ids| <= |shifts|
  {
    if shifts == [] then []
    else
      var rest := MatchingIds(shifts[1..], day);
      if shifts[0].day == day then [shifts[0].id] + rest else rest
  }

  /** Every picked id is the id of a shift of the day, and every shift of the day is picked. */
  lemma {:induction false} MatchingIdsPickTheDay(shifts: seq<Shift>, day: string)
    ensures forall x :: x in MatchingIds(shifts, day) ==>
              exists k :: 0 <= k < |shifts| && shifts[k].day == day && shifts[k].id == x
    ensures forall k :: 0 <= k < |shifts| && shifts[k].day == day ==> shifts[k].id in MatchingIds(shifts, day)
    decreases |shifts|
  {
    if shifts != [] {
      var tail := shifts[1..];
      MatchingIdsPickTheDay(tail, day);
      assert forall k :: 1 <= k < |shifts| ==> shifts[k] == tail[k - 1];
      forall x | x in MatchingIds(shifts, day)
        ensures exists k :: 0 <= k < |shifts| && shifts[k].day == day && shifts[k].id == x
      {
        if x !in MatchingIds(tail, day) {
          assert shifts[0].day == day && shifts[0].id == x;
        } else {
          var k :| 0 <= k < |tail| && tail[k].day == day && tail[k].id == x;
          assert shifts[k + 1] == tail[k];
        }
      }
    }
  }

  /** In order: the ids of a concatenation are the concatenated ids. */
  lemma {:induction false} MatchingIdsAppend(a: seq<Shift>, b: seq<Shift>, day: string)
    ensures MatchingIds(a + b, day) == MatchingIds(a, day) + MatchingIds(b, day)
    decreases |a|
  {
    if a == [] {
      assert a + b == b;
    } else {
      assert (a + b)[0] == a[0] && (a + b)[1..] == a[1..] + b;
      MatchingIdsAppend(a[1..], b, day);
    }
  }

  function DeleteRequests(ids: seq<string>): (r: seq<Request>)
    ensures |r| == |ids|
  {
    if ids == [] then [] else [DeleteRequest(ids[0])] + DeleteRequests(ids[1..])
  }

  predicate Deleted(reply: Exchange) {
    reply.Delivered? && reply.response.status == OK
  }

  /** The deletes, one per id, each answered by the next reply; the first one not answered 200 ends the run. */
  function Deletes(ids: seq<string>, replies: seq<Exchange>): (t: Trace<()>)
    requires |replies| >= |ids|
    ensures 0 < |t.sent| <= |ids| || (t.sent == [] && ids == [])
    decreases |ids|
  {
    if ids == [] then Trace([], Ok(()))
    else
      var req := DeleteRequest(ids[0]);
      if replies[0].TransportFailed? then Trace([req], Err(Transport))
      else if !Deleted(replies[0]) then Trace([req], Err(DeleteFailed))
      else
        var rest := Deletes(ids[1..], replies[1..]);
        Trace([req] + rest.sent, rest.result)
  }

  /**
   * The deletes go out in list order, one per id up to where the run stopped,
   * and a successful run sent one per id.
   */
  lemma {:induction false} DeletesSendInOrder(ids: seq<string>, replies: seq<Exchange>)
    requires |replies| >= |ids|
    ensures var t := Deletes(ids, replies);
            t.sent == DeleteRequests(ids[..|t.sent|]) && (t.result.Ok? ==> |t.sent| == |ids|)
    decreases |ids|
  {
    if ids != [] && Deleted(replies[0]) {
      var t, rest := Deletes(ids, replies), Deletes(ids[1..], replies[1..]);
      DeletesSendInOrder(ids[1..], replies[1..]);
      assert ids[..|t.sent|] == [ids[0]] + ids[1..][..|rest.sent|];
    } else if ids != [] {
      assert ids[..1] == [ids[0]];
    }
  }

  /**
   * The deletes succeed exactly when every one is answered 200 (so a 204 is a
   * failure). A failed run stops at the first delete not answered 200, and
   * fails with a transport error exactly when that delete was not answered.
   */
  lemma {:induction false} DeletesStopAtFirstFailure(ids: seq<string>, replies: seq<Exchange>)
    requires |replies| >= |ids|
    ensures var t := Deletes(ids, replies);
            t.result.Ok? <==> forall k :: 0 <= k < |ids| ==> Deleted(replies[k])
    ensures var t := Deletes(ids, replies);
            t.result.Err? ==>
              && (forall k :: 0 <= k < |t.sent| - 1 ==> Deleted(replies[k]))
              && !Deleted(replies[|t.sent| - 1])
              && (t.result.error == Transport <==> replies[|t.sent| - 1].TransportFailed?)
              && (t.result.error == Transport || t.result.error == DeleteFailed)
    decreases |ids|
  {
    if ids != [] && Deleted(replies[0]) {
      DeletesStopAtFirstFailure(ids[1..], replies[1..]);
      assert forall k :: 1 <= k < |replies| ==> replies[1..][k - 1] == replies[k];
    }
  }

  /** The whole of `delete_all_shifts`, from the GET of the month's shifts. */
  function DeleteAll(config: Configuration, day: nat, month: nat, year: int,
                     listing: Listing<Shift>, replies: seq<Exchange>): Trace<()>
    requires listing.Listed? ==> |replies| >= |MatchingIds(listing.items, DecimalText(day))|
  {
    var get := ShiftsRequest(config.userId, month, year);
    match listing
    case NotDelivered => Trace([get], Err(Transport))
    case NotJson => Trace([get], Err(MalformedJson))
    case Listed(shifts) =>
      var t := Deletes(MatchingIds(shifts, DecimalText(day)), replies);
      Trace([get] + t.sent, t.result)
  }

  /**
   * After the GET of the month, every request is the delete of a shift of the
   * given day, and the deletes follow the list order: no shift of another day
   * is ever deleted.
   */
  lemma DeleteAllTouchesOnlyTheDay(config: Configuration, day: nat, month: nat, year: int,
                                   shifts: seq<Shift>, replies: seq<Exchange>)
    requires |replies| >= |MatchingIds(shifts, DecimalText(day))|
    ensures var ids := MatchingIds(shifts, DecimalText(day));
            var t := DeleteAll(config, day, month, year, Listed(shifts), replies);
            && 1 <= |t.sent| <= |ids| + 1
            && t.sent == [ShiftsRequest(config.userId, month, year)] + DeleteRequests(ids[..|t.sent| - 1])
            && forall i :: 1 <= i < |t.sent| ==>
                 exists k :: 0 <= k < |shifts| && shifts[k].day == DecimalText(day) && t.sent[i] == DeleteRequest(shifts[k].id)
  {
    var ids := MatchingIds(shifts, DecimalText(day));
    var d := Deletes(ids, replies);
    DeletesSendInOrder(ids, replies);
    MatchingIdsPickTheDay(shifts, DecimalText(day));
    DeleteRequestsOnePerId(ids[..|d.sent|]);
    var t := DeleteAll(config, day, month, year, Listed(shifts), replies);
    assert t.sent == [ShiftsRequest(config.userId, month, year)] + d.sent;
    forall i | 1 <= i < |t.sent|
      ensures exists k :: 0 <= k < |shifts| && shifts[k].day == DecimalText(day) && t.sent[i] == DeleteRequest(shifts[k].id)
    {
      assert t.sent[i] == d.sent[i - 1] == DeleteRequest(ids[i - 1]);
      assert ids[i - 1] in ids;
      var k :| 0 <= k < |shifts| && shifts[k].day == DecimalText(day) && shifts[k].id == ids[i - 1];
      assert t.sent[i] == DeleteRequest(shifts[k].id);
    }
  }

  /**
   * `delete_all_shifts` succeeds exactly when the shifts were listed and every
   * delete of a shift of the day was answered 200, and then each of those
   * shifts was deleted. With no shift on that day it succeeds after the GET.
   */
  lemma DeleteAllSucceedsIff(config: Configuration, day: nat, month: nat, year: int,
                             listing: Listing<Shift>, replies: seq<Exchange>)
    requires listing.Listed? ==> |replies| >= |MatchingIds(listing.items, DecimalText(day))|
    ensures var t := DeleteAll(config, day, month, year, listing, replies);
            t.result.Ok? <==>
              listing.Listed? &&
              forall k :: 0 <= k < |MatchingIds(listing.items, DecimalText(day))| ==> Deleted(replies[k])
    ensures var t := DeleteAll(config, day, month, year, listing, replies);
            t.result.Ok? ==>
              forall k :: 0 <= k < |listing.items| && listing.items[k].day == DecimalText(day) ==>
                DeleteRequest(listing.items[k].id) in t.sent
    ensures listing.Listed? && MatchingIds(listing.items, DecimalText(day)) == [] ==>
              DeleteAll(config, day, month, year, listing, replies) ==
              Trace([ShiftsRequest(config.userId, month, year)], Ok(()))
  {
    if listing.Listed? {
      var shifts := listing.items;
      var ids := MatchingIds(shifts, DecimalText(day));
      var d := Deletes(ids, replies);
      DeletesSendInOrder(ids, replies);
      DeletesStopAtFirstFailure(ids, replies);
      if d.result.Ok? {
        var t := DeleteAll(config, day, month, year, listing, replies);
        assert ids[..|d.sent|] == ids;
        DeleteRequestsOnePerId(ids);
        MatchingIdsPickTheDay(shifts, DecimalText(day));
        forall k | 0 <= k < |shifts| && shifts[k].day == DecimalText(day)
          ensures DeleteRequest(shifts[k].id) in t.sent
        {
          var j :| 0 <= j < |ids| && ids[j] == shifts[k].id;
          assert t.sent[j + 1] == d.sent[j];
        }
      }
    }
  }

  /** `delete_all_shifts`: the loop over the month's shifts with its early `return Err`. */
  method DeleteAllShifts(config: Configuration, day: nat, month: nat, year: int,
                         listing: Listing<Shift>, replies: seq<Exchange>)
    returns (sent: seq<Request>, result: Result<(), ApiError>)
    requires listing.Listed? ==> |replies| >= |MatchingIds(listing.items, DecimalText(day))|
    ensures Trace(sent, result) == DeleteAll(config, day, month, year, listing, replies)
  {
    sent := [ShiftsRequest(config.userId, month, year)];
    if listing.NotDelivered? {
      return sent, Err(Transport);
    }
    if listing.NotJson? {
      return sent, Err(MalformedJson);
    }
    var deletes;
    deletes, result := DeleteMatching(listing.items, DecimalText(day), replies);
    sent := sent + deletes;
  }

  /** The loop of `delete_all_shifts`: a delete for each shift of the day, in list order, up to the first failure. */
  method DeleteMatching(shifts: seq<Shift>, dayText: string, replies: seq<Exchange>)
    returns (sent: seq<Request>, result: Result<(), ApiError>)
    requires |replies| >= |MatchingIds(shifts, dayText)|
    ensures Trace(sent, result) == Deletes(MatchingIds(shifts, dayText), replies)
  {
    ghost var ids := MatchingIds(shifts, dayText);
    sent := [];
    var j := 0;  // deletes sent so far
    for i := 0 to |shifts|
      invariant j <= |ids| && MatchingIds(shifts[i..], dayText) == ids[j..]
      invariant sent == DeleteRequests(ids[..j])
      invariant forall k :: 0 <= k < j ==> Deleted(replies[k])
    {
      PickStep(shifts, i, dayText, ids, j);
      if shifts[i].day == dayText {
        var shiftId := shifts[i].id;
        sent := sent + [DeleteRequest(shiftId)];
        DeletesFailAt(ids, replies, j);
        if replies[j].TransportFailed? {
          return sent, Err(Transport);
        }
        if replies[j].response.status != OK {
          return sent, Err(DeleteFailed);
        }
        j := j + 1;
      }
    }
    assert ids[..j] == ids;
    DeletesAfterSuccesses(ids, replies, j);
    result := Ok(());
  }

  /** One shift of the loop: a shift of the day is the next id to delete, any other is skipped. */
  lemma PickStep(shifts: seq<Shift>, i: nat, day: string, ids: seq<string>, j: nat)
    requires i < |shifts| && j <= |ids| && MatchingIds(shifts[i..], day) == ids[j..]
    ensures shifts[i].day == day ==> j < |ids| && ids[j] == shifts[i].id && MatchingIds(shifts[i + 1..], day) == ids[j + 1..]
    ensures shifts[i].day != day ==> MatchingIds(shifts[i + 1..], day) == ids[j..]
  {
    assert shifts[i..][0] == shifts[i] && shifts[i..][1..] == shifts[i + 1..];
    if shifts[i].day == day {
      assert ids[j..][1..] == ids[j + 1..];
    }
  }

  /**
   * After `j` deletes answered 200, delete `j` goes out; if it is not answered
   * 200 the run ends there, with the request list through `j`.
   */
  lemma DeletesFailAt(ids: seq<string>, replies: seq<Exchange>, j: nat)
    requires j < |ids| <= |replies|
    requires forall k :: 0 <= k < j ==> Deleted(replies[k])
    ensures DeleteRequests(ids[..j + 1]) == DeleteRequests(ids[..j]) + [DeleteRequest(ids[j])]
    ensures !Deleted(replies[j]) ==>
              Deletes(ids, replies) ==
              Trace(DeleteRequests(ids[..j + 1]), Err(if replies[j].TransportFailed? then Transport else DeleteFailed))
  {
    DeletesAfterSuccesses(ids, replies, j);
    assert ids[..j + 1] == ids[..j] + [ids[j]];
    DeleteRequestsAppend(ids[..j], [ids[j]]);
    assert ids[j..][0] == ids[j] && replies[j..][0] == replies[j];
  }

  lemma {:induction false} DeleteRequestsAppend(a: seq<string>, b: seq<string>)
    ensures DeleteRequests(a + b) == DeleteRequests(a) + DeleteRequests(b)
  {
    if a == [] {
      assert a + b == b;
    } else {
      assert (a + b)[0] == a[0] && (a + b)[1..] == a[1..] + b;
      DeleteRequestsAppend(a[1..], b);
    }
  }

  /** One delete per id, in the order of the ids. */
  lemma {:induction false} DeleteRequestsOnePerId(ids: seq<string>)
    ensures |DeleteRequests(ids)| == |ids|
    ensures forall k :: 0 <= k < |ids| ==> DeleteRequests(ids)[k] == DeleteRequest(ids[k])
  {
    if ids != [] {
      DeleteRequestsOnePerId(ids[1..]);
      assert forall k :: 1 <= k < |ids| ==> ids[1..][k - 1] == ids[k];
    }
  }

  /** Once the first `j` deletes were answered 200, the run goes on with the rest. */
  lemma {:induction false} DeletesAfterSuccesses(ids: seq<string>, replies: seq<Exchange>, j: nat)
    requires j <= |ids| <= |replies|
    requires forall k :: 0 <= k < j ==> Deleted(replies[k])
    ensures Deletes(ids, replies) ==
            Trace(DeleteRequests(ids[..j]) + Deletes(ids[j..], replies[j..]).sent, Deletes(ids[j..], replies[j..]).result)
    decreases j
  {
    if j > 0 {
      DeletesAfterSuccesses(ids, replies, j - 1);
      DeleteGoesOn(ids, replies, j - 1);
      assert ids[..j] == ids[..j - 1] + [ids[j - 1]];
      DeleteRequestsAppend(ids[..j - 1], [ids[j - 1]]);
    } else {
      assert ids[..0] == [] && ids[0..] == ids && replies[0..] == replies;
    }
  }

  /** A delete answered 200 is followed by the run over the remaining ids. */
  lemma DeleteGoesOn(ids: seq<string>, replies: seq<Exchange>, j: nat)
    requires j < |ids| <= |replies| && Deleted(replies[j])
    ensures Deletes(ids[j..], replies[j..]) ==
            Trace([DeleteRequest(ids[j])] + Deletes(ids[j + 1..], replies[j + 1..]).sent,
                  Deletes(ids[j + 1..], replies[j + 1..]).result)
  {
    assert ids[j..][0] == ids[j] && ids[j..][1..] == ids[j + 1..];
    assert replies[j..][0] == replies[j] && replies[j..][1..] == replies[j + 1..];
  }
}
