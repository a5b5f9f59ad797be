# tracktorial, modelled in Dafny

tracktorial is a command-line client for the Factorial HR attendance API. This
project models two parts of it and proves what they promise:

- **The single-sign-on login** of `Credential::authenticate_client`. It is nine
  HTTP exchanges in a fixed order: the sign-in page, the SSO entry, the e-mail
  form, two redirects to the identity provider, the credential form,
  keep-me-signed-in, the SAML assertion post, and a final redirect.
  - The flow is specified as a step machine (`Login.Stage`, `Login.Next`,
    `Login.Run`). Each stage holds the artifacts its request needs; the
    identity-provider stage also keeps the parsed URL from which the next step
    builds the login link.
  - The source's straight-line code with its early returns is mirrored by the
    method `Login.AuthenticateClient`. It is proved to issue the same requests
    and to stop with the same error as the machine.
  - The inline-config extraction (`Scraper.ExtractJson`) and the `saml2` to
    `login` rewrite of the credential link (`Login.LoginLink`) are modelled
    with it.
- **The attendance API glue** of `FactorialApi` (module `Api`):
  - the endpoint table, the JSON body of the clock and break calls, and what
    each call makes of the status it gets back;
  - how `FactorialApi::new` completes the configuration: the user id from the
    `access_id` cookie and the employee list, and the weekly working hours
    from the last contract;
  - how `delete_all_shifts` removes one day's shifts.

Modules:

| module | file | what it holds |
|---|---|---|
| `Wrappers` | `wrappers.dfy` | `Option` and `Result` |
| `Text` | `text.dfy` | octets, `find`, `replace`, `HeaderValue::to_str`, decimal rendering |
| `Http` | `http.dfy` | responses, exchanges and requests |
| `Scraper` | `scraper.dfy` | `str::lines`, the longest line, the blob cut |
| `Login` | `login.dfy` | form tables, login link, step machine, its properties, the imperative mirror |
| `Api` | `api.dfy` | endpoints, bodies and status mappings, cookie and employee loops, working hours, `FactorialApi::new`, `delete_all_shifts` |

Input model:

- Nothing talks to a network. Every exchange the code would perform is an
  input:
  - either a delivered `Response` (status, raw `Location` header, body
    octets, values of cookies set);
  - or a transport failure.
- A login attempt is given its nine replies, where reply `i` answers request
  `i`. Replies after an early exit are unused.
- The HTML parser (`scraper`), the JSON parser (`serde_json`) and the URL
  parser of the HTTP client are foreign code. They come in as the function
  values of `Login.Parsers`.
- A JSON list the API reads is given as the `to_string` renderings of the
  fields the code uses. An integer renders as its digits, a float with its
  decimal point, a string with its quotes, a missing field as `null`.
- The `f32` parser is the function parameter `f32` of the working-hours
  members.
- Where the source panics (an `unwrap` or `expect` that fails), the model has a
  precondition instead of an error path:
  - `Login.Safe` and `Login.Defined` cover the login;
  - `Scraper.Extractable` covers the blob cut;
  - `Api.Terminated` and `Api.CookiesReadable` cover the cookie loop;
  - `Api.HoursSplittable` and `Api.ContractsReadable` cover the hours split.

## Model

| member | source | states |
|---|---|---|
| Login.Run | src/login.rs:76-241 | a run from a stage issues at least one request and at most one per reply left, and exactly one per reply when it does not fail |
| Login.Authenticate | src/login.rs:76-241 | a login attempt is the machine's run from the sign-in stage over its nine replies; what it sends and how it ends is stated by `RunSucceedsIffWalkEnds`, `AuthenticateSucceedsIff` and `AuthenticateFailsAtFirstClosedGate` |
| Login.Next | src/login.rs:81-238 | a step that lets the flow go on moves to the stage that follows it |
| Login.FlowStage | src/login.rs:81-238 | the stage after `k` passed steps is stage `k + 1` of the flow |
| Login.RunIssuesStageRequests | src/login.rs:76-241 | request `i` of a run is the request of the stage the machine reached after `i` replies |
| Login.RunStopsAtFirstFailure | src/login.rs:90-236 | a failed run stopped at the step of its last request: every earlier step passed, that step gave the error, nothing was sent after it |
| Login.RunSucceedsIffWalkEnds | src/login.rs:238-240 | a run succeeds exactly when the walk over all its replies reaches the end of the flow |
| Login.WalkExtend | src/login.rs:81-238 | the stage after `n + 1` replies is the step from the stage after `n` on reply `n` |
| Login.WalkOkPrefix | src/login.rs:90-236 | once a step has stopped the flow, no later prefix of the replies gets past it |
| Login.WalkFollowsFlowStage | src/login.rs:94-238 | the machine walks through exactly the stages of the table, where each artifact is read from one reply |
| Login.RequestsOfTheFlow | src/login.rs:104-238 | request `k` of a login is built from the artifacts of the table's stage `k` |
| Login.FlowStageReadsOnlyEarlierReply | src/login.rs:120-128 | every target and form value of stage `k` comes from reply `k - 1` alone (the credential link also from the identity-provider URL of reply 4), so replies that agree there give the same stage |
| Login.GateDecidesStep | src/login.rs:90-237 | at the table's stage, step `k` goes on exactly when its status check and its extraction succeed |
| Login.Gate | src/login.rs:90-237 | the condition of step `k` read off one reply, independent of the machine: delivered for the three unchecked GETs, 200 with the token or the assertion form, 302 with a text `Location` (and a parsed URL for the identity provider), 200 for the credential post |
| Login.WalkPassesIffGates | src/login.rs:90-237 | the flow passes its first `n` steps exactly when their gates all hold |
| Login.AuthenticateSucceedsIff | src/login.rs:82-240 | a login succeeds exactly when every status gate, every extraction, every `Location` that must be text and the identity-provider URL hold |
| Login.AuthenticateFailsAtFirstClosedGate | src/login.rs:90-236 | a failed login issued one request per step up to its first closed gate and none after it |
| Login.ClosedGateIsLast | src/login.rs:90-236 | when the first `n - 1` gates hold and the first `n` do not, gate `n - 1` is the one closed |
| Login.RunIgnoresUncheckedStatus | src/login.rs:82-238 | changing the status of the reply to stage 1, 5 or 9 of a run changes neither its safety nor its outcome |
| Login.UncheckedStatusesDoNotMatter | src/login.rs:82-238 | the statuses of the sign-in GET, the identity-provider GET and the final GET are never looked at |
| Login.EmailFormWithoutRedirectStops | src/login.rs:117-119 | a 200 where the e-mail form must be redirected ends the login after three requests with NotRedirected |
| Login.FormsCarryBlobTokens | src/login.rs:138-164 | the credential form carries the e-mail twice and the password, and both identity-provider forms fill `canary`, `ctx`, `hgprequestid`, `flowToken` from blob keys `canary`, `sCtx`, `sessionId`, `sFT`, "" when absent or not a string |
| Login.TokenLookup | src/login.rs:186-196 | each of the four token fields is found in both forms with its blob value |
| Login.FormsFixedElsewhere | src/login.rs:146-163 | apart from the credentials and the four token fields, every field of the two forms is the same whatever the blob |
| Login.LookupAppend | src/login.rs:138-164 | a field is looked up in the first part of a form before the rest |
| Login.LookupAt | src/login.rs:138-164 | the first field of a name gives its value |
| Login.LookupAbsent | src/login.rs:138-164 | a name no field has gives no value |
| Login.RewriteRemovesSaml2 | src/login.rs:171 | no `saml2` is left in the rewritten path |
| Login.RewriteKeepsSuffixPrefix | src/login.rs:171 | a rewritten path that starts with the tail of `saml2` comes from a path that starts with it |
| Login.LoginLinkShape | src/login.rs:168-172 | the login link is `https://`, the host or "", and the path with every `saml2` replaced by `login`, of the path's length; a path without `saml2` is kept as it is |
| Login.LoginLink | src/login.rs:168-172 | the link built from the identity-provider URL: `https://`, its host or nothing, its rewritten path; its shape is stated by `LoginLinkShape` |
| Login.Unroll | src/login.rs:76-241 | one step of the straight-line code is one step of the machine: a stop ends the run with that request, a pass goes on with the rest |
| Login.WalkStops | src/login.rs:90-236 | a first step that stops sends one request and ends the walk |
| Login.WalkAdvances | src/login.rs:81-238 | a walk past a passed first step is the walk from the next stage |
| Login.AuthenticateClient | src/login.rs:76-241 | the method issues the requests of `Authenticate`, in order, and returns its error, if any |
| Login.ObtainAuthenticityToken | src/login.rs:81-102 | steps 1 and 2 as the machine runs them; on success two requests and a token from which the machine goes on |
| Login.FollowToIdentityProvider | src/login.rs:103-128 | steps 3 and 4 as the machine runs them; on success two requests, the identity-provider target and its parsed URL |
| Login.SubmitCredentials | src/login.rs:129-185 | steps 5 and 6 as the machine runs them; on success two requests and the second config blob |
| Login.ConfirmSession | src/login.rs:186-240 | steps 7 to 9 as the machine runs them |
| Scraper.Lines | src/login.rs:248 | no line of the split holds a line feed; a non-empty text without a line feed is one line, kept whole with a trailing carriage return, as the current `str::lines` does |
| Scraper.LineEnd | src/login.rs:248 | the index of the first line feed at or after a position, or the end |
| Scraper.StripCR | src/login.rs:248 | exactly one carriage return is dropped, and only when it ends the line; otherwise the line is kept; a line without line feeds stays without |
| Scraper.LinesAfterLF | src/login.rs:248 | a line ended by a line feed comes first, its carriage return dropped, followed by the lines of the rest; with the other two cases of `Lines` this fixes the whole split |
| Scraper.LongestIsFirstMaximal | src/login.rs:246-253 | the chosen line is at least as long as every line and is the first line of that length (ties go to the earlier one) |
| Scraper.ConfigBlob | src/login.rs:254 | the blob is the longest line without its first eight octets and its last one: nine octets shorter |
| Scraper.ExtractJson | src/login.rs:243-255 | the loop chooses the first longest line and cuts it as `ConfigBlob` does |
| Text.Find | src/api.rs:63-65 | the index of the first occurrence of a pattern at or after a position, or none when there is none |
| Text.ReplaceAbsent | src/login.rs:171 | a text without the pattern is left unchanged by `replace` |
| Text.ReplaceSameLength | src/login.rs:171 | replacing by a text of the same length keeps the length |
| Text.HeaderText | src/login.rs:121 | `to_str` succeeds exactly on visible-ASCII header octets and keeps them one for one |
| Text.DecimalText | src/api.rs:166-172 | the rendering of a number is non-empty digits with no leading zero |
| Text.DecimalRoundTrip | src/api.rs:172 | reading the rendering of a number back gives the number |
| Text.DecimalTextInjective | src/api.rs:172 | two days with the same rendering are the same day |
| Api.Endpoint.Path | src/api.rs:22-32 | every endpoint path begins and ends with `/` |
| Api.PathsDistinct | src/api.rs:22-32 | the seven paths are pairwise distinct |
| Api.PostUrl | src/api.rs:193 | the POST URL is the base host followed by the endpoint's path |
| Api.PostUrlInjective | src/api.rs:193 | two endpoints share a POST URL exactly when they are the same endpoint |
| Api.RequestBody | src/api.rs:199-208 | the body has exactly the keys `now`, `location_type`, `source`, with the time, the configured location type and `desktop` |
| Api.MakeBody | src/api.rs:199-208 | the three inserts build that body |
| Api.PostApiCall | src/api.rs:190-197 | a clock or break call is a JSON POST of that body to the endpoint's URL |
| Api.ClockInResult | src/api.rs:111-118 | Ok exactly on 201; 409 gives OpenShiftExists, a transport failure Transport, every other status CouldNotOpenShift |
| Api.ClockOutResult | src/api.rs:123-129 | Ok exactly on 200; a transport failure gives Transport, every other status CouldNotCloseShift |
| Api.BreakStartResult | src/api.rs:135-144 | Ok exactly on 201; 409 gives BreakConflict, a transport failure Transport, every other status CouldNotStartBreak |
| Api.BreakEndResult | src/api.rs:149-155 | Ok exactly on 200; a transport failure gives Transport, every other status CouldNotEndBreak |
| Api.ActionsAreDistinguishable | src/api.rs:111-155 | the four calls post to four different URLs, and a 409 gives the starting calls a message other than their generic failure |
| Api.Classify | src/api.rs:111-155 | Ok exactly on the success status; a transport failure Transport; a 409 that is not the success status the conflict error; every other status the generic error |
| Api.DoClockIn | src/api.rs:111-118 | `clock_in` posts the body as JSON to the clock-in URL and succeeds exactly on 201 |
| Api.DoClockOut | src/api.rs:123-129 | `clock_out` posts the body as JSON to the clock-out URL and succeeds exactly on 200 |
| Api.DoBreakStart | src/api.rs:135-144 | `break_start` posts the body as JSON to the break-start URL and succeeds exactly on 201 |
| Api.DoBreakEnd | src/api.rs:149-155 | `break_end` posts the body as JSON to the break-end URL and succeeds exactly on 200 |
| Api.IdStart | src/api.rs:60-63 | the id starts right after the first occurrence of the needle, and only a cookie holding the needle has one |
| Api.CookieId | src/api.rs:60-65 | a cookie's id is the text from the end of the first needle up to the next `%`, which it does not contain |
| Api.PercentFound | src/api.rs:65 | `find('%')` on a text holding a `%` finds one |
| Api.IndexOf | src/api.rs:65 | an index where the character occurs |
| Api.AccessIdDefault | src/api.rs:56-66 | with no cookie holding the needle the access id stays "" |
| Api.AccessIdOf | src/api.rs:57-67 | the access id the cookie loop settles on, defined from the last cookie backwards; stated by `AccessIdDefault`, `AccessIdLastWins`, `AccessIdHasNoPercent`, and computed by `ExtractAccessId` |
| Api.AccessIdLastWins | src/api.rs:57-66 | the last cookie holding the needle decides the access id |
| Api.AccessIdHasNoPercent | src/api.rs:65 | the access id never contains a `%` |
| Api.ExtractAccessId | src/api.rs:56-66 | the cookie loop computes `AccessIdOf` |
| Api.UserIdKeptWithoutMatch | src/api.rs:72-76 | when no employee has the access id the user id is left as it was |
| Api.UserIdOf | src/api.rs:72-76 | the user id after the employee loop, defined from the last employee backwards; stated by `UserIdKeptWithoutMatch` and `UserIdIsLastMatch`, and computed by `LookupUserId` |
| Api.UserIdIsLastMatch | src/api.rs:72-76 | otherwise it is the id of the last employee that has it |
| Api.LookupUserId | src/api.rs:70-76 | the employee loop computes `UserIdOf` |
| Api.HoursText | src/api.rs:91-96 | the reformatted hours are five octets, the four of the rendering with a `.` after the second |
| Api.DeriveWorkingHours | src/api.rs:84-98 | no contract gives NoContract; a last rendering not four octets long gives UnusualWorkingHours; otherwise the float parser's value of the reformatted text, and NotAFloat exactly when it has none |
| Api.FindUserId | src/api.rs:53-76 | the user-id block issues the requests and gives the id or error of `UserStep` |
| Api.UserStep | src/api.rs:54-77 | the specification of the user-id block: nothing sent for a configured id, else the companies GET, the employees GET and `UserIdOf` of the cookie's access id, or the first error |
| Api.ContractsRequest | src/api.rs:80-83 | the GET of the contract versions with the user id as `employee_ids[]` |
| Api.HoursStep | src/api.rs:79-100 | the specification of the working-hours block: nothing sent for configured hours, else the contracts GET and `DeriveWorkingHours` of the list, or the first error |
| Api.Setup | src/api.rs:48-103 | the specification of `new` after the login: the login error, or the two steps in turn, stopping at the first error; stated by the three `Setup…` lemmas |
| Api.FindWorkingHours | src/api.rs:78-98 | the working-hours block issues the requests and gives the hours or error of `HoursStep` |
| Api.New | src/api.rs:47-103 | `FactorialApi::new` after the login issues the requests and keeps the configuration of `Setup` |
| Api.SetupKeepsConfiguredValues | src/api.rs:53-78 | a configured user id is kept and the companies and employees are not fetched; configured working hours are kept and the contracts are not fetched; e-mail and location type never change |
| Api.SetupLooksUpUserId | src/api.rs:53-82 | without a configured user id, success takes the id of the last employee with the cookie's access id, after exactly the companies and employees GETs, and asks for the contracts of that id |
| Api.SetupDerivesWorkingHours | src/api.rs:78-98 | without configured hours, an empty contract list and a last rendering not four octets long fail; a four-octet rendering fails with NotAFloat when the float parser rejects "ab.cd" and otherwise succeeds with its value; success keeps only that value |
| Api.IntegerText | src/api.rs:167 | the rendering of a year starts with `-` exactly when it is negative |
| Api.IntegerTextInjective | src/api.rs:167 | two years with the same rendering are equal |
| Api.ShiftsRequest | src/api.rs:161-169 | the GET of the shifts of a month, with the user id, the month and the year as query |
| Api.ShiftsRequestIdentifiesMonth | src/api.rs:161-169 | equal GETs of the shifts are for the same user, month and year |
| Api.DeleteRequest | src/api.rs:174-181 | the DELETE of the shifts path followed by the id |
| Api.DeleteRequestIdentifiesShift | src/api.rs:174-181 | equal deletes remove the same shift id |
| Api.MatchingIds | src/api.rs:171-173 | no more ids than shifts |
| Api.MatchingIdsPickTheDay | src/api.rs:171-173 | every picked id is that of a shift of the day, and every shift of the day is picked |
| Api.MatchingIdsAppend | src/api.rs:171-173 | the ids are picked in list order |
| Api.DeleteRequests | src/api.rs:174-181 | one request per id |
| Api.DeleteRequestsOnePerId | src/api.rs:174-181 | request `k` is the delete of id `k` |
| Api.DeleteRequestsAppend | src/api.rs:174-181 | the deletes of a concatenation are the concatenated deletes |
| Api.Deletes | src/api.rs:171-186 | at most one request per id, and at least one when there is an id |
| Api.DeletesSendInOrder | src/api.rs:171-186 | the deletes go out in the order of the ids, one per id up to where the run stopped, all of them on success |
| Api.DeletesStopAtFirstFailure | src/api.rs:182-184 | success exactly when every delete is answered 200 (a 204 fails); a failure stops at the first other answer, with Transport exactly when it was not delivered |
| Api.DeletesFailAt | src/api.rs:182-184 | after `j` successful deletes an unsuccessful delete `j` ends the run with the requests through `j` |
| Api.DeletesAfterSuccesses | src/api.rs:171-186 | after `j` successful deletes the run goes on with the remaining ids |
| Api.DeleteGoesOn | src/api.rs:171-186 | a delete answered 200 is followed by the run over the remaining ids |
| Api.PickStep | src/api.rs:171-173 | a shift of the day is the next id to delete and any other shift is skipped |
| Api.DeleteAllTouchesOnlyTheDay | src/api.rs:171-181 | after the GET of the month every request is the delete of a shift of the given day, in list order; no shift of another day is deleted |
| Api.DeleteAllSucceedsIff | src/api.rs:170-187 | success exactly when the shifts were listed and every delete was answered 200, and then every shift of the day was deleted; with no shift that day the GET alone succeeds |
| Api.DeleteAllShifts | src/api.rs:157-188 | `delete_all_shifts` issues the requests and returns the result of `DeleteAll` |
| Api.DeleteAll | src/api.rs:157-188 | the specification of `delete_all_shifts`: the GET of the month, then the deletes of the day's shifts until the first failure; stated by `DeleteAllSucceedsIff` and `DeleteAllTouchesOnlyTheDay` |
| Api.DeleteMatching | src/api.rs:171-187 | the loop issues the deletes of the day's shifts and stops as `Deletes` does |

## Left out

- Transport, TLS, the cookie store and the no-redirect policy of the client
  (src/login.rs:77-80) are not modelled. Every exchange is an input, and a
  target URL the client refuses counts as a transport failure.
- The HTML, JSON and URL parsers are foreign code, given as the function
  values of `Login.Parsers`.
  - A selected `<input>` is assumed to have a `value` attribute, and a
    selected `<form>` an `action`. The `unwrap` calls on `attr` do not fail in
    the model.
  - The `SAMLResponse` selector (src/login.rs:208) lacks its closing `]`. It is
    modelled as selecting the input of that name, since CSS parsing is not
    modelled.
- Response bodies are assumed to decode as UTF-8. The `text()` calls whose
  failure panics (src/login.rs:94, 134, 183, 207) are not modelled as failing.
- Panics are preconditions, not error results:
  - a missing `Location` header;
  - a transport failure or an unparsable blob at step 5;
  - a blob that cannot be cut or parsed at step 6;
  - a cookie whose needle is not followed by `%`;
  - an hours rendering that `get(0..2)` cannot split.
- Credential::new (src/login.rs:14-19) is the datatype constructor
  `Login.Credential`. There is nothing about it to prove.
- The keyring and terminal functions `new_without_password`, `get_password`,
  `reset_password` and `ask_for_password` (src/login.rs:23-63) are OS
  secret-store and stdin I/O.
- The `f32` parse of the working hours (src/api.rs:98) is the foreign `f32`
  parameter. Floating-point rounding is not modelled, and hours are `real`.
- The date of `delete_all_shifts` comes from `chrono` (src/api.rs:158-160). The
  day, month and year are inputs.
- `config.write_config()` (src/api.rs:101) is file-system I/O and is not
  modelled.
- src/config.rs, src/cli.rs, src/time.rs and the integration tests are not
  part of this model.
- `Configuration` in src/config.rs declares only `email`, but src/api.rs reads
  `user_id`, `working_hours` and `location_type`. `Api.Configuration` declares
  all four.
- Login.AuthenticateClient: the source's one straight line is four methods
  (`ObtainAuthenticityToken`, `FollowToIdentityProvider`, `SubmitCredentials`,
  `ConfirmSession`) so that each proof stays small. The requests and errors are
  the source's.
- Api.New: its two blocks are the methods `FindUserId` and `FindWorkingHours`,
  for the same reason.
- Cookie values, employee fields and shift fields are `string` (characters,
  not octets). Renderings of JSON values are taken as given, with no escaping.
  A string-valued `access_id`, for instance, renders with its quotes and never
  equals the unquoted text cut from the cookie.
- `str::lines` follows its current documented behaviour: split after each line
  feed, remove one carriage return before it, and no empty last line. A bare
  carriage return at the end of a last line without a line feed is kept (older
  releases of the standard library stripped it, which changes that line's length
  by one).
