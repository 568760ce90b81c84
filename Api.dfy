/** The request helper `fetchWithAuth` and the endpoint wrappers built on it.
    The network is a function from the request sent to what `fetch` produces;
    `online` is what `navigator.onLine` reads when a failure is handled. */
module Api {
  import opened Js
  import opened Config
  import opened Browser

  /** The part of `RequestInit` the client sets: the HTTP method (`verb`), payload (before `JSON.stringify`)
      and a plain header object. */
  datatype Options = Options(verb: Option<string>, body: Option<Value>, headers: map<string, string>)

  /** The request `fetch` is given. */
  datatype Request = Request(url: string, verb: Option<string>, body: Option<Value>, headers: map<string, string>)

  /** A call of `fetchWithAuth(endpoint, options, requiresAuth)`. */
  datatype Call = Call(endpoint: string, options: Options, requiresAuth: bool)

  /** A response as the client reads it: its status, its `content-type` header, what `json()`
      resolves to (`None` when the body is not JSON and `json()` rejects) and what `text()` resolves to. */
  datatype HttpResponse = HttpResponse(status: int, contentType: Option<string>, json: Option<Value>, text: string)

  /** What `fetch` produces: a rejection (the request never got a response) or a response. */
  datatype FetchOutcome = Rejected(reason: string) | Responded(response: HttpResponse)

  /** What `fetchWithAuth` can throw. */
  datatype Failure =
    | RequestFailed(reason: string)                   // `fetch` rejected
    | BodyNotJson                                     // `response.json()` rejected
    | PropertyOfNothing(typeError: string)            // the error body was `null`
    | HttpError(message: Value, status: int, data: Value) // a non-ok status

  datatype Completion = Returned(value: Value) | Threw(failure: Failure)

  const JsonType := "application/json"
  const DefaultErrorMessage := "API request failed"

  /** `{ error: 'Network error', offline: true }` */
  const OfflineSentinel := Obj(map["error" := Str("Network error"), "offline" := Bool(true)])

  /** `response.ok` */
  predicate IsOk(status: int) {
    200 <= status <= 299
  }

  /** `contentType && contentType.includes('application/json')` */
  predicate IsJsonType(contentType: Option<string>) {
    contentType.Some? && Includes(contentType.value, JsonType)
  }

  /** The headers sent: `Content-Type: application/json` unless the caller gives one, then the
      caller's headers, then a bearer token when the call requires authentication and a token is stored. */
  function BuildHeaders(caller: map<string, string>, requiresAuth: bool, stored: Option<string>): (h: map<string, string>)
    ensures "Content-Type" in h
    ensures h["Content-Type"] == if "Content-Type" in caller then caller["Content-Type"] else JsonType
    ensures requiresAuth && Present(stored) ==> "Authorization" in h && h["Authorization"] == "Bearer " + stored.value
    ensures !(requiresAuth && Present(stored)) ==> forall k :: k in h <==> k in caller || k == "Content-Type"
    ensures requiresAuth && Present(stored) ==> forall k :: k in h <==> k in caller || k == "Content-Type" || k == "Authorization"
    ensures forall k :: k in caller && k != "Authorization" ==> k in h && h[k] == caller[k]
    ensures !(requiresAuth && Present(stored)) ==> forall k :: k in caller ==> k in h && h[k] == caller[k]
  {
    var merged := map["Content-Type" := JsonType] + caller;
    if requiresAuth && Present(stored) then merged["Authorization" := "Bearer " + stored.value] else merged
  }

  /** The request `fetchWithAuth` hands to `fetch`: the base URL followed by the endpoint,
      the caller's options, and the assembled headers. */
  function Send(cfg: Config, call: Call, stored: Option<string>): (req: Request)
    ensures StartsWith(req.url, cfg.apiUrl) && req.url[|cfg.apiUrl|..] == call.endpoint
    ensures req.verb == call.options.verb && req.body == call.options.body
    ensures req.headers == BuildHeaders(call.options.headers, call.requiresAuth, stored)
  {
    var url := cfg.apiUrl + call.endpoint;
    assert url[..|cfg.apiUrl|] == cfg.apiUrl;
    Request(url, call.options.verb, call.options.body, BuildHeaders(call.options.headers, call.requiresAuth, stored))
  }

  /** The body can be read: it is text, or JSON that parses. */
  predicate BodyReadable(response: HttpResponse) {
    IsJsonType(response.contentType) ==> response.json.Some?
  }

  /** The parsed body: the JSON value when the content type says JSON, the text otherwise. */
  function Payload(response: HttpResponse): Value
    requires BodyReadable(response)
  {
    if IsJsonType(response.contentType) then response.json.value else Str(response.text)
  }

  /** A request succeeds when a response arrived with an ok status and a readable body. */
  predicate Succeeds(out: FetchOutcome) {
    out.Responded? && IsOk(out.response.status) && BodyReadable(out.response)
  }

  /** The message of the error thrown for a non-ok status: a text body itself, otherwise the body's
      `message`, otherwise the default; reading `message` of a `null` body throws instead. */
  function ErrorMessage(data: Value): (r: Result<Value, string>)
    ensures data.Str? ==> r == Ok(data)
    ensures data.Obj? && "message" in data.fields && Truthy(data.fields["message"]) ==> r == Ok(data.fields["message"])
    ensures !data.Str? && Readable(data) && !(data.Obj? && "message" in data.fields && Truthy(data.fields["message"]))
      ==> r == Ok(Str(DefaultErrorMessage))
    ensures !Readable(data) ==> r.Err?
  {
    if data.Str? then Ok(data)
    else match GetField(data, "message")
      case Err(e) => Err(e)
      case Ok(m) => Ok(Or(m, Str(DefaultErrorMessage)))
  }

  /** How `fetchWithAuth` treats what `fetch` produced, before its `catch` runs. */
  function Receive(out: FetchOutcome): (c: Completion)
    ensures c.Returned? <==> Succeeds(out)
    ensures Succeeds(out) ==> c.value == Payload(out.response)
    ensures out.Rejected? ==> c == Threw(RequestFailed(out.reason))
    ensures out.Responded? && !BodyReadable(out.response) ==> c == Threw(BodyNotJson)
    ensures out.Responded? && !IsOk(out.response.status) && BodyReadable(out.response) ==>
      var data := Payload(out.response);
      if Readable(data)
      then c == Threw(HttpError(ErrorMessage(data).value, out.response.status, data))
      else c == Threw(PropertyOfNothing(PropertyErrorMessage(data, "message")))
  {
    match out
    case Rejected(reason) => Threw(RequestFailed(reason))
    case Responded(response) =>
      if !BodyReadable(response) then Threw(BodyNotJson)
      else
        var data := Payload(response);
        if IsOk(response.status) then Returned(data)
        else match ErrorMessage(data)
          case Err(e) => Threw(PropertyOfNothing(e))
          case Ok(message) => Threw(HttpError(message, response.status, data))
  }

  /** The `catch` of `fetchWithAuth`: offline, any failure becomes the sentinel; online, it is rethrown. */
  function Recover(c: Completion, online: bool): (r: Completion)
    ensures c.Returned? ==> r == c
    ensures c.Threw? && online ==> r == c
    ensures c.Threw? && !online ==> r == Returned(OfflineSentinel)
  {
    if c.Threw? && !online then Returned(OfflineSentinel) else c
  }

  /** `fetchWithAuth(endpoint, options, requiresAuth)` with `stored` the token in local storage. */
  function FetchWithAuth(cfg: Config, call: Call, stored: Option<string>, server: Request -> FetchOutcome, online: bool): (c: Completion)
    ensures var out := server(Send(cfg, call, stored));
      && (Succeeds(out) ==> c == Returned(Payload(out.response)))
      && (!Succeeds(out) && !online ==> c == Returned(OfflineSentinel))
      && (!Succeeds(out) && online ==> c == Receive(out) && c.Threw?)
  {
    Recover(Receive(server(Send(cfg, call, stored))), online)
  }

  /** What a wrapper returns: the payload when the request succeeded; otherwise its fallback
      online and the offline sentinel offline. */
  predicate Settles(r: Value, out: FetchOutcome, online: bool, fallback: Value) {
    if Succeeds(out) then r == Payload(out.response)
    else if online then r == fallback
    else r == OfflineSentinel
  }

  /** The `try { return await fetchWithAuth(...) } catch { return fallback }` of every wrapper. */
  function Shield(cfg: Config, call: Call, stored: Option<string>, server: Request -> FetchOutcome, online: bool, fallback: Value): (r: Value)
    ensures Settles(r, server(Send(cfg, call, stored)), online, fallback)
  {
    match FetchWithAuth(cfg, call, stored, server, online)
    case Returned(v) => v
    case Threw(_) => fallback
  }

  const NoOptions := Options(None, None, map[])

  /** A `{ success: false, ... }` envelope with the given message and extra fields. */
  function FailureEnvelope(message: string, extra: map<string, Value>): (v: Value)
    ensures v.Obj? && "success" in v.fields && "message" in v.fields
    ensures v.fields["success"] == Bool(false) && v.fields["message"] == Str(message)
    ensures forall k :: k in extra && k != "success" && k != "message" ==> k in v.fields && v.fields[k] == extra[k]
  {
    Obj(extra["success" := Bool(false)]["message" := Str(message)])
  }

  const LoginFallback := FailureEnvelope("Login failed. Please try again.", map[])
  const RegisterFallback := FailureEnvelope("Registration failed. Please try again.", map[])
  const ProfileFallback := FailureEnvelope("Failed to load profile", map[])
  const SubjectsFallback := FailureEnvelope("Failed to load subjects", map["data" := Arr([])])
  const ChaptersFallback := FailureEnvelope("Failed to load chapters", map["data" := Arr([])])
  const ContentFallback := FailureEnvelope("Failed to load chapter content",
    map["data" := Obj(map["theory" := Arr([]), "examples" := Arr([])])])
  const QuestionsFallback := FailureEnvelope("Failed to load questions", map["data" := Arr([])])
  const SaveSessionFallback := FailureEnvelope("Session saved locally. Will sync when connection is restored.",
    map["localSaved" := Bool(true)])
  const DashboardFallback := FailureEnvelope("Failed to load dashboard data",
    map["data" := Obj(map[
      "recentActivity" := Arr([]),
      "stats" := Obj(map["questionsAttempted" := Num(0), "correctAnswers" := Num(0), "streak" := Num(0)])])])

  const Fallbacks := [LoginFallback, RegisterFallback, ProfileFallback, SubjectsFallback, ChaptersFallback,
    ContentFallback, QuestionsFallback, SaveSessionFallback, DashboardFallback]

  function LoginCall(email: string, password: string): Call {
    Call("/auth/login", Options(Some("POST"), Some(Obj(map["email" := Str(email), "password" := Str(password)])), map[]), false)
  }

  function RegisterCall(userData: Value): Call {
    Call("/auth/register", Options(Some("POST"), Some(userData), map[]), false)
  }

  const ProfileCall := Call("/auth/me", NoOptions, true)

  function SubjectsCall(classLevel: int): Call {
    Call("/subjects?class=" + NumberToString(classLevel), NoOptions, true)
  }

  function ChaptersCall(subjectId: string): Call {
    Call("/subjects/" + subjectId + "/chapters", NoOptions, true)
  }

  function ContentCall(chapterId: string): Call {
    Call("/chapters/" + chapterId + "/content", NoOptions, true)
  }

  function QuestionsCall(chapterId: string, difficulty: int): Call {
    Call("/chapters/" + chapterId + "/questions?difficulty=" + NumberToString(difficulty), NoOptions, true)
  }

  function SaveSessionCall(sessionData: map<string, Value>): Call {
    Call("/progress/session", Options(Some("POST"), Some(Obj(sessionData)), map[]), true)
  }

  const DashboardCall := Call("/progress/dashboard", NoOptions, true)

  /** `api.auth.login(email, password)` */
  function AuthLogin(cfg: Config, email: string, password: string, stored: Option<string>,
                     server: Request -> FetchOutcome, online: bool): (r: Value)
    ensures Settles(r, server(Send(cfg, LoginCall(email, password), stored)), online, LoginFallback)
  {
    Shield(cfg, LoginCall(email, password), stored, server, online, LoginFallback)
  }

  /** `api.auth.register(userData)` */
  function AuthRegister(cfg: Config, userData: Value, stored: Option<string>,
                        server: Request -> FetchOutcome, online: bool): (r: Value)
    ensures Settles(r, server(Send(cfg, RegisterCall(userData), stored)), online, RegisterFallback)
  {
    Shield(cfg, RegisterCall(userData), stored, server, online, RegisterFallback)
  }

  /** `api.auth.getProfile()` */
  function AuthGetProfile(cfg: Config, stored: Option<string>, server: Request -> FetchOutcome, online: bool): (r: Value)
    ensures Settles(r, server(Send(cfg, ProfileCall, stored)), online, ProfileFallback)
  {
    Shield(cfg, ProfileCall, stored, server, online, ProfileFallback)
  }

  /** `api.subjects.getAll(classLevel)` */
  function SubjectsGetAll(cfg: Config, classLevel: int, stored: Option<string>,
                          server: Request -> FetchOutcome, online: bool): (r: Value)
    ensures Settles(r, server(Send(cfg, SubjectsCall(classLevel), stored)), online, SubjectsFallback)
  {
    Shield(cfg, SubjectsCall(classLevel), stored, server, online, SubjectsFallback)
  }

  /** `api.chapters.getBySubject(subjectId)` */
  function ChaptersGetBySubject(cfg: Config, subjectId: string, stored: Option<string>,
                                server: Request -> FetchOutcome, online: bool): (r: Value)
    ensures Settles(r, server(Send(cfg, ChaptersCall(subjectId), stored)), online, ChaptersFallback)
  {
    Shield(cfg, ChaptersCall(subjectId), stored, server, online, ChaptersFallback)
  }

  /** `api.chapters.getContent(chapterId)` */
  function ChaptersGetContent(cfg: Config, chapterId: string, stored: Option<string>,
                              server: Request -> FetchOutcome, online: bool): (r: Value)
    ensures Settles(r, server(Send(cfg, ContentCall(chapterId), stored)), online, ContentFallback)
  {
    Shield(cfg, ContentCall(chapterId), stored, server, online, ContentFallback)
  }

  /** `api.chapters.getQuestions(chapterId, difficulty)`; callers omitting `difficulty` pass 1. */
  function ChaptersGetQuestions(cfg: Config, chapterId: string, difficulty: int, stored: Option<string>,
                                server: Request -> FetchOutcome, online: bool): (r: Value)
    ensures Settles(r, server(Send(cfg, QuestionsCall(chapterId, difficulty), stored)), online, QuestionsFallback)
  {
    Shield(cfg, QuestionsCall(chapterId, difficulty), stored, server, online, QuestionsFallback)
  }

  /** `api.progress.getDashboard()` */
  function ProgressGetDashboard(cfg: Config, stored: Option<string>, server: Request -> FetchOutcome, online: bool): (r: Value)
    ensures Settles(r, server(Send(cfg, DashboardCall, stored)), online, DashboardFallback)
  {
    Shield(cfg, DashboardCall, stored, server, online, DashboardFallback)
  }

  /** `{ ...sessionData, timestamp: now }`: the payload with its capture time, replacing any earlier `timestamp`. */
  function Stamped(sessionData: map<string, Value>, now: int): (v: Value)
    ensures v.Obj? && v.fields.Keys == sessionData.Keys + {"timestamp"}
    ensures v.fields["timestamp"] == Num(now)
    ensures forall k :: k in sessionData && k != "timestamp" ==> v.fields[k] == sessionData[k]
  {
    Obj(sessionData["timestamp" := Num(now)])
  }

  /** `api.progress.saveSession(sessionData)`, with `now` the value of `Date.now()`. When the request
      fails online, the payload is appended to the pending queue in local storage; a failure offline
      is answered by the sentinel and queues nothing. */
  method ProgressSaveSession(cfg: Config, sessionData: map<string, Value>, storage: LocalStorage,
                             server: Request -> FetchOutcome, online: bool, now: int) returns (r: Value)
    modifies storage
    ensures Settles(r, server(Send(cfg, SaveSessionCall(sessionData), storage.token)), online, SaveSessionFallback)
    ensures storage.token == old(storage.token)
    ensures storage.pendingSessions ==
      if !Succeeds(server(Send(cfg, SaveSessionCall(sessionData), storage.token))) && online
      then old(storage.pendingSessions) + [Stamped(sessionData, now)]
      else old(storage.pendingSessions)
  {
    var c := FetchWithAuth(cfg, SaveSessionCall(sessionData), storage.token, server, online);
    match c {
      case Returned(v) =>
        r := v;
      case Threw(_) =>
        var pending := storage.pendingSessions;
        pending := pending + [Stamped(sessionData, now)];
        storage.pendingSessions := pending;
        r := SaveSessionFallback;
    }
  }

  /** Login and registration never send the stored token, whatever is stored. */
  lemma SignInSendsNoCredential(cfg: Config, email: string, password: string, userData: Value, stored: Option<string>)
    ensures "Authorization" !in Send(cfg, LoginCall(email, password), stored).headers
    ensures "Authorization" !in Send(cfg, RegisterCall(userData), stored).headers
  {
  }

  /** The other endpoints carry `Bearer <token>` exactly when a token is stored. */
  lemma AuthenticatedCallsCarryToken(cfg: Config, call: Call, stored: Option<string>)
    requires call.requiresAuth && call.options.headers == map[]
    ensures "Authorization" in Send(cfg, call, stored).headers <==> Present(stored)
    ensures Present(stored) ==> Send(cfg, call, stored).headers["Authorization"] == "Bearer " + stored.value
  {
  }

  /** A JSON content type with parameters or other decoration around it, for example
      `application/json; charset=utf-8`, is parsed as JSON. */
  lemma DecoratedJsonIsJson(before: string, after: string)
    ensures IsJsonType(Some(before + JsonType + after))
  {
    IncludesInfix(before, JsonType, after);
  }

  /** An HTTP error offline is answered by the sentinel, not thrown. */
  lemma OfflineHttpErrorIsSentinel(cfg: Config, call: Call, stored: Option<string>, server: Request -> FetchOutcome)
    requires server(Send(cfg, call, stored)).Responded?
    requires !IsOk(server(Send(cfg, call, stored)).response.status)
    ensures FetchWithAuth(cfg, call, stored, server, false) == Returned(OfflineSentinel)
  {
  }

  /** Every fallback envelope reports `success: false`, so no caller mistakes it for served data. */
  lemma FallbacksReportFailure()
    ensures forall fb :: fb in Fallbacks ==> Readable(fb) && Field(fb, "success") == Bool(false)
    ensures Field(SaveSessionFallback, "localSaved") == Bool(true)
  {
  }

  /** The dashboard fallback shows no activity and zeroed statistics. */
  lemma DashboardFallbackIsEmpty()
    ensures var data := Field(DashboardFallback, "data");
      && Readable(data) && Field(data, "recentActivity") == Arr([])
      && var stats := Field(data, "stats");
      && Readable(stats)
      && Field(stats, "questionsAttempted") == Num(0)
      && Field(stats, "correctAnswers") == Num(0)
      && Field(stats, "streak") == Num(0)
  {
  }
}
