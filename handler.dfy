/**
  The `generate_lesson_plans` endpoint: request validation, the parameters
  handed to the `insert_lesson_plan` remote procedure, and the request handler
  with its single catch block.

  The handler is a function of its inputs. The Gemini call, `JSON.parse` on the
  AI text and the remote procedure are oracles passed in as functions, and the
  handler reports, beside the response, the external effects it performed in
  order (reading the body, calling the AI service, calling the procedure).
 */
module Handler {
  import opened Js
  import opened LessonPlanTypes
  import opened Prompt

  // ----- validateRequest -----

  const TopicRequired := "Field 'topic' is required."
  const GradeLevelRequired := "Field 'grade_level' is required."
  const SubjectRequired := "Field 'subject' is required."
  const DurationTooShortMessage := "Duration must be greater than 15 minutes."
  const MinimumDuration := 15

  /** `data.duration_minutes && parseInt(data.duration_minutes) < 15`: whether
      the duration is too short, or the TypeError that converting it to a
      string throws. */
  function DurationReading(d: Option<Json>): (r: Result<bool>)
    ensures r.Err? <==> Truthy(d) && !Convertible(d.value)
    ensures r.Err? ==> r.message == ConvertToPrimitiveMessage
    ensures !Truthy(d) ==> r == Ok(false)
  {
    if !Truthy(d) then Ok(false)
    else
      match ToString(d.value)
      case Err(typeError) => Err(typeError)
      case Ok(text) => Ok(LessThan(ParseInt(text), MinimumDuration))
  }

  /** The duration rule rejects the request. */
  predicate DurationTooShort(d: Option<Json>)
  {
    DurationReading(d) == Ok(true)
  }

  /** The rules in the order they are checked: whether each passes, and its message. */
  function ValidationRules(data: LessonPlanRequest): seq<(bool, string)>
  {
    [ (Truthy(data.topic), TopicRequired),
      (Truthy(data.grade_level), GradeLevelRequired),
      (Truthy(data.subject), SubjectRequired),
      (!DurationTooShort(data.duration_minutes), DurationTooShortMessage) ]
  }

  /** The message of the first rule that fails, if any. */
  function FirstFailure(rules: seq<(bool, string)>): Option<string>
  {
    if |rules| == 0 then None
    else if !rules[0].0 then Some(rules[0].1)
    else FirstFailure(rules[1..])
  }

  /** FirstFailure reports nothing exactly when every rule passes, and
      otherwise the message of a failing rule all of whose predecessors pass. */
  lemma {:induction false} FirstFailureIsFirst(rules: seq<(bool, string)>)
    ensures FirstFailure(rules).None? <==> forall i | 0 <= i < |rules| :: rules[i].0
    ensures FirstFailure(rules).Some? ==>
      exists i | 0 <= i < |rules| ::
        !rules[i].0 && FirstFailure(rules).value == rules[i].1 && forall j | 0 <= j < i :: rules[j].0
  {
    if |rules| > 0 && rules[0].0 {
      FirstFailureIsFirst(rules[1..]);
      if FirstFailure(rules).Some? {
        var i :| 0 <= i < |rules[1..]| && !rules[1..][i].0 && FirstFailure(rules[1..]).value == rules[1..][i].1
          && forall j | 0 <= j < i :: rules[1..][j].0;
        assert !rules[i + 1].0 && forall j | 0 <= j < i + 1 :: rules[j].0;
      }
    }
  }

  /** A request every rule accepts. */
  predicate AcceptableRequest(data: LessonPlanRequest)
  {
    Truthy(data.topic) && Truthy(data.grade_level) && Truthy(data.subject)
    && DurationReading(data.duration_minutes) == Ok(false)
  }

  /** `validateRequest`: the message of the first failing rule, or null; it
      throws when the three required fields are present and a truthy duration
      cannot be converted to a string. */
  function ValidateRequest(data: LessonPlanRequest): (r: Result<Option<string>>)
    ensures r.Err? <==>
      && Truthy(data.topic) && Truthy(data.grade_level) && Truthy(data.subject)
      && Truthy(data.duration_minutes) && !Convertible(data.duration_minutes.value)
    ensures r.Err? ==> r.message == ConvertToPrimitiveMessage
    ensures r == Ok(None) <==> AcceptableRequest(data)
    ensures r.Ok? && r.value.Some? ==>
      r.value.value in {TopicRequired, GradeLevelRequired, SubjectRequired, DurationTooShortMessage}
  {
    if !Truthy(data.topic) then Ok(Some(TopicRequired))
    else if !Truthy(data.grade_level) then Ok(Some(GradeLevelRequired))
    else if !Truthy(data.subject) then Ok(Some(SubjectRequired))
    else
      match DurationReading(data.duration_minutes)
      case Err(typeError) => Err(typeError)
      case Ok(tooShort) => Ok(if tooShort then Some(DurationTooShortMessage) else None)
  }

  /** When `validateRequest` returns, it reports the first rule, in the order of
      ValidationRules, that fails. */
  lemma ValidateRequestReportsFirstFailure(data: LessonPlanRequest)
    ensures ValidateRequest(data).Ok? ==> ValidateRequest(data).value == FirstFailure(ValidationRules(data))
    ensures ValidateRequest(data).Ok? && ValidateRequest(data).value.Some? ==>
      exists i | 0 <= i < 4 :: !ValidationRules(data)[i].0 && ValidateRequest(data).value.value == ValidationRules(data)[i].1
        && forall j | 0 <= j < i :: ValidationRules(data)[j].0
  {
    var rules := ValidationRules(data);
    var r1, r2, r3 := rules[1..], rules[2..], rules[3..];
    assert r1[1..] == r2 && r2[1..] == r3 && r3[1..] == [];
    assert FirstFailure(r3) == if rules[3].0 then None else Some(rules[3].1);
    assert FirstFailure(r2) == if rules[2].0 then FirstFailure(r3) else Some(rules[2].1);
    assert FirstFailure(r1) == if rules[1].0 then FirstFailure(r2) else Some(rules[1].1);
    FirstFailureIsFirst(rules);
  }

  /** A missing required field is reported by its own message, whatever the
      fields checked after it hold. */
  lemma MissingFieldMessages(data: LessonPlanRequest)
    ensures !Truthy(data.topic) ==> ValidateRequest(data) == Ok(Some(TopicRequired))
    ensures Truthy(data.topic) && !Truthy(data.grade_level) ==>
      ValidateRequest(data) == Ok(Some(GradeLevelRequired))
    ensures Truthy(data.topic) && Truthy(data.grade_level) && !Truthy(data.subject) ==>
      ValidateRequest(data) == Ok(Some(SubjectRequired))
    ensures ValidateRequest(data) == Ok(Some(DurationTooShortMessage)) <==>
      Truthy(data.topic) && Truthy(data.grade_level) && Truthy(data.subject)
      && DurationTooShort(data.duration_minutes)
  {
  }

  /** The rule on a non-empty text depends only on what `parseInt` reads from it. */
  lemma DurationRuleOnText(s: string, v: NumberValue)
    requires s != "" && ParseInt(s) == v
    ensures DurationTooShort(Some(JStr(s))) <==> LessThan(v, MinimumDuration)
  {
    assert ToString(JStr(s)) == Ok(s);
  }

  /** For a duration written as a decimal integer the rule rejects exactly the
      values below 15: "15" passes. */
  lemma DurationRuleOnDecimalText(n: int)
    ensures DurationTooShort(Some(JStr(IntToDecimal(n)))) <==> n < MinimumDuration
  {
    var s := IntToDecimal(n);
    ParseIntReadsDecimal(n, "");
    assert s + "" == s;
    DurationRuleOnText(s, Finite(n));
  }

  /** The digits may be followed by other text, as in "10 minutos". */
  lemma DurationRuleReadsLeadingDigits(n: nat, rest: string)
    requires rest == [] || !IsDecimalDigit(rest[0])
    requires n == 0 ==> rest == [] || (rest[0] != 'x' && rest[0] != 'X')
    ensures DurationTooShort(Some(JStr(NatToDecimal(n) + rest))) <==> n < MinimumDuration
  {
    ParseIntReadsDecimal(n, rest);
    assert IntToDecimal(n) == NatToDecimal(n);
    DurationRuleOnText(NatToDecimal(n) + rest, Finite(n));
  }

  /** A duration with no digit at all reads as NaN, which is never below 15. */
  lemma DurationRulePassesNaN(s: string)
    requires forall i | 0 <= i < |s| :: !IsDecimalDigit(s[i])
    ensures !DurationTooShort(Some(JStr(s)))
  {
    ParseIntWithoutDigits(s);
  }

  /** A numeric duration 0 is falsy and so never checked; any other number is
      rejected exactly when it is below 15. */
  lemma DurationRuleOnNumber(n: int)
    ensures DurationTooShort(Some(JNum(n))) <==> n != 0 && n < MinimumDuration
  {
    if n != 0 {
      var s := IntToDecimal(n);
      ParseIntReadsDecimal(n, "");
      assert s + "" == s;
      assert ToString(JNum(n)) == Ok(s);
      assert ParseInt(s) == Finite(n);
    }
  }

  /** An absent or empty duration is not checked. */
  lemma DurationRuleSkipsMissing()
    ensures !DurationTooShort(None) && !DurationTooShort(Some(JStr(""))) && !DurationTooShort(Some(JNull))
  {
  }

  /** A two-digit duration from 10 to 19 is rejected exactly when it is below 15. */
  lemma DurationRuleOnTeen(n: nat, s: string)
    requires 10 <= n < 20 && s == ['1', DigitChar(n % 10)]
    ensures DurationTooShort(Some(JStr(s))) <==> n < MinimumDuration
  {
    assert NatToDecimal(n) == ['1', DigitChar(n % 10)];
    DurationRuleReadsLeadingDigits(n, "");
    assert NatToDecimal(n) + "" == NatToDecimal(n);
  }

  /** Below the boundary: "14" is rejected. */
  lemma DurationFourteenRejected()
    ensures DurationTooShort(Some(JStr("14")))
  {
    DurationRuleOnTeen(14, "14");
  }

  /** On the boundary: "15" is accepted, although the message asks for more than 15. */
  lemma DurationFifteenAccepted()
    ensures !DurationTooShort(Some(JStr("15")))
  {
    DurationRuleOnTeen(15, "15");
  }

  /** Above the boundary: "16" is accepted. */
  lemma DurationSixteenAccepted()
    ensures !DurationTooShort(Some(JStr("16")))
  {
    DurationRuleOnTeen(16, "16");
  }

  /** The property reads of `validateRequest` and of the cast that follows it:
      on a null body the first read, of `topic`, throws. */
  function ReadRequest(data: Json): (r: Result<LessonPlanRequest>)
    ensures r.Err? <==> data == JNull
    ensures r.Err? ==> r.message == ReadOfNullMessage("topic")
    ensures r.Ok? ==>
      && r.value.topic == Field(data, "topic") && r.value.grade_level == Field(data, "grade_level")
      && r.value.subject == Field(data, "subject") && r.value.learning_context == Field(data, "learning_context")
      && r.value.duration_minutes == Field(data, "duration_minutes")
  {
    match GetProperty(data, "topic")
    case Err(typeError) => Err(typeError)
    case Ok(topic) =>
      Ok(LessonPlanRequest(topic, Field(data, "grade_level"), Field(data, "subject"),
                           Field(data, "learning_context"), Field(data, "duration_minutes")))
  }

  // ----- saveLessonPlan -----

  const RpcFunction := "insert_lesson_plan"
  const SaveErrorPrefix := "Error saving to database: "
  const SupabaseEnvMissing := "SUPABASE_URL and SUPABASE_ANON_KEY variables not set."

  /** The named parameters of `insert_lesson_plan`. A None field is `undefined`. */
  datatype RpcArgs = RpcArgs(
    p_topic: Option<Json>,
    p_grade_level: Option<Json>,
    p_subject: Option<Json>,
    p_learning_context: Json,
    p_duration_minutes: Json,
    p_generated_content: string,
    p_prompt_debug: string)

  /** What the remote procedure reports: its data, or an error with a message. */
  datatype RpcOutcome = RpcData(data: Json) | RpcFailure(message: string)

  /** The Supabase client, reduced to the Authorization header it forwards. */
  datatype SupabaseClient = SupabaseClient(authorization: string)

  /** `createSupabaseClient`: both connection settings must be non-empty. */
  function CreateSupabaseClient(authorization: string, url: Option<string>, anonKey: Option<string>): (r: Result<SupabaseClient>)
    ensures r.Ok? <==> url.Some? && url.value != "" && anonKey.Some? && anonKey.value != ""
    ensures r.Ok? ==> r.value.authorization == authorization
    ensures r.Err? ==> r.message == SupabaseEnvMissing
  {
    if !(url.Some? && url.value != "" && anonKey.Some? && anonKey.value != "") then Err(SupabaseEnvMissing)
    else Ok(SupabaseClient(authorization))
  }

  /** `v || null`. */
  function OrNull(v: Option<Json>): (r: Json)
    ensures r == JNull <==> !Truthy(v)
    ensures Truthy(v) ==> r == v.value
  {
    if Truthy(v) then v.value else JNull
  }

  /** The argument object built by `saveLessonPlan`. */
  function InsertArguments(params: LessonPlanRequest, generatedContent: string, promptDebug: string): (a: RpcArgs)
    ensures a.p_topic == params.topic && a.p_grade_level == params.grade_level && a.p_subject == params.subject
    ensures a.p_generated_content == generatedContent && a.p_prompt_debug == promptDebug
    ensures a.p_learning_context == OrNull(params.learning_context)
    ensures a.p_duration_minutes == OrNull(params.duration_minutes)
  {
    RpcArgs(params.topic, params.grade_level, params.subject,
            OrNull(params.learning_context), OrNull(params.duration_minutes),
            generatedContent, promptDebug)
  }

  /** Optional fields that are absent or falsy are sent as null, never as an
      empty string, and any other value is sent unchanged. */
  lemma OptionalArgumentsAreNullOrValue(params: LessonPlanRequest, content: string, prompt: string)
    ensures var a := InsertArguments(params, content, prompt);
      && (a.p_learning_context == JNull <==> !Truthy(params.learning_context))
      && (a.p_duration_minutes == JNull <==> !Truthy(params.duration_minutes))
      && a.p_learning_context != JStr("") && a.p_duration_minutes != JStr("")
      && (Truthy(params.learning_context) ==> a.p_learning_context == params.learning_context.value)
      && (Truthy(params.duration_minutes) ==> a.p_duration_minutes == params.duration_minutes.value)
  {
  }

  /** `saveLessonPlan`: call the procedure through the client; an error is
      rethrown under its own prefix, data is returned as it is. */
  function SaveLessonPlan(rpc: (string, RpcArgs) -> RpcOutcome, client: SupabaseClient,
                          params: LessonPlanRequest, generatedContent: string, promptDebug: string): (r: Result<Json>)
    ensures var outcome := rpc(client.authorization, InsertArguments(params, generatedContent, promptDebug));
      && (r.Ok? <==> outcome.RpcData?)
      && (r.Ok? ==> r.value == outcome.data)
      && (r.Err? ==> r.message == SaveErrorPrefix + outcome.message)
  {
    match rpc(client.authorization, InsertArguments(params, generatedContent, promptDebug))
    case RpcFailure(m) => Err(SaveErrorPrefix + m)
    case RpcData(d) => Ok(d)
  }

  // ----- the handler -----

  const NotAuthenticated := "User not authenticated."
  const ApiKeyMissing := "GEMINI_API_KEY not configured."
  const InvalidBody := "Invalid request body (not JSON)."
  const InternalError := "Internal server error"

  /** The parts of an HTTP request the handler looks at; `body` is what
      `req.json()` would yield if it were called. */
  datatype HttpRequest = HttpRequest(verb: string, authorization: Option<string>, body: Decoded)

  /** The environment variables the handler and the client read. */
  datatype Env = Env(geminiApiKey: Option<string>, supabaseUrl: Option<string>, supabaseAnonKey: Option<string>)

  datatype Body = TextBody(text: string) | JsonBody(json: Json)
  datatype Response = Response(status: int, body: Body)

  /** The external effects of one invocation, in the order they happen. */
  datatype Effect =
    | ReadBody
    | Generate(apiKey: string, prompt: string)
    | CallRpc(authorization: string, name: string, args: RpcArgs)

  /** What the try block can throw: the 401 Response, the SyntaxError of the
      body decoder, or an Error with a message. */
  datatype Thrown = ThrownResponse(response: Response) | ThrownSyntaxError(message: string) | ThrownError(message: string)

  datatype Completion = Returned(response: Response) | Threw(error: Thrown)
  datatype Attempt = Attempt(completion: Completion, effects: seq<Effect>)
  datatype Outcome = Outcome(response: Response, effects: seq<Effect>)

  /** A header or variable that is set and non-empty (truthy). */
  predicate Present(s: Option<string>)
  {
    s.Some? && s.value != ""
  }

  /** `jsonResponse(data, status)`; its default status is 200. */
  function JsonResponse(data: Json, status: int := 200): Response
  {
    Response(status, JsonBody(data))
  }

  function ErrorBody(message: string): Json
  {
    JObj(map["error" := JStr(message)])
  }

  function SuccessBody(id: Json, content: Json): Json
  {
    JObj(map["success" := JBool(true), "lesson_plan_id" := id, "content" := content])
  }

  /** `error.message`: a Response has none. */
  function MessageOf(e: Thrown): Option<string>
  {
    match e
    case ThrownResponse(_) => None
    case ThrownSyntaxError(m) => Some(m)
    case ThrownError(m) => Some(m)
  }

  /** The catch block: a SyntaxError is a bad body (400); anything else is a
      500 carrying its message, or "Internal server error" when it has none. */
  function CatchBlock(e: Thrown): (r: Response)
    ensures r.status == 400 <==> e.ThrownSyntaxError?
    ensures r.status != 400 ==> r.status == 500
    ensures e.ThrownSyntaxError? ==> r.body == JsonBody(ErrorBody(InvalidBody))
    ensures e.ThrownError? && e.message != "" ==> r.body == JsonBody(ErrorBody(e.message))
    ensures e.ThrownResponse? || (e.ThrownError? && e.message == "") ==> r.body == JsonBody(ErrorBody(InternalError))
  {
    if e.ThrownSyntaxError? then JsonResponse(ErrorBody(InvalidBody), 400)
    else
      var m := MessageOf(e);
      JsonResponse(ErrorBody(if m.Some? && m.value != "" then m.value else InternalError), 500)
  }

  /** The effects happen in the pipeline's order, each at most once: reading
      the body, then the AI call, then the procedure call. */
  predicate InPipelineOrder(effects: seq<Effect>)
  {
    && |effects| <= 3
    && (|effects| > 0 ==> effects[0] == ReadBody)
    && (|effects| > 1 ==> effects[1].Generate?)
    && (|effects| > 2 ==> effects[2].CallRpc?)
  }

  /** The body of the try block up to reading the request. Only the missing
      credential throws a Response, and it does so before any effect; the
      block itself returns only a success, the missing key or a failed
      validation. */
  function TryBlock(req: HttpRequest, env: Env, generate: (string, string) -> AiOutcome,
                    decode: string -> Decoded, rpc: (string, RpcArgs) -> RpcOutcome): (a: Attempt)
    ensures (a.completion.Threw? && a.completion.error.ThrownResponse?) <==> !Present(req.authorization)
    ensures !Present(req.authorization) ==> a.effects == []
    ensures a.completion.Returned? ==> a.completion.response.status in {200, 400, 500}
    ensures InPipelineOrder(a.effects)
  {
    if !Present(req.authorization) then
      Attempt(Threw(ThrownResponse(JsonResponse(ErrorBody(NotAuthenticated), 401))), [])
    else if !Present(env.geminiApiKey) then
      Attempt(Returned(JsonResponse(ErrorBody(ApiKeyMissing), 500)), [])
    else
      match req.body
      case SyntaxError(m) => Attempt(Threw(ThrownSyntaxError(m)), [ReadBody])
      case Parsed(data) =>
        match ReadRequest(data)
        case Err(typeError) => Attempt(Threw(ThrownError(typeError)), [ReadBody])
        case Ok(params) =>
          AfterBody(req.authorization.value, env.geminiApiKey.value, env, params, generate, decode, rpc)
  }

  /** The try block once the body has been read into `params`: validation,
      the client, and the AI call. The AI call, when it happens, is made with
      the request's prompt. */
  function AfterBody(authorization: string, apiKey: string, env: Env, params: LessonPlanRequest,
                     generate: (string, string) -> AiOutcome, decode: string -> Decoded,
                     rpc: (string, RpcArgs) -> RpcOutcome): (a: Attempt)
    ensures !(a.completion.Threw? && a.completion.error.ThrownResponse?)
    ensures a.completion.Returned? ==> a.completion.response.status in {200, 400}
    ensures InPipelineOrder(a.effects) && |a.effects| > 0
    ensures |a.effects| > 1 ==> Printable(params) && a.effects[1] == Generate(apiKey, PromptText(params))
  {
    match ValidateRequest(params)
    case Err(typeError) => Attempt(Threw(ThrownError(typeError)), [ReadBody])
    case Ok(Some(message)) => Attempt(Returned(JsonResponse(ErrorBody(message), 400)), [ReadBody])
    case Ok(None) =>
      match CreateSupabaseClient(authorization, env.supabaseUrl, env.supabaseAnonKey)
      case Err(m) => Attempt(Threw(ThrownError(m)), [ReadBody])
      case Ok(client) =>
        match Execute(params, apiKey, generate)
        case ExecuteFailed(syntaxError, m) =>
          var effects := if Printable(params) then [ReadBody, Generate(apiKey, PromptText(params))] else [ReadBody];
          Attempt(Threw(if syntaxError then ThrownSyntaxError(m) else ThrownError(m)), effects)
        case Executed(ai) => AfterGeneration(client, apiKey, params, ai, decode, rpc)
  }

  /** The try block once the AI has answered: parsing its text and saving.
      The procedure is called exactly when the text parses, with that text,
      the prompt that produced it and the request's fields; a return is the
      success. */
  function AfterGeneration(client: SupabaseClient, apiKey: string, params: LessonPlanRequest, ai: Execution,
                           decode: string -> Decoded, rpc: (string, RpcArgs) -> RpcOutcome): (a: Attempt)
    ensures a.completion.Returned? ==> a.completion.response.status == 200
    ensures a.completion.Threw? ==> a.completion.error.ThrownError?
    ensures |a.effects| == 2 || |a.effects| == 3
    ensures a.effects[0] == ReadBody && a.effects[1] == Generate(apiKey, ai.prompt)
    ensures |a.effects| == 3 <==> ParseAIResponse(decode(ai.response)).Ok?
    ensures |a.effects| == 3 ==>
      a.effects[2] == CallRpc(client.authorization, RpcFunction, InsertArguments(params, ai.response, ai.prompt))
  {
    var generated := [ReadBody, Generate(apiKey, ai.prompt)];
    match ParseAIResponse(decode(ai.response))
    case Err(m) => Attempt(Threw(ThrownError(m)), generated)
    case Ok(content) =>
      var saved := generated + [CallRpc(client.authorization, RpcFunction,
                                        InsertArguments(params, ai.response, ai.prompt))];
      match SaveLessonPlan(rpc, client, params, ai.response, ai.prompt)
      case Err(m) => Attempt(Threw(ThrownError(m)), saved)
      case Ok(id) => Attempt(Returned(JsonResponse(SuccessBody(id, content))), saved)
  }

  /** The request handler given to `serve`. Every answer is a 200, a 400 or a
      500, and the effects happen in the pipeline's order. */
  function Serve(req: HttpRequest, env: Env, generate: (string, string) -> AiOutcome,
                 decode: string -> Decoded, rpc: (string, RpcArgs) -> RpcOutcome): (o: Outcome)
    ensures o.response.status == 200 || o.response.status == 400 || o.response.status == 500
    ensures InPipelineOrder(o.effects)
  {
    if req.verb == "OPTIONS" then Outcome(Response(200, TextBody("ok")), [])
    else
      var a := TryBlock(req, env, generate, decode, rpc);
      match a.completion
      case Returned(response) => Outcome(response, a.effects)
      case Threw(e) => Outcome(CatchBlock(e), a.effects)
  }

  // ----- properties of the handler -----

  /** The request reaches the point where the body is decoded. */
  predicate ReachesBody(req: HttpRequest, env: Env)
  {
    req.verb != "OPTIONS" && Present(req.authorization) && Present(env.geminiApiKey)
  }

  /** The request reaches the point where the body has been read as a
      non-null value, validation has returned without a message, and the
      client has been created. */
  predicate ReachesExecute(req: HttpRequest, env: Env)
  {
    && ReachesBody(req, env)
    && req.body.Parsed? && req.body.value != JNull
    && ValidateRequest(ReadRequest(req.body.value).value) == Ok(None)
    && Present(env.supabaseUrl) && Present(env.supabaseAnonKey)
  }

  /** The request reaches the AI call: in addition, every substitution of the
      prompt template converts. */
  predicate ReachesGeneration(req: HttpRequest, env: Env)
  {
    ReachesExecute(req, env) && Printable(ReadRequest(req.body.value).value)
  }

  /** The request as the handler reads it from a decoded, non-null body. */
  function RequestOf(req: HttpRequest): LessonPlanRequest
    requires req.body.Parsed? && req.body.value != JNull
  {
    ReadRequest(req.body.value).value
  }

  /** OPTIONS is answered with "ok" before anything else happens. */
  lemma OptionsBypassesPipeline(req: HttpRequest, env: Env, generate: (string, string) -> AiOutcome,
                                decode: string -> Decoded, rpc: (string, RpcArgs) -> RpcOutcome)
    requires req.verb == "OPTIONS"
    ensures Serve(req, env, generate, decode, rpc) == Outcome(Response(200, TextBody("ok")), [])
  {
  }

  /** A missing Authorization header is thrown as a Response; having no
      message, it ends as a 500 "Internal server error", not as a 401. */
  lemma MissingAuthorizationIsInternalError(req: HttpRequest, env: Env, generate: (string, string) -> AiOutcome,
                                            decode: string -> Decoded, rpc: (string, RpcArgs) -> RpcOutcome)
    requires req.verb != "OPTIONS" && !Present(req.authorization)
    ensures Serve(req, env, generate, decode, rpc) ==
      Outcome(Response(500, JsonBody(ErrorBody(InternalError))), [])
  {
  }

  /** A missing API key is reported before the body is read, so the body
      cannot change the answer. */
  lemma MissingApiKeyBeforeBody(req: HttpRequest, env: Env, generate: (string, string) -> AiOutcome,
                                decode: string -> Decoded, rpc: (string, RpcArgs) -> RpcOutcome, otherBody: Decoded)
    requires req.verb != "OPTIONS" && Present(req.authorization) && !Present(env.geminiApiKey)
    ensures Serve(req, env, generate, decode, rpc) ==
      Outcome(Response(500, JsonBody(ErrorBody(ApiKeyMissing))), [])
    ensures Serve(req.(body := otherBody), env, generate, decode, rpc) == Serve(req, env, generate, decode, rpc)
  {
  }

  /** A body that is not JSON is a 400, and nothing after reading it happens. */
  lemma InvalidBodyIsBadRequest(req: HttpRequest, env: Env, generate: (string, string) -> AiOutcome,
                                decode: string -> Decoded, rpc: (string, RpcArgs) -> RpcOutcome)
    requires ReachesBody(req, env) && req.body.SyntaxError?
    ensures Serve(req, env, generate, decode, rpc) ==
      Outcome(Response(400, JsonBody(ErrorBody(InvalidBody))), [ReadBody])
  {
  }

  /** A body that is JSON null makes the first property read throw a
      TypeError, which ends as a 500 carrying its message. */
  lemma NullBodyIsInternalError(req: HttpRequest, env: Env, generate: (string, string) -> AiOutcome,
                                decode: string -> Decoded, rpc: (string, RpcArgs) -> RpcOutcome)
    requires ReachesBody(req, env) && req.body == Parsed(JNull)
    ensures Serve(req, env, generate, decode, rpc) ==
      Outcome(Response(500, JsonBody(ErrorBody(ReadOfNullMessage("topic")))), [ReadBody])
  {
  }

  /** A request that fails validation is a 400 with the validator's message,
      and neither the AI service nor the procedure is called. */
  lemma ValidationFailureIsBadRequest(req: HttpRequest, env: Env, generate: (string, string) -> AiOutcome,
                                      decode: string -> Decoded, rpc: (string, RpcArgs) -> RpcOutcome)
    requires ReachesBody(req, env) && req.body.Parsed? && req.body.value != JNull
    requires ValidateRequest(RequestOf(req)).Ok? && ValidateRequest(RequestOf(req)).value.Some?
    ensures Serve(req, env, generate, decode, rpc) ==
      Outcome(Response(400, JsonBody(ErrorBody(ValidateRequest(RequestOf(req)).value.value))), [ReadBody])
  {
  }

  /** A truthy duration that cannot be converted to a string makes
      `validateRequest` throw: a 500 with the TypeError's message, after only
      reading the body. */
  lemma DurationConversionIsInternalError(req: HttpRequest, env: Env, generate: (string, string) -> AiOutcome,
                                          decode: string -> Decoded, rpc: (string, RpcArgs) -> RpcOutcome)
    requires ReachesBody(req, env) && req.body.Parsed? && req.body.value != JNull
    requires var p := RequestOf(req);
      Truthy(p.topic) && Truthy(p.grade_level) && Truthy(p.subject)
      && Truthy(p.duration_minutes) && !Convertible(p.duration_minutes.value)
    ensures Serve(req, env, generate, decode, rpc) ==
      Outcome(Response(500, JsonBody(ErrorBody(ConvertToPrimitiveMessage))), [ReadBody])
  {
  }

  /** A substitution of the prompt template that cannot be converted makes
      `buildPrompt` throw: a 500 with the TypeError's message, and the AI
      service is never called. */
  lemma PromptConversionIsInternalError(req: HttpRequest, env: Env, generate: (string, string) -> AiOutcome,
                                        decode: string -> Decoded, rpc: (string, RpcArgs) -> RpcOutcome)
    requires ReachesExecute(req, env) && !Printable(RequestOf(req))
    ensures Serve(req, env, generate, decode, rpc) ==
      Outcome(Response(500, JsonBody(ErrorBody(ConvertToPrimitiveMessage))), [ReadBody])
  {
  }

  /** A SyntaxError thrown by the AI call is taken by the catch block for a bad
      request body: a 400 "Invalid request body (not JSON).", and nothing is saved. */
  lemma GenerationSyntaxErrorIsBadRequest(req: HttpRequest, env: Env, generate: (string, string) -> AiOutcome,
                                          decode: string -> Decoded, rpc: (string, RpcArgs) -> RpcOutcome)
    requires ReachesGeneration(req, env)
    requires generate(env.geminiApiKey.value, PromptText(RequestOf(req))).GenerationSyntaxError?
    ensures Serve(req, env, generate, decode, rpc) ==
      Outcome(Response(400, JsonBody(ErrorBody(InvalidBody))),
              [ReadBody, Generate(env.geminiApiKey.value, PromptText(RequestOf(req)))])
  {
  }

  /** A failing AI call is a 500 with its message, or "Internal server error"
      when the message is empty; nothing is saved. */
  lemma GenerationFailureIsInternalError(req: HttpRequest, env: Env, generate: (string, string) -> AiOutcome,
                                         decode: string -> Decoded, rpc: (string, RpcArgs) -> RpcOutcome)
    requires ReachesGeneration(req, env)
    requires generate(env.geminiApiKey.value, PromptText(RequestOf(req))).GenerationFailed?
    ensures var m := generate(env.geminiApiKey.value, PromptText(RequestOf(req))).message;
      Serve(req, env, generate, decode, rpc) ==
      Outcome(Response(500, JsonBody(ErrorBody(if m != "" then m else InternalError))),
              [ReadBody, Generate(env.geminiApiKey.value, PromptText(RequestOf(req)))])
  {
  }

  /** AI text that the parser rejects is a 500 (not a 400, although the
      decoder may have thrown a SyntaxError) under the parser's prefix, and
      nothing is saved. */
  lemma ParseFailureIsInternalError(req: HttpRequest, env: Env, generate: (string, string) -> AiOutcome,
                                    decode: string -> Decoded, rpc: (string, RpcArgs) -> RpcOutcome)
    requires ReachesGeneration(req, env)
    requires var ai := generate(env.geminiApiKey.value, PromptText(RequestOf(req)));
      ai.Generated? && ParseAIResponse(decode(ai.text)).Err?
    ensures var o := Serve(req, env, generate, decode, rpc);
      && o.response.status == 500
      && o.response.body.JsonBody? && o.response.body.json.JObj?
      && "error" in o.response.body.json.fields
      && o.response.body.json.fields["error"].JStr?
      && ParseErrorPrefix <= o.response.body.json.fields["error"].s
      && o.effects == [ReadBody, Generate(env.geminiApiKey.value, PromptText(RequestOf(req)))]
  {
  }

  /** The procedure is called only after the AI text was parsed successfully,
      with that very text, the prompt that produced it and the request's fields. */
  lemma SaveFollowsSuccessfulParse(req: HttpRequest, env: Env, generate: (string, string) -> AiOutcome,
                                   decode: string -> Decoded, rpc: (string, RpcArgs) -> RpcOutcome, e: Effect)
    requires e in Serve(req, env, generate, decode, rpc).effects && e.CallRpc?
    ensures ReachesGeneration(req, env)
    ensures e.authorization == req.authorization.value && e.name == RpcFunction
    ensures e.args.p_prompt_debug == PromptText(RequestOf(req))
    ensures generate(env.geminiApiKey.value, e.args.p_prompt_debug) == Generated(e.args.p_generated_content)
    ensures ParseAIResponse(decode(e.args.p_generated_content)).Ok?
    ensures e.args == InsertArguments(RequestOf(req), e.args.p_generated_content, e.args.p_prompt_debug)
    ensures Serve(req, env, generate, decode, rpc).effects ==
      [ReadBody, Generate(env.geminiApiKey.value, e.args.p_prompt_debug), e]
  {
    var effects := TryBlock(req, env, generate, decode, rpc).effects;
    assert req.verb != "OPTIONS" && e in effects;
    assert Present(req.authorization) && Present(env.geminiApiKey);
    assert req.body.Parsed? && req.body.value != JNull;
    var p := RequestOf(req);
    assert ValidateRequest(p) == Ok(None);
    assert Present(env.supabaseUrl) && Present(env.supabaseAnonKey);
    var prompt := PromptText(p);
    var ai := generate(env.geminiApiKey.value, prompt);
    assert ai.Generated?;
    assert ParseAIResponse(decode(ai.text)).Ok?;
    var call := CallRpc(req.authorization.value, RpcFunction, InsertArguments(p, ai.text, prompt));
    assert effects == [ReadBody, Generate(env.geminiApiKey.value, prompt), call];
    assert e == call;
  }

  /** When every stage succeeds the answer is a 200 with exactly the success
      flag, the procedure's data and the parsed content. */
  lemma SuccessResponse(req: HttpRequest, env: Env, generate: (string, string) -> AiOutcome,
                        decode: string -> Decoded, rpc: (string, RpcArgs) -> RpcOutcome)
    requires ReachesGeneration(req, env)
    requires var p := RequestOf(req); var ai := generate(env.geminiApiKey.value, PromptText(p));
      && ai.Generated? && ParseAIResponse(decode(ai.text)).Ok?
      && rpc(req.authorization.value, InsertArguments(p, ai.text, PromptText(p))).RpcData?
    ensures var p := RequestOf(req); var ai := generate(env.geminiApiKey.value, PromptText(p));
      var args := InsertArguments(p, ai.text, PromptText(p));
      Serve(req, env, generate, decode, rpc) ==
      Outcome(Response(200, JsonBody(SuccessBody(rpc(req.authorization.value, args).data, decode(ai.text).value))),
              [ReadBody, Generate(env.geminiApiKey.value, PromptText(p)), CallRpc(req.authorization.value, RpcFunction, args)])
  {
  }

  /** A failing procedure call is a 500 under the database prefix. */
  lemma SaveFailureIsInternalError(req: HttpRequest, env: Env, generate: (string, string) -> AiOutcome,
                                   decode: string -> Decoded, rpc: (string, RpcArgs) -> RpcOutcome)
    requires ReachesGeneration(req, env)
    requires var p := RequestOf(req); var ai := generate(env.geminiApiKey.value, PromptText(p));
      && ai.Generated? && ParseAIResponse(decode(ai.text)).Ok?
      && rpc(req.authorization.value, InsertArguments(p, ai.text, PromptText(p))).RpcFailure?
    ensures var p := RequestOf(req); var ai := generate(env.geminiApiKey.value, PromptText(p));
      var m := rpc(req.authorization.value, InsertArguments(p, ai.text, PromptText(p))).message;
      Serve(req, env, generate, decode, rpc).response == Response(500, JsonBody(ErrorBody(SaveErrorPrefix + m)))
  {
  }

  /** The 400s are exactly the bodies that are not JSON, the failed validations
      and the SyntaxErrors of the AI call. */
  lemma BadRequestCases(req: HttpRequest, env: Env, generate: (string, string) -> AiOutcome,
                        decode: string -> Decoded, rpc: (string, RpcArgs) -> RpcOutcome)
    ensures Serve(req, env, generate, decode, rpc).response.status == 400 <==>
      || (ReachesBody(req, env) && req.body.SyntaxError?)
      || (ReachesBody(req, env) && req.body.Parsed? && req.body.value != JNull
          && ValidateRequest(RequestOf(req)).Ok? && ValidateRequest(RequestOf(req)).value.Some?)
      || (ReachesGeneration(req, env)
          && generate(env.geminiApiKey.value, PromptText(RequestOf(req))).GenerationSyntaxError?)
  {
  }

  /** A JSON answer with status 200 is exactly the success of every stage. */
  lemma SuccessCases(req: HttpRequest, env: Env, generate: (string, string) -> AiOutcome,
                     decode: string -> Decoded, rpc: (string, RpcArgs) -> RpcOutcome)
    ensures var r := Serve(req, env, generate, decode, rpc).response;
      r.status == 200 && r.body.JsonBody? <==>
      && ReachesGeneration(req, env)
      && var p := RequestOf(req); var ai := generate(env.geminiApiKey.value, PromptText(p));
      && ai.Generated? && ParseAIResponse(decode(ai.text)).Ok?
      && rpc(req.authorization.value, InsertArguments(p, ai.text, PromptText(p))).RpcData?
  {
  }

  // ----- the missing-credential answer as intended -----

  /** The handler with the missing-credential answer returned instead of
      thrown, as the API key check just below it does. */
  function ServeIntended(req: HttpRequest, env: Env, generate: (string, string) -> AiOutcome,
                         decode: string -> Decoded, rpc: (string, RpcArgs) -> RpcOutcome): (o: Outcome)
    ensures o.response.status == 401 <==> req.verb != "OPTIONS" && !Present(req.authorization)
    ensures o.response.status in {200, 400, 401, 500}
  {
    if req.verb != "OPTIONS" && !Present(req.authorization) then
      Outcome(JsonResponse(ErrorBody(NotAuthenticated), 401), [])
    else Serve(req, env, generate, decode, rpc)
  }

  /** Without a credential the intended handler answers 401 "User not
      authenticated." and does nothing else. */
  lemma IntendedMissingAuthorizationIsUnauthorized(req: HttpRequest, env: Env, generate: (string, string) -> AiOutcome,
                                                   decode: string -> Decoded, rpc: (string, RpcArgs) -> RpcOutcome)
    requires req.verb != "OPTIONS" && !Present(req.authorization)
    ensures ServeIntended(req, env, generate, decode, rpc) ==
      Outcome(Response(401, JsonBody(ErrorBody(NotAuthenticated))), [])
    ensures Serve(req, env, generate, decode, rpc).response.status == 500
  {
  }

  /** With a credential (or for OPTIONS) the intended handler is the handler,
      so every property proved above about Serve holds of it. */
  lemma IntendedAgreesWithCredential(req: HttpRequest, env: Env, generate: (string, string) -> AiOutcome,
                                     decode: string -> Decoded, rpc: (string, RpcArgs) -> RpcOutcome)
    ensures req.verb == "OPTIONS" || Present(req.authorization) ==>
      ServeIntended(req, env, generate, decode, rpc) == Serve(req, env, generate, decode, rpc)
  {
  }
}
