# Lesson-plan generation endpoint, modelled in Dafny

The `generate_lesson_plans` edge function of the school backend receives a
lesson-plan request (topic, grade level, subject, optional learning context
and duration), checks it, builds a Portuguese prompt for the Gemini model,
asks the model for a JSON lesson plan, checks that the answer has the four
sections `ludic_introduction`, `bncc_goal`, `step_by_step` and
`rubric_evaluation`, stores answer and prompt through the
`insert_lesson_plan` remote procedure under the caller's credential, and
answers with the stored plan's identifier and the parsed content. Two
failures are answered directly: a missing Gemini key (500) and a request that
fails validation (400). Everything else that goes wrong is thrown and mapped
by one catch block to a 400 (a SyntaxError) or a 500.

The model has four modules:

- `Js` (js.dfy): the JavaScript semantics the code relies on. These are
  JSON values, truthiness, reading a property (which throws on `null`), the
  string conversion used by template literals and `parseInt` (which throws
  a TypeError for an object whose own `toString` key is not a method),
  `String.prototype.trim` and `parseInt` without a radix.
- `LessonPlanTypes` (types.dfy): the request as the handler sees it. This is
  a partial record whose fields may hold any JSON value.
- `Prompt` (prompt.dfy): `buildPrompt`, `execute` and `parseAIResponse`.
- `Handler` (handler.dfy): `validateRequest`, `createSupabaseClient`,
  `saveLessonPlan` and the request handler.

The handler `Handler.Serve` is a function of the request and the environment
variables. It also takes three oracles: the Gemini call, `JSON.parse` applied
to the model's text, and the remote procedure. It returns the response
together with the external effects it performed, in order: reading the body,
calling the model, calling the procedure.

Where the code departs from what its messages and tests suggest, the model
follows the code:

- A missing credential yields 500, not 401 (see Findings).
- The model's text is parsed as it is, with no markdown fence stripping.
- Only the truthiness of the four sections is checked. There is no per-field
  type check and no minimum number of steps.
- The success body carries no metadata.
- The duration message says "greater than 15", yet 15 itself is accepted.
  The repository's own test expects that
  (`DurationFifteenAccepted`).

## Model

| member | source | states |
|---|---|---|
| `Js.FalsyValues` | supabase/functions/generate_lesson_plans/index.ts:10-13 | the values `!x` rejects are exactly undefined, null, false, 0 and the empty string; arrays and objects are truthy even when empty |
| `Js.Field` | supabase/functions/generate_lesson_plans/index.ts:10-13 | a property read yields a value exactly when the value is an object holding that key, and then yields the stored value |
| `Js.GetProperty` | supabase/functions/generate_lesson_plans/index.ts:10 | reading a property throws exactly when the value is `null`, with the engine's "Cannot read properties of null" message; otherwise it yields the field or undefined |
| `Js.NatToDecimal` | supabase/functions/generate_lesson_plans/Prompt.ts:28-29 | a number prints as a non-empty run of decimal digits without a leading zero |
| `Js.Truthy` | supabase/functions/generate_lesson_plans/index.ts:10-13 | no contract of its own: `Js.FalsyValues` states which values are falsy |
| `Js.ToString` | supabase/functions/generate_lesson_plans/Prompt.ts:25-29 | converting a value to a string throws exactly when it is, or an array holds at any depth, an object with its own `toString` key, and the error is "Cannot convert object to primitive value"; otherwise objects print "[object Object]" and arrays their comma-joined elements |
| `Js.JoinElements` | supabase/functions/generate_lesson_plans/Prompt.ts:25-29 | joining array elements throws exactly when one of them cannot be converted, with the same message |
| `Js.Interpolate` | supabase/functions/generate_lesson_plans/Prompt.ts:25-27 | `${v}` prints "undefined" for an absent value and otherwise converts it, throwing what the conversion throws |
| `Js.InterpolateOr` | supabase/functions/generate_lesson_plans/Prompt.ts:28-29 | `${v \|\| fallback}` converts the value when it is truthy (throwing what the conversion throws) and prints the fallback otherwise |
| `Js.TrimStart` | supabase/functions/generate_lesson_plans/Prompt.ts:39 | the result is a suffix of the input; everything removed is white space and the result does not start with white space |
| `Js.TrimEnd` | supabase/functions/generate_lesson_plans/Prompt.ts:39 | the result is a prefix of the input; everything removed is white space and the result does not end with white space |
| `Js.Trim` | supabase/functions/generate_lesson_plans/Prompt.ts:39 | the result is no longer than the input, neither starts nor ends with white space, and is empty only when the input is all white space |
| `Js.TrimStartSkipsWhiteSpace` | supabase/functions/generate_lesson_plans/Prompt.ts:39 | leading white space does not change what trimming the start yields |
| `Js.TrimEndSkipsWhiteSpace` | supabase/functions/generate_lesson_plans/Prompt.ts:39 | trailing white space after a non-blank text is removed exactly |
| `Js.TrimUnwraps` | supabase/functions/generate_lesson_plans/Prompt.ts:21-39 | trimming a text wrapped in white space gives back the text when it neither starts nor ends with white space |
| `Js.DigitValue` | supabase/functions/generate_lesson_plans/index.ts:13 | the digit value of "0"-"9" is 0-9, of "a"-"z" and "A"-"Z" is 10-35, and every other character gets the "not a digit" marker 36 |
| `Js.ParseInt` | supabase/functions/generate_lesson_plans/index.ts:13 | no contract of its own: `Js.ParseIntReadsDecimal`, `Js.ParseIntWithoutDigits` and `Js.ParseIntSkipsWhiteSpace` state what it reads |
| `Js.DigitPrefixLength` | supabase/functions/generate_lesson_plans/index.ts:13 | `parseInt` consumes the longest prefix of digits valid in the radix, stopping at the first non-digit |
| `Js.NatToDecimalValue` | supabase/functions/generate_lesson_plans/index.ts:13 | reading back the decimal text of a number gives the number |
| `Js.DigitPrefixOfDecimal` | supabase/functions/generate_lesson_plans/index.ts:13 | the digit prefix of digits followed by a non-digit is exactly the digits |
| `Js.ParseDigitsOfDecimal` | supabase/functions/generate_lesson_plans/index.ts:13 | the digit reader yields the value of a decimal text, whatever non-digit text follows |
| `Js.NoTrimBeforeSignOrDigit` | supabase/functions/generate_lesson_plans/index.ts:13 | a text starting with a sign or a digit has no white space for `parseInt` to skip |
| `Js.ParseIntReadsDecimal` | supabase/functions/generate_lesson_plans/index.ts:13 | `parseInt` of an integer's decimal text followed by a non-digit yields that integer, negatives included; "0x" is excluded because it switches to hexadecimal |
| `Js.ParseUnsignedWithoutDigits` | supabase/functions/generate_lesson_plans/index.ts:13 | an unsigned text without a decimal digit reads as NaN |
| `Js.ParseIntWithoutDigits` | supabase/functions/generate_lesson_plans/index.ts:13 | `parseInt` of a text with no decimal digit is NaN |
| `Js.ParseIntSkipsWhiteSpace` | supabase/functions/generate_lesson_plans/index.ts:13 | leading white space does not change what `parseInt` reads |
| `Prompt.PromptIsTrimmedTemplate` | supabase/functions/generate_lesson_plans/Prompt.ts:21-39 | the prompt is the template without its surrounding line breaks; it starts with the pedagogy-expert introduction and ends with the schema's closing brace |
| `Prompt.JoinLinesEnds` | supabase/functions/generate_lesson_plans/Prompt.ts:21-39 | joined lines start with the first line and end with the last |
| `Prompt.JoinLinesAround` | supabase/functions/generate_lesson_plans/Prompt.ts:21-39 | an inner line of the template sits between two line breaks, with the lines before and after it on either side |
| `Prompt.ContainsTransitive` | supabase/functions/generate_lesson_plans/Prompt.ts:21-39 | a text inside a line that is inside the prompt is inside the prompt |
| `Prompt.JoinedContainsLine` | supabase/functions/generate_lesson_plans/Prompt.ts:21-39 | every inner line of a joined text occurs in it as a whole line |
| `Prompt.PromptContainsLine` | supabase/functions/generate_lesson_plans/Prompt.ts:23-37 | every template line from the second sentence ("Sua tarefa é") to the last schema entry occurs in the prompt as a whole line |
| `Prompt.PromptFieldLines` | supabase/functions/generate_lesson_plans/Prompt.ts:25-29 | the prompt holds each parameter line as a whole line, with "Sala de aula padrão" and "Não especificada" exactly when context and duration are falsy |
| `Prompt.OccursInMiddle` | supabase/functions/generate_lesson_plans/Prompt.ts:33-38 | a text occurs in a concatenation at the length of what precedes it |
| `Prompt.NameInLine` | supabase/functions/generate_lesson_plans/Prompt.ts:34-37 | a schema entry on a line of the prompt puts its section name in the prompt |
| `Prompt.PromptNamesSchemaFields` | supabase/functions/generate_lesson_plans/Prompt.ts:33-38 | the prompt names the four sections the parser later requires |
| `Prompt.BuildPrompt` | supabase/functions/generate_lesson_plans/Prompt.ts:18-40 | building the prompt throws the conversion TypeError exactly when a substitution cannot be converted; otherwise it is the trimmed template (`Prompt.PromptIsTrimmedTemplate`), starting with the introduction and ending with the closing brace |
| `Prompt.Execute` | supabase/functions/generate_lesson_plans/Prompt.ts:11-16 | execute throws the TypeError of `buildPrompt` before calling the model; otherwise it succeeds exactly when the model call does, returning the model's text untouched with the prompt built from the request, and a failure carries the model's message and whether it was a SyntaxError |
| `Prompt.HasRequiredFieldsUnfolded` | supabase/functions/generate_lesson_plans/Prompt.ts:59-60 | having the required fields means each of the four sections is truthy |
| `Prompt.ParseAIResponse` | supabase/functions/generate_lesson_plans/Prompt.ts:54-70 | parsing succeeds exactly when the text decodes and all four sections are truthy, returns the decoded value unchanged, and every failure message starts with "Erro ao processar resposta da IA: " |
| `Prompt.ParseAIResponseFailures` | supabase/functions/generate_lesson_plans/Prompt.ts:56-68 | the three failure messages: the decoder's message, the null-read message, and "Resposta da IA não contém todos os campos necessários", each under the prefix |
| `Prompt.ParseAcceptsEmptyContainers` | supabase/functions/generate_lesson_plans/Prompt.ts:59-64 | an empty step list and an empty rubric object are accepted, since they are truthy |
| `Prompt.ParseRejectsFalsyField` | supabase/functions/generate_lesson_plans/Prompt.ts:59-61 | setting any one section to null, "", 0 or false, or removing it, gives the missing-fields error |
| `Prompt.ParseLooksOnlyAtTruthiness` | supabase/functions/generate_lesson_plans/Prompt.ts:59-62 | two objects whose sections agree in truthiness get the same verdict |
| `Handler.FirstFailureIsFirst` | supabase/functions/generate_lesson_plans/index.ts:9-16 | checking rules in order reports nothing exactly when all pass, and otherwise the message of a failing rule all of whose predecessors pass |
| `Handler.DurationReading` | supabase/functions/generate_lesson_plans/index.ts:13 | the duration rule throws the conversion TypeError exactly when the duration is truthy and cannot be converted, and never looks at a falsy duration |
| `Handler.DurationTooShort` | supabase/functions/generate_lesson_plans/index.ts:13 | no contract of its own: the `Handler.DurationRule…` lemmas below state when it holds |
| `Handler.ValidateRequest` | supabase/functions/generate_lesson_plans/index.ts:9-16 | validation returns no message exactly when topic, grade level and subject are truthy and the duration is falsy or converts to a text that is not below 15; it throws "Cannot convert object to primitive value" exactly when the three fields are truthy and the duration is truthy and cannot be converted; a message is one of the four |
| `Handler.ValidateRequestReportsFirstFailure` | supabase/functions/generate_lesson_plans/index.ts:9-16 | the reported message comes from the first failing rule in the order topic, grade level, subject, duration |
| `Handler.MissingFieldMessages` | supabase/functions/generate_lesson_plans/index.ts:10-13 | each missing field is reported with its own message whatever comes after it; the duration message appears exactly when the three fields are present and the duration is too short |
| `Handler.DurationRuleOnText` | supabase/functions/generate_lesson_plans/index.ts:13 | for a non-empty duration text, the rule depends only on what `parseInt` reads |
| `Handler.DurationRuleOnDecimalText` | supabase/functions/generate_lesson_plans/index.ts:13 | a duration written as a decimal integer is rejected exactly when it is below 15 |
| `Handler.DurationRuleReadsLeadingDigits` | supabase/functions/generate_lesson_plans/index.ts:13 | a text such as "10 minutos" is judged by its leading number |
| `Handler.DurationRulePassesNaN` | supabase/functions/generate_lesson_plans/index.ts:13 | a duration with no digit is never rejected (NaN < 15 is false) |
| `Handler.DurationRuleOnNumber` | supabase/functions/generate_lesson_plans/index.ts:13 | a numeric duration is rejected exactly when it is non-zero and below 15 |
| `Handler.DurationRuleSkipsMissing` | supabase/functions/generate_lesson_plans/index.ts:13 | an absent, empty or null duration is not checked |
| `Handler.DurationRuleOnTeen` | supabase/functions/generate_lesson_plans/index.ts:13 | a two-digit duration from "10" to "19" is rejected exactly when it is below 15 |
| `Handler.DurationFourteenRejected` | supabase/functions/generate_lesson_plans/index.ts:13 | "14" is rejected |
| `Handler.DurationFifteenAccepted` | supabase/functions/generate_lesson_plans/index.test.ts:408-428 | "15" is accepted, as the repository's boundary test expects |
| `Handler.DurationSixteenAccepted` | supabase/functions/generate_lesson_plans/index.ts:13 | "16" is accepted |
| `Handler.ReadRequest` | supabase/functions/generate_lesson_plans/index.ts:58-65 | reading the decoded body throws the null-read TypeError for 'topic' exactly when the body is null; otherwise each field is the body's property or undefined |
| `Handler.CreateSupabaseClient` | supabase/functions/shared/createSupabaseClient.ts:4-19 | the client is created exactly when URL and anonymous key are both non-empty, it forwards the caller's Authorization header, and otherwise the "variables not set" error is thrown |
| `Handler.OrNull` | supabase/functions/generate_lesson_plans/index.ts:28-29 | `v \|\| null` is null exactly when v is falsy, and is v otherwise |
| `Handler.InsertArguments` | supabase/functions/generate_lesson_plans/index.ts:24-32 | the procedure receives topic, grade level and subject as given, context and duration or null, the untouched AI text and the prompt |
| `Handler.OptionalArgumentsAreNullOrValue` | supabase/functions/generate_lesson_plans/index.ts:28-29 | falsy optional fields reach the database as null, never as an empty string, and truthy ones unchanged |
| `Handler.SaveLessonPlan` | supabase/functions/generate_lesson_plans/index.ts:18-39 | saving calls `insert_lesson_plan` with those arguments under the client's credential; it returns the procedure's data, and an error becomes "Error saving to database: " followed by its message |
| `Handler.CatchBlock` | supabase/functions/generate_lesson_plans/index.ts:86-103 | a SyntaxError is the only thing answered with 400 "Invalid request body (not JSON)."; everything else is a 500 with its message, or "Internal server error" when it has none |
| `Handler.TryBlock` | supabase/functions/generate_lesson_plans/index.ts:46-85 | only the missing credential throws a Response, before any effect; the block itself returns only a 200, the missing-key 500 or a validation 400; effects come in pipeline order |
| `Handler.AfterBody` | supabase/functions/generate_lesson_plans/index.ts:60-84 | after the body is read, the model, if called, is called with the prompt built from the request; nothing here throws a Response, and a return is a 200 or a 400 |
| `Handler.AfterGeneration` | supabase/functions/generate_lesson_plans/index.ts:71-84 | after the model answered, the procedure is called exactly when its text parses, with that text, its prompt and the request's fields; a return is the 200 success and everything thrown is an Error |
| `Handler.Serve` | supabase/functions/generate_lesson_plans/index.ts:41-105 | every answer is 200, 400 or 500, and the effects come at most once each in the order: reading the body, calling the model, calling the procedure |
| `Handler.OptionsBypassesPipeline` | supabase/functions/generate_lesson_plans/index.ts:42-44 | OPTIONS is answered "ok" with status 200 and nothing else happens |
| `Handler.MissingAuthorizationIsInternalError` | supabase/functions/generate_lesson_plans/index.ts:47-50 | a missing or empty Authorization header ends as 500 "Internal server error" with no effect |
| `Handler.MissingApiKeyBeforeBody` | supabase/functions/generate_lesson_plans/index.ts:53-56 | a missing Gemini key gives 500 "GEMINI_API_KEY not configured." before the body is read, so the body cannot change the answer |
| `Handler.InvalidBodyIsBadRequest` | supabase/functions/generate_lesson_plans/index.ts:58 | a body that is not JSON gives 400 "Invalid request body (not JSON)." after only reading the body |
| `Handler.NullBodyIsInternalError` | supabase/functions/generate_lesson_plans/index.ts:58-60 | a `null` body gives 500 with the TypeError message for 'topic' |
| `Handler.ValidationFailureIsBadRequest` | supabase/functions/generate_lesson_plans/index.ts:60-63 | a request that fails validation gives 400 with the validator's message, and neither the model nor the database is called |
| `Handler.GenerationFailureIsInternalError` | supabase/functions/generate_lesson_plans/index.ts:69 | a failing model call gives 500 with its message, or "Internal server error" when that is empty, and nothing is saved |
| `Handler.ParseFailureIsInternalError` | supabase/functions/generate_lesson_plans/index.ts:71 | model text the parser rejects gives 500 under the parser's prefix (never 400), and nothing is saved |
| `Handler.SaveFollowsSuccessfulParse` | supabase/functions/generate_lesson_plans/index.ts:67-78 | the procedure is called only after validation, client creation, generation and parsing all succeeded; it is called once, last, under the caller's credential, with the text the model returned for exactly the prompt built from the request |
| `Handler.SuccessResponse` | supabase/functions/generate_lesson_plans/index.ts:80-84 | when every stage succeeds the answer is 200 with `success: true`, the procedure's data as `lesson_plan_id` and the parsed content |
| `Handler.SaveFailureIsInternalError` | supabase/functions/generate_lesson_plans/index.ts:34-36 | a failing procedure call gives 500 "Error saving to database: " followed by its message |
| `Handler.DurationConversionIsInternalError` | supabase/functions/generate_lesson_plans/index.ts:13 | a present duration that cannot be converted makes validation throw: 500 "Cannot convert object to primitive value" after only reading the body |
| `Handler.PromptConversionIsInternalError` | supabase/functions/generate_lesson_plans/Prompt.ts:25-29 | a substitution that cannot be converted makes `buildPrompt` throw: 500 with the TypeError's message, and the model is never called |
| `Handler.GenerationSyntaxErrorIsBadRequest` | supabase/functions/generate_lesson_plans/index.ts:86-92 | a SyntaxError thrown by the model call is answered like a bad body, 400 "Invalid request body (not JSON).", and nothing is saved |
| `Handler.BadRequestCases` | supabase/functions/generate_lesson_plans/index.ts:58-63 | a 400 is given exactly for a body that is not JSON, a request that fails validation, or a SyntaxError thrown by the model call |
| `Handler.SuccessCases` | supabase/functions/generate_lesson_plans/index.ts:67-84 | a JSON 200 is given exactly when validation, client creation, generation, parsing and saving all succeed |
| `Handler.IntendedMissingAuthorizationIsUnauthorized` | supabase/functions/generate_lesson_plans/index.ts:48-50 | with the 401 answer returned instead of thrown, a missing credential gives 401 "User not authenticated." with no effect, where the code as written gives 500 |
| `Handler.ServeIntended` | supabase/functions/generate_lesson_plans/index.ts:41-105 | the corrected handler answers 401 exactly for a non-OPTIONS request without a credential, and otherwise 200, 400 or 500 |
| `Handler.IntendedAgreesWithCredential` | supabase/functions/generate_lesson_plans/index.ts:41-105 | the corrected handler equals the handler whenever a credential is present or the request is OPTIONS, so every property above carries over |

## Findings

| source | as written | input that shows it | evidently intended | confidence | as-written member | corrected member |
|---|---|---|---|---|---|---|
| supabase/functions/generate_lesson_plans/index.ts:47-50 | the 401 response is thrown inside the try block. The catch block reads `error.message`, which a Response does not have, so the answer is 500 "Internal server error" | a POST without an Authorization header | return 401 with "User not authenticated.", the response the code builds at index.ts:49 | high, derived from the code; not executed | `Handler.MissingAuthorizationIsInternalError` | `Handler.IntendedMissingAuthorizationIsUnauthorized` |

`Handler.Serve` models the code as written. `Handler.ServeIntended` returns
the 401 instead of throwing it; `Handler.IntendedAgreesWithCredential` proves
that it agrees with `Serve` on every other request.

## Left out

- The Gemini call (`generateLessonPlanWithAI`, Prompt.ts:42-52) is an oracle
  from API key and prompt to a text, a SyntaxError or another failure,
  each with its message. The model name
  `gemini-2.0-flash` and the JSON response type it requests are not modelled.
- `req.json()` and `JSON.parse` are inputs. The body arrives already decoded
  (or as a SyntaxError), and the AI text is decoded by an oracle. JSON syntax
  itself is not modelled.
- JSON numbers are integers. JavaScript doubles (fractions, exponents,
  precision above 2^53, `-0`, `Infinity`) are left out. So is the rounding
  `parseInt` does for very long digit runs.
- The Supabase client is reduced to the Authorization header it forwards.
  The remote procedure is an oracle from that header and the arguments to
  data or an error message. Row-level security and the table itself are not
  modelled.
- CORS and JSON headers (shared/consts.ts) and the `JSON.stringify` of
  response bodies are not modelled. Bodies are JSON values and the OPTIONS
  body is text.
- The `details` stack trace, added only when ENVIRONMENT is "development",
  is not modelled. Neither is the `console.error` logging, since it is
  diagnostic output with no effect on the answer.
- ParseAIResponse: the "Erro desconhecido" fallback (Prompt.ts:67) is not
  modelled. Everything thrown inside that try block is an Error, so the
  branch cannot be reached.
- The conversion of objects to strings looks only for an own `toString`
  key. Decoded JSON may carry one, and its value is never a function, so the
  conversion throws. An own `valueOf` key never matters, because the
  inherited `toString` is tried first and already yields a string, and a
  JSON object cannot hold `Symbol.toPrimitive`.
- Handler.DurationRuleOnNumber: numbers are printed in plain decimal. For
  magnitudes of 10^21 and above JavaScript prints the exponent form
  ("1e+21"), of which `parseInt` reads only the leading digit, so the code
  rejects such durations where the lemma says they pass.
- Handler.CreateSupabaseClient: `createClient` is taken never to throw once
  URL and key are both non-empty.
- Handler.SaveLessonPlan: the procedure oracle reports errors through its
  result; a client that throws is not modelled.
- The Gemini call may throw any error, and the model distinguishes only a
  SyntaxError (answered 400 by the catch block) from any other error.
- Prompt.BuildPrompt: splitting the prompt back into its lines is not
  stated. The lemmas prove that each line occurs in the prompt between two
  line breaks, that the prompt starts with the introduction and ends with the
  closing brace, and the exact text of each parameter line.
- Property reads are modelled for the nine keys the code reads
  (`Js.Field` requires one of them), not for arbitrary keys, so prototype
  properties never come into play.
- The handler's own test doubles (`mockHandler`, the mock client and the
  mock prompt in index.test.ts and prompt.test.ts) are not modelled. The only
  thing taken from them is the expected duration boundary.
- Concurrency and the asynchronous scheduling of `serve` are not modelled.
  Each request is handled as one sequential computation.
