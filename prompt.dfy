/**
  The `Prompt` class: the prompt template, the pairing of the AI text with the
  prompt that produced it, and the validation of the AI's decoded output.
  The class's two readonly fields are the parameters of `Execute`.
 */
module Prompt {
  import opened Js
  import opened LessonPlanTypes

  // ----- buildPrompt -----

  const ContextDefault := "Sala de aula padrão"
  const DurationDefault := "Não especificada"

  // The fixed lines of the template, one constant each.
  const Opening := "Você é um especialista"
  const Introduction := Opening + " em pedagogia e assistente de criação de planos de aula alinhado à BNCC (Base Nacional Comum Curricular) do Brasil."
  const Task := "Sua tarefa é gerar um plano de aula detalhado com base nos seguintes parâmetros:"
  const TopicLabel := "- Tópico: "
  const GradeLevelLabel := "- Nível/Ano: "
  const SubjectLabel := "- Matéria: "
  const ContextLabel := "- Contexto de Aprendizagem: "
  const DurationLabel := "- Duração: "
  const DurationUnit := " minutos"
  const FormatRule := "Sua resposta DEVE ser um objeto JSON válido, sem nenhum texto introdutório, explicação ou formatação markdown (como ```json)."
  const StructureRule := "O JSON deve ter EXATAMENTE a seguinte estrutura:"
  const SchemaOpen := "{"
  const SchemaIntroduction := SchemaEntry("ludic_introduction", "\"...\",")
  const SchemaGoal := SchemaEntry("bncc_goal", "\"...\",")
  const SchemaSteps := SchemaEntry("step_by_step", "[{etapa: \"...\", tempo: \"...\", descricao: \"...\"}],")
  const SchemaRubric := SchemaEntry("rubric_evaluation",
    "{ excelente: \"...\", bom: \"...\", satisfatorio: \"...\", em_desenvolvimento: \"...\"}")
  const SchemaClose := "}"

  /** A line of the embedded schema: two spaces, the quoted name, a colon and the value. */
  function SchemaEntry(name: string, value: string): string
  {
    "  \"" + name + ("\": " + value)
  }

  /** Every substitution of the template converts without throwing: the three
      required fields when present, the optional ones when truthy. */
  predicate Printable(p: LessonPlanRequest)
  {
    && (p.topic.Some? ==> Convertible(p.topic.value))
    && (p.grade_level.Some? ==> Convertible(p.grade_level.value))
    && (p.subject.Some? ==> Convertible(p.subject.value))
    && (Truthy(p.learning_context) ==> Convertible(p.learning_context.value))
    && (Truthy(p.duration_minutes) ==> Convertible(p.duration_minutes.value))
  }

  /** The lines of the prompt template, in order, between its opening and its
      closing line break. */
  function PromptLines(p: LessonPlanRequest): seq<string>
    requires Printable(p)
  {
    [ Introduction,
      Task,
      "",
      TopicLabel + Interpolate(p.topic).value,
      GradeLevelLabel + Interpolate(p.grade_level).value,
      SubjectLabel + Interpolate(p.subject).value,
      ContextLabel + InterpolateOr(p.learning_context, ContextDefault).value,
      DurationLabel + InterpolateOr(p.duration_minutes, DurationDefault).value + DurationUnit,
      "",
      FormatRule,
      StructureRule,
      SchemaOpen,
      SchemaIntroduction,
      SchemaGoal,
      SchemaSteps,
      SchemaRubric,
      SchemaClose ]
  }

  /** Lines joined by line breaks. */
  function JoinLines(ls: seq<string>): string
  {
    if |ls| == 0 then ""
    else if |ls| == 1 then ls[0]
    else ls[0] + "\n" + JoinLines(ls[1..])
  }

  /** The template literal before `.trim()`: it opens and closes with a line break. */
  function Template(p: LessonPlanRequest): string
    requires Printable(p)
  {
    "\n" + JoinLines(PromptLines(p)) + "\n"
  }

  /** The prompt of a request whose substitutions all convert: the template's
      lines without its opening and closing line break, which is what
      `.trim()` leaves of it (PromptIsTrimmedTemplate). */
  function PromptText(p: LessonPlanRequest): string
    requires Printable(p)
  {
    JoinLines(PromptLines(p))
  }

  /** `sub` occurs in `s` at offset `i`. */
  predicate OccursAt(s: string, sub: string, i: nat)
  {
    i + |sub| <= |s| && s[i..i + |sub|] == sub
  }

  /** `s.includes(sub)`. */
  ghost predicate Contains(s: string, sub: string)
  {
    exists i: nat :: OccursAt(s, sub, i)
  }

  // ----- lemmas about the template -----

  /** A joined text starts with its first line and ends with its last. */
  lemma {:induction false} JoinLinesEnds(ls: seq<string>)
    requires |ls| >= 1
    ensures ls[0] <= JoinLines(ls)
    ensures var j := JoinLines(ls); var l := ls[|ls| - 1];
      |l| <= |j| && j[|j| - |l|..] == l
    decreases |ls|
  {
    if |ls| > 1 {
      JoinLinesEnds(ls[1..]);
      var j := JoinLines(ls);
      var l := ls[|ls| - 1];
      assert j == ls[0] + "\n" + JoinLines(ls[1..]);
      assert j[|j| - |l|..] == JoinLines(ls[1..])[|JoinLines(ls[1..])| - |l|..];
    }
  }

  /** Line `i` of a joined text stands between two line breaks. */
  lemma {:induction false} JoinLinesAround(ls: seq<string>, i: nat)
    requires 0 < i < |ls| - 1
    ensures JoinLines(ls) == JoinLines(ls[..i]) + ("\n" + ls[i] + "\n") + JoinLines(ls[i + 1..])
    decreases i
  {
    if i == 1 {
      assert ls[..1] == [ls[0]];
      assert ls[1..][1..] == ls[2..];
    } else {
      JoinLinesAround(ls[1..], i - 1);
      assert ls[1..][..i - 1] == ls[1..i];
      assert ls[1..][i - 1 + 1..] == ls[i + 1..];
      assert ls[..i][1..] == ls[1..i];
    }
  }

  lemma ContainsTransitive(s: string, mid: string, sub: string)
    requires Contains(s, mid) && Contains(mid, sub)
    ensures Contains(s, sub)
  {
    var i: nat :| OccursAt(s, mid, i);
    var j: nat :| OccursAt(mid, sub, j);
    forall k | 0 <= k < |sub| ensures s[i + j + k] == sub[k] {
      assert mid[j + k] == sub[k];
      assert s[i + (j + k)] == mid[j + k];
    }
    assert s[i + j..i + j + |sub|] == sub;
    assert OccursAt(s, sub, i + j);
  }

  /** `.trim()` removes exactly the template's opening and closing line break:
      the prompt starts with "Você é um especialista" and ends with the brace
      that closes the embedded schema. */
  lemma PromptIsTrimmedTemplate(p: LessonPlanRequest)
    requires Printable(p)
    ensures Trim(Template(p)) == PromptText(p)
    ensures Opening <= PromptText(p)
    ensures |PromptText(p)| > 0 && PromptText(p)[|PromptText(p)| - 1] == '}'
  {
    var ls := PromptLines(p);
    var body := JoinLines(ls);
    JoinLinesEnds(ls);
    assert Opening <= ls[0];
    assert body[0] == 'V';
    assert body[|body| - 1] == '}' by {
      assert body[|body| - 1..] == "}";
    }
    TrimUnwraps("\n", body, "\n");
  }

  /** Every inner line of a joined text occurs in it between two line breaks. */
  lemma JoinedContainsLine(ls: seq<string>, i: nat)
    requires 0 < i < |ls| - 1
    ensures Contains(JoinLines(ls), "\n" + ls[i] + "\n")
  {
    JoinLinesAround(ls, i);
    var before := JoinLines(ls[..i]);
    assert OccursAt(JoinLines(ls), "\n" + ls[i] + "\n", |before|);
  }

  /** Every line of the template appears in the prompt between two line
      breaks, whatever the interpolated values hold. */
  lemma PromptContainsLine(p: LessonPlanRequest, i: nat)
    requires Printable(p) && 0 < i < 16
    ensures Contains(PromptText(p), "\n" + PromptLines(p)[i] + "\n")
  {
    PromptIsTrimmedTemplate(p);
    JoinedContainsLine(PromptLines(p), i);
  }

  /** `topic`, `grade_level` and `subject` appear verbatim on their labelled
      lines; an absent or empty `learning_context` or `duration_minutes` is
      rendered by its default, any other value verbatim. */
  lemma PromptFieldLines(p: LessonPlanRequest)
    requires Printable(p)
    ensures Contains(PromptText(p), "\n" + (TopicLabel + Interpolate(p.topic).value) + "\n")
    ensures Contains(PromptText(p), "\n" + (GradeLevelLabel + Interpolate(p.grade_level).value) + "\n")
    ensures Contains(PromptText(p), "\n" + (SubjectLabel + Interpolate(p.subject).value) + "\n")
    ensures !Truthy(p.learning_context) ==>
      Contains(PromptText(p), "\n" + (ContextLabel + ContextDefault) + "\n")
    ensures Truthy(p.learning_context) ==>
      Contains(PromptText(p), "\n" + (ContextLabel + ToString(p.learning_context.value).value) + "\n")
    ensures !Truthy(p.duration_minutes) ==>
      Contains(PromptText(p), "\n" + (DurationLabel + DurationDefault + DurationUnit) + "\n")
    ensures Truthy(p.duration_minutes) ==>
      Contains(PromptText(p), "\n" + (DurationLabel + ToString(p.duration_minutes.value).value + DurationUnit) + "\n")
  {
    var ls := PromptLines(p);
    assert ls[3] == TopicLabel + Interpolate(p.topic).value;
    assert ls[4] == GradeLevelLabel + Interpolate(p.grade_level).value;
    assert ls[5] == SubjectLabel + Interpolate(p.subject).value;
    assert ls[6] == ContextLabel + InterpolateOr(p.learning_context, ContextDefault).value;
    assert ls[7] == DurationLabel + InterpolateOr(p.duration_minutes, DurationDefault).value + DurationUnit;
    PromptContainsLine(p, 3);
    PromptContainsLine(p, 4);
    PromptContainsLine(p, 5);
    PromptContainsLine(p, 6);
    PromptContainsLine(p, 7);
  }

  lemma OccursInMiddle(a: string, x: string, b: string)
    ensures OccursAt(a + x + b, x, |a|)
  {
    assert (a + x + b)[|a|..|a| + |x|] == x;
  }

  /** A name quoted at the start of a line of `s` occurs in `s`. */
  lemma NameInLine(s: string, name: string, value: string)
    requires Contains(s, "\n" + SchemaEntry(name, value) + "\n")
    ensures Contains(s, name)
  {
    var line := SchemaEntry(name, value);
    OccursInMiddle("  \"", name, "\": " + value);
    OccursInMiddle("\n", line, "\n");
    ContainsTransitive("\n" + line + "\n", line, name);
    ContainsTransitive(s, "\n" + line + "\n", name);
  }

  /** The embedded schema names the four fields the parser requires. */
  lemma PromptNamesSchemaFields(p: LessonPlanRequest)
    requires Printable(p)
    ensures Contains(PromptText(p), "ludic_introduction")
    ensures Contains(PromptText(p), "bncc_goal")
    ensures Contains(PromptText(p), "step_by_step")
    ensures Contains(PromptText(p), "rubric_evaluation")
  {
    var ls := PromptLines(p);
    assert ls[12] == SchemaIntroduction && ls[13] == SchemaGoal;
    assert ls[14] == SchemaSteps && ls[15] == SchemaRubric;
    var b := PromptText(p);
    PromptContainsLine(p, 12);
    NameInLine(b, "ludic_introduction", "\"...\",");
    PromptContainsLine(p, 13);
    NameInLine(b, "bncc_goal", "\"...\",");
    PromptContainsLine(p, 14);
    NameInLine(b, "step_by_step", "[{etapa: \"...\", tempo: \"...\", descricao: \"...\"}],");
    PromptContainsLine(p, 15);
    NameInLine(b, "rubric_evaluation",
      "{ excelente: \"...\", bom: \"...\", satisfatorio: \"...\", em_desenvolvimento: \"...\"}");
  }

  /** `buildPrompt`: the template with its substitutions, trimmed. A
      substitution that cannot be converted throws its TypeError, and there is
      no prompt. */
  function BuildPrompt(p: LessonPlanRequest): (r: Result<string>)
    ensures r.Ok? <==> Printable(p)
    ensures r.Err? ==> r.message == ConvertToPrimitiveMessage
    ensures r.Ok? ==> r.value == PromptText(p) && Opening <= r.value && r.value[|r.value| - 1] == '}'
  {
    if Printable(p) then
      PromptIsTrimmedTemplate(p);
      Ok(PromptText(p))
    else Err(ConvertToPrimitiveMessage)
  }

  // ----- execute -----

  /** What the Gemini call yields: the response text, or what it throws, which
      is a SyntaxError or another Error, with its message. */
  datatype AiOutcome = Generated(text: string) | GenerationFailed(message: string) | GenerationSyntaxError(message: string)

  /** `{response, prompt}` as `execute` returns it. */
  datatype Execution = Execution(response: string, prompt: string)

  /** What `execute` resolves to, or what it rejects with: whether the error is
      a SyntaxError, and its message. */
  datatype ExecuteResult = Executed(execution: Execution) | ExecuteFailed(syntaxError: bool, message: string)

  /** `Prompt.execute`: build the prompt, hand it to the AI service with the
      key, and pair the untouched answer with the prompt. */
  function Execute(params: LessonPlanRequest, apiKey: string, generate: (string, string) -> AiOutcome): (r: ExecuteResult)
    ensures !Printable(params) ==> r == ExecuteFailed(false, ConvertToPrimitiveMessage)
    ensures Printable(params) ==> var ai := generate(apiKey, PromptText(params));
      && (r.Executed? <==> ai.Generated?)
      && (r.Executed? ==> r.execution == Execution(ai.text, PromptText(params)))
      && (r.ExecuteFailed? ==> r.message == ai.message && (r.syntaxError <==> ai.GenerationSyntaxError?))
  {
    match BuildPrompt(params)
    case Err(typeError) => ExecuteFailed(false, typeError)
    case Ok(prompt) =>
      match generate(apiKey, prompt)
      case Generated(text) => Executed(Execution(text, prompt))
      case GenerationFailed(m) => ExecuteFailed(false, m)
      case GenerationSyntaxError(m) => ExecuteFailed(true, m)
  }

  // ----- parseAIResponse -----

  const ParseErrorPrefix := "Erro ao processar resposta da IA: "
  const MissingFieldsMessage := "Resposta da IA não contém todos os campos necessários"
  const RequiredFields: seq<string> := ["ludic_introduction", "bncc_goal", "step_by_step", "rubric_evaluation"]

  /** Every required top-level field of the decoded value is truthy. */
  predicate HasRequiredFields(v: Json)
  {
    forall i | 0 <= i < |RequiredFields| :: Truthy(Field(v, RequiredFields[i]))
  }

  lemma HasRequiredFieldsUnfolded(v: Json)
    ensures HasRequiredFields(v) <==>
      Truthy(Field(v, "ludic_introduction")) && Truthy(Field(v, "bncc_goal"))
      && Truthy(Field(v, "step_by_step")) && Truthy(Field(v, "rubric_evaluation"))
  {
    if HasRequiredFields(v) {
      assert Truthy(Field(v, RequiredFields[0])) && Truthy(Field(v, RequiredFields[1]));
      assert Truthy(Field(v, RequiredFields[2])) && Truthy(Field(v, RequiredFields[3]));
    } else {
      var i :| 0 <= i < |RequiredFields| && !Truthy(Field(v, RequiredFields[i]));
      assert i == 0 || i == 1 || i == 2 || i == 3;
    }
  }

  /** `Prompt.parseAIResponse` applied to the outcome of `JSON.parse` on the AI
      text. Every error it catches (the SyntaxError, the TypeError of reading a
      property of `null`, its own missing-fields Error) is an `Error`, so its
      message is rewrapped under one prefix. */
  function ParseAIResponse(decoded: Decoded): (r: Result<Json>)
    ensures r.Ok? <==> decoded.Parsed? && HasRequiredFields(decoded.value)
    ensures r.Ok? ==> r.value == decoded.value
    ensures r.Err? ==> ParseErrorPrefix <= r.message
  {
    match decoded
    case SyntaxError(m) => Err(ParseErrorPrefix + m)
    case Parsed(v) =>
      HasRequiredFieldsUnfolded(v);
      match GetProperty(v, "ludic_introduction")
      case Err(typeError) => Err(ParseErrorPrefix + typeError)
      case Ok(intro) =>
        if !Truthy(intro) || !Truthy(Field(v, "bncc_goal"))
          || !Truthy(Field(v, "step_by_step")) || !Truthy(Field(v, "rubric_evaluation"))
        then Err(ParseErrorPrefix + MissingFieldsMessage)
        else Ok(v)
  }

  /** The three ways parsing fails, each under the common prefix. */
  lemma ParseAIResponseFailures(decoded: Decoded)
    ensures decoded.SyntaxError? ==>
      ParseAIResponse(decoded) == Err(ParseErrorPrefix + decoded.message)
    ensures decoded == Parsed(JNull) ==>
      ParseAIResponse(decoded) == Err(ParseErrorPrefix + "Cannot read properties of null (reading 'ludic_introduction')")
    ensures decoded.Parsed? && decoded.value != JNull && !HasRequiredFields(decoded.value) ==>
      ParseAIResponse(decoded) == Err(ParseErrorPrefix + MissingFieldsMessage)
  {
  }

  /** An empty `step_by_step` array and an empty `rubric_evaluation` object are accepted. */
  lemma ParseAcceptsEmptyContainers(intro: string, goal: string)
    requires intro != "" && goal != ""
    ensures var v := JObj(map["ludic_introduction" := JStr(intro), "bncc_goal" := JStr(goal),
                              "step_by_step" := JArr([]), "rubric_evaluation" := JObj(map[])]);
      ParseAIResponse(Parsed(v)) == Ok(v)
  {
    var v := JObj(map["ludic_introduction" := JStr(intro), "bncc_goal" := JStr(goal),
                      "step_by_step" := JArr([]), "rubric_evaluation" := JObj(map[])]);
    assert HasRequiredFields(v) by {
      forall i | 0 <= i < |RequiredFields| ensures Truthy(Field(v, RequiredFields[i])) {
        assert RequiredFields[i] in v.fields;
      }
    }
  }

  /** A required field that is missing, null, "", 0 or false rejects the value. */
  lemma ParseRejectsFalsyField(fields: map<string, Json>, i: nat, x: Json)
    requires i < |RequiredFields|
    requires x in [JNull, JStr(""), JNum(0), JBool(false)]
    ensures ParseAIResponse(Parsed(JObj(fields[RequiredFields[i] := x]))) ==
      Err(ParseErrorPrefix + MissingFieldsMessage)
    ensures ParseAIResponse(Parsed(JObj(fields - {RequiredFields[i]}))) ==
      Err(ParseErrorPrefix + MissingFieldsMessage)
  {
    var v := JObj(fields[RequiredFields[i] := x]);
    assert !Truthy(Field(v, RequiredFields[i]));
    var w := JObj(fields - {RequiredFields[i]});
    assert !Truthy(Field(w, RequiredFields[i]));
  }

  /** Acceptance looks only at the truthiness of the four fields: the contents
      of the steps, the rubric levels and every other field never matter. */
  lemma ParseLooksOnlyAtTruthiness(v: Json, w: Json)
    requires v != JNull && w != JNull
    requires forall i | 0 <= i < |RequiredFields| ::
      Truthy(Field(v, RequiredFields[i])) == Truthy(Field(w, RequiredFields[i]))
    ensures ParseAIResponse(Parsed(v)).Ok? == ParseAIResponse(Parsed(w)).Ok?
    ensures ParseAIResponse(Parsed(v)).Err? ==> ParseAIResponse(Parsed(v)) == ParseAIResponse(Parsed(w))
  {
  }
}
