/** The domain builder, topic selector and student-model bookkeeping of
    backend/its.py. The oracle's replies are parameters; json.loads is the
    parameter `parse`, which gives None where json.loads raises
    JSONDecodeError. */
module Its {
  import opened Json
  import opened Extraction
  import opened Messages

  /** The three-level mastery ladder. */
  const Beginner := "iniciante"
  const Intermediate := "intermediário"
  const Advanced := "avançado"

  /** modelo_aluno: topic name to mastery level. Levels are whatever the
      oracle wrote, so they are decoded values rather than ladder steps. */
  type Levels = map<string, Json>

  /** modelo_dominio: topic name to {"explicacao", "pre_requisitos", "exercicio"}. */
  type Domain = map<string, Json>

  // ---------------------------------------------------------------------
  // Domain model builder and topic selector: decode or return a sentinel
  // ---------------------------------------------------------------------

  /** The single-key "ERRO" domain returned when the oracle's reply is unusable. */
  function ErrorDomain(): Json
  {
    JObject(map["ERRO" := JObject(map[
      "explicacao" := JStr("Erro na resposta da LLM"),
      "pre_requisitos" := JArray([]),
      "exercicio" := JStr("")
    ])])
  }

  /** The reply-handling half of etapa_0_prep_modelo_dominio: the decoded
      span, or the "ERRO" sentinel when there is no span or it does not
      decode. It never fails. */
  function BuildDomain(reply: string, parse: string -> Option<Json>): (r: Json)
    ensures JsonSpan(reply).None? ==> r == ErrorDomain()
    ensures JsonSpan(reply).Some? && parse(JsonSpan(reply).value).None? ==> r == ErrorDomain()
    ensures JsonSpan(reply).Some? && parse(JsonSpan(reply).value).Some? ==>
              r == parse(JsonSpan(reply).value).value
  {
    match Decode(reply, parse)
    case NoMatch => ErrorDomain()
    case Malformed(_) => ErrorDomain()
    case Parsed(v) => v
  }

  /** The selector's sentinel decision. */
  function SelectorError(why: string): Json
  {
    JObject(map["proximo_topico" := JStr("ERRO_NO_JSON"), "raciocinio" := JStr(why)])
  }

  /** The reply-handling half of etapa_1_selecao_proximo_topico: the decoded
      decision, or a decision naming "ERRO_NO_JSON" when there is no span
      or it does not decode. */
  function SelectTopic(reply: string, parse: string -> Option<Json>): (r: Json)
    ensures JsonSpan(reply).None? ==>
              r == SelectorError("Falha ao encontrar JSON na resposta do LLM.")
    ensures JsonSpan(reply).Some? && parse(JsonSpan(reply).value).None? ==>
              r == SelectorError("Falha ao decodificar o JSON retornado pelo LLM.")
    ensures JsonSpan(reply).Some? && parse(JsonSpan(reply).value).Some? ==>
              r == parse(JsonSpan(reply).value).value
  {
    match Decode(reply, parse)
    case NoMatch => SelectorError("Falha ao encontrar JSON na resposta do LLM.")
    case Malformed(_) => SelectorError("Falha ao decodificar o JSON retornado pelo LLM.")
    case Parsed(v) => v
  }

  /** decisao.get("proximo_topico"): None when the decision is not a dict
      (the call raises), JNull when the key is missing. */
  function ProposedTopic(decision: Json): Option<Json>
  {
    if decision.JObject? then Some(Get(decision.fields, "proximo_topico", JNull)) else None
  }

  /** Both ways the selector can fail name the same non-topic. */
  lemma SelectorFailureNamesSentinel(reply: string, parse: string -> Option<Json>)
    requires Decode(reply, parse).NoMatch? || Decode(reply, parse).Malformed?
    ensures ProposedTopic(SelectTopic(reply, parse)) == Some(JStr("ERRO_NO_JSON"))
  {
  }

  /** A topic's teaching material, as the tutor reads it from the domain. */
  datatype Lesson = Lesson(topic: string, explanation: Json, exercise: Json)

  /** modelo_dominio[topic][key]; None where Python raises: the topic is not
      a str key of the domain, its entry is not a dict, or the key is missing. */
  function Field(domain: Domain, topic: Json, key: string): (r: Option<Json>)
    ensures r.Some? <==> topic.JStr? && topic.s in domain && domain[topic.s].JObject? &&
                         key in domain[topic.s].fields
    ensures r.Some? ==> r.value == domain[topic.s].fields[key]
  {
    if topic.JStr? && topic.s in domain && domain[topic.s].JObject? && key in domain[topic.s].fields
    then Some(domain[topic.s].fields[key])
    else None
  }

  /** A topic's "explicacao" and "exercicio", or None where a lookup raises. */
  function LessonOf(domain: Domain, topic: Json): (r: Option<Lesson>)
    ensures r.Some? ==> topic == JStr(r.value.topic) && r.value.topic in domain
    ensures r.Some? <==> Field(domain, topic, "explicacao").Some? && Field(domain, topic, "exercicio").Some?
    ensures r.Some? ==> Field(domain, topic, "explicacao") == Some(r.value.explanation)
    ensures r.Some? ==> Field(domain, topic, "exercicio") == Some(r.value.exercise)
  {
    match (Field(domain, topic, "explicacao"), Field(domain, topic, "exercicio"))
    case (Some(e), Some(x)) => Some(Lesson(topic.s, e, x))
    case _ => None
  }

  // ---------------------------------------------------------------------
  // Student model
  // ---------------------------------------------------------------------

  /** etapa_0_inicializar_aluno: one entry per domain topic, all at the
      bottom of the ladder. */
  function InitStudent(domain: Domain): (r: Levels)
    ensures r.Keys == domain.Keys
    ensures forall k :: k in r ==> r[k] == JStr(Beginner)
  {
    map k | k in domain :: JStr(Beginner)
  }

  /** The oracle's verdict as a dict, when the reply arrived, has a span,
      decodes, and decodes to a dict (anything else makes .get raise). */
  function Verdict(reply: Option<string>, parse: string -> Option<Json>): Option<map<string, Json>>
  {
    match reply
    case None => None
    case Some(text) =>
      match Decode(text, parse)
      case Parsed(JObject(fields)) => Some(fields)
      case _ => None
  }

  /** The evaluation record etapa_3 returns on a failure. */
  function ErrorRecord(erro: string, why: string): Json
  {
    JObject(map["erro" := JStr(erro), "raciocinio_avaliacao" := JStr(why)])
  }

  /** What etapa_3 returns: the evaluation record and the student model. */
  datatype Evaluation = Evaluation(record: Json, levels: Levels)

  /** The verdict asks to set the active topic: a truthy new level, and the
      evaluated topic equal to the active one. */
  predicate AcceptsUpdate(verdict: map<string, Json>, topic: string)
  {
    && Truthy(Get(verdict, "novo_nivel_maestria", JNull))
    && EqualsStr(Get(verdict, "topico_avaliado", JNull), topic)
  }

  /** etapa_3_avaliacao_interacao_inicial, after the oracle call. `reply` is
      None when the call itself raised. */
  function Evaluate(levels: Levels, topic: string, reply: Option<string>,
                    parse: string -> Option<Json>): (r: Evaluation)
    // failure is atomic: the model comes back as it went in, with an "erro" record
    ensures Verdict(reply, parse).None? ==>
              r.levels == levels && r.record.JObject? && "erro" in r.record.fields
    ensures Verdict(reply, parse).Some? ==> r.record == JObject(Verdict(reply, parse).value)
    // only the active topic can change, and only as the verdict says
    ensures forall k :: k in levels && k != topic ==> k in r.levels && r.levels[k] == levels[k]
    ensures r.levels.Keys == levels.Keys || r.levels.Keys == levels.Keys + {topic}
    ensures Verdict(reply, parse).Some? && AcceptsUpdate(Verdict(reply, parse).value, topic) ==>
              r.levels == levels[topic := Verdict(reply, parse).value["novo_nivel_maestria"]]
    ensures !(Verdict(reply, parse).Some? && AcceptsUpdate(Verdict(reply, parse).value, topic)) ==>
              r.levels == levels
  {
    match reply
    case None =>
      Evaluation(ErrorRecord("Erro inesperado na Etapa 3.", "Ocorreu um erro geral."), levels)
    case Some(text) =>
      match Decode(text, parse)
      case NoMatch =>
        Evaluation(ErrorRecord("Falha ao encontrar JSON na resposta.", "Ocorreu um erro interno."), levels)
      case Malformed(_) =>
        Evaluation(ErrorRecord("Falha ao decodificar o JSON.",
                               "Ocorreu um erro interno de decodificação."), levels)
      case Parsed(JObject(verdict)) =>
        var level := Get(verdict, "novo_nivel_maestria", JNull);
        var evaluated := Get(verdict, "topico_avaliado", JNull);
        if Truthy(level) && EqualsStr(evaluated, topic)
        then Evaluation(JObject(verdict), levels[topic := level])
        else Evaluation(JObject(verdict), levels)
      case Parsed(_) =>
        Evaluation(ErrorRecord("Erro inesperado na Etapa 3.", "Ocorreu um erro geral."), levels)
  }

  /** When the active topic is already in the model, an evaluation never
      adds or removes a topic. */
  lemma EvaluateKeepsTopics(levels: Levels, topic: string, reply: Option<string>,
                            parse: string -> Option<Json>)
    requires topic in levels
    ensures Evaluate(levels, topic, reply, parse).levels.Keys == levels.Keys
  {
  }

  /** A reply with an unclosed object leaves the model unchanged. */
  lemma UnclosedReplyChangesNothing(levels: Levels, topic: string, parse: string -> Option<Json>)
    ensures Evaluate(levels, topic, Some("Sure! ```json {garbage"), parse).levels == levels
    ensures Evaluate(levels, topic, Some("Sure! ```json {garbage"), parse).record ==
            ErrorRecord("Falha ao encontrar JSON na resposta.", "Ocorreu um erro interno.")
  {
    UnclosedReplyHasNoSpan();
  }

  /** The three texts sent to the oracle by etapa_7: the last three history
      entries, oldest first. */
  function ReassessmentCycle(history: seq<Message>): (r: seq<Json>)
    requires |history| >= 3
    ensures |r| == 3
    ensures forall i :: 0 <= i < 3 ==> r[i] == GetTextFromMessage(history[|history| - 3 + i])
  {
    var cycle := history[|history| - 3..];
    [GetTextFromMessage(cycle[0]), GetTextFromMessage(cycle[1]), GetTextFromMessage(cycle[2])]
  }

  /** Histories that end in the same three entries send the same cycle. */
  lemma CycleUsesLastThreeOnly(h1: seq<Message>, h2: seq<Message>)
    requires |h1| >= 3 && |h2| >= 3
    requires h1[|h1| - 3..] == h2[|h2| - 3..]
    ensures ReassessmentCycle(h1) == ReassessmentCycle(h2)
  {
    assert h1[|h1| - 3] == h1[|h1| - 3..][0] == h2[|h2| - 3..][0] == h2[|h2| - 3];
    assert h1[|h1| - 2] == h1[|h1| - 3..][1] == h2[|h2| - 3..][1] == h2[|h2| - 2];
    assert h1[|h1| - 1] == h1[|h1| - 3..][2] == h2[|h2| - 3..][2] == h2[|h2| - 1];
  }

  /** The verdict asks to readjust topic t: the flag is truthy, the inferred
      topic is the non-empty string t, and the suggested level is truthy. */
  predicate RequestsReadjust(verdict: map<string, Json>, t: string)
  {
    && Truthy(Get(verdict, "necessita_reajuste", JBool(false)))
    && t != ""
    && EqualsStr(Get(verdict, "topico_inferido", JNull), t)
    && Truthy(Get(verdict, "novo_nivel_sugerido", JNull))
  }

  /** etapa_7_atualizacao_pos_feedback, after the oracle call: None (the
      function falls through) with fewer than three history entries;
      otherwise the model, with at most the inferred topic overwritten, and
      only when that topic is already a key. */
  function Reassess(levels: Levels, history: seq<Message>, reply: Option<string>,
                    parse: string -> Option<Json>): (r: Option<Levels>)
    ensures r.None? <==> |history| < 3
    ensures r.Some? ==> r.value.Keys == levels.Keys
    ensures r.Some? && Verdict(reply, parse).None? ==> r.value == levels
    ensures r.Some? ==> forall k :: k in levels && r.value[k] != levels[k] ==>
              && Verdict(reply, parse).Some?
              && RequestsReadjust(Verdict(reply, parse).value, k)
              && r.value[k] == Verdict(reply, parse).value["novo_nivel_sugerido"]
    ensures r.Some? ==> forall t ::
              (t in levels && Verdict(reply, parse).Some? &&
               RequestsReadjust(Verdict(reply, parse).value, t)) ==>
              r.value == levels[t := Verdict(reply, parse).value["novo_nivel_sugerido"]]
  {
    if |history| < 3 then None
    else
      match reply
      case None => Some(levels)
      case Some(text) =>
        match Decode(text, parse)
        case NoMatch => Some(levels)
        case Malformed(_) => Some(levels)
        case Parsed(JObject(verdict)) =>
          if Truthy(Get(verdict, "necessita_reajuste", JBool(false))) then
            var topic := Get(verdict, "topico_inferido", JNull);
            var level := Get(verdict, "novo_nivel_sugerido", JNull);
            // a list or dict topic makes `in` raise TypeError, which is caught:
            // in every case only a non-empty str key is overwritten
            if Truthy(topic) && Truthy(level) && topic.JStr? && topic.s in levels
            then Some(levels[topic.s := level])
            else Some(levels)
          else Some(levels)
        case Parsed(_) => Some(levels)
  }

  /** A single readjustment overwrites at most one topic. */
  lemma ReassessChangesAtMostOne(levels: Levels, history: seq<Message>, reply: Option<string>,
                                 parse: string -> Option<Json>, a: string, b: string)
    requires |history| >= 3
    requires a in levels && b in levels
    requires Reassess(levels, history, reply, parse).value[a] != levels[a]
    requires Reassess(levels, history, reply, parse).value[b] != levels[b]
    ensures a == b
  {
    var v := Verdict(reply, parse).value;
    assert EqualsStr(Get(v, "topico_inferido", JNull), a);
    assert EqualsStr(Get(v, "topico_inferido", JNull), b);
  }
}
