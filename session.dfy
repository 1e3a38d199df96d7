/** The tutoring session of backend/main.py: starting a session
    (iniciar_tutoria) and answering one chat turn (responder_chat). The
    database row is the class TutoringSession; the oracle-backed steps it
    calls (domain builder, evaluator, feedback generator, topic selector)
    are parameters. */
module Session {
  import opened Json
  import opened Messages
  import opened Its

  /** The values of the status column. */
  const AwaitingAnswer := "aguardando_resposta_exercicio"
  const AwaitingReaction := "aguardando_reacao_feedback"
  const Completed := "concluido"

  const FeedbackSuffix := "\n\n(Diga se entendeu ou se ainda tem dúvidas)"
  const Congratulations := "Parabéns! Você dominou todos os tópicos deste material."
  const RetryMessage := "Vamos continuar neste tópico. Tente novamente o exercício anterior."

  function ReviewMessage(topic: string): string
  {
    "Vamos tentar fixar mais o tópico " + topic + ". Tente explicar com suas palavras."
  }

  function AdvanceMessage(l: Lesson): string
  {
    "Ótimo! Vamos avançar.\n\nNovo Tópico: " + l.topic + "\n" + Show(l.explanation) +
    "\n\nExercício: " + Show(l.exercise)
  }

  function WelcomeMessage(l: Lesson): string
  {
    "Olá! Vamos começar. \nTópico: " + l.topic + "\nExplicação: " + Show(l.explanation) +
    "\n\nExercício: " + Show(l.exercise)
  }

  /** The persisted columns of a session row, decoded. */
  datatype SessionState = SessionState(
    domain: Domain,
    levels: Levels,
    history: seq<Turn>,
    topic: string,
    status: string)

  /** mod_aluno.get(topico_atual). */
  function LevelOf(levels: Levels, topic: string): Json
  {
    Get(levels, topic, JNull)
  }

  /** The learner has moved up from the bottom of the ladder. */
  predicate Progressed(level: Json)
  {
    level == JStr(Advanced) || level == JStr(Intermediate)
  }

  /** The selector proposes a topic other than the current one
      (`novo_topico and novo_topico != topico_atual`). */
  predicate ProposesOther(proposed: Json, topic: string)
  {
    Truthy(proposed) && !EqualsStr(proposed, topic)
  }

  /** all(v == "avançado" for v in mod_aluno.values()). */
  predicate AllAdvanced(levels: Levels)
  {
    forall k :: k in levels ==> levels[k] == JStr(Advanced)
  }

  /** A turn either raises (a lookup in the domain fails: the request ends
      in an error and nothing is saved) or moves the session on. */
  datatype StepOutcome = Fault | Next(state: SessionState, reply: string)

  /** The state change of responder_chat for an existing session. `evaluated`
      is the student model the evaluator returns, `feedback` the feedback
      generator's text and `proposed` the selector's "proximo_topico"
      (JNull when it has none). */
  function Step(s: SessionState, message: string, evaluated: Levels, feedback: string,
                proposed: Json): (r: StepOutcome)
    // every completed turn appends the learner's message and then the reply
    ensures r.Next? ==> r.state.domain == s.domain
    ensures r.Next? ==> r.state.history == s.history + [UserTurn(message), ModelTurn(r.reply)]
    // an answer to the exercise: evaluate, give feedback, wait for the reaction
    ensures s.status == AwaitingAnswer ==>
              (r.Next? <==> Field(s.domain, JStr(s.topic), "exercicio").Some?)
    ensures s.status == AwaitingAnswer && r.Next? ==>
              && r.state.status == AwaitingReaction
              && r.state.topic == s.topic
              && r.state.levels == evaluated
              && r.reply == feedback + FeedbackSuffix
    // a reaction while still at the bottom of the ladder: retry the same exercise
    ensures s.status == AwaitingReaction && !Progressed(LevelOf(s.levels, s.topic)) ==>
              r == Next(s.(history := s.history + [UserTurn(message), ModelTurn(RetryMessage)],
                           status := AwaitingAnswer), RetryMessage)
    // a reaction after progress, with another topic proposed: advance to it
    ensures s.status == AwaitingReaction && Progressed(LevelOf(s.levels, s.topic)) &&
            ProposesOther(proposed, s.topic) ==>
              && (r.Next? <==> LessonOf(s.domain, proposed).Some?)
              && (r.Next? ==> r.state.status == AwaitingAnswer
                              && JStr(r.state.topic) == proposed
                              && r.state.topic != s.topic
                              && r.state.levels == s.levels
                              && r.reply == AdvanceMessage(LessonOf(s.domain, proposed).value))
    // a reaction after progress with nothing new proposed: finish or review
    ensures s.status == AwaitingReaction && Progressed(LevelOf(s.levels, s.topic)) &&
            !ProposesOther(proposed, s.topic) ==>
              && r.Next?
              && r.state.topic == s.topic
              && r.state.levels == s.levels
              && (r.state.status == Completed <==> AllAdvanced(s.levels))
              && (r.state.status == Completed || r.state.status == AwaitingAnswer)
              && (r.reply == Congratulations <==> AllAdvanced(s.levels))
              && (!AllAdvanced(s.levels) ==> r.reply == ReviewMessage(s.topic))
    // any other status, "concluido" included: nothing but the history changes
    ensures s.status != AwaitingAnswer && s.status != AwaitingReaction ==>
              r == Next(s.(history := s.history + [UserTurn(message), ModelTurn("")]), "")
  {
    if s.status == AwaitingAnswer then
      match Field(s.domain, JStr(s.topic), "exercicio")
      case None => Fault
      case Some(_) =>
        var reply := feedback + FeedbackSuffix;
        Next(SessionState(s.domain, evaluated, s.history + [UserTurn(message), ModelTurn(reply)],
                          s.topic, AwaitingReaction), reply)
    else if s.status == AwaitingReaction then
      if Progressed(LevelOf(s.levels, s.topic)) then
        if ProposesOther(proposed, s.topic) then
          match LessonOf(s.domain, proposed)
          case None => Fault
          case Some(lesson) =>
            var reply := AdvanceMessage(lesson);
            Next(SessionState(s.domain, s.levels, s.history + [UserTurn(message), ModelTurn(reply)],
                              lesson.topic, AwaitingAnswer), reply)
        else if AllAdvanced(s.levels) then
          Next(SessionState(s.domain, s.levels,
                            s.history + [UserTurn(message), ModelTurn(Congratulations)],
                            s.topic, Completed), Congratulations)
        else
          var reply := ReviewMessage(s.topic);
          Next(SessionState(s.domain, s.levels, s.history + [UserTurn(message), ModelTurn(reply)],
                            s.topic, AwaitingAnswer), reply)
      else
        Next(SessionState(s.domain, s.levels,
                          s.history + [UserTurn(message), ModelTurn(RetryMessage)],
                          s.topic, AwaitingAnswer), RetryMessage)
    else
      Next(s.(history := s.history + [UserTurn(message), ModelTurn("")]), "")
  }

  /** What a well-formed session keeps true between turns: the active topic
      has a lesson, the student model covers exactly the domain's topics,
      the status is one the machine knows, and the history is non-empty. */
  predicate Valid(s: SessionState)
  {
    && LessonOf(s.domain, JStr(s.topic)).Some?
    && s.levels.Keys == s.domain.Keys
    && (s.status == AwaitingAnswer || s.status == AwaitingReaction || s.status == Completed)
    && |s.history| >= 1
  }

  /** With the evaluator of backend/its.py, an answer turn changes at most
      the active topic's level and never the set of topics. */
  lemma AnswerTouchesOnlyActiveTopic(s: SessionState, message: string, reply: Option<string>,
                                     parse: string -> Option<Json>, feedback: string, proposed: Json)
    requires Valid(s) && s.status == AwaitingAnswer
    ensures var r := Step(s, message, Evaluate(s.levels, s.topic, reply, parse).levels, feedback, proposed);
            && r.Next?
            && r.state.levels.Keys == s.levels.Keys
            && forall k :: k in s.levels && k != s.topic ==> r.state.levels[k] == s.levels[k]
  {
    EvaluateKeepsTopics(s.levels, s.topic, reply, parse);
  }

  /** With the evaluator of backend/its.py, a turn on a valid session keeps
      it valid; the only turn that can fail is an advance to a proposed
      topic the domain has no lesson for. */
  lemma StepKeepsValid(s: SessionState, message: string, reply: Option<string>,
                       parse: string -> Option<Json>, feedback: string, proposed: Json)
    requires Valid(s)
    ensures var r := Step(s, message, Evaluate(s.levels, s.topic, reply, parse).levels, feedback, proposed);
            && (r.Fault? ==> s.status == AwaitingReaction && LessonOf(s.domain, proposed).None?)
            && (r.Next? ==> Valid(r.state))
  {
    EvaluateKeepsTopics(s.levels, s.topic, reply, parse);
    var r := Step(s, message, Evaluate(s.levels, s.topic, reply, parse).levels, feedback, proposed);
    if r.Next? && r.state.topic != s.topic {
      assert LessonOf(s.domain, proposed).Some?;
      assert proposed == JStr(r.state.topic);
    }
  }

  /** The outside inputs of one chat turn. */
  datatype TurnInput = TurnInput(message: string, evalReply: Option<string>, feedback: string,
                                 proposed: Json)

  /** A sequence of turns on one session, each with the evaluator of
      backend/its.py; a turn that fails leaves the session as it was. */
  function Replay(s: SessionState, parse: string -> Option<Json>, turns: seq<TurnInput>): SessionState
    decreases |turns|
  {
    if turns == [] then s
    else
      var t := turns[0];
      match Step(s, t.message, Evaluate(s.levels, s.topic, t.evalReply, parse).levels, t.feedback, t.proposed)
      case Fault => Replay(s, parse, turns[1..])
      case Next(next, _) => Replay(next, parse, turns[1..])
  }

  /** Any sequence of turns keeps a valid session valid. */
  lemma {:induction false} ReplayKeepsValid(s: SessionState, parse: string -> Option<Json>,
                                            turns: seq<TurnInput>)
    requires Valid(s)
    ensures Valid(Replay(s, parse, turns))
    decreases |turns|
  {
    if turns != [] {
      var t := turns[0];
      StepKeepsValid(s, t.message, t.evalReply, parse, t.feedback, t.proposed);
      match Step(s, t.message, Evaluate(s.levels, s.topic, t.evalReply, parse).levels, t.feedback, t.proposed)
      case Fault => ReplayKeepsValid(s, parse, turns[1..]);
      case Next(next, _) => ReplayKeepsValid(next, parse, turns[1..]);
    }
  }

  /** "concluido" is final: later turns only grow the history, two entries
      each, and leave status, topic and student model alone. */
  lemma {:induction false} CompletedIsFinal(s: SessionState, parse: string -> Option<Json>,
                                            turns: seq<TurnInput>)
    requires s.status == Completed
    ensures Replay(s, parse, turns).status == Completed
    ensures Replay(s, parse, turns).topic == s.topic
    ensures Replay(s, parse, turns).levels == s.levels
    ensures |Replay(s, parse, turns).history| == |s.history| + 2 * |turns|
    decreases |turns|
  {
    if turns != [] {
      var t := turns[0];
      var next := s.(history := s.history + [UserTurn(t.message), ModelTurn("")]);
      assert Step(s, t.message, Evaluate(s.levels, s.topic, t.evalReply, parse).levels,
                  t.feedback, t.proposed) == Next(next, "");
      CompletedIsFinal(next, parse, turns[1..]);
    }
  }

  // ---------------------------------------------------------------------
  // Session start
  // ---------------------------------------------------------------------

  /** How iniciar_tutoria ends: the domain is refused, a lookup raises, or
      the session starts in the given state. */
  datatype StartOutcome = Rejected | StartFault | Started(state: SessionState)

  /** The state-building part of iniciar_tutoria: refuse an empty domain or
      one carrying the "ERRO" key, otherwise start on the proposed topic,
      waiting for the answer to its exercise, with one tutor message. */
  function StartSession(domain: Domain, proposed: Json): (r: StartOutcome)
    ensures r.Rejected? <==> domain == map[] || "ERRO" in domain
    ensures r.StartFault? <==> !r.Rejected? && LessonOf(domain, proposed).None?
    ensures r.Started? ==>
              && r.state.domain == domain
              && r.state.status == AwaitingAnswer
              && JStr(r.state.topic) == proposed
              && r.state.levels.Keys == domain.Keys
              && (forall k :: k in r.state.levels ==> r.state.levels[k] == JStr(Beginner))
              && |r.state.history| == 1
              && r.state.history[0] == ModelTurn(WelcomeMessage(LessonOf(domain, proposed).value))
  {
    if domain == map[] || "ERRO" in domain then Rejected
    else
      var levels := InitStudent(domain);
      match LessonOf(domain, proposed)
      case None => StartFault
      case Some(lesson) =>
        Started(SessionState(domain, levels, [ModelTurn(WelcomeMessage(lesson))], lesson.topic,
                             AwaitingAnswer))
  }

  /** Every session that starts is valid. */
  lemma StartIsValid(domain: Domain, proposed: Json)
    requires StartSession(domain, proposed).Started?
    ensures Valid(StartSession(domain, proposed).state)
  {
  }

  /** The builder's "ERRO" sentinel, whatever the reason for it, is refused
      at session start. */
  lemma BuilderFailureIsRejected(reply: string, parse: string -> Option<Json>, proposed: Json)
    requires !Extraction.Decode(reply, parse).Parsed?
    ensures BuildDomain(reply, parse).JObject?
    ensures StartSession(BuildDomain(reply, parse).fields, proposed).Rejected?
  {
  }

  /** When the selector cannot read its oracle's reply, its "ERRO_NO_JSON"
      sentinel is taken for a new topic, and a turn that would advance ends
      in an error (unless the domain really has a topic of that name). */
  lemma SelectorFailureFailsAdvance(s: SessionState, message: string, evaluated: Levels,
                                    feedback: string, reply: string, parse: string -> Option<Json>)
    requires s.status == AwaitingReaction && Progressed(LevelOf(s.levels, s.topic))
    requires s.topic != "ERRO_NO_JSON" && "ERRO_NO_JSON" !in s.domain
    requires !Extraction.Decode(reply, parse).Parsed?
    ensures Step(s, message, evaluated, feedback,
                 Get(SelectTopic(reply, parse).fields, "proximo_topico", JNull)).Fault?
  {
    SelectorFailureNamesSentinel(reply, parse);
  }

  /** The learner text of the stored history reads back through
      get_text_from_message. */
  lemma HistoryReadsBack(s: SessionState, message: string, evaluated: Levels, feedback: string,
                         proposed: Json)
    requires Step(s, message, evaluated, feedback, proposed).Next?
    ensures var h := Step(s, message, evaluated, feedback, proposed).state.history;
            && GetTextFromMessage(ToMessage(h[|h| - 2])) == JStr(message)
            && GetTextFromMessage(ToMessage(h[|h| - 1])) ==
               JStr(Step(s, message, evaluated, feedback, proposed).reply)
  {
    var r := Step(s, message, evaluated, feedback, proposed);
    TextRoundTrip(UserTurn(message));
    TextRoundTrip(ModelTurn(r.reply));
  }

  // ---------------------------------------------------------------------
  // The session row and the two endpoints
  // ---------------------------------------------------------------------

  /** What /its/chat returns. */
  datatype ChatResponse =
    | NotFound                                   // {"erro": "Sessão não encontrada"}
    | Failed                                     // the request raised
    | Replied(sessionId: int, botMessage: string, status: string, levels: Levels)

  /** A row of sessoes_tutoria, with its JSON columns decoded. */
  class TutoringSession {
    const id: int
    const domain: Domain
    var levels: Levels
    var history: seq<Turn>
    var topic: string
    var status: string

    function State(): SessionState
      reads this
    {
      SessionState(domain, levels, history, topic, status)
    }

    constructor (id: int, s: SessionState)
      ensures this.id == id && State() == s
    {
      this.id := id;
      domain := s.domain;
      levels := s.levels;
      history := s.history;
      topic := s.topic;
      status := s.status;
    }

    /** responder_chat on this row. */
    method Respond(message: string, evaluated: Levels, feedback: string, proposed: Json)
      returns (r: ChatResponse)
      modifies this
      ensures Step(old(State()), message, evaluated, feedback, proposed).Fault? ==>
                State() == old(State()) && r == Failed
      ensures Step(old(State()), message, evaluated, feedback, proposed).Next? ==>
                && State() == Step(old(State()), message, evaluated, feedback, proposed).state
                && r == Replied(id, Step(old(State()), message, evaluated, feedback, proposed).reply,
                                status, levels)
    {
      if status == AwaitingAnswer {
        r := AnswerTurn(message, evaluated, feedback);
      } else if status == AwaitingReaction {
        r := ReactionTurn(message, proposed);
      } else {
        history := history + [UserTurn(message), ModelTurn("")];
        r := Replied(id, "", status, levels);
      }
    }

    /** The branch for an answer to the exercise. */
    method AnswerTurn(message: string, evaluated: Levels, feedback: string) returns (r: ChatResponse)
      requires status == AwaitingAnswer
      modifies this
      ensures Step(old(State()), message, evaluated, feedback, JNull).Fault? ==>
                State() == old(State()) && r == Failed
      ensures Step(old(State()), message, evaluated, feedback, JNull).Next? ==>
                && State() == Step(old(State()), message, evaluated, feedback, JNull).state
                && r == Replied(id, Step(old(State()), message, evaluated, feedback, JNull).reply,
                                status, levels)
    {
      var exercise := Field(domain, JStr(topic), "exercicio");
      if exercise.None? {
        return Failed;
      }
      var reply := feedback + FeedbackSuffix;
      levels := evaluated;
      status := AwaitingReaction;
      history := history + [UserTurn(message), ModelTurn(reply)];
      r := Replied(id, reply, status, levels);
    }

    /** The branch for the learner's reaction to the feedback. */
    method ReactionTurn(message: string, proposed: Json) returns (r: ChatResponse)
      requires status == AwaitingReaction
      modifies this
      ensures Step(old(State()), message, map[], "", proposed).Fault? ==>
                State() == old(State()) && r == Failed
      ensures Step(old(State()), message, map[], "", proposed).Next? ==>
                && State() == Step(old(State()), message, map[], "", proposed).state
                && r == Replied(id, Step(old(State()), message, map[], "", proposed).reply,
                                status, levels)
    {
      var reply: string;
      var level := LevelOf(levels, topic);
      if level == JStr(Advanced) || level == JStr(Intermediate) {
        if Truthy(proposed) && !EqualsStr(proposed, topic) {
          var lesson := LessonOf(domain, proposed);
          if lesson.None? {
            return Failed;
          }
          topic := lesson.value.topic;
          reply := AdvanceMessage(lesson.value);
          status := AwaitingAnswer;
        } else if AllAdvanced(levels) {
          reply := Congratulations;
          status := Completed;
        } else {
          reply := ReviewMessage(topic);
          status := AwaitingAnswer;
        }
      } else {
        reply := RetryMessage;
        status := AwaitingAnswer;
      }
      history := history + [UserTurn(message), ModelTurn(reply)];
      r := Replied(id, reply, status, levels);
    }
  }

  /** /its/chat: look the session up by id and answer the turn. An unknown
      id is reported and no session is touched. */
  method RespondChat(sessions: map<int, TutoringSession>, id: int, message: string,
                     evaluated: Levels, feedback: string, proposed: Json)
    returns (r: ChatResponse)
    modifies if id in sessions then {sessions[id]} else {}
    ensures id !in sessions ==> r == NotFound
    ensures id in sessions ==>
              var step := Step(old(sessions[id].State()), message, evaluated, feedback, proposed);
              && (step.Fault? ==> sessions[id].State() == old(sessions[id].State()) && r == Failed)
              && (step.Next? ==> sessions[id].State() == step.state &&
                                 r == Replied(sessions[id].id, step.reply, step.state.status,
                                              step.state.levels))
  {
    if id !in sessions {
      return NotFound;
    }
    var session := sessions[id];
    r := session.Respond(message, evaluated, feedback, proposed);
  }

  /** texto_completo_audios: each transcript prefixed with "\nTranscr: ". */
  function Transcripts(ts: seq<string>): string
  {
    if ts == [] then "" else Transcripts(ts[..|ts| - 1]) + "\nTranscr: " + ts[|ts| - 1]
  }

  /** Joining two batches of transcripts is joining their texts. */
  lemma {:induction false} TranscriptsAppend(a: seq<string>, b: seq<string>)
    ensures Transcripts(a + b) == Transcripts(a) + Transcripts(b)
    decreases |b|
  {
    if b != [] {
      var b' := b[..|b| - 1];
      assert (a + b)[..|a + b| - 1] == a + b';
      TranscriptsAppend(a, b');
    } else {
      assert a + b == a;
    }
  }

  /** The transcript-gathering loop of iniciar_tutoria. */
  method ConcatTranscripts(ts: seq<string>) returns (text: string)
    ensures text == Transcripts(ts)
  {
    text := "";
    var i := 0;
    while i < |ts|
      invariant 0 <= i <= |ts|
      invariant text == Transcripts(ts[..i])
    {
      assert ts[..i + 1][..i] == ts[..i];
      text := text + "\nTranscr: " + ts[i];
      i := i + 1;
    }
    assert ts[..|ts|] == ts;
  }

  /** filename.endswith(".pdf"), case-sensitive. */
  predicate IsPdf(name: string)
  {
    |name| >= 4 && name[|name| - 4..] == ".pdf"
  }

  /** The uploads that are kept as PDFs, in upload order. */
  function PdfUploads(names: seq<string>): seq<string>
  {
    if names == [] then []
    else PdfUploads(names[..|names| - 1]) +
         (if IsPdf(names[|names| - 1]) then [names[|names| - 1]] else [])
  }

  /** Exactly the PDF uploads are kept. */
  lemma {:induction false} PdfUploadsExactlyPdfs(names: seq<string>, x: string)
    ensures x in PdfUploads(names) <==> x in names && IsPdf(x)
    decreases |names|
  {
    if names != [] {
      var init := names[..|names| - 1];
      PdfUploadsExactlyPdfs(init, x);
      assert names == init + [names[|names| - 1]];
    }
  }

  /** The PDF-selecting loop of iniciar_tutoria. */
  method SelectPdfs(names: seq<string>) returns (pdfs: seq<string>)
    ensures pdfs == PdfUploads(names)
  {
    pdfs := [];
    var i := 0;
    while i < |names|
      invariant 0 <= i <= |names|
      invariant pdfs == PdfUploads(names[..i])
    {
      assert names[..i + 1][..i] == names[..i];
      if IsPdf(names[i]) {
        pdfs := pdfs + [names[i]];
      }
      i := i + 1;
    }
    assert names[..|names|] == names;
  }

  /** What /its/iniciar returns. */
  datatype StartResponse =
    | StartRefused                               // {"status": "erro", ...}
    | StartFailed                                // the request raised
    | StartReplied(sessionId: int, botMessage: string, topic: string)

  /** iniciar_tutoria: gather the transcripts and the PDF uploads, hand
      them to the domain builder `build`, then start a session on the
      domain it returns and the selector's first topic. */
  method StartTutoring(id: int, transcripts: seq<string>, uploads: seq<string>,
                       build: (string, seq<string>) -> Domain, proposed: Json)
    returns (response: StartResponse, session: TutoringSession?)
    ensures var start := StartSession(build(Transcripts(transcripts), PdfUploads(uploads)), proposed);
            && (start.Rejected? ==> response == StartRefused && session == null)
            && (start.StartFault? ==> response == StartFailed && session == null)
            && (start.Started? ==>
                  && session != null && fresh(session)
                  && session.id == id
                  && session.State() == start.state
                  && response == StartReplied(id, start.state.history[0].text, start.state.topic))
  {
    var audioText := ConcatTranscripts(transcripts);
    var pdfs := SelectPdfs(uploads);
    var domain := build(audioText, pdfs);
    match StartSession(domain, proposed)
    case Rejected =>
      response, session := StartRefused, null;
    case StartFault =>
      response, session := StartFailed, null;
    case Started(state) =>
      session := new TutoringSession(id, state);
      response := StartReplied(id, state.history[0].text, state.topic);
  }
}
