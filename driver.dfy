/** The interactive loop sistema_tutoria_inteligente_genai (backend/its.py).
    Each pass selects a topic, shows its lesson, reads an answer, evaluates
    it, reads the learner's reaction to the feedback, reassesses, and drops
    the topic once it is at the top of the ladder. The loop runs while the
    student model is non-empty. Console input and the oracle's replies are
    supplied, pass by pass, as a finite sequence of rounds. */
module Driver {
  import opened Json
  import opened Messages
  import opened Its

  /** The text of the chat's opening system message. */
  const SystemPrompt := "Você é um Sistema de Tutoria Inteligente (ITS) amigável e encorajador."

  function Opening(): seq<Message>
  {
    [ToMessage(ModelTurn(SystemPrompt))]
  }

  /** What one pass of the loop receives from outside: the selector's reply,
      the learner's answer, the evaluator's reply (None if the call raised),
      the learner's reaction to the feedback, the reassessor's reply. */
  datatype Round = Round(
    selectorReply: string,
    answer: string,
    evalReply: Option<string>,
    reaction: string,
    reassessReply: Option<string>)

  /** The tutor message that presents a lesson in the chat history. */
  function LessonText(l: Lesson): string
  {
    "Explicação: " + Show(l.explanation) + "; Exercício: " + Show(l.exercise)
  }

  /** The result of one pass: it raised (an unreadable decision, a topic
      without a lesson, or a topic missing from the model at the final
      check), or it went through on `topic`, where `assessed` is the topic's
      level when the removal rule looked at it. */
  datatype Pass =
    | Crash
    | Continue(topic: string, assessed: Json, levels: Levels, history: seq<Message>)

  /** The three entries a pass adds to the chat history: the lesson, the
      learner's answer and the learner's reaction to the feedback. */
  function PassEntries(lesson: Lesson, round: Round): seq<Message>
  {
    [ToMessage(ModelTurn(LessonText(lesson))), ToMessage(UserTurn("Explicação: " + round.answer)),
     ToMessage(UserTurn(round.reaction))]
  }

  /** Etapa 1 and the lesson lookup: the lesson of the topic the selector
      proposes, or None where `decisao.get` or the lookup raises. */
  function SelectedLesson(domain: Domain, parse: string -> Option<Json>, round: Round): Option<Lesson>
  {
    match ProposedTopic(SelectTopic(round.selectorReply, parse))
    case None => None
    case Some(proposed) => LessonOf(domain, proposed)
  }

  /** One pass of the while loop. */
  function Iteration(domain: Domain, parse: string -> Option<Json>, levels: Levels,
                     history: seq<Message>, round: Round): (r: Pass)
    // the pass teaches the topic the selector proposed, with its lesson
    ensures r.Continue? ==> ProposedTopic(SelectTopic(round.selectorReply, parse)) == Some(JStr(r.topic))
    ensures r.Continue? ==> r.topic in domain && LessonOf(domain, JStr(r.topic)).Some?
    // the pass appends the lesson, the answer and the reaction
    ensures r.Continue? ==>
              r.history == history + PassEntries(LessonOf(domain, JStr(r.topic)).value, round)
    // the removal rule reads the model etapas 3 and 7 produced
    ensures r.Continue? ==>
              && Assess(levels, r.topic, r.history, round, parse).Some?
              && r.topic in Assess(levels, r.topic, r.history, round, parse).value
              && r.assessed == Assess(levels, r.topic, r.history, round, parse).value[r.topic]
              && r.levels == (if r.assessed == JStr(Advanced)
                              then Assess(levels, r.topic, r.history, round, parse).value - {r.topic}
                              else Assess(levels, r.topic, r.history, round, parse).value)
    // and raises exactly when a lookup fails
    ensures r.Crash? <==>
              || SelectedLesson(domain, parse, round).None?
              || var lesson := SelectedLesson(domain, parse, round).value;
                 lesson.topic !in Assess(levels, lesson.topic, history + PassEntries(lesson, round),
                                         round, parse).value
    // consequences for the set of topics
    ensures r.Continue? ==> r.levels.Keys <= levels.Keys + {r.topic}
    ensures r.Continue? ==> forall k :: k in levels && k !in r.levels ==> k == r.topic
    ensures r.Continue? ==> (r.topic !in r.levels <==> r.assessed == JStr(Advanced))
  {
    match SelectedLesson(domain, parse, round)
    case None => Crash
    case Some(lesson) =>
      var reacted := history + PassEntries(lesson, round);
      match Assess(levels, lesson.topic, reacted, round, parse)
      case None => Crash
      case Some(assessed) => Settle(lesson.topic, assessed, reacted)
  }

  /** Etapa 3 on the answer, then etapa 7 on the history that ends with the
      reaction: the student model the stopping rule looks at. */
  function Assess(levels: Levels, topic: string, reacted: seq<Message>, round: Round,
                  parse: string -> Option<Json>): (r: Option<Levels>)
    ensures r.None? <==> |reacted| < 3
    ensures r.Some? ==> r.value.Keys <= levels.Keys + {topic}
    ensures r.Some? && topic !in levels &&
            !(Verdict(round.evalReply, parse).Some? && AcceptsUpdate(Verdict(round.evalReply, parse).value, topic))
            ==> topic !in r.value
  {
    Reassess(Evaluate(levels, topic, round.evalReply, parse).levels, reacted, round.reassessReply, parse)
  }

  /** The stopping rule at the end of a pass: reading the topic's level
      raises when it is missing; a topic at "avançado" is dropped, any other
      level keeps the model as it is. */
  function Settle(topic: string, model: Levels, history: seq<Message>): (r: Pass)
    ensures r.Continue? <==> topic in model
    ensures r.Continue? ==> r.topic == topic && r.history == history && r.assessed == model[topic]
    ensures r.Continue? ==> r.levels == (if model[topic] == JStr(Advanced) then model - {topic} else model)
    ensures r.Continue? ==> r.levels.Keys <= model.Keys
    ensures r.Continue? ==> (topic !in r.levels <==> r.assessed == JStr(Advanced))
  {
    if topic !in model then Crash
    else if model[topic] == JStr(Advanced) then Continue(topic, model[topic], model - {topic}, history)
    else Continue(topic, model[topic], model, history)
  }

  /** The selector may propose a topic an earlier pass already dropped: the
      lesson lookup only needs a domain key. Unless etapa 3 accepts a new
      level for it, which puts it back into the model, the pass then raises
      at the final check of the model. */
  lemma DroppedTopicRaises(domain: Domain, parse: string -> Option<Json>, levels: Levels,
                           history: seq<Message>, round: Round, t: string)
    requires ProposedTopic(SelectTopic(round.selectorReply, parse)) == Some(JStr(t))
    requires LessonOf(domain, JStr(t)).Some? && t !in levels
    requires !(Verdict(round.evalReply, parse).Some? && AcceptsUpdate(Verdict(round.evalReply, parse).value, t))
    ensures Iteration(domain, parse, levels, history, round).Crash?
  {
    var reacted := history + PassEntries(LessonOf(domain, JStr(t)).value, round);
    assert Assess(levels, t, reacted, round, parse).Some?;
  }

  /** How the loop ends: the model emptied, the rounds ran out first, or a
      pass raised. */
  datatype Outcome =
    | AllLearned(history: seq<Message>)
    | OutOfInput(levels: Levels, history: seq<Message>)
    | Crashed

  /** The loop from a given model and history over the given rounds. */
  function Run(domain: Domain, parse: string -> Option<Json>, levels: Levels,
               history: seq<Message>, rounds: seq<Round>): Outcome
    decreases |rounds|
  {
    if levels == map[] then AllLearned(history)
    else if rounds == [] then OutOfInput(levels, history)
    else match Iteration(domain, parse, levels, history, rounds[0])
      case Crash => Crashed
      case Continue(_, _, next, h) => Run(domain, parse, next, h, rounds[1..])
  }

  /** sistema_tutoria_inteligente_genai: the model starts with every domain
      topic at the bottom of the ladder and the history with the system
      message; the loop runs while the model is non-empty. */
  method RunTutoring(domain: Domain, parse: string -> Option<Json>, rounds: seq<Round>)
    returns (outcome: Outcome)
    ensures outcome == Run(domain, parse, InitStudent(domain), Opening(), rounds)
  {
    var history := Opening();
    var levels := InitStudent(domain);
    var i := 0;
    while levels != map[]
      invariant 0 <= i <= |rounds|
      invariant Run(domain, parse, levels, history, rounds[i..]) ==
                Run(domain, parse, InitStudent(domain), Opening(), rounds)
      decreases |rounds| - i
    {
      if i == |rounds| {
        return OutOfInput(levels, history);
      }
      assert rounds[i..][0] == rounds[i] && rounds[i..][1..] == rounds[i + 1..];
      var pass := Iteration(domain, parse, levels, history, rounds[i]);
      if pass.Crash? {
        return Crashed;
      }
      levels, history := pass.levels, pass.history;
      i := i + 1;
    }
    return AllLearned(history);
  }

  /** The model never holds a topic the domain does not have. */
  lemma {:induction false} RunStaysInDomain(domain: Domain, parse: string -> Option<Json>,
                                            levels: Levels, history: seq<Message>, rounds: seq<Round>)
    requires levels.Keys <= domain.Keys
    ensures Run(domain, parse, levels, history, rounds).OutOfInput? ==>
              Run(domain, parse, levels, history, rounds).levels.Keys <= domain.Keys
    decreases |rounds|
  {
    if levels != map[] && rounds != [] {
      match Iteration(domain, parse, levels, history, rounds[0])
      case Crash =>
      case Continue(_, _, next, h) =>
        RunStaysInDomain(domain, parse, next, h, rounds[1..]);
    }
  }

  /** The loop only appends to the history. */
  lemma {:induction false} RunExtendsHistory(domain: Domain, parse: string -> Option<Json>,
                                             levels: Levels, history: seq<Message>, rounds: seq<Round>)
    requires !Run(domain, parse, levels, history, rounds).Crashed?
    ensures |history| <= |Run(domain, parse, levels, history, rounds).history|
    ensures Run(domain, parse, levels, history, rounds).history[..|history|] == history
    decreases |rounds|
  {
    if levels != map[] && rounds != [] {
      match Iteration(domain, parse, levels, history, rounds[0])
      case Crash =>
      case Continue(_, _, next, h) =>
        RunExtendsHistory(domain, parse, next, h, rounds[1..]);
        var o := Run(domain, parse, next, h, rounds[1..]).history;
        assert o[..|history|] == o[..|h|][..|history|];
    }
  }

  /** The number of passes the loop finishes before it stops. */
  function Passes(domain: Domain, parse: string -> Option<Json>, levels: Levels,
                  history: seq<Message>, rounds: seq<Round>): nat
    decreases |rounds|
  {
    if levels == map[] || rounds == [] then 0
    else match Iteration(domain, parse, levels, history, rounds[0])
      case Crash => 0
      case Continue(_, _, next, h) => 1 + Passes(domain, parse, next, h, rounds[1..])
  }

  /** Each finished pass adds exactly three history entries, and there are
      at most as many passes as rounds. */
  lemma {:induction false} RunHistoryLength(domain: Domain, parse: string -> Option<Json>,
                                            levels: Levels, history: seq<Message>, rounds: seq<Round>)
    requires !Run(domain, parse, levels, history, rounds).Crashed?
    ensures Passes(domain, parse, levels, history, rounds) <= |rounds|
    ensures |Run(domain, parse, levels, history, rounds).history| ==
            |history| + 3 * Passes(domain, parse, levels, history, rounds)
    decreases |rounds|
  {
    if levels != map[] && rounds != [] {
      match Iteration(domain, parse, levels, history, rounds[0])
      case Crash =>
      case Continue(_, _, next, h) =>
        RunHistoryLength(domain, parse, next, h, rounds[1..]);
    }
  }

  /** The topics some pass assessed as mastered (and so dropped). */
  function Mastered(domain: Domain, parse: string -> Option<Json>, levels: Levels,
                    history: seq<Message>, rounds: seq<Round>): set<string>
    decreases |rounds|
  {
    if levels == map[] || rounds == [] then {}
    else match Iteration(domain, parse, levels, history, rounds[0])
      case Crash => {}
      case Continue(topic, assessed, next, h) =>
        (if assessed == JStr(Advanced) then {topic} else {}) + Mastered(domain, parse, next, h, rounds[1..])
  }

  /** When the loop ends because the model is empty, every topic it started
      with was dropped by a pass that found it at "avançado". */
  lemma {:induction false} FinishedMeansAllMastered(domain: Domain, parse: string -> Option<Json>,
                                                    levels: Levels, history: seq<Message>,
                                                    rounds: seq<Round>)
    requires Run(domain, parse, levels, history, rounds).AllLearned?
    ensures levels.Keys <= Mastered(domain, parse, levels, history, rounds)
    decreases |rounds|
  {
    if levels != map[] {
      match Iteration(domain, parse, levels, history, rounds[0])
      case Crash =>
      case Continue(topic, assessed, next, h) =>
        FinishedMeansAllMastered(domain, parse, next, h, rounds[1..]);
    }
  }
}
