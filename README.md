# SigmaTeacher tutoring core, modelled in Dafny

This project models the pedagogical core of the SigmaTeacher intelligent
tutoring system (ITS). It has two halves.

- **backend/its.py.** This covers:
  - how an oracle's (LLM's) free-text reply is read: the greedy `\{.*\}` span, then JSON decoding;
  - the domain builder's and topic selector's sentinels;
  - how the student model (topic → mastery level on the ladder "iniciante" → "intermediário" → "avançado") is initialised, updated after an evaluation (etapa 3) and readjusted after the learner's reaction (etapa 7);
  - the interactive loop, which drops a topic once it reaches "avançado".
- **backend/main.py.** This is the session state machine behind `/its/iniciar` and `/its/chat`. Session states are "aguardando_resposta_exercicio", "aguardando_reacao_feedback" and "concluido". Each turn appends the learner's message and the tutor's reply to the stored history.

Files:

| file | contents |
|---|---|
| `json.dfy` | decoded JSON values with Python's truthiness, `dict.get` and `str()` |
| `extraction.dfy` | `re.search(r"\{.*\}", s, re.DOTALL)` as first `{` to last `}` |
| `messages.dfy` | `get_text_from_message` and the stored `{"role", "parts"}` turn format |
| `its.dfy` | domain builder, selector, student model, evaluation and reassessment |
| `driver.dfy` | the interactive loop `sistema_tutoria_inteligente_genai` |
| `session.dfy` | `iniciar_tutoria`, `responder_chat` and the session row |

Every oracle reply is a parameter. In etapa 3 and etapa 7 the source catches every exception, so there the reply is `Option<string>`; `None` means the oracle call itself raised. `json.loads` is a parameter `parse: string -> Option<Json>`, where `None` stands for `JSONDecodeError`. In main.py the evaluator's result, the feedback text and the selector's `proximo_topico` are parameters of a turn. The session row is the class `Session.TutoringSession`, and its methods are proved to move it exactly as the pure transition function `Session.Step` says.

Two behaviours of the code that the model states as they are:

- **Etapa 3 can add a key.** If the active topic is not yet a key of the student model, the assignment at backend/its.py:198 adds it. `Its.Evaluate` therefore promises only "keys unchanged or plus the active topic". `Its.EvaluateKeepsTopics` proves that no key is added when the topic is already present. That is always so for a valid session of main.py (`Session.AnswerTouchesOnlyActiveTopic`). It is not always so in the interactive loop: the selector may propose a topic an earlier pass dropped (backend/its.py:358-362 only needs a domain key). Etapa 3 then either puts that topic back into the model or, when it accepts no new level, the pass raises at backend/its.py:402 (`Driver.DroppedTopicRaises`).
- **Etapa 7 may raise a level.** It writes whatever level the oracle suggests (backend/its.py:308-319), with no check that the new level is lower. So the model promises no "only downgrades" property.

## Model

| member | source | states |
|---|---|---|
| Messages.GetTextFromMessage | backend/its.py:5-21 | a dict with `parts[0]["text"]` yields that text; an object with parts yields its first part's text; every missing key, empty list or wrong type yields "" and never raises |
| Messages.TextRoundTrip | backend/its.py:10-13 | a turn stored as `{"role", "parts": [{"text"}]}` reads back as exactly the text stored |
| Messages.MissingPartsReadsEmpty | backend/its.py:12-21 | a missing "parts" key, an empty parts list, a string for "parts" and an object without parts all read as "" |
| Extraction.Search | backend/its.py:64 | there is no match iff no `{` precedes a `}`; otherwise the match is a span `{...}`, starts at the leftmost possible position and is the longest match there |
| Extraction.JsonSpan | backend/its.py:64-76 | `match.group(0)` is absent iff nothing matches; otherwise it is exactly the span `Extraction.Search` delimits (leftmost `{` to the last `}`), a substring of the reply that starts with `{` and ends with `}` |
| Extraction.GreedySpanExample | backend/its.py:64-76 | trailing commentary containing a `}` is swallowed into the span (the greedy `.*`) |
| Extraction.UnclosedReplyHasNoSpan | backend/its.py:64-66 | a reply with `{` but no `}` has no match |
| Its.BuildDomain | backend/its.py:62-90 | no match, or a span that does not decode, gives the single-key "ERRO" domain; otherwise the decoded span; never an exception |
| Its.SelectTopic | backend/its.py:117-138 | no match gives `proximo_topico = "ERRO_NO_JSON"` with the "not found" reason; a decode failure gives it with the "decode" reason; otherwise the decoded decision |
| Its.SelectorFailureNamesSentinel | backend/its.py:120-138 | whichever way the selector fails, the proposed topic read from its decision is "ERRO_NO_JSON" |
| Its.Field | backend/main.py:178-179 | `modelo_dominio[topic][key]` succeeds iff the topic is a str key whose entry is a dict holding the key, and then gives that value |
| Its.LessonOf | backend/its.py:359-362 | a lesson exists iff both lookups succeed; it is about that very topic, a key of the domain, and holds the domain's "explicacao" and "exercicio" values |
| Its.InitStudent | backend/its.py:94-99 | the student model has exactly the domain's keys, each at "iniciante" |
| Its.Evaluate | backend/its.py:179-214 | on no reply, no match, a decode failure or a non-dict verdict, the model comes back unchanged with an "erro" record; otherwise the record is the verdict; other topics never change; the active topic is set to `novo_nivel_maestria` iff that is truthy and `topico_avaliado` equals the active topic |
| Its.EvaluateKeepsTopics | backend/its.py:194-198 | when the active topic is already a key, evaluation keeps the key set |
| Its.UnclosedReplyChangesNothing | backend/its.py:182-189 | a reply with an unclosed object leaves the model unchanged and gives the "Falha ao encontrar JSON" record |
| Its.ReassessmentCycle | backend/its.py:246-252 | the cycle sent to the oracle is the texts of exactly the last three history entries, oldest first |
| Its.CycleUsesLastThreeOnly | backend/its.py:249-252 | histories ending in the same three entries send the same cycle |
| Its.Reassess | backend/its.py:242-336 | with fewer than three history entries it returns None; otherwise the key set never changes; an unusable reply changes nothing; a level changes only when `necessita_reajuste` is truthy, the inferred topic is that non-empty key and the suggested level is truthy, and then it becomes that level |
| Its.ReassessChangesAtMostOne | backend/its.py:306-319 | a reassessment overwrites at most one topic |
| Driver.Iteration | backend/its.py:356-404 | a pass that goes through teaches the topic the selector proposed, a domain topic with a lesson; it appends exactly the lesson, the answer and the reaction to the history; the new model is the one etapas 3 and 7 produce, minus the topic iff its level there is "avançado"; the pass raises exactly when the decision is not a dict, the topic has no lesson, or the topic is missing from the reassessed model; only the taught topic can leave the model |
| Driver.Assess | backend/its.py:384-399 | etapa 3 then etapa 7 never adds a topic other than the active one, and keeps a missing active topic out unless etapa 3 accepts a level for it |
| Driver.Settle | backend/its.py:401-404 | reading the topic's level raises iff it is missing; a topic at "avançado" is dropped and the rest of the model kept, any other level keeps the model as it is |
| Driver.DroppedTopicRaises | backend/its.py:358-404 | a pass on a topic an earlier pass dropped raises, unless etapa 3 accepts a new level for it |
| Driver.RunTutoring | backend/its.py:339-406 | the while loop over the given inputs ends exactly as the recursive definition of the loop `Driver.Run` says, starting from `InitStudent` and the system message |
| Driver.RunStaysInDomain | backend/its.py:353-404 | the student model never holds a topic the domain lacks |
| Driver.RunExtendsHistory | backend/its.py:367-396 | the loop only appends to the chat history |
| Driver.RunHistoryLength | backend/its.py:367-396 | each finished pass appends exactly three history entries, and there are at most as many passes as inputs |
| Driver.FinishedMeansAllMastered | backend/its.py:356-404 | when the loop ends with an empty model, every starting topic was dropped by a pass that found it at "avançado" |
| Session.Step | backend/main.py:215-285 | an answer turn moves to "aguardando_reacao_feedback" on the same topic with the evaluated model and the feedback plus the fixed suffix, and fails iff the exercise lookup raises; a reaction below "intermediário" retries the same topic; after progress a different truthy proposal advances to it iff it has a lesson; otherwise the status becomes "concluido" with the congratulations iff every level is "avançado", else the same topic is reviewed with the review message; any other status changes nothing and replies ""; every completed turn appends the user message and then the reply |
| Session.AnswerTouchesOnlyActiveTopic | backend/main.py:228-243 | with the etapa 3 evaluator, an answer turn on a valid session always completes, keeps the topic set and changes no topic but the active one |
| Session.StepKeepsValid | backend/main.py:228-285 | a turn keeps a valid session valid (the active topic has a lesson, the model covers the domain, the status is known); the only possible failure is an advance to a topic without a lesson |
| Session.ReplayKeepsValid | backend/main.py:204-294 | any sequence of turns keeps a valid session valid |
| Session.CompletedIsFinal | backend/main.py:224-285 | once "concluido", every later turn keeps status, topic and student model, and appends exactly two history entries |
| Session.StartSession | backend/main.py:169-191 | start is refused iff the domain is empty or has the "ERRO" key; it raises iff the proposed topic has no lesson; otherwise every domain topic is at "iniciante", the topic is the proposed one, the status is "aguardando_resposta_exercicio" and the history is the one welcome message |
| Session.StartIsValid | backend/main.py:173-191 | every session that starts is valid |
| Session.BuilderFailureIsRejected | backend/main.py:169-170 | a domain builder's "ERRO" sentinel is always refused at start |
| Session.SelectorFailureFailsAdvance | backend/main.py:253-260 | a selector failure inside a chat turn makes the advance branch raise, because "ERRO_NO_JSON" is taken for a new topic |
| Session.HistoryReadsBack | backend/main.py:222-281 | the two entries a turn appends read back, through `get_text_from_message`, as the learner's message and the reply |
| Session.TutoringSession.constructor | backend/main.py:186-192 | a new session row holds exactly the given state |
| Session.TutoringSession.Respond | backend/main.py:215-294 | the row moves to exactly the state `Session.Step` gives and answers with its reply, status and model; on a failure the row is left as it was |
| Session.TutoringSession.AnswerTurn | backend/main.py:228-243 | the answer branch updates the row as `Session.Step` says, or leaves it untouched when the exercise lookup raises |
| Session.TutoringSession.ReactionTurn | backend/main.py:245-278 | the reaction branch updates the row as `Session.Step` says, or leaves it untouched when the new topic's lookup raises |
| Session.RespondChat | backend/main.py:209-213 | an unknown session id gives the not-found answer and no session can change; a known one is answered as `Respond` says |
| Session.TranscriptsAppend | backend/main.py:141-145 | the transcript text of two batches is the concatenation of their texts |
| Session.ConcatTranscripts | backend/main.py:141-145 | the loop produces each transcript prefixed by "\nTranscr: ", in order |
| Session.PdfUploadsExactlyPdfs | backend/main.py:148-154 | an upload is kept iff its file name ends in ".pdf" |
| Session.SelectPdfs | backend/main.py:148-154 | the loop keeps exactly the ".pdf" uploads, in upload order |
| Session.StartTutoring | backend/main.py:126-201 | the domain builder is given the gathered transcript text and the PDF uploads; on its domain, a refused start answers "erro" and stores nothing; a failing lookup stores nothing; otherwise a fresh row holds the started state of `Session.StartSession` and the answer carries its id, the welcome message and the topic |

## Left out

- The oracle calls (`generate_content`, `send_message`, `start_chat`) and all prompt text. These are foreign network calls, so their replies are inputs.
- `json.loads` is a parameter. The JSON grammar and the difference between a decode error and other parse outcomes are not modelled.
- `print` logging and console `input()`. The learner's console lines are inputs of the interactive loop.
- The domain builder called by `iniciar_tutoria` is the parameter `build` of `Session.StartTutoring`; its own reply handling is `Its.BuildDomain`.
- Whisper transcription, file saving and removal, the uuid-based file paths, SQLAlchemy tables and FastAPI routing (backend/main.py:1-120, 151-167, 193-195). The database id of a new session is an input.
- `backend/teste.py` and all of `frontend/` are not part of this model.
- Concurrent turns on one session are not modelled; the source does not guard against them.
- Dict iteration order is not modelled. Maps have no order, so the order of keys in the stored JSON is not represented.
- Its.Evaluate: etapa 3 mutates the caller's dict in place and returns it. The model returns the new map, so aliasing of the caller's dict is not captured (both callers rebind the result).
- Its.Reassess: etapa 7 mutates the caller's dict in place too. The model returns the new map, so aliasing is not captured.
- Json.Show: an f-string formats a number, list or dict with Python's `str()`. The model uses a placeholder for those three, so message texts are exact only for string, None and boolean values.
- Driver.Iteration: `chat.send_message` in the feedback step also appends the prompt and the reply to the chat history. Those two entries are not modelled, so the modelled history grows by three entries per pass, not five.
- Driver.Iteration: the feedback text and the evaluation record are computed but, apart from the history, not used by the loop, so they are not outputs of a pass.
- The domain builder's and selector's oracle calls are not wrapped in a try block, so an exception there propagates to the caller. The model treats their replies as always present.
- main.py calls `etapa_1_selecao_proximo_topico`, `etapa_3_avaliacao_interacao_inicial`, `etapa_45_decidir_e_gerar_feedback` and `etapa_0_prep_modelo_dominio` with argument lists that do not match their definitions in its.py, and calls `salvar_json` and `carregar_json`, which its.py does not define. Following the evident intent, the model passes the results of those calls in as inputs.
- A domain that decodes to something other than a dict, or a stored history that is not a list, is not modelled: main.py's domain is a map from topic name to value.
