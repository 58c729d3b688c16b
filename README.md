# ESG investor chatbot: the per-session conversation state machine

Two Streamlit scripts interview an investor and turn the answers into four
ESG scores:
- `app.py` asks five general questions, then nine news headlines, then
  produces the profile.
- `app1.py` asks only the nine headlines.

Streamlit runs the whole script again ("reruns" it) on every interaction.
Everything the conversation remembers lives in `st.session_state`: the chat
log `historial`, the reactions `reacciones`, and a few counters and flags.
This project models one rerun as a transition of that state and proves what
the transitions guarantee.

Layout:
- `chat.dfy` (module `Chat`) holds what both scripts share:
  - log messages and the per-rerun inputs;
  - Python's `if user_input:` test;
  - the headline identities;
  - how the sufficiency verdict is read: `.strip().lower() == "false"`.
- `profile.dfy` (module `Profile`) holds the final branch of both scripts:
  - the four `re.search(r"<Label>: (\d+)", perfil)` extractions;
  - the spreadsheet row, the reactions followed by the four scores;
  - a round trip from the score format the profile prompt asks for.
- `investor_chat.dfy` (module `InvestorChat`) models `app.py`.
- `news_chat.dfy` (module `NewsChat`) models `app1.py`.

Each session module has the same parts:
- a value `State` that mirrors `st.session_state`;
- `Next(s, t)`: one rerun with the inputs `t`, giving the new state and how
  the rerun ended (`Waiting`, `RerunRequested`, `RowReady(row)` or
  `ParseFailed`);
- `Run(s, ts)`: a sequence of reruns;
- the invariant `Inv` of every reachable state;
- a class `Session` whose fields are the session-state keys. Its methods
  follow the script branch by branch. Each method's `ensures` ties the new
  field values and the outcome to the step function of its branch:
  `Rerun` to `Next`, and the branch methods to `GeneralStep`, `NewsStep`,
  `FinalStep`, `ProcessValid` or `Advance`.

`Turn` holds the inputs of one rerun:
- the chat input, `None` when the rerun was not caused by a submission;
- the three texts the language model returns: the verdict, the follow-up
  question and the profile.

A call to `st.rerun()` ends the current run. It is modelled as the outcome
`RerunRequested`, after which the environment performs the next rerun.

Two facts about the code shape the model:
- In `app.py`, a first reply to a headline that the language model judges
  sufficient does not advance. `procesar_respuesta_valida` still asks one
  follow-up question, so every headline takes exactly two replies and a
  conversation takes exactly 5 + 2·9 = 23 (`InvestorChat.ConversationEnds`).
  In `app1.py`, a sufficient first reply does advance, and a conversation
  takes 9 to 18 replies.
- Neither script has a separate "done" state. The final branch runs again
  on every rerun after the last headline: it logs the profile once more and
  rebuilds the row each time (`InvestorChat.FinalRerun`).
- Neither script has a word-count validator or slider-based scoring.

## Model

| member | source | states |
|---|---|---|
| Chat.Submitted | app.py:130 | `if user_input:` holds exactly for a present, non-empty input. |
| Chat.Strip | app.py:157 | `str.strip()`: the result is a slice of the text with only whitespace cut on either side, and it neither starts nor ends with whitespace. |
| Chat.Lower | app.py:157 | `str.lower()` on ASCII: the length is kept, no upper-case ASCII letter remains, upper-case letters move down by 32 and every other character is unchanged. |
| Chat.JudgedInsufficient | app.py:157-158 | The verdict asks for a follow-up exactly when its stripped, lower-cased text equals "false". |
| Chat.InsufficientIff | app.py:157-158 | A verdict triggers a follow-up exactly when it is "false" in any letter case, with only whitespace around it. Every other text counts as sufficient (fail-open). `app1.py:117-119` applies the same test. |
| Chat.InsufficientPadded | app.py:157-158 | If a verdict is judged insufficient, the stripped text sits between leading and trailing whitespace and spells "false". |
| Chat.PaddedInsufficient | app.py:157-158 | Any whitespace-padded "false", in any letter case, is judged insufficient. |
| Chat.UserTurnsAppend | app.py:131 | Appending a message raises the number of user messages in the log by one exactly when the message is the user's. |
| Profile.MatchAt | app.py:177 | `r"<Label>: (\d+)"` matches at a position when the label, a colon and a space start there and a digit follows. |
| Profile.LeftmostMatch | app.py:177 | The position `re.search` reports: a match with no match before it. |
| Profile.Group | app.py:177 | `.group(1)`: the non-empty run of digits after the leftmost "label: ". |
| Profile.DecimalValue | app.py:177 | `int()` of a digit string, read left to right in base 10. |
| Profile.NatToString | app.py:177 | The decimal notation of `n` is a non-empty digit string whose value (as `int()` reads it) is `n`. |
| Profile.FindFrom | app.py:177 | The scan returns the first position at or after `from` where "label: " is followed by a digit, or none when no such position exists. |
| Profile.DigitRun | app.py:177 | `\d+` is greedy: the run covers only digits and stops at a non-digit or at the end of the text. |
| Profile.Score | app.py:177 | A score fails exactly when the pattern matches nowhere. The error names the missing label. |
| Profile.ScoreAtLeftmost | app.py:177-180 | When the pattern matches, the score is the value of the full digit run at the leftmost match. |
| Profile.ParseProfile | app.py:176-181 | The four scores are found exactly when all four labels match, and then each field holds the `Score` of its own label. The labels are looked up in the order Ambiental, Social, Gobernanza, Riesgo: the error names a label exactly when that label has no match and every earlier label has one. |
| Profile.Row | app.py:197 | The row is the reactions, in order, followed by the four scores in label order. |
| Profile.FinalOutcome | app.py:176-198 | The final branch produces the row `Row(reacciones, scores)` exactly when the profile parses, and otherwise the parse error `ParseProfile` reports. |
| Profile.ParseFormatted | app.py:80-81 | A profile written exactly in the format the prompt requests ("Ambiental: a, Social: s, Gobernanza: g, Riesgo: r") parses back to the same four scores. |
| InvestorChat.ShowQuestion | app.py:122-127 | The current question is logged unless a bot message with the same text is already in the log. |
| InvestorChat.GeneralStep | app.py:122-134 | The general branch: show the question; a submitted reply is logged and recorded, the index grows by one and a rerun is requested. |
| InvestorChat.ShowNews | app.py:137-144 | The current headline, behind the question prefix, is logged once per item and `mostrada_noticia` is set. |
| InvestorChat.AdvanceNews | app.py:96-101 | The reply is recorded, `contador` grows by one and the per-item flags are reset. |
| InvestorChat.ProcessValid | app.py:87-101 | `procesar_respuesta_valida`: the first call per item logs the stripped follow-up and sets the pending flag; a later one advances with a rerun. |
| InvestorChat.NewsStep | app.py:137-165 | The news branch: show the headline, log the reply, then advance when a follow-up is pending, ask the follow-up on a "false" verdict, or call `procesar_respuesta_valida`. |
| InvestorChat.FinalStep | app.py:168-198 | The final branch: log the prefixed profile and produce `FinalOutcome`. |
| InvestorChat.Next | app.py:121-198 | One rerun dispatches on `pregunta_general_idx` and `contador` to the three branches. |
| InvestorChat.Run | app.py:121-198 | A sequence of reruns, one after the other. |
| InvestorChat.GeneralReply | app.py:122-134 | A reply to a general question has these effects: the question is logged if no identical bot message is in the log yet; the reply is logged and recorded; `pregunta_general_idx` grows by one; a rerun is requested. Nothing else changes. |
| InvestorChat.QuestionShown | app.py:122-127 | After any rerun in the general phase, the current question is in the log. |
| InvestorChat.IdleRerunIdempotent | app.py:122-146 | Outside the final phase, repeating a rerun without input changes nothing more, so a question or headline is logged only once. |
| InvestorChat.FinalRerun | app.py:168-198 | In the final phase every rerun appends the prefixed profile to the log and changes nothing else. It builds the row from the unchanged reactions exactly when the profile parses, and otherwise ends with the parse error. |
| InvestorChat.PendingReplyAdvances | app.py:149-155 | A reply while a follow-up is pending is logged and recorded, whatever the verdict. `contador` grows by one, and `mostrada_noticia`, `contador_preguntas` and `pregunta_pendiente` return to their initial values. |
| InvestorChat.FirstReplyFollowedUp | app.py:147-165 | In a reachable state, the first reply to a headline always gets the stripped follow-up question and makes the follow-up pending, whatever the verdict. It records no reaction and does not advance. |
| InvestorChat.ProcessValidAdvanceUnreachable | app.py:87-101 | Whenever `contador_preguntas` is at most 1 and is 1 only with a follow-up pending (as in every state the news branch reaches), a call with no follow-up pending takes the follow-up branch. Its advancing branch is dead code. |
| InvestorChat.VerdictIrrelevant | app.py:156-165 | Two reruns that differ only in the verdict produce the same log, reactions, indices, visible flags and outcome. |
| InvestorChat.NextForward | app.py:122-165 | The phases only move forward. Each index grows by at most one, and only in its own phase. The log and the reactions are only appended to. |
| InvestorChat.NextInv | app.py:104-198 | Every rerun keeps the invariant, for example `contador_preguntas` ≤ 1, `contador_preguntas = 1` implies a pending follow-up, and the number of reactions is `pregunta_general_idx + contador`. Each submitted reply before the final phase is exactly one more user message. |
| InvestorChat.FinalIffFullProgress | app.py:122-137 | Under the invariant, the final phase is reached exactly when 23 user messages are in. At that point 14 reactions are recorded. |
| InvestorChat.RunProgress | app.py:122-165 | Along any sequence of reruns the invariant holds. The progress is the number of submitted replies, capped at 23. |
| InvestorChat.ConversationEnds | app.py:121-198 | From a fresh session, the profile is produced exactly when at least 23 replies have been submitted. At that point there are 14 reactions. The log holds one user message per submitted reply, up to 23. |
| InvestorChat.InitialInv | app.py:104-111 | The initialised session satisfies the invariant and has made no progress. |
| InvestorChat.Session.constructor | app.py:104-111 | The session fields start as the initialisation block sets them. |
| InvestorChat.Session.ProcesarRespuestaValida | app.py:87-101 | Both branches of `procesar_respuesta_valida`, with the new fields and the outcome equal to `ProcessValid`. |
| InvestorChat.Session.GeneralQuestion | app.py:122-134 | The general-question branch updates the fields as `GeneralStep` does. |
| InvestorChat.Session.NewsItem | app.py:137-165 | The news branch updates the fields as `NewsStep` does. |
| InvestorChat.Session.FinalProfile | app.py:168-198 | The final branch logs the profile and returns the row or the parse error. |
| InvestorChat.Session.Rerun | app.py:121-198 | One rerun dispatches on the phase and leaves the fields equal to `Next` of the old fields. |
| NewsChat.ShowNews | app1.py:104-110 | The bare headline is logged once per item, `mostrada_noticia` is set and `esperando_ampliacion` cleared. |
| NewsChat.Advance | app1.py:76-85 | `procesar_respuesta_valida`: the thank-you message is logged, the reply is recorded, `contador` grows by one and both flags are reset. |
| NewsChat.NewsStep | app1.py:103-129 | The news branch: show the headline, log the reply, then ask the follow-up on a first "false" verdict and otherwise advance with a rerun. |
| NewsChat.FinalStep | app1.py:130-161 | The final branch: log the prefixed profile and produce `FinalOutcome`. |
| NewsChat.Next | app1.py:103-161 | One rerun dispatches on `contador` to the two branches. |
| NewsChat.Run | app1.py:103-161 | A sequence of reruns, one after the other. |
| NewsChat.IdleRerun | app1.py:103-110 | A rerun without input does one of two things. If the headline is not yet shown, it logs the bare headline, without the on-screen question prefix, sets `mostrada_noticia`, clears `esperando_ampliacion` and changes nothing else. Otherwise it changes nothing. Repeating it changes nothing further. |
| NewsChat.SufficientReplyAdvances | app1.py:113-126 | When not waiting, a reply with any verdict other than "false" is logged and recorded. The thank-you message is logged, `contador` grows by one, both flags are reset, and a rerun is requested. |
| NewsChat.InsufficientReplyWaits | app1.py:116-124 | A first reply judged insufficient logs the follow-up question and sets `esperando_ampliacion`. Reactions and `contador` are unchanged. |
| NewsChat.WaitingReplyAdvances | app1.py:127-129 | A reply to a follow-up is accepted without re-evaluation and advances. |
| NewsChat.TwoRepliesAdvance | app1.py:113-129 | There is at most one follow-up per headline: of any two consecutive replies, one moves on to the next headline. |
| NewsChat.NextInv | app1.py:76-136 | Every rerun keeps the invariant: one reaction per finished headline, and each finished headline took one or two user messages. The log is only appended to. A submitted reply before the end adds exactly one user message. An advance logs the thank-you message last. |
| NewsChat.FinalRerun | app1.py:130-161 | In the final phase every rerun appends the prefixed profile to the log and changes nothing else. It builds the row from the unchanged reactions exactly when the profile parses, and otherwise ends with the parse error. |
| NewsChat.FinalIffFullPotential | app1.py:103 | Under the invariant, the end is reached exactly when `Potential` is 18. At that point there are nine reactions and between 9 and 18 user messages. |
| NewsChat.RunBounds | app1.py:81-82 | Along any sequence of reruns the invariant holds, and `contador` grows by at most one per submitted reply. |
| NewsChat.RunPotential | app1.py:103-129 | Until the end, every submitted reply raises `Potential` by at least one. |
| NewsChat.FinalStays | app1.py:103-130 | Once the profile phase is reached, no rerun leaves it. |
| NewsChat.ConversationEnds | app1.py:103-161 | From a fresh session, 18 submitted replies always reach the profile and fewer than 9 never do. At the end exactly nine reactions are recorded after 9 to 18 user messages. |
| NewsChat.InitialInv | app1.py:88-93 | The initialised session satisfies the invariant. |
| NewsChat.Session.constructor | app1.py:88-93 | The session fields start as the initialisation block sets them. |
| NewsChat.Session.ProcesarRespuestaValida | app1.py:76-85 | The thank-you message is logged, the reply is recorded, `contador` grows by one, both flags are reset, and a rerun is requested. |
| NewsChat.Session.NewsItem | app1.py:103-129 | The news branch updates the fields as `NewsStep` does. |
| NewsChat.Session.FinalProfile | app1.py:130-161 | The final branch logs the profile and returns the row or the parse error. |
| NewsChat.Session.Rerun | app1.py:103-161 | One rerun leaves the fields equal to `Next` of the old fields. |

## Left out

- Streamlit rendering and control are not modelled: `st.title`, `st.chat_message`, `st.write`, replaying the log on screen, `st.chat_input`, the injected focus script. The chat input is a parameter. `st.rerun()` is the outcome `RerunRequested`.
- The language-model plumbing is not modelled: `ChatGroq`, `LLMChain`, `PromptTemplate` and the prompt texts. Their three outputs are plain parameters of a rerun. A failing model call, which raises in the scripts, is not modelled.
- The matplotlib chart is not modelled.
- Google Sheets is not modelled: credentials, `st.secrets`, the JSON decoding, the network `append_row` and its `try`/`except`. The model stops at the row that would be appended. A failure there only produces a message and changes no session state.
- `load_dotenv` and the environment variables are not modelled.
- The texts of the five questions and nine headlines are left out. `Pregunta(i)` and `Noticia(i)` stand for them, one distinct text per index. The texts only decide what is displayed; the flow depends only on the counts (5 and 9) and on comparing a question with earlier bot messages.
- The join `"\n".join(reacciones)` that feeds the profile prompt is left out, because the prompt's result is a parameter.
- Profile.Score: `\d` is taken to be the ASCII digits `0`–`9`. Python's `re` also matches other Unicode decimal digits, which `int()` accepts.
- Chat.JudgedInsufficient: `lower()` is modelled for ASCII letters only. A verdict that lower-cases to "false" only through non-ASCII case mappings is not treated as insufficient. `strip()` uses Python's whitespace set.
- Profile.ParseProfile: no range check on the scores, because the scripts have none; the prompt's "0 to 100" is not enforced.
- InvestorChat.ConversationEnds and NewsChat.ConversationEnds: stated for every session that satisfies the invariant and has made no progress, rather than for the constant `Initial` alone. `InitialInv` shows that the initialised session is such a session.
