/** The conversation of `app.py`: five general questions, then nine news items
    with one follow-up question each, then the profile. Each call of `Next` is
    one top-to-bottom execution ("rerun") of the Streamlit script against the
    session state. */
module InvestorChat {
  import opened Chat
  import opened Profile

  /** `len(preguntas_inversor)`. */
  const NumPreguntas := 5

  /** Stands for `preguntas_inversor[i]`: the texts themselves are not part of
      the model, only that each index has its own. */
  function Pregunta(i: nat): string
    requires i < NumPreguntas
  {
    "Pregunta " + [DigitChar(i)]
  }

  /** The text put in front of a headline when it is shown and logged. */
  const NewsPrompt := "¿Qué opinas sobre esta noticia? "

  /** The user messages a whole conversation takes: one per general question
      and two per news item. */
  const FullProgress := 23

  /** `st.session_state`, as a value. */
  datatype State = State(
    historial: seq<Message>,
    contador: nat,
    reacciones: seq<string>,
    mostradaNoticia: bool,
    contadorPreguntas: nat,
    preguntaGeneralIdx: nat,
    preguntaPendiente: bool)

  /** The state the initialisation block creates. */
  const Initial := State([], 0, [], false, 0, 0, false)

  predicate InGeneral(s: State)
  {
    s.preguntaGeneralIdx < NumPreguntas
  }

  predicate InNews(s: State)
  {
    !InGeneral(s) && s.contador < NumNoticias
  }

  /** The `else` branch: the profile is produced on every rerun from here on. */
  predicate Final(s: State)
  {
    !InGeneral(s) && !InNews(s)
  }

  /** How far the conversation has got, counted in user messages. */
  function Progress(s: State): nat
  {
    s.preguntaGeneralIdx + 2 * s.contador + (if s.preguntaPendiente then 1 else 0)
  }

  /** What every reachable session state satisfies. */
  predicate Inv(s: State)
  {
    s.preguntaGeneralIdx <= NumPreguntas && s.contador <= NumNoticias &&
    s.contadorPreguntas <= 1 &&
    (s.contadorPreguntas == 1 ==> s.preguntaPendiente) &&
    (s.preguntaPendiente ==> s.mostradaNoticia) &&
    (InGeneral(s) ==> s.contador == 0 && !s.mostradaNoticia) &&
    (s.contador == NumNoticias ==> !s.mostradaNoticia) &&
    |s.reacciones| == s.preguntaGeneralIdx + s.contador &&
    UserTurns(s.historial) == Progress(s)
  }

  // ---------------------------------------------------------------------------
  // One rerun

  /** Lines 122-127: the current question is logged unless a bot message with
      the same text is already in the log. */
  function ShowQuestion(s: State): State
    requires InGeneral(s)
  {
    var q := Pregunta(s.preguntaGeneralIdx);
    if Message(Bot, q) in s.historial then s
    else s.(historial := s.historial + [Message(Bot, q)])
  }

  function GeneralStep(s: State, input: Option<string>): (State, Outcome)
    requires InGeneral(s)
  {
    var s1 := ShowQuestion(s);
    if Submitted(input) then
      (s1.(historial := s1.historial + [Message(User, input.value)],
           reacciones := s1.reacciones + [input.value],
           preguntaGeneralIdx := s1.preguntaGeneralIdx + 1),
       RerunRequested)
    else (s1, Waiting)
  }

  /** Lines 138-144: the current headline is logged once per item. */
  function ShowNews(s: State): State
    requires s.contador < NumNoticias
  {
    if s.mostradaNoticia then s
    else s.(historial := s.historial + [Message(Bot, NewsPrompt + Noticia(s.contador))],
            mostradaNoticia := true)
  }

  /** The reply `x` is recorded and the next news item comes up. */
  function AdvanceNews(s: State, x: string): State
  {
    s.(reacciones := s.reacciones + [x], contador := s.contador + 1,
       mostradaNoticia := false, contadorPreguntas := 0, preguntaPendiente := false)
  }

  /** `procesar_respuesta_valida`. */
  function ProcessValid(s: State, x: string, followUp: string): (State, Outcome)
  {
    if s.contadorPreguntas == 0 then
      (s.(historial := s.historial + [Message(Bot, Strip(followUp))],
          preguntaPendiente := true,
          contadorPreguntas := s.contadorPreguntas + 1),
       Waiting)
    else (AdvanceNews(s, x), RerunRequested)
  }

  function NewsStep(s: State, input: Option<string>, verdict: string, followUp: string): (State, Outcome)
    requires s.contador < NumNoticias
  {
    var s1 := ShowNews(s);
    if !Submitted(input) then (s1, Waiting)
    else
      var x := input.value;
      var s2 := s1.(historial := s1.historial + [Message(User, x)]);
      if s2.preguntaPendiente then (AdvanceNews(s2, x), RerunRequested)
      else if JudgedInsufficient(verdict) then
        (s2.(historial := s2.historial + [Message(Bot, Strip(followUp))],
             preguntaPendiente := true),
         Waiting)
      else ProcessValid(s2, x, followUp)
  }

  /** Lines 168-198: the profile is logged and the row is assembled. */
  function FinalStep(s: State, perfil: string): (State, Outcome)
  {
    (s.(historial := s.historial + [Message(Bot, ProfilePrefix + perfil)]),
     FinalOutcome(s.reacciones, perfil))
  }

  /** One rerun of the script: the new session state and how the run ended. */
  function Next(s: State, t: Turn): (State, Outcome)
  {
    if InGeneral(s) then GeneralStep(s, t.input)
    else if InNews(s) then NewsStep(s, t.input, t.verdict, t.followUp)
    else FinalStep(s, t.perfil)
  }

  /** The session state after a sequence of reruns. */
  function Run(s: State, ts: seq<Turn>): State
    decreases |ts|
  {
    if ts == [] then s else Run(Next(s, ts[0]).0, ts[1..])
  }

  // ---------------------------------------------------------------------------
  // Properties of one rerun

  /** A reply to a general question is logged and recorded and moves to the
      next question; nothing else changes. */
  lemma GeneralReply(s: State, t: Turn)
    requires InGeneral(s) && Submitted(t.input)
    ensures var r := Next(s, t);
      var shown := if Message(Bot, Pregunta(s.preguntaGeneralIdx)) in s.historial then []
                   else [Message(Bot, Pregunta(s.preguntaGeneralIdx))];
      r.1 == RerunRequested &&
      r.0 == s.(historial := s.historial + shown + [Message(User, t.input.value)],
                reacciones := s.reacciones + [t.input.value],
                preguntaGeneralIdx := s.preguntaGeneralIdx + 1)
  {
  }

  /** The current general question is in the log after any rerun of the general
      phase. */
  lemma QuestionShown(s: State, t: Turn)
    requires InGeneral(s)
    ensures Message(Bot, Pregunta(s.preguntaGeneralIdx)) in Next(s, t).0.historial
  {
  }

  /** A rerun without input outside the final phase changes nothing when it is
      repeated: the question or headline is not logged a second time. */
  lemma IdleRerunIdempotent(s: State, t: Turn, t': Turn)
    requires !Final(s) && !Submitted(t.input) && !Submitted(t'.input)
    ensures Next(Next(s, t).0, t') == Next(s, t)
  {
  }

  /** In the final phase every rerun logs the profile once more and rebuilds
      the row from the same reactions. */
  lemma FinalRerun(s: State, t: Turn)
    requires Final(s)
    ensures var r := Next(s, t);
      r.0 == s.(historial := s.historial + [Message(Bot, ProfilePrefix + t.perfil)]) &&
      (r.1.RowReady? <==> ParseProfile(t.perfil).Success?) &&
      (r.1.RowReady? ==> r.1.row == Row(s.reacciones, ParseProfile(t.perfil).value)) &&
      (r.1.ParseFailed? ==> r.1.err == ParseProfile(t.perfil).error)
  {
  }

  /** A reply while a follow-up is pending advances the news index by one and
      resets the per-item flags, whatever the verdict. */
  lemma PendingReplyAdvances(s: State, t: Turn)
    requires Inv(s) && InNews(s) && s.preguntaPendiente && Submitted(t.input)
    ensures var r := Next(s, t);
      r.1 == RerunRequested &&
      r.0.contador == s.contador + 1 &&
      r.0.reacciones == s.reacciones + [t.input.value] &&
      r.0.historial == s.historial + [Message(User, t.input.value)] &&
      !r.0.mostradaNoticia && r.0.contadorPreguntas == 0 && !r.0.preguntaPendiente &&
      r.0.preguntaGeneralIdx == s.preguntaGeneralIdx
  {
  }

  /** In a reachable state, the first reply to a news item always gets a
      follow-up question and records nothing, whatever the verdict: the branch
      of `procesar_respuesta_valida` that advances is never taken. */
  lemma FirstReplyFollowedUp(s: State, t: Turn)
    requires Inv(s) && InNews(s) && !s.preguntaPendiente && Submitted(t.input)
    ensures var r := Next(s, t);
      var s1 := ShowNews(s);
      r.1 == Waiting &&
      r.0.historial == s1.historial + [Message(User, t.input.value), Message(Bot, Strip(t.followUp))] &&
      r.0.preguntaPendiente && r.0.mostradaNoticia &&
      r.0.contador == s.contador && r.0.reacciones == s.reacciones &&
      r.0.preguntaGeneralIdx == s.preguntaGeneralIdx
  {
  }

  /** The advancing branch of `procesar_respuesta_valida` needs a state no
      rerun reaches: the news branch calls it only when no follow-up is
      pending, and then `contador_preguntas` is still 0 by the invariant. */
  lemma ProcessValidAdvanceUnreachable(s: State, x: string, followUp: string)
    requires s.contadorPreguntas <= 1 && (s.contadorPreguntas == 1 ==> s.preguntaPendiente)
    requires !s.preguntaPendiente
    ensures ProcessValid(s, x, followUp).1 == Waiting
  {
  }

  /** The verdict decides only `contador_preguntas`: the log, the reactions,
      the indices, the flags shown to the user and the outcome are the same
      for every verdict. */
  lemma VerdictIrrelevant(s: State, t: Turn, v: string)
    requires Inv(s)
    ensures var r, r' := Next(s, t), Next(s, t.(verdict := v));
      r.1 == r'.1 && r.0.historial == r'.0.historial && r.0.reacciones == r'.0.reacciones &&
      r.0.contador == r'.0.contador && r.0.preguntaGeneralIdx == r'.0.preguntaGeneralIdx &&
      r.0.mostradaNoticia == r'.0.mostradaNoticia && r.0.preguntaPendiente == r'.0.preguntaPendiente
  {
    if InNews(s) && Submitted(t.input) && !ShowNews(s).preguntaPendiente {
      FirstReplyFollowedUp(s, t);
      FirstReplyFollowedUp(s, t.(verdict := v));
    }
  }

  /** `r` is `s` moved forward by at most one step: the phases only move
      forward, each index grows by at most one and only in its own phase, and
      the log and the reactions are only ever appended to. */
  predicate Forward(s: State, r: State)
  {
    s.preguntaGeneralIdx <= r.preguntaGeneralIdx <= s.preguntaGeneralIdx + 1 &&
    s.contador <= r.contador <= s.contador + 1 &&
    (InGeneral(s) ==> r.contador == s.contador) &&
    (!InGeneral(s) ==> r.preguntaGeneralIdx == s.preguntaGeneralIdx) &&
    (Final(s) ==> Final(r)) && (InNews(s) ==> !InGeneral(r)) &&
    s.historial <= r.historial && s.reacciones <= r.reacciones
  }

  lemma {:induction false} NextForward(s: State, t: Turn)
    ensures Forward(s, Next(s, t).0)
  {
    if InGeneral(s) {
      GeneralForward(s, t.input);
    } else if InNews(s) {
      NewsForward(s, t.input, t.verdict, t.followUp);
    } else {
      assert Next(s, t).0.historial == s.historial + [Message(Bot, ProfilePrefix + t.perfil)];
    }
  }

  lemma GeneralForward(s: State, input: Option<string>)
    requires InGeneral(s)
    ensures Forward(s, GeneralStep(s, input).0)
  {
  }

  lemma NewsForward(s: State, input: Option<string>, verdict: string, followUp: string)
    requires InNews(s)
    ensures Forward(s, NewsStep(s, input, verdict, followUp).0)
  {
  }

  /** Every rerun keeps the invariant, and each submitted reply before the
      final phase is one step of progress. */
  lemma {:induction false} NextInv(s: State, t: Turn)
    requires Inv(s)
    ensures Inv(Next(s, t).0)
    ensures Progress(Next(s, t).0) ==
      if Final(s) || !Submitted(t.input) then Progress(s) else Progress(s) + 1
  {
    var r := Next(s, t).0;
    if InGeneral(s) {
      var s1 := ShowQuestion(s);
      UserTurnsAppend(s.historial, Message(Bot, Pregunta(s.preguntaGeneralIdx)));
      if Submitted(t.input) {
        UserTurnsAppend(s1.historial, Message(User, t.input.value));
      }
    } else if InNews(s) {
      NewsInv(s, t);
    } else {
      UserTurnsAppend(s.historial, Message(Bot, ProfilePrefix + t.perfil));
    }
  }

  /** Logging the headline keeps the invariant and adds no user message. */
  lemma ShowNewsInv(s: State)
    requires Inv(s) && InNews(s)
    ensures var s1 := ShowNews(s);
      Inv(s1) && s1.mostradaNoticia && Progress(s1) == Progress(s) &&
      s1 == s.(historial := s1.historial, mostradaNoticia := true)
  {
    UserTurnsAppend(s.historial, Message(Bot, NewsPrompt + Noticia(s.contador)));
  }

  lemma NewsInv(s: State, t: Turn)
    requires Inv(s) && InNews(s)
    ensures Inv(Next(s, t).0)
    ensures Progress(Next(s, t).0) == if !Submitted(t.input) then Progress(s) else Progress(s) + 1
  {
    var s1 := ShowNews(s);
    ShowNewsInv(s);
    if Submitted(t.input) {
      ReplyInv(s1, t);
    }
  }

  /** The reply to a shown headline: whichever branch runs, one user message
      is logged and the invariant is kept. */
  lemma ReplyInv(s1: State, t: Turn)
    requires Inv(s1) && InNews(s1) && s1.mostradaNoticia && Submitted(t.input)
    ensures var s2 := s1.(historial := s1.historial + [Message(User, t.input.value)]);
      var r := if s2.preguntaPendiente then AdvanceNews(s2, t.input.value)
               else if JudgedInsufficient(t.verdict) then
                 s2.(historial := s2.historial + [Message(Bot, Strip(t.followUp))], preguntaPendiente := true)
               else ProcessValid(s2, t.input.value, t.followUp).0;
      Inv(r) && Progress(r) == Progress(s1) + 1
  {
    var s2 := s1.(historial := s1.historial + [Message(User, t.input.value)]);
    UserTurnsAppend(s1.historial, Message(User, t.input.value));
    UserTurnsAppend(s2.historial, Message(Bot, Strip(t.followUp)));
  }

  /** Under the invariant, the final phase is reached exactly when all 23 user
      messages are in, and it holds one reaction per question and per item. */
  lemma FinalIffFullProgress(s: State)
    requires Inv(s)
    ensures Final(s) <==> Progress(s) == FullProgress
    ensures Progress(s) <= FullProgress
    ensures Final(s) ==> |s.reacciones| == NumPreguntas + NumNoticias
  {
  }

  // ---------------------------------------------------------------------------
  // Whole conversations

  /** Every state a sequence of reruns reaches keeps the invariant, and the
      progress is the number of submitted replies, capped at the end. */
  lemma {:induction false} RunProgress(s: State, ts: seq<Turn>)
    requires Inv(s)
    ensures Inv(Run(s, ts))
    ensures Progress(Run(s, ts)) == Min(Progress(s) + SubmittedCount(ts), FullProgress)
    decreases |ts|
  {
    if ts != [] {
      var s' := Next(s, ts[0]).0;
      NextInv(s, ts[0]);
      FinalIffFullProgress(s);
      RunProgress(s', ts[1..]);
      assert Run(s, ts) == Run(s', ts[1..]);
      assert SubmittedCount(ts) == (if Submitted(ts[0].input) then 1 else 0) + SubmittedCount(ts[1..]);
    }
  }

  function Min(a: int, b: int): int
  {
    if a < b then a else b
  }

  /** From a freshly initialised session (`Initial` is one, by `InitialInv`),
      the profile is produced exactly when at least 23 replies have been
      submitted; by then 14 reactions are recorded, five answers and one per
      news item, and the log holds one user message per submitted reply. */
  lemma ConversationEnds(s: State, ts: seq<Turn>)
    requires Inv(s) && Progress(s) == 0
    ensures Final(Run(s, ts)) <==> SubmittedCount(ts) >= FullProgress
    ensures Final(Run(s, ts)) ==> |Run(s, ts).reacciones| == NumPreguntas + NumNoticias
    ensures UserTurns(Run(s, ts).historial) == Min(SubmittedCount(ts), FullProgress)
  {
    RunProgress(s, ts);
    FinalIffFullProgress(Run(s, ts));
  }

  /** The initialisation block starts a conversation with no progress. */
  lemma InitialInv()
    ensures Inv(Initial) && Progress(Initial) == 0
  {
  }

  // ---------------------------------------------------------------------------
  // The session object

  /** `st.session_state` of one browser session. */
  class Session {
    var historial: seq<Message>
    var contador: nat
    var reacciones: seq<string>
    var mostradaNoticia: bool
    var contadorPreguntas: nat
    var preguntaGeneralIdx: nat
    var preguntaPendiente: bool

    function Snapshot(): State
      reads this
    {
      State(historial, contador, reacciones, mostradaNoticia, contadorPreguntas,
            preguntaGeneralIdx, preguntaPendiente)
    }

    /** The initialisation block, lines 104-111. */
    constructor ()
      ensures Snapshot() == Initial
    {
      historial := [];
      contador := 0;
      reacciones := [];
      mostradaNoticia := false;
      contadorPreguntas := 0;
      preguntaGeneralIdx := 0;
      preguntaPendiente := false;
    }

    /** `procesar_respuesta_valida(user_input)`, given the follow-up question
        the language model wrote. */
    method ProcesarRespuestaValida(userInput: string, followUp: string) returns (outcome: Outcome)
      modifies this
      ensures (Snapshot(), outcome) == ProcessValid(old(Snapshot()), userInput, followUp)
    {
      var preguntaSeguimiento := Strip(followUp);
      if contadorPreguntas == 0 {
        historial := historial + [Message(Bot, preguntaSeguimiento)];
        preguntaPendiente := true;
        contadorPreguntas := contadorPreguntas + 1;
        outcome := Waiting;
      } else {
        reacciones := reacciones + [userInput];
        contador := contador + 1;
        mostradaNoticia := false;
        contadorPreguntas := 0;
        preguntaPendiente := false;
        outcome := RerunRequested;
      }
    }

    /** Lines 122-134: the general-question branch. */
    method GeneralQuestion(userInput: Option<string>) returns (outcome: Outcome)
      requires preguntaGeneralIdx < NumPreguntas
      modifies this
      ensures (Snapshot(), outcome) == GeneralStep(old(Snapshot()), userInput)
    {
      var preguntaActual := Pregunta(preguntaGeneralIdx);
      if Message(Bot, preguntaActual) !in historial {
        historial := historial + [Message(Bot, preguntaActual)];
      }
      if Submitted(userInput) {
        historial := historial + [Message(User, userInput.value)];
        reacciones := reacciones + [userInput.value];
        preguntaGeneralIdx := preguntaGeneralIdx + 1;
        outcome := RerunRequested;
      } else {
        outcome := Waiting;
      }
    }

    /** Lines 137-165: the news branch. */
    method NewsItem(userInput: Option<string>, verdict: string, followUp: string) returns (outcome: Outcome)
      requires contador < NumNoticias
      modifies this
      ensures (Snapshot(), outcome) == NewsStep(old(Snapshot()), userInput, verdict, followUp)
    {
      if !mostradaNoticia {
        historial := historial + [Message(Bot, NewsPrompt + Noticia(contador))];
        mostradaNoticia := true;
      }
      if Submitted(userInput) {
        historial := historial + [Message(User, userInput.value)];
        if preguntaPendiente {
          reacciones := reacciones + [userInput.value];
          contador := contador + 1;
          mostradaNoticia := false;
          contadorPreguntas := 0;
          preguntaPendiente := false;
          outcome := RerunRequested;
        } else if JudgedInsufficient(verdict) {
          historial := historial + [Message(Bot, Strip(followUp))];
          preguntaPendiente := true;
          outcome := Waiting;
        } else {
          outcome := ProcesarRespuestaValida(userInput.value, followUp);
        }
      } else {
        outcome := Waiting;
      }
    }

    /** Lines 168-198: the final branch. */
    method FinalProfile(perfil: string) returns (outcome: Outcome)
      modifies this
      ensures (Snapshot(), outcome) == FinalStep(old(Snapshot()), perfil)
    {
      historial := historial + [Message(Bot, ProfilePrefix + perfil)];
      outcome := FinalOutcome(reacciones, perfil);
    }

    /** One rerun of the script with the chat input `userInput` and the three
        texts the language model returns in it. */
    method Rerun(userInput: Option<string>, verdict: string, followUp: string, perfil: string)
      returns (outcome: Outcome)
      modifies this
      ensures (Snapshot(), outcome) == Next(old(Snapshot()), Turn(userInput, verdict, followUp, perfil))
    {
      if preguntaGeneralIdx < NumPreguntas {
        outcome := GeneralQuestion(userInput);
      } else if contador < NumNoticias {
        outcome := NewsItem(userInput, verdict, followUp);
      } else {
        outcome := FinalProfile(perfil);
      }
    }
  }
}
