/** The conversation of `app1.py`: nine news items, each answered once, or
    twice when the first answer is judged insufficient, then the profile. Each
    call of `Next` is one top-to-bottom execution ("rerun") of the Streamlit
    script against the session state. */
module NewsChat {
  import opened Chat
  import opened Profile

  /** The message logged whenever a reply is accepted. */
  const Gracias := "Gracias por tu respuesta. Avanzando a la siguiente noticia..."

  /** The largest value `Potential` takes: two per headline. */
  const FullPotential := 18

  /** `st.session_state`, as a value. */
  datatype State = State(
    historial: seq<Message>,
    contador: nat,
    reacciones: seq<string>,
    mostradaNoticia: bool,
    esperandoAmpliacion: bool)

  /** The state the initialisation block creates. */
  const Initial := State([], 0, [], false, false)

  predicate InNews(s: State)
  {
    s.contador < NumNoticias
  }

  /** The `else` branch: the profile is produced on every rerun from here on. */
  predicate Final(s: State)
  {
    !InNews(s)
  }

  /** 1 while the current headline has had one (insufficient) reply. */
  function Waiting1(s: State): nat
  {
    if s.esperandoAmpliacion then 1 else 0
  }

  /** A bound on how far the conversation has got: every submitted reply
      before the end raises it by one or two. */
  function Potential(s: State): nat
  {
    2 * s.contador + Waiting1(s)
  }

  /** What every reachable session state satisfies: one reaction per finished
      headline, which took one or two user messages. */
  predicate Inv(s: State)
  {
    s.contador <= NumNoticias &&
    |s.reacciones| == s.contador &&
    (s.esperandoAmpliacion ==> s.mostradaNoticia) &&
    (s.contador == NumNoticias ==> !s.mostradaNoticia) &&
    s.contador + Waiting1(s) <= UserTurns(s.historial) <= 2 * s.contador + Waiting1(s)
  }

  // ---------------------------------------------------------------------------
  // One rerun

  /** Lines 104-110: the headline is logged once per item, without the
      question put in front of it on screen. */
  function ShowNews(s: State): State
    requires InNews(s)
  {
    if s.mostradaNoticia then s
    else s.(historial := s.historial + [Message(Bot, Noticia(s.contador))],
            mostradaNoticia := true, esperandoAmpliacion := false)
  }

  /** `procesar_respuesta_valida`: the reply is recorded and the next headline
      comes up. */
  function Advance(s: State, x: string): State
  {
    s.(historial := s.historial + [Message(Bot, Gracias)],
       reacciones := s.reacciones + [x], contador := s.contador + 1,
       mostradaNoticia := false, esperandoAmpliacion := false)
  }

  function NewsStep(s: State, input: Option<string>, verdict: string, followUp: string): (State, Outcome)
    requires InNews(s)
  {
    var s1 := ShowNews(s);
    if !Submitted(input) then (s1, Waiting)
    else
      var x := input.value;
      var s2 := s1.(historial := s1.historial + [Message(User, x)]);
      if !s2.esperandoAmpliacion && JudgedInsufficient(verdict) then
        (s2.(esperandoAmpliacion := true,
             historial := s2.historial + [Message(Bot, Strip(followUp))]),
         Waiting)
      else (Advance(s2, x), RerunRequested)
  }

  /** Lines 130-161: the profile is logged and the row is assembled. */
  function FinalStep(s: State, perfil: string): (State, Outcome)
  {
    (s.(historial := s.historial + [Message(Bot, ProfilePrefix + perfil)]),
     FinalOutcome(s.reacciones, perfil))
  }

  /** One rerun of the script: the new session state and how the run ended. */
  function Next(s: State, t: Turn): (State, Outcome)
  {
    if InNews(s) then NewsStep(s, t.input, t.verdict, t.followUp)
    else FinalStep(s, t.perfil)
  }

  /** The session state after a sequence of reruns. */
  function Run(s: State, ts: seq<Turn>): State
    decreases |ts|
  {
    if ts == [] then s else Run(Next(s, ts[0]).0, ts[1..])
  }

  // ---------------------------------------------------------------------------
  // Properties of one rerun

  /** A rerun without input logs the bare headline the first time, sets
      `mostrada_noticia`, clears `esperando_ampliacion`, and changes nothing
      else; run again, it changes nothing at all. */
  lemma IdleRerun(s: State, t: Turn, t': Turn)
    requires InNews(s) && !Submitted(t.input) && !Submitted(t'.input)
    ensures var r := Next(s, t);
      r.1 == Waiting &&
      (s.mostradaNoticia ==> r.0 == s) &&
      (!s.mostradaNoticia ==>
        r.0 == s.(historial := s.historial + [Message(Bot, Noticia(s.contador))],
                  mostradaNoticia := true, esperandoAmpliacion := false)) &&
      Next(r.0, t') == r
  {
  }

  /** In the final phase every rerun logs the profile once more and rebuilds
      the row from the same reactions. */
  lemma FinalRerun(s: State, t: Turn)
    requires Final(s)
    ensures var r := Next(s, t);
      r.0 == s.(historial := s.historial + [Message(Bot, ProfilePrefix + t.perfil)]) &&
      (r.1.RowReady? <==> ParseProfile(t.perfil).Success?) &&
      (r.1.RowReady? ==> r.1.row == Row(s.reacciones, ParseProfile(t.perfil).value)) &&
      (r.1.ParseFailed? ==> r.1.err == ParseProfile(t.perfil).error)
  {
  }

  /** A first reply judged sufficient is recorded and the next headline comes
      up, with one thank-you message. */
  lemma SufficientReplyAdvances(s: State, t: Turn)
    requires Inv(s) && InNews(s) && !s.esperandoAmpliacion
    requires Submitted(t.input) && !JudgedInsufficient(t.verdict)
    ensures var r := Next(s, t);
      r.1 == RerunRequested &&
      r.0.historial == ShowNews(s).historial + [Message(User, t.input.value), Message(Bot, Gracias)] &&
      r.0.reacciones == s.reacciones + [t.input.value] &&
      r.0.contador == s.contador + 1 &&
      !r.0.mostradaNoticia && !r.0.esperandoAmpliacion
  {
  }

  /** A first reply judged insufficient logs the follow-up question and waits;
      the reactions and the headline index stay as they are. */
  lemma InsufficientReplyWaits(s: State, t: Turn)
    requires Inv(s) && InNews(s) && !s.esperandoAmpliacion
    requires Submitted(t.input) && JudgedInsufficient(t.verdict)
    ensures var r := Next(s, t);
      r.1 == Waiting &&
      r.0.historial == ShowNews(s).historial + [Message(User, t.input.value), Message(Bot, Strip(t.followUp))] &&
      r.0.reacciones == s.reacciones && r.0.contador == s.contador &&
      r.0.mostradaNoticia && r.0.esperandoAmpliacion
  {
  }

  /** The reply to a follow-up is accepted whatever the verdict says. */
  lemma WaitingReplyAdvances(s: State, t: Turn)
    requires Inv(s) && InNews(s) && s.esperandoAmpliacion && Submitted(t.input)
    ensures var r := Next(s, t);
      r.1 == RerunRequested &&
      r.0.historial == s.historial + [Message(User, t.input.value), Message(Bot, Gracias)] &&
      r.0.reacciones == s.reacciones + [t.input.value] &&
      r.0.contador == s.contador + 1 &&
      !r.0.mostradaNoticia && !r.0.esperandoAmpliacion
  {
  }

  /** At most one follow-up per headline: of two consecutive replies, one
      moves on to the next headline. */
  lemma {:induction false} TwoRepliesAdvance(s: State, t1: Turn, t2: Turn)
    requires Inv(s) && InNews(s) && Submitted(t1.input) && Submitted(t2.input)
    ensures var r1 := Next(s, t1).0;
      r1.contador == s.contador + 1 || Next(r1, t2).0.contador == s.contador + 1
  {
    var r1 := Next(s, t1).0;
    if r1.contador == s.contador {
      NextInv(s, t1);
      WaitingReplyAdvances(r1, t2);
    }
  }

  /** What one rerun from `s` with `t` may do to reach `r`: keep the invariant,
      only append to the log and the reactions, move at most one headline on
      (logging the thank-you message when it does), log one user message per
      submitted reply before the end, and raise `Potential` by one or two for
      each such reply. */
  predicate StepEffect(s: State, t: Turn, r: State)
  {
    Inv(r) && s.historial <= r.historial && s.reacciones <= r.reacciones &&
    s.contador <= r.contador <= s.contador + 1 &&
    (Final(s) ==> Final(r)) &&
    UserTurns(r.historial) == UserTurns(s.historial) + (if InNews(s) && Submitted(t.input) then 1 else 0) &&
    (InNews(s) && Submitted(t.input) ==> Potential(s) + 1 <= Potential(r) <= Potential(s) + 2) &&
    (Final(s) || !Submitted(t.input) ==> Potential(r) == Potential(s)) &&
    (r.contador == s.contador + 1 ==> r.historial[|r.historial| - 1] == Message(Bot, Gracias))
  }

  lemma {:induction false} NextInv(s: State, t: Turn)
    requires Inv(s)
    ensures StepEffect(s, t, Next(s, t).0)
  {
    if InNews(s) {
      ShowNewsInv(s);
      if Submitted(t.input) {
        NewsReplyEffect(s, t);
      }
    } else {
      UserTurnsAppend(s.historial, Message(Bot, ProfilePrefix + t.perfil));
    }
  }

  lemma NewsReplyEffect(s: State, t: Turn)
    requires Inv(s) && InNews(s) && Submitted(t.input)
    ensures StepEffect(s, t, NewsStep(s, t.input, t.verdict, t.followUp).0)
  {
    var s1 := ShowNews(s);
    ShowNewsInv(s);
    ReplyInv(s1, t);
    assert NewsStep(s, t.input, t.verdict, t.followUp) == NewsStep(s1, t.input, t.verdict, t.followUp);
  }

  /** Logging the headline keeps the invariant and adds no user message. */
  lemma ShowNewsInv(s: State)
    requires Inv(s) && InNews(s)
    ensures var s1 := ShowNews(s);
      Inv(s1) && s1.mostradaNoticia && Potential(s1) == Potential(s) &&
      UserTurns(s1.historial) == UserTurns(s.historial) && s.historial <= s1.historial &&
      s1 == s.(historial := s1.historial, mostradaNoticia := true)
  {
    UserTurnsAppend(s.historial, Message(Bot, Noticia(s.contador)));
  }

  /** What a reply to a shown headline does, in either branch. */
  predicate ReplyEffect(s1: State, r: State)
  {
    Inv(r) && s1.historial <= r.historial && s1.reacciones <= r.reacciones &&
    s1.contador <= r.contador <= s1.contador + 1 &&
    UserTurns(r.historial) == UserTurns(s1.historial) + 1 &&
    Potential(s1) + 1 <= Potential(r) <= Potential(s1) + 2 &&
    (r.contador == s1.contador + 1 ==> r.historial[|r.historial| - 1] == Message(Bot, Gracias))
  }

  lemma ReplyInv(s1: State, t: Turn)
    requires Inv(s1) && InNews(s1) && s1.mostradaNoticia && Submitted(t.input)
    ensures ReplyEffect(s1, NewsStep(s1, t.input, t.verdict, t.followUp).0)
  {
    var s2 := s1.(historial := s1.historial + [Message(User, t.input.value)]);
    UserTurnsAppend(s1.historial, Message(User, t.input.value));
    if !s2.esperandoAmpliacion && JudgedInsufficient(t.verdict) {
      FollowUpInv(s1, s2, Strip(t.followUp));
    } else {
      AdvanceInv(s1, s2, t.input.value);
    }
  }

  lemma FollowUpInv(s1: State, s2: State, q: string)
    requires Inv(s1) && InNews(s1) && s1.mostradaNoticia && !s1.esperandoAmpliacion
    requires s2 == s1.(historial := s2.historial) && s1.historial <= s2.historial
    requires UserTurns(s2.historial) == UserTurns(s1.historial) + 1
    ensures ReplyEffect(s1, s2.(esperandoAmpliacion := true, historial := s2.historial + [Message(Bot, q)]))
  {
    UserTurnsAppend(s2.historial, Message(Bot, q));
  }

  lemma AdvanceInv(s1: State, s2: State, x: string)
    requires Inv(s1) && InNews(s1) && s1.mostradaNoticia
    requires s2 == s1.(historial := s2.historial) && s1.historial <= s2.historial
    requires UserTurns(s2.historial) == UserTurns(s1.historial) + 1
    ensures ReplyEffect(s1, Advance(s2, x))
  {
    UserTurnsAppend(s2.historial, Message(Bot, Gracias));
  }

  /** Under the invariant, `Potential` reaches 18 exactly at the end, where
      all nine reactions are recorded after 9 to 18 user messages. */
  lemma FinalIffFullPotential(s: State)
    requires Inv(s)
    ensures Final(s) <==> Potential(s) == FullPotential
    ensures Potential(s) <= FullPotential
    ensures Final(s) ==>
      |s.reacciones| == NumNoticias && NumNoticias <= UserTurns(s.historial) <= 2 * NumNoticias
  {
  }

  // ---------------------------------------------------------------------------
  // Whole conversations

  /** Along any sequence of reruns the invariant holds and `contador` grows by
      at most one per submitted reply. */
  lemma {:induction false} RunBounds(s: State, ts: seq<Turn>)
    requires Inv(s)
    ensures Inv(Run(s, ts))
    ensures Run(s, ts).contador <= s.contador + SubmittedCount(ts)
    decreases |ts|
  {
    if ts != [] {
      StepBounds(s, ts[0]);
      RunBounds(Next(s, ts[0]).0, ts[1..]);
    }
  }

  /** Every submitted reply before the end raises `Potential` by at least one. */
  lemma {:induction false} RunPotential(s: State, ts: seq<Turn>)
    requires Inv(s)
    ensures Final(Run(s, ts)) || Potential(Run(s, ts)) >= Potential(s) + SubmittedCount(ts)
    decreases |ts|
  {
    if ts != [] {
      var s' := Next(s, ts[0]).0;
      StepBounds(s, ts[0]);
      RunPotential(s', ts[1..]);
      if Final(s') {
        FinalStays(s', ts[1..]);
      }
    }
  }

  /** What one rerun contributes to `RunBounds` and `RunPotential`. */
  lemma StepBounds(s: State, t: Turn)
    requires Inv(s)
    ensures var r := Next(s, t).0;
      Inv(r) && r.contador <= s.contador + (if Submitted(t.input) then 1 else 0) &&
      (Final(r) || Potential(r) >= Potential(s) + (if Submitted(t.input) then 1 else 0))
  {
    NextInv(s, t);
  }

  /** Once the profile is being produced, no rerun leaves that phase. */
  lemma {:induction false} FinalStays(s: State, ts: seq<Turn>)
    requires Final(s)
    ensures Final(Run(s, ts))
    decreases |ts|
  {
    if ts != [] {
      FinalStays(Next(s, ts[0]).0, ts[1..]);
    }
  }

  /** From a freshly initialised session (`Initial` is one, by `InitialInv`),
      18 submitted replies always reach the profile, fewer than 9 never do,
      and at the end exactly nine reactions are recorded. */
  lemma ConversationEnds(s: State, ts: seq<Turn>)
    requires Inv(s) && Potential(s) == 0
    ensures SubmittedCount(ts) >= FullPotential ==> Final(Run(s, ts))
    ensures SubmittedCount(ts) < NumNoticias ==> !Final(Run(s, ts))
    ensures Final(Run(s, ts)) ==>
      |Run(s, ts).reacciones| == NumNoticias &&
      NumNoticias <= UserTurns(Run(s, ts).historial) <= 2 * NumNoticias
  {
    RunBounds(s, ts);
    RunPotential(s, ts);
    FinalIffFullPotential(Run(s, ts));
  }

  /** The initialisation block starts a conversation with nothing done. */
  lemma InitialInv()
    ensures Inv(Initial) && Potential(Initial) == 0
  {
  }

  // ---------------------------------------------------------------------------
  // The session object

  /** `st.session_state` of one browser session. */
  class Session {
    var historial: seq<Message>
    var contador: nat
    var reacciones: seq<string>
    var mostradaNoticia: bool
    var esperandoAmpliacion: bool

    function Snapshot(): State
      reads this
    {
      State(historial, contador, reacciones, mostradaNoticia, esperandoAmpliacion)
    }

    /** The initialisation block, lines 88-93. */
    constructor ()
      ensures Snapshot() == Initial
    {
      historial := [];
      contador := 0;
      reacciones := [];
      mostradaNoticia := false;
      esperandoAmpliacion := false;
    }

    /** `procesar_respuesta_valida(user_input)`, lines 76-85. */
    method ProcesarRespuestaValida(userInput: string) returns (outcome: Outcome)
      modifies this
      ensures Snapshot() == Advance(old(Snapshot()), userInput) && outcome == RerunRequested
    {
      historial := historial + [Message(Bot, Gracias)];
      reacciones := reacciones + [userInput];
      contador := contador + 1;
      mostradaNoticia := false;
      esperandoAmpliacion := false;
      outcome := RerunRequested;
    }

    /** Lines 103-129: the news branch. */
    method NewsItem(userInput: Option<string>, verdict: string, followUp: string) returns (outcome: Outcome)
      requires contador < NumNoticias
      modifies this
      ensures (Snapshot(), outcome) == NewsStep(old(Snapshot()), userInput, verdict, followUp)
    {
      if !mostradaNoticia {
        historial := historial + [Message(Bot, Noticia(contador))];
        mostradaNoticia := true;
        esperandoAmpliacion := false;
      }
      if Submitted(userInput) {
        historial := historial + [Message(User, userInput.value)];
        if !esperandoAmpliacion {
          if JudgedInsufficient(verdict) {
            esperandoAmpliacion := true;
            historial := historial + [Message(Bot, Strip(followUp))];
            outcome := Waiting;
          } else {
            outcome := ProcesarRespuestaValida(userInput.value);
          }
        } else {
          outcome := ProcesarRespuestaValida(userInput.value);
        }
      } else {
        outcome := Waiting;
      }
    }

    /** Lines 130-161: the final branch. */
    method FinalProfile(perfil: string) returns (outcome: Outcome)
      modifies this
      ensures (Snapshot(), outcome) == FinalStep(old(Snapshot()), perfil)
    {
      historial := historial + [Message(Bot, ProfilePrefix + perfil)];
      outcome := FinalOutcome(reacciones, perfil);
    }

    /** One rerun of the script with the chat input `userInput` and the three
        texts the language model returns in it. */
    method Rerun(userInput: Option<string>, verdict: string, followUp: string, perfil: string)
      returns (outcome: Outcome)
      modifies this
      ensures (Snapshot(), outcome) == Next(old(Snapshot()), Turn(userInput, verdict, followUp, perfil))
    {
      if contador < NumNoticias {
        outcome := NewsItem(userInput, verdict, followUp);
      } else {
        outcome := FinalProfile(perfil);
      }
    }
  }
}
