/** The final phase common to both scripts: the four scores are read out of the
    language model's profile text with `re.search(r"<Label>: (\d+)", perfil)`,
    and the spreadsheet row is the reactions followed by the four scores. */
module Profile {
  import opened Chat

  /** The labels, in the order the scores are looked up and written. */
  const Ambiental := "Ambiental"
  const Social := "Social"
  const Gobernanza := "Gobernanza"
  const Riesgo := "Riesgo"

  /** Text put in front of the profile when it is logged. */
  const ProfilePrefix := "**Perfil del inversor:** "

  datatype Scores = Scores(ambiental: nat, social: nat, gobernanza: nat, riesgo: nat)

  /** `re.search(...)` returned None and `.group(1)` raised on it. */
  datatype ParseError = MissingLabel(name: string)

  /** One cell of the spreadsheet row: a reaction text or a score. */
  datatype Cell = Text(text: string) | Number(n: nat)

  /** How one rerun of a script ends. */
  datatype Outcome =
    | Waiting                     // the script ran to its end and waits for input
    | RerunRequested              // `st.rerun()` was called
    | RowReady(row: seq<Cell>)    // final phase: the row handed to `append_row`
    | ParseFailed(err: ParseError) // final phase: the score extraction raised

  // ---------------------------------------------------------------------------
  // ASCII digits

  predicate IsDigit(c: char)
  {
    '0' <= c <= '9'
  }

  predicate AllDigits(s: string)
  {
    forall k :: 0 <= k < |s| ==> IsDigit(s[k])
  }

  function DigitChar(d: nat): (c: char)
    requires d < 10
    ensures IsDigit(c)
  {
    ('0' as int + d) as char
  }

  /** `int(...)` of a run of decimal digits (leading zeros allowed). */
  function DecimalValue(s: string): nat
    requires AllDigits(s)
  {
    if s == [] then 0 else DecimalValue(s[..|s| - 1]) * 10 + (s[|s| - 1] as int - '0' as int)
  }

  /** Decimal notation of `n`, without leading zeros. */
  function NatToString(n: nat): (s: string)
    ensures |s| > 0 && AllDigits(s)
    ensures DecimalValue(s) == n
  {
    if n < 10 then [DigitChar(n)]
    else
      var s := NatToString(n / 10) + [DigitChar(n % 10)];
      assert s[..|s| - 1] == NatToString(n / 10);
      s
  }

  // ---------------------------------------------------------------------------
  // `re.search(label + r": (\d+)", text)`

  /** The pattern `<label>: \d+` matches at position `p` of `text`. */
  predicate MatchAt(text: string, lbl: string, p: nat)
  {
    var start := p + |lbl| + 2;
    start < |text| && text[p..start] == lbl + ": " && IsDigit(text[start])
  }

  /** `p` is the leftmost position where the pattern matches. */
  predicate LeftmostMatch(text: string, lbl: string, p: nat)
  {
    MatchAt(text, lbl, p) && forall q: nat :: q < p ==> !MatchAt(text, lbl, q)
  }

  /** Scans for the first match at or after `from`. */
  function FindFrom(text: string, lbl: string, from: nat): (r: Option<nat>)
    ensures r.Some? ==> from <= r.value && MatchAt(text, lbl, r.value)
    ensures r.Some? ==> forall q: nat :: from <= q < r.value ==> !MatchAt(text, lbl, q)
    ensures r.None? ==> forall q: nat :: from <= q ==> !MatchAt(text, lbl, q)
    decreases |text| - from
  {
    if from >= |text| then None
    else if MatchAt(text, lbl, from) then Some(from)
    else FindFrom(text, lbl, from + 1)
  }

  /** Length of the run of digits of `text` that starts at `i` (`\d+` is greedy). */
  function DigitRun(text: string, i: nat): (n: nat)
    requires i <= |text|
    ensures i + n <= |text|
    ensures forall k :: i <= k < i + n ==> IsDigit(text[k])
    ensures i + n < |text| ==> !IsDigit(text[i + n])
    decreases |text| - i
  {
    if i == |text| || !IsDigit(text[i]) then 0 else 1 + DigitRun(text, i + 1)
  }

  /** The captured group `(\d+)` of a match at `p`: all the digits after "label: ". */
  function Group(text: string, lbl: string, p: nat): (g: string)
    requires MatchAt(text, lbl, p)
    ensures |g| > 0 && AllDigits(g)
  {
    var start := p + |lbl| + 2;
    text[start..start + DigitRun(text, start)]
  }

  /** `re.search(label + r": (\d+)", text)` is not None. */
  ghost predicate Found(text: string, lbl: string)
  {
    exists p: nat :: MatchAt(text, lbl, p)
  }

  /** `int(re.search(label + r": (\d+)", text).group(1))`: the value of the
      digits at the leftmost match, or the error the missing match raises. */
  function Score(text: string, lbl: string): (r: Result<nat, ParseError>)
    ensures r.Failure? <==> !Found(text, lbl)
    ensures r.Failure? ==> r.error == MissingLabel(lbl)
  {
    match FindFrom(text, lbl, 0)
    case None => Failure(MissingLabel(lbl))
    case Some(p) => Success(DecimalValue(Group(text, lbl, p)))
  }

  /** When the pattern matches, `Score` is the value of the group at the
      leftmost match. */
  lemma ScoreAtLeftmost(text: string, lbl: string, p: nat)
    requires LeftmostMatch(text, lbl, p)
    ensures Score(text, lbl) == Success(DecimalValue(Group(text, lbl, p)))
  {
    assert FindFrom(text, lbl, 0) == Some(p);
  }

  /** The `puntuaciones` dictionary: the four labels looked up in order; the
      first label without a match ends the rerun with an error. */
  function ParseProfile(perfil: string): (r: Result<Scores, ParseError>)
    ensures r.Success? <==>
      Found(perfil, Ambiental) && Found(perfil, Social) && Found(perfil, Gobernanza) && Found(perfil, Riesgo)
    ensures r.Success? ==>
      r.value == Scores(Score(perfil, Ambiental).value, Score(perfil, Social).value,
                        Score(perfil, Gobernanza).value, Score(perfil, Riesgo).value)
    ensures r == Failure(MissingLabel(Ambiental)) <==> !Found(perfil, Ambiental)
    ensures r == Failure(MissingLabel(Social)) <==>
      Found(perfil, Ambiental) && !Found(perfil, Social)
    ensures r == Failure(MissingLabel(Gobernanza)) <==>
      Found(perfil, Ambiental) && Found(perfil, Social) && !Found(perfil, Gobernanza)
    ensures r == Failure(MissingLabel(Riesgo)) <==>
      Found(perfil, Ambiental) && Found(perfil, Social) && Found(perfil, Gobernanza) && !Found(perfil, Riesgo)
  {
    match Score(perfil, Ambiental)
    case Failure(e) => Failure(e)
    case Success(a) =>
      match Score(perfil, Social)
      case Failure(e) => Failure(e)
      case Success(s) =>
        match Score(perfil, Gobernanza)
        case Failure(e) => Failure(e)
        case Success(g) =>
          match Score(perfil, Riesgo)
          case Failure(e) => Failure(e)
          case Success(k) => Success(Scores(a, s, g, k))
  }

  /** `fila = reacciones + list(puntuaciones.values())`. */
  function Row(reacciones: seq<string>, sc: Scores): (row: seq<Cell>)
    ensures |row| == |reacciones| + 4
    ensures forall k :: 0 <= k < |reacciones| ==> row[k] == Text(reacciones[k])
    ensures row[|reacciones|..] == [Number(sc.ambiental), Number(sc.social), Number(sc.gobernanza), Number(sc.riesgo)]
  {
    seq(|reacciones|, k requires 0 <= k < |reacciones| => Text(reacciones[k])) +
    [Number(sc.ambiental), Number(sc.social), Number(sc.gobernanza), Number(sc.riesgo)]
  }

  /** What the final branch produces from the reactions and the profile text. */
  function FinalOutcome(reacciones: seq<string>, perfil: string): (o: Outcome)
    ensures o.RowReady? || o.ParseFailed?
    ensures o.RowReady? <==> ParseProfile(perfil).Success?
    ensures o.RowReady? ==> o.row == Row(reacciones, ParseProfile(perfil).value)
    ensures o.ParseFailed? ==> o.err == ParseProfile(perfil).error
  {
    match ParseProfile(perfil)
    case Success(sc) => RowReady(Row(reacciones, sc))
    case Failure(e) => ParseFailed(e)
  }

  // ---------------------------------------------------------------------------
  // The profile format the prompt asks for parses back to its scores.

  /** "Ambiental: a, Social: s, Gobernanza: g, Riesgo: r", as requested by the
      profile prompt. */
  function FormatProfile(sc: Scores): string
  {
    Field(Ambiental, sc.ambiental) + ", " + Field(Social, sc.social) + ", " +
    Field(Gobernanza, sc.gobernanza) + ", " + Field(Riesgo, sc.riesgo)
  }

  predicate NoChar(s: string, c: char)
  {
    forall k :: 0 <= k < |s| ==> s[k] != c
  }

  /** The pattern cannot match where the label's first letter is absent. */
  lemma NoMatchBefore(text: string, lbl: string, p: nat)
    requires |lbl| > 0 && p <= |text|
    requires forall q :: 0 <= q < p ==> text[q] != lbl[0]
    ensures forall q: nat :: q < p ==> !MatchAt(text, lbl, q)
  {
    forall q: nat | q < p ensures !MatchAt(text, lbl, q) {
      assert text[q] != lbl[0];
      if q + |lbl| + 2 <= |text| {
        assert text[q..q + |lbl| + 2][0] == text[q];
        assert (lbl + ": ")[0] == lbl[0];
      }
    }
  }

  /** The digit run at `start` is exactly `ds` when a non-digit or the end follows it. */
  lemma DigitRunOf(text: string, start: nat, ds: string)
    requires AllDigits(ds) && start + |ds| <= |text|
    requires text[start..start + |ds|] == ds
    requires start + |ds| < |text| ==> !IsDigit(text[start + |ds|])
    ensures DigitRun(text, start) == |ds|
  {
  }

  lemma LeftmostFound(text: string, lbl: string, p: nat)
    requires LeftmostMatch(text, lbl, p)
    ensures FindFrom(text, lbl, 0) == Some(p)
  {
  }

  /** The digits after a match are exactly `ds` when a non-digit or the end follows them. */
  lemma GroupOf(text: string, lbl: string, p: nat, ds: string)
    requires MatchAt(text, lbl, p) && AllDigits(ds)
    requires p + |lbl| + 2 + |ds| <= |text|
    requires text[p + |lbl| + 2..p + |lbl| + 2 + |ds|] == ds
    requires p + |lbl| + 2 + |ds| < |text| ==> !IsDigit(text[p + |lbl| + 2 + |ds|])
    ensures Group(text, lbl, p) == ds
  {
    DigitRunOf(text, p + |lbl| + 2, ds);
    GroupIs(text, lbl, p, ds);
  }

  /** The leftmost match, followed by the digits `ds`, is what `Score` reads. */
  lemma ScoreAt(text: string, lbl: string, p: nat, ds: string)
    requires FindFrom(text, lbl, 0) == Some(p) && AllDigits(ds)
    requires Group(text, lbl, p) == ds
    ensures Score(text, lbl) == Success(DecimalValue(ds))
  {
  }

  lemma GroupIs(text: string, lbl: string, p: nat, ds: string)
    requires MatchAt(text, lbl, p)
    requires DigitRun(text, p + |lbl| + 2) == |ds|
    requires text[p + |lbl| + 2..p + |lbl| + 2 + |ds|] == ds
    ensures Group(text, lbl, p) == ds
  {
  }

  /** Where the parts of `pre + label + ": " + ds + post` sit. */
  lemma Layout(text: string, pre: string, lbl: string, ds: string, post: string)
    requires text == pre + lbl + ": " + ds + post
    requires |lbl| > 0 && NoChar(pre, lbl[0])
    requires post == [] || !IsDigit(post[0])
    ensures |pre| + |lbl| + 2 + |ds| <= |text|
    ensures text[|pre|..|pre| + |lbl| + 2] == lbl + ": "
    ensures text[|pre| + |lbl| + 2..|pre| + |lbl| + 2 + |ds|] == ds
    ensures forall q :: 0 <= q < |pre| ==> text[q] != lbl[0]
    ensures |pre| + |lbl| + 2 + |ds| < |text| ==> !IsDigit(text[|pre| + |lbl| + 2 + |ds|])
  {
    var p, start := |pre|, |pre| + |lbl| + 2;
    var head := pre + lbl + ": ";
    assert text == head + (ds + post);
    assert text[..start] == head;
    assert text[p..start] == lbl + ": " by {
      assert text[p..start] == head[p..];
    }
    assert text[start..] == ds + post;
    assert text[start..start + |ds|] == ds;
    forall q | 0 <= q < p ensures text[q] != lbl[0] {
      assert text[q] == head[q] == pre[q];
    }
    if start + |ds| < |text| {
      assert text[start..][|ds|] == post[0];
    }
  }

  /** A label whose first letter does not occur before it, followed by digits
      and then by a non-digit or the end of the text, is read back exactly. */
  lemma ScoreOf(text: string, pre: string, lbl: string, ds: string, post: string)
    requires text == pre + lbl + ": " + ds + post
    requires |lbl| > 0 && NoChar(pre, lbl[0])
    requires |ds| > 0 && AllDigits(ds)
    requires post == [] || !IsDigit(post[0])
    ensures Score(text, lbl) == Success(DecimalValue(ds))
  {
    var p, start := |pre|, |pre| + |lbl| + 2;
    Layout(text, pre, lbl, ds, post);
    assert MatchAt(text, lbl, p) by {
      assert text[start..start + |ds|][0] == text[start];
    }
    NoMatchBefore(text, lbl, p);
    LeftmostFound(text, lbl, p);
    GroupOf(text, lbl, p, ds);
    ScoreAt(text, lbl, p, ds);
  }

  lemma NoCharDigits(s: string, c: char)
    requires AllDigits(s) && !IsDigit(c)
    ensures NoChar(s, c)
  {
  }

  lemma NoCharJoin(a: string, b: string, c: char)
    requires NoChar(a, c) && NoChar(b, c)
    ensures NoChar(a + b, c)
  {
    forall k | 0 <= k < |a + b| ensures (a + b)[k] != c {
      if k >= |a| {
        assert (a + b)[k] == b[k - |a|];
      }
    }
  }

  function Field(lbl: string, n: nat): string
  {
    lbl + ": " + NatToString(n)
  }

  lemma FieldNoChar(lbl: string, n: nat, c: char)
    requires NoChar(lbl, c) && c != ':' && c != ' ' && c != ',' && !IsDigit(c)
    ensures NoChar(Field(lbl, n) + ", ", c)
  {
    NoCharDigits(NatToString(n), c);
    NoCharJoin(lbl, ": ", c);
    NoCharJoin(lbl + ": ", NatToString(n), c);
    NoCharJoin(Field(lbl, n), ", ", c);
  }

  lemma FormattedAmbiental(sc: Scores)
    ensures Score(FormatProfile(sc), Ambiental) == Success(sc.ambiental)
  {
    var text := FormatProfile(sc);
    var post := ", " + Field(Social, sc.social) + ", " + Field(Gobernanza, sc.gobernanza) + ", " + Field(Riesgo, sc.riesgo);
    assert text == [] + Ambiental + ": " + NatToString(sc.ambiental) + post;
    ScoreOf(text, [], Ambiental, NatToString(sc.ambiental), post);
  }

  lemma FormattedSocial(sc: Scores)
    ensures Score(FormatProfile(sc), Social) == Success(sc.social)
  {
    var text := FormatProfile(sc);
    var pre := Field(Ambiental, sc.ambiental) + ", ";
    var post := ", " + Field(Gobernanza, sc.gobernanza) + ", " + Field(Riesgo, sc.riesgo);
    assert text == pre + Social + ": " + NatToString(sc.social) + post;
    FieldNoChar(Ambiental, sc.ambiental, 'S');
    ScoreOf(text, pre, Social, NatToString(sc.social), post);
  }

  lemma FormattedGobernanza(sc: Scores)
    ensures Score(FormatProfile(sc), Gobernanza) == Success(sc.gobernanza)
  {
    var text := FormatProfile(sc);
    var pre := Field(Ambiental, sc.ambiental) + ", " + Field(Social, sc.social) + ", ";
    var post := ", " + Field(Riesgo, sc.riesgo);
    assert text == pre + Gobernanza + ": " + NatToString(sc.gobernanza) + post;
    FieldNoChar(Ambiental, sc.ambiental, 'G');
    FieldNoChar(Social, sc.social, 'G');
    NoCharJoin(Field(Ambiental, sc.ambiental) + ", ", Field(Social, sc.social) + ", ", 'G');
    ScoreOf(text, pre, Gobernanza, NatToString(sc.gobernanza), post);
  }

  lemma FormattedRiesgo(sc: Scores)
    ensures Score(FormatProfile(sc), Riesgo) == Success(sc.riesgo)
  {
    var text := FormatProfile(sc);
    var pre2 := Field(Ambiental, sc.ambiental) + ", " + Field(Social, sc.social) + ", ";
    var pre := pre2 + Field(Gobernanza, sc.gobernanza) + ", ";
    assert text == pre + Riesgo + ": " + NatToString(sc.riesgo) + [];
    FieldNoChar(Ambiental, sc.ambiental, 'R');
    FieldNoChar(Social, sc.social, 'R');
    FieldNoChar(Gobernanza, sc.gobernanza, 'R');
    NoCharJoin(Field(Ambiental, sc.ambiental) + ", ", Field(Social, sc.social) + ", ", 'R');
    NoCharJoin(pre2, Field(Gobernanza, sc.gobernanza) + ", ", 'R');
    ScoreOf(text, pre, Riesgo, NatToString(sc.riesgo), []);
  }

  /** A profile written in the requested format parses back to the scores it
      was written from: the four look-ups find the four fields, in order. */
  lemma ParseFormatted(sc: Scores)
    ensures ParseProfile(FormatProfile(sc)) == Success(sc)
  {
    FormattedAmbiental(sc);
    FormattedSocial(sc);
    FormattedGobernanza(sc);
    FormattedRiesgo(sc);
  }
}
