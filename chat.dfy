/** Pieces shared by both chat scripts: the chat log entries, one rerun's inputs,
    and the normalisation that turns the language model's sufficiency verdict
    into a decision. */
module Chat {

  datatype Option<+T> = None | Some(value: T)

  datatype Result<+T, +E> = Success(value: T) | Failure(error: E)

  /** The `tipo` of a logged message. */
  datatype Speaker = Bot | User

  /** One entry of `historial`: `{"tipo": ..., "contenido": ...}`. */
  datatype Message = Message(speaker: Speaker, text: string)

  /** What one rerun of a script receives from outside: the chat input (None when
      the user submitted nothing) and the three language-model outputs the rerun
      may consult: the sufficiency verdict, the follow-up question and the profile. */
  datatype Turn = Turn(input: Option<string>, verdict: string, followUp: string, perfil: string)

  /** `len(noticias)`: both scripts show the same nine headlines. */
  const NumNoticias := 9

  /** Stands for `noticias[i]`: the headline texts are not part of the model,
      only that each index has its own. */
  function Noticia(i: nat): string
    requires i < NumNoticias
  {
    "Noticia " + [('0' as int + i) as char]
  }

  /** `if user_input:` -- Python treats both None and the empty string as false. */
  predicate Submitted(input: Option<string>)
  {
    input.Some? && input.value != ""
  }

  /** Number of turns in `ts` that carry a submitted chat input. */
  function SubmittedCount(ts: seq<Turn>): nat
  {
    if ts == [] then 0 else (if Submitted(ts[0].input) then 1 else 0) + SubmittedCount(ts[1..])
  }

  /** Number of messages in the log written by the user. */
  function UserTurns(h: seq<Message>): nat
  {
    if h == [] then 0 else UserTurns(h[..|h| - 1]) + (if h[|h| - 1].speaker == User then 1 else 0)
  }

  lemma UserTurnsAppend(h: seq<Message>, m: Message)
    ensures UserTurns(h + [m]) == UserTurns(h) + (if m.speaker == User then 1 else 0)
  {
    assert (h + [m])[..|h|] == h;
  }

  // ---------------------------------------------------------------------------
  // The sufficiency verdict: `cadena_evaluacion.run(...).strip().lower()`,
  // then `== "false"`.

  /** The characters Python's `str.strip()` removes (those for which
      `str.isspace()` holds). */
  predicate IsSpace(c: char)
  {
    '\t' <= c <= '\r' || '\U{1C}' <= c <= ' ' || c == '\U{85}' || c == '\U{A0}' ||
    c == '\U{1680}' || '\U{2000}' <= c <= '\U{200A}' || c == '\U{2028}' || c == '\U{2029}' ||
    c == '\U{202F}' || c == '\U{205F}' || c == '\U{3000}'
  }

  /** Every character of `s` from `lo` up to `hi` is whitespace. */
  predicate SpacesIn(s: string, lo: nat, hi: nat)
    requires lo <= hi <= |s|
  {
    forall k :: lo <= k < hi ==> IsSpace(s[k])
  }

  /** Where the whitespace run of `s` starting at `i` ends. */
  function SkipSpaces(s: string, i: nat): (n: nat)
    requires i <= |s|
    ensures i <= n <= |s| && SpacesIn(s, i, n)
    ensures n < |s| ==> !IsSpace(s[n])
    decreases |s| - i
  {
    if i == |s| || !IsSpace(s[i]) then i else SkipSpaces(s, i + 1)
  }

  /** Where the whitespace run of `s` ending at `j` begins, not going below `lo`. */
  function SkipSpacesBack(s: string, lo: nat, j: nat): (n: nat)
    requires lo <= j <= |s|
    ensures lo <= n <= j && SpacesIn(s, n, j)
    ensures lo < n ==> !IsSpace(s[n - 1])
    decreases j
  {
    if j == lo || !IsSpace(s[j - 1]) then j else SkipSpacesBack(s, lo, j - 1)
  }

  /** `str.strip()`: `s` without its leading and trailing whitespace. */
  function Strip(s: string): (r: string)
    ensures exists i: nat, j: nat :: i <= j <= |s| && SpacesIn(s, 0, i) && SpacesIn(s, j, |s|) && r == s[i..j]
    ensures |r| > 0 ==> !IsSpace(r[0]) && !IsSpace(r[|r| - 1])
  {
    var i := SkipSpaces(s, 0);
    s[i..SkipSpacesBack(s, i, |s|)]
  }

  /** `str.lower()` on one character, for the ASCII letters. */
  function LowerChar(c: char): (d: char)
    ensures !('A' <= d <= 'Z')
    ensures d != c ==> 'A' <= c <= 'Z' && d as int == c as int + 32
  {
    if 'A' <= c <= 'Z' then (c as int + 32) as char else c
  }

  /** `str.lower()`, character by character. */
  function Lower(s: string): (r: string)
    ensures |r| == |s|
    ensures forall k :: 0 <= k < |r| ==> !('A' <= r[k] <= 'Z')
    ensures forall k :: 0 <= k < |s| && !('A' <= s[k] <= 'Z') ==> r[k] == s[k]
    ensures forall k :: 0 <= k < |s| && 'A' <= s[k] <= 'Z' ==> r[k] as int == s[k] as int + 32
  {
    seq(|s|, k requires 0 <= k < |s| => LowerChar(s[k]))
  }

  /** The scripts ask for a follow-up only when the verdict, stripped and
      lower-cased, is exactly "false"; any other text counts as sufficient. */
  predicate JudgedInsufficient(verdict: string)
  {
    Lower(Strip(verdict)) == "false"
  }

  /** `w` spells "false" in any mix of letter cases. */
  predicate IsFalseWord(w: string)
  {
    |w| == 5 && forall k :: 0 <= k < 5 ==> LowerChar(w[k]) == "false"[k]
  }

  /** `v` is "false", in any letter case, between `i` and `j`, with nothing
      but whitespace before `i` and after `j`. */
  predicate PaddedFalseAt(v: string, i: nat, j: nat)
  {
    i <= j <= |v| && SpacesIn(v, 0, i) && SpacesIn(v, j, |v|) && IsFalseWord(v[i..j])
  }

  /** A verdict judged insufficient is a padded "false". */
  lemma {:induction false} InsufficientPadded(v: string)
    requires JudgedInsufficient(v)
    ensures PaddedFalseAt(v, SkipSpaces(v, 0), SkipSpacesBack(v, SkipSpaces(v, 0), |v|))
  {
    var i := SkipSpaces(v, 0);
    var j := SkipSpacesBack(v, i, |v|);
    var w := v[i..j];
    assert Lower(w) == "false";
    forall k | 0 <= k < 5 ensures LowerChar(w[k]) == "false"[k] {
      assert Lower(w)[k] == LowerChar(w[k]);
    }
  }

  /** A padded "false" is judged insufficient. */
  lemma {:induction false} PaddedInsufficient(v: string, i: nat, j: nat)
    requires PaddedFalseAt(v, i, j)
    ensures JudgedInsufficient(v)
  {
    var w := v[i..j];
    assert LowerChar(w[0]) == "false"[0] && LowerChar(w[4]) == "false"[4];
    assert !IsSpace(v[i]) && !IsSpace(v[j - 1]) by {
      assert w[0] == v[i] && w[4] == v[j - 1];
    }
    var i' := SkipSpaces(v, 0);
    assert i' == i;
    var j' := SkipSpacesBack(v, i', |v|);
    assert j' == j;
    assert Strip(v) == w;
    assert Lower(w) == "false";
  }

  /** The fail-open rule stated without `strip`/`lower`: a verdict asks for a
      follow-up exactly when it is "false", in any letter case, padded on both
      sides by nothing but whitespace. Everything else ("True", "", "False.",
      "no") lets the reply through. */
  lemma {:induction false} InsufficientIff(v: string)
    ensures JudgedInsufficient(v) <==> exists i: nat, j: nat :: PaddedFalseAt(v, i, j)
  {
    if JudgedInsufficient(v) {
      InsufficientPadded(v);
    }
    if exists i: nat, j: nat :: PaddedFalseAt(v, i, j) {
      var i: nat, j: nat :| PaddedFalseAt(v, i, j);
      PaddedInsufficient(v, i, j);
    }
  }
}
