/**
 * The part of the query endpoint that is this repository's own logic
 * (serveur.py:134-183): the query text is stripped and given a final '.',
 * handed to the Prolog engine, and the engine's answer list is classified as
 * false, true, or a list of bindings with their count. The health endpoint's
 * Prolog status (serveur.py:261-262) is the same kind of test on one query.
 *
 * The engine is a parameter: it maps the normalised query text to an
 * exception message or to the list of answers it produced.
 */
module QueryService {
  import opened PrologTerms

  /** Python's `str.isspace` for one character: the Unicode whitespace characters. */
  predicate IsSpace(ch: char) {
    || ('\t' <= ch <= '\r')
    || ('\U{1C}' <= ch <= '\U{1F}')
    || ch == ' '
    || ch == '\U{85}'
    || ch == '\U{A0}'
    || ch == '\U{1680}'
    || ('\U{2000}' <= ch <= '\U{200A}')
    || ch == '\U{2028}'
    || ch == '\U{2029}'
    || ch == '\U{202F}'
    || ch == '\U{205F}'
    || ch == '\U{3000}'
  }

  predicate AllSpace(s: string) {
    forall i :: 0 <= i < |s| ==> IsSpace(s[i])
  }

  /** Neither end of `s` is whitespace (vacuously so for the empty string). */
  predicate Trimmed(s: string) {
    s != [] ==> !IsSpace(s[0]) && !IsSpace(s[|s| - 1])
  }

  /** `s.lstrip()`: the leading whitespace removed. */
  function TrimStart(s: string): (r: string)
    ensures |r| <= |s| && r == s[|s| - |r|..]
    ensures AllSpace(s[..|s| - |r|])
    ensures r != [] ==> !IsSpace(r[0])
  {
    if s != [] && IsSpace(s[0]) then TrimStart(s[1..]) else s
  }

  /** `s.rstrip()`: the trailing whitespace removed. */
  function TrimEnd(s: string): (r: string)
    ensures |r| <= |s| && r == s[..|r|]
    ensures AllSpace(s[|r|..])
    ensures r != [] ==> !IsSpace(r[|r| - 1])
  {
    if s != [] && IsSpace(s[|s| - 1]) then
      var r := TrimEnd(s[..|s| - 1]);
      assert s[|r|..] == s[..|s| - 1][|r|..] + [s[|s| - 1]];
      r
    else s
  }

  /** `s.strip()` (serveur.py:142): leading and trailing whitespace removed. */
  function Strip(s: string): (r: string)
    ensures |r| <= |s|
    ensures Trimmed(r)
  {
    var t := TrimStart(s);
    var r := TrimEnd(t);
    assert r != [] ==> r[0] == t[0];
    r
  }

  /** The input is whitespace, then its strip, then whitespace. */
  lemma StripSplits(s: string) returns (pre: string, post: string)
    ensures s == pre + Strip(s) + post
    ensures AllSpace(pre) && AllSpace(post)
  {
    var t := TrimStart(s);
    var r := TrimEnd(t);
    SliceSplit(s, t, r);
    pre, post := s[..|s| - |t|], t[|r|..];
  }

  /** A suffix `t` of `s` and a prefix `r` of `t` cut `s` in three. */
  lemma SliceSplit(s: string, t: string, r: string)
    requires |t| <= |s| && t == s[|s| - |t|..] && |r| <= |t| && r == t[..|r|]
    ensures s == s[..|s| - |t|] + r + t[|r|..]
  {
    assert t == r + t[|r|..];
    assert s == s[..|s| - |t|] + t;
    assert s[..|s| - |t|] + r + t[|r|..] == s[..|s| - |t|] + (r + t[|r|..]);
  }

  /** Removing leading and trailing whitespace finds the middle, whatever the split. */
  lemma {:induction false} StripCharacterised(pre: string, mid: string, post: string)
    requires AllSpace(pre) && AllSpace(post) && Trimmed(mid)
    ensures Strip(pre + mid + post) == mid
  {
    assert pre + mid + post == pre + (mid + post);
    if mid == [] {
      var all := pre + post;
      assert pre + mid + post == all + [];
      assert AllSpace(all) by {
        forall i | 0 <= i < |all| ensures IsSpace(all[i]) {
          if i >= |pre| {
            assert all[i] == post[i - |pre|];
          }
        }
      }
      TrimStartSkips(all, []);
    } else {
      assert (mid + post)[0] == mid[0];
      TrimStartSkips(pre, mid + post);
      TrimEndSkips(mid, post);
    }
  }

  lemma {:induction false} TrimStartSkips(pre: string, rest: string)
    requires AllSpace(pre)
    requires rest == [] || !IsSpace(rest[0])
    ensures TrimStart(pre + rest) == rest
    decreases |pre|
  {
    if pre == [] {
      assert pre + rest == rest;
    } else {
      assert (pre + rest)[0] == pre[0] && (pre + rest)[1..] == pre[1..] + rest;
      TrimStartSkips(pre[1..], rest);
    }
  }

  lemma {:induction false} TrimEndSkips(mid: string, post: string)
    requires AllSpace(post)
    requires mid == [] || !IsSpace(mid[|mid| - 1])
    ensures TrimEnd(mid + post) == mid
    decreases |post|
  {
    if post == [] {
      assert mid + post == mid;
    } else {
      var n := |mid + post|;
      assert (mid + post)[n - 1] == post[|post| - 1];
      assert (mid + post)[..n - 1] == mid + post[..|post| - 1];
      TrimEndSkips(mid, post[..|post| - 1]);
    }
  }

  /** A string without whitespace at either end is its own strip. */
  lemma StripFixed(s: string)
    requires Trimmed(s)
    ensures Strip(s) == s
  {
    StripCharacterised([], s, []);
    assert [] + s + [] == s;
  }

  predicate EndsWithPeriod(s: string) {
    s != [] && s[|s| - 1] == '.'
  }

  /**
   * The query text after cleaning (serveur.py:142-144): never empty, always
   * ending with '.', and the stripped input with one '.' added exactly when
   * the stripped input does not already end with one.
   */
  function Normalise(raw: string): (q: string)
    ensures EndsWithPeriod(q)
    ensures Strip(raw) <= q
    ensures |q| == |Strip(raw)| <==> EndsWithPeriod(Strip(raw))
    ensures |q| == |Strip(raw)| + 1 <==> !EndsWithPeriod(Strip(raw))
  {
    var t := Strip(raw);
    if EndsWithPeriod(t) then t else t + "."
  }

  /** A normalised query has no whitespace at either end. */
  lemma NormaliseTrimmed(raw: string)
    ensures Trimmed(Normalise(raw))
  {
    var t := Strip(raw);
    if !EndsWithPeriod(t) && t != [] {
      assert (t + ".")[0] == t[0];
    }
  }

  /** Cleaning an already cleaned query changes nothing. */
  lemma NormaliseIdempotent(raw: string)
    ensures Normalise(Normalise(raw)) == Normalise(raw)
  {
    NormaliseTrimmed(raw);
    StripFixed(Normalise(raw));
  }

  /** Whatever whitespace surrounds it, a query is cleaned to its text with one final '.'. */
  lemma NormaliseAround(pre: string, mid: string, post: string)
    requires AllSpace(pre) && AllSpace(post) && Trimmed(mid)
    ensures Normalise(pre + mid + post) == if EndsWithPeriod(mid) then mid else mid + "."
  {
    StripCharacterised(pre, mid, post);
  }

  /**
   * For a query text without whitespace at its ends and without a final '.',
   * typing the '.' or not, and any surrounding whitespace, give the same cleaned query.
   */
  lemma PeriodOptional(pre: string, text: string, post: string, typed: bool)
    requires AllSpace(pre) && AllSpace(post) && Trimmed(text) && text != [] && !EndsWithPeriod(text)
    ensures Normalise(pre + (if typed then text + "." else text) + post) == text + "."
  {
    var mid := if typed then text + "." else text;
    assert mid[0] == text[0];
    NormaliseAround(pre, mid, post);
  }

  /** A whitespace-only query passes the emptiness test and is sent as ".". */
  lemma BlankQueryIsPeriod(raw: string)
    requires AllSpace(raw)
    ensures Normalise(raw) == "."
  {
    StripCharacterised(raw, [], []);
    assert raw + [] + [] == raw;
  }

  /** One answer as pyswip returns it: a dictionary of bindings, or another value shown by its text. */
  datatype Row = Dict(bindings: map<string, string>) | Scalar(text: string)

  /** `isinstance(result, dict) and result`: a dictionary with at least one binding. */
  predicate HasBinding(r: Row) {
    r.Dict? && r.bindings != map[]
  }

  /** One element of `processed_results` (serveur.py:155-158). */
  function AsDict(r: Row): (d: map<string, string>)
    ensures r.Dict? ==> d == r.bindings
    ensures r.Scalar? ==> d == map["result" := r.text]
  {
    match r
    case Dict(b) => b
    case Scalar(t) => map["result" := t]
  }

  /** The processed list: every answer in order, dictionaries unchanged, nothing merged. */
  function Processed(rows: seq<Row>): (out: seq<map<string, string>>)
    ensures |out| == |rows|
    ensures forall i :: 0 <= i < |rows| ==> out[i] == AsDict(rows[i])
  {
    if rows == [] then [] else [AsDict(rows[0])] + Processed(rows[1..])
  }

  /** The loop of serveur.py:153-158, appending one processed answer per answer. */
  method BuildResults(rows: seq<Row>) returns (out: seq<map<string, string>>)
    ensures |out| == |rows|
    ensures forall i :: 0 <= i < |rows| ==> out[i] == AsDict(rows[i])
    ensures out == Processed(rows)
  {
    out := [];
    for k := 0 to |rows|
      invariant |out| == k
      invariant forall i :: 0 <= i < k ==> out[i] == AsDict(rows[i])
    {
      if rows[k].Dict? {
        out := out + [rows[k].bindings];
      } else {
        out := out + [map["result" := rows[k].text]];
      }
    }
  }

  /** `any(isinstance(result, dict) and result for result in results)`. */
  predicate AnyBinding(rows: seq<Row>) {
    exists i | 0 <= i < |rows| :: HasBinding(rows[i])
  }

  /** The three successful outcomes of a query (serveur.py:159-175). */
  datatype Verdict =
    | IsFalse
    | IsTrue
    | Bindings(results: seq<map<string, string>>, count: nat)

  /**
   * The classification of serveur.py:151-175: false for no answer, true
   * when answers exist but none binds a variable, and otherwise every answer
   * in order with their number.
   */
  function Classify(rows: seq<Row>): (v: Verdict)
    ensures v == IsFalse <==> rows == []
    ensures v == IsTrue <==> rows != [] && forall i :: 0 <= i < |rows| ==> !HasBinding(rows[i])
    ensures v.Bindings? ==> v.count == |rows| && v.results == Processed(rows)
  {
    if rows == [] then IsFalse
    else if AnyBinding(rows) then
      var out := Processed(rows);
      Bindings(out, |out|)
    else IsTrue
  }

  /** What the engine does with a query: raise an exception, or return its answers. */
  datatype EngineOutcome = Raised(details: string) | Rows(rows: seq<Row>)

  /** The endpoint's reply, leaving aside the HTTP status and the JSON encoding. */
  datatype Response =
    | MissingQuery
    | PrologError(details: string, query: string)
    | Answered(verdict: Verdict)

  /**
   * The query endpoint from the `query` field onwards (serveur.py:134-183):
   * an absent or empty field is refused before any cleaning; otherwise the
   * cleaned text goes to the engine, whose exception is reported with the
   * cleaned text and whose answers are classified.
   */
  function RunQuery(field: Option<string>, engine: string -> EngineOutcome): (resp: Response)
    ensures resp == MissingQuery <==> field == None || field == Some("")
    ensures resp.PrologError? ==>
      (field.Some? && resp.query == Normalise(field.value) && engine(resp.query) == Raised(resp.details))
    ensures resp.Answered? ==>
      (field.Some? && engine(Normalise(field.value)).Rows?
       && resp.verdict == Classify(engine(Normalise(field.value)).rows))
  {
    if field == None || field == Some("") then MissingQuery
    else
      var q := Normalise(field.value);
      match engine(q)
      case Raised(details) => PrologError(details, q)
      case Rows(rows) => Answered(Classify(rows))
  }

  /** Sending an already cleaned query gives the same reply. */
  lemma RunQueryNormalised(raw: string, engine: string -> EngineOutcome)
    requires raw != ""
    ensures RunQuery(Some(Normalise(raw)), engine) == RunQuery(Some(raw), engine)
  {
    NormaliseIdempotent(raw);
  }

  /** The Prolog status of the health endpoint (serveur.py:261-262). */
  function PrologStatus(answers: seq<map<string, string>>): (status: string)
    ensures status == "OK" <==> answers != []
    ensures status == "OK" || status == "WARNING"
  {
    if answers != [] then "OK" else "WARNING"
  }
}
