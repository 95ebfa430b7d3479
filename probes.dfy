/**
 * The outcomes that the test endpoint (serveur.py:201-215) and the health
 * endpoint (serveur.py:261-262) look for, stated over the store as any
 * reload leaves it and read through the query endpoint's classification.
 */
module ServerProbes {
  import opened PrologTerms
  import opened KnowledgeBase
  import opened Resolution
  import opened Guilt
  import opened QueryService

  /** pyswip hands every answer back as a dictionary. */
  function DictRows(answers: seq<map<string, string>>): (rows: seq<Row>)
    ensures |rows| == |answers|
    ensures forall i :: 0 <= i < |answers| ==> rows[i] == Dict(answers[i])
  {
    if answers == [] then [] else [Dict(answers[0])] + DictRows(answers[1..])
  }

  /** The classification of a ground `is_guilty` query after any reload. */
  lemma VerdictAfterReload(c: seq<Clause>, s: string, crime: string)
    ensures Classify(DictRows(GuiltQuery(Reloaded(c), Given(s), crime))) ==
      if Guilty(s, crime) then IsTrue else IsFalse
  {
    GuiltVerdict(c, s, crime);
  }

  /**
   * The three guilt probes of the test endpoint classify as true, and the
   * two suspects with evidence but no motive for escroquerie as false.
   */
  lemma TestProbesAfterReload(c: seq<Clause>)
    ensures Classify(DictRows(GuiltQuery(Reloaded(c), Given("john"), "vol"))) == IsTrue
    ensures Classify(DictRows(GuiltQuery(Reloaded(c), Given("mary"), "assassinat"))) == IsTrue
    ensures Classify(DictRows(GuiltQuery(Reloaded(c), Given("alice"), "escroquerie"))) == IsTrue
    ensures Classify(DictRows(GuiltQuery(Reloaded(c), Given("bruno"), "escroquerie"))) == IsFalse
    ensures Classify(DictRows(GuiltQuery(Reloaded(c), Given("sophie"), "escroquerie"))) == IsFalse
  {
    VerdictAfterReload(c, "john", "vol");
    VerdictAfterReload(c, "mary", "assassinat");
    VerdictAfterReload(c, "alice", "escroquerie");
    VerdictAfterReload(c, "bruno", "escroquerie");
    VerdictAfterReload(c, "sophie", "escroquerie");
  }

  /** `is_guilty(X, vol)` is answered with the one binding X = john, counted once. */
  lemma CulpritQueryAfterReload(c: seq<Clause>)
    ensures Classify(DictRows(GuiltQuery(Reloaded(c), Unknown("X"), "vol"))) ==
      Bindings([map["X" := "john"]], 1)
  {
    GuiltCulprits(c, "X", "vol");
    var rows := DictRows([map["X" := "john"]]);
    assert HasBinding(rows[0]) by {
      assert "X" in rows[0].bindings;
    }
  }

  /** The health endpoint reports the Prolog status OK after any reload. */
  lemma HealthAfterReload(c: seq<Clause>)
    ensures PrologStatus(FactQuery(Reloaded(c), "suspect", ["john"])) == "OK"
  {
    SuspectJohnAfterReload(c);
  }

  /** The text of the culprit query, as typed without its final '.'. */
  const CulpritText: string := "is_guilty(X, vol)"

  /**
   * Sent through the query endpoint as `is_guilty(X, vol)`, with any
   * whitespace around it and whether or not the final '.' is typed, the query
   * reaches the engine as `is_guilty(X, vol).`; an engine answering that
   * text from the reloaded store yields the one binding X = john.
   */
  lemma CulpritThroughEndpoint(c: seq<Clause>, pre: string, post: string, typed: bool,
                               engine: string -> EngineOutcome)
    requires AllSpace(pre) && AllSpace(post)
    requires engine(CulpritText + ".") == Rows(DictRows(GuiltQuery(Reloaded(c), Unknown("X"), "vol")))
    ensures RunQuery(Some(pre + (if typed then CulpritText + "." else CulpritText) + post), engine)
      == Answered(Bindings([map["X" := "john"]], 1))
  {
    var mid := if typed then CulpritText + "." else CulpritText;
    assert |pre + mid + post| >= |mid| > 0;
    assert Trimmed(CulpritText) && !EndsWithPeriod(CulpritText) by {
      assert CulpritText[0] == 'i' && CulpritText[|CulpritText| - 1] == ')';
    }
    PeriodOptional(pre, CulpritText, post, typed);
    CulpritQueryAfterReload(c);
  }
}
