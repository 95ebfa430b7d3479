/**
 * The meaning of the three is_guilty clauses of serveur.py:74-95 over the
 * seed facts of serveur.py:39-71, and the outcomes of the queries the test
 * endpoint probes (serveur.py:201-206).
 */
module Guilt {
  import opened PrologTerms
  import opened KnowledgeBase
  import opened Resolution

  /**
   * The vol and assassinat rule bodies (serveur.py:75-79, 83-87) read
   * directly as a formula: a suspect with a motive who was near the scene,
   * and then fingerprints, or failing those an eyewitness.
   */
  predicate WitnessedGuilt(db: seq<Clause>, s: string, crime: string) {
    && Stored(db, "suspect", [s])
    && Stored(db, "has_motive", [s, crime])
    && Stored(db, "was_near_crime_scene", [s, crime])
    && (if Stored(db, "has_fingerprint_on_weapon", [s, crime]) then true
        else Stored(db, "eyewitness_identification", [s, crime]))
  }

  /**
   * The escroquerie rule body (serveur.py:91-94) read directly: a suspect
   * with a motive, and then a bank transaction, or failing that a fake identity.
   */
  predicate FraudGuilt(db: seq<Clause>, s: string) {
    && Stored(db, "suspect", [s])
    && Stored(db, "has_motive", [s, "escroquerie"])
    && (if Stored(db, "has_bank_transaction", [s, "escroquerie"]) then true
        else Stored(db, "owns_fake_identity", [s, "escroquerie"]))
  }

  /** Who is guilty of what under the seed data. */
  predicate Guilty(s: string, crime: string) {
    || (s == "john" && crime == "vol")
    || (s == "mary" && crime == "assassinat")
    || (s == "alice" && crime == "escroquerie")
  }

  lemma GroundAbout(s: string, crime: string)
    ensures Ground([SuspectVar, Atom(crime)], s) == [s, crime]
    ensures Ground([SuspectVar], s) == [s]
  {
  }

  /** The stored vol/assassinat body means WitnessedGuilt. */
  lemma {:induction false} WitnessedBodyMeaning(db: seq<Clause>, s: string, crime: string)
    ensures Holds(db, WitnessedBody(crime), s) <==> WitnessedGuilt(db, s, crime)
  {
    GroundAbout(s, crime);
    var cond := IfThenElse(About("has_fingerprint_on_weapon", crime), Succeed,
      About("eyewitness_identification", crime));
    assert Holds(db, cond, s) <==>
      if Stored(db, "has_fingerprint_on_weapon", [s, crime]) then true
      else Stored(db, "eyewitness_identification", [s, crime]);
    var near := And(About("was_near_crime_scene", crime), cond);
    assert Holds(db, near, s) <==> Stored(db, "was_near_crime_scene", [s, crime]) && Holds(db, cond, s);
    var motive := And(About("has_motive", crime), near);
    assert Holds(db, motive, s) <==> Stored(db, "has_motive", [s, crime]) && Holds(db, near, s);
  }

  /** The stored escroquerie body means FraudGuilt. */
  lemma {:induction false} FraudBodyMeaning(db: seq<Clause>, s: string)
    ensures Holds(db, FraudBody(), s) <==> FraudGuilt(db, s)
  {
    GroundAbout(s, "escroquerie");
    var cond := IfThenElse(About("has_bank_transaction", "escroquerie"), Succeed,
      About("owns_fake_identity", "escroquerie"));
    assert Holds(db, cond, s) <==>
      if Stored(db, "has_bank_transaction", [s, "escroquerie"]) then true
      else Stored(db, "owns_fake_identity", [s, "escroquerie"]);
    var motive := And(About("has_motive", "escroquerie"), cond);
    assert Holds(db, motive, s) <==> Stored(db, "has_motive", [s, "escroquerie"]) && Holds(db, cond, s);
  }

  /** Each group of seed facts holds facts of one predicate only. */
  lemma SeedGroups()
    ensures forall c :: c in CrimeTypes() ==> c.Fact? && c.Key() == CrimeTypeKey
    ensures forall c :: c in Suspects() ==> c.Fact? && c.Key() == SuspectKey
    ensures forall c :: c in Motives() ==> c.Fact? && c.Key() == MotiveKey
    ensures forall c :: c in Presences() ==> c.Fact? && c.Key() == NearSceneKey
    ensures forall c :: c in Fingerprints() ==> c.Fact? && c.Key() == FingerprintKey
    ensures forall c :: c in Transactions() ==> c.Fact? && c.Key() == BankTransactionKey
    ensures forall c :: c in FakeIdentities() ==> c.Fact? && c.Key() == FakeIdentityKey
    ensures forall c :: c in Eyewitnesses() ==> c.Fact? && c.Key() == EyewitnessKey
    ensures forall c :: c in GuiltRules() ==> c.GuiltRule? && c.Key() == GuiltKey
  {
  }

  /** No group of seed facts repeats a fact. */
  lemma GroupsDistinct()
    ensures DistinctFacts(CrimeTypes()) && DistinctFacts(Suspects()) && DistinctFacts(Motives())
    ensures DistinctFacts(Presences()) && DistinctFacts(Fingerprints()) && DistinctFacts(Transactions())
    ensures DistinctFacts(FakeIdentities()) && DistinctFacts(Eyewitnesses()) && DistinctFacts(GuiltRules())
  {
    FirstGroupsDistinct();
    PairGroupsDistinct();
  }

  // The groups are checked three at a time: all nine at once costs the solver
  // more than the groups' small sizes suggest.

  lemma FirstGroupsDistinct()
    ensures DistinctFacts(CrimeTypes()) && DistinctFacts(Suspects()) && DistinctFacts(Motives())
  {
  }

  lemma PairGroupsDistinct()
    ensures DistinctFacts(Presences()) && DistinctFacts(Fingerprints()) && DistinctFacts(Transactions())
  {
  }

  /** Appending a duplicate-free group of a new predicate keeps a store duplicate-free. */
  lemma JoinByKey(a: seq<Clause>, b: seq<Clause>, ka: set<Indicator>, k: Indicator)
    requires DistinctFacts(a) && DistinctFacts(b)
    requires forall x :: x in a ==> x.Key() in ka
    requires forall x :: x in b ==> x.Key() == k
    requires k !in ka
    ensures DistinctFacts(a + b)
    ensures forall x :: x in a + b ==> x.Key() in ka + {k}
  {
    DistinctJoin(a, b);
  }

  /** The seed program stores no fact twice. */
  lemma SeedDistinct()
    ensures DistinctFacts(SeedProgram())
  {
    SeedGroups();
    GroupsDistinct();
    var a := CrimeTypes();
    var ka := {CrimeTypeKey};
    JoinByKey(a, Suspects(), ka, SuspectKey);
    a, ka := a + Suspects(), ka + {SuspectKey};
    JoinByKey(a, Motives(), ka, MotiveKey);
    a, ka := a + Motives(), ka + {MotiveKey};
    JoinByKey(a, Presences(), ka, NearSceneKey);
    a, ka := a + Presences(), ka + {NearSceneKey};
    JoinByKey(a, Fingerprints(), ka, FingerprintKey);
    a, ka := a + Fingerprints(), ka + {FingerprintKey};
    JoinByKey(a, Transactions(), ka, BankTransactionKey);
    a, ka := a + Transactions(), ka + {BankTransactionKey};
    JoinByKey(a, FakeIdentities(), ka, FakeIdentityKey);
    a, ka := a + FakeIdentities(), ka + {FakeIdentityKey};
    JoinByKey(a, Eyewitnesses(), ka, EyewitnessKey);
    a, ka := a + Eyewitnesses(), ka + {EyewitnessKey};
    JoinByKey(a, GuiltRules(), ka, GuiltKey);
  }

  /** The seed `suspect` facts, one per line of serveur.py:44-48. */
  lemma SeedSuspect(s: string)
    ensures Stored(SeedProgram(), "suspect", [s]) <==>
      s == "john" || s == "mary" || s == "alice" || s == "bruno" || s == "sophie"
  {
    SeedGroups();
    assert Stored(SeedProgram(), "suspect", [s]) <==> Fact("suspect", [s]) in Suspects();
  }

  /** The seed motives (serveur.py:51-53) are exactly the guilty pairs. */
  lemma SeedMotive(s: string, crime: string)
    ensures Stored(SeedProgram(), "has_motive", [s, crime]) <==> Guilty(s, crime)
  {
    SeedGroups();
    assert Stored(SeedProgram(), "has_motive", [s, crime]) <==> Fact("has_motive", [s, crime]) in Motives();
  }

  /** Presence near the scene (serveur.py:56-57): john for vol, mary for assassinat. */
  lemma SeedPresence(s: string, crime: string)
    ensures Stored(SeedProgram(), "was_near_crime_scene", [s, crime]) <==>
      Guilty(s, crime) && crime != "escroquerie"
  {
    SeedGroups();
    assert Stored(SeedProgram(), "was_near_crime_scene", [s, crime]) <==>
      Fact("was_near_crime_scene", [s, crime]) in Presences();
  }

  /** Fingerprints on the weapon (serveur.py:60-61): john for vol, mary for assassinat. */
  lemma SeedFingerprint(s: string, crime: string)
    ensures Stored(SeedProgram(), "has_fingerprint_on_weapon", [s, crime]) <==>
      Guilty(s, crime) && crime != "escroquerie"
  {
    SeedGroups();
    assert Stored(SeedProgram(), "has_fingerprint_on_weapon", [s, crime]) <==>
      Fact("has_fingerprint_on_weapon", [s, crime]) in Fingerprints();
  }

  /** Bank transactions (serveur.py:64-65): alice and bruno, for escroquerie. */
  lemma SeedBankTransaction(s: string, crime: string)
    ensures Stored(SeedProgram(), "has_bank_transaction", [s, crime]) <==>
      (s == "alice" || s == "bruno") && crime == "escroquerie"
  {
    SeedGroups();
    assert Stored(SeedProgram(), "has_bank_transaction", [s, crime]) <==>
      Fact("has_bank_transaction", [s, crime]) in Transactions();
  }

  /** The fake identity (serveur.py:68): sophie's, for escroquerie. */
  lemma SeedFakeIdentity(s: string, crime: string)
    ensures Stored(SeedProgram(), "owns_fake_identity", [s, crime]) <==>
      s == "sophie" && crime == "escroquerie"
  {
    SeedGroups();
    assert Stored(SeedProgram(), "owns_fake_identity", [s, crime]) <==>
      Fact("owns_fake_identity", [s, crime]) in FakeIdentities();
  }

  /** The eyewitness identification (serveur.py:71): john, for vol. */
  lemma SeedEyewitness(s: string, crime: string)
    ensures Stored(SeedProgram(), "eyewitness_identification", [s, crime]) <==>
      s == "john" && crime == "vol"
  {
    SeedGroups();
    assert Stored(SeedProgram(), "eyewitness_identification", [s, crime]) <==>
      Fact("eyewitness_identification", [s, crime]) in Eyewitnesses();
  }

  /** On the seed data the vol and assassinat bodies hold exactly for the culprits of those crimes. */
  lemma SeedWitnessed(s: string, crime: string)
    ensures WitnessedGuilt(SeedProgram(), s, crime) <==> Guilty(s, crime) && crime != "escroquerie"
  {
    SeedSuspect(s);
    SeedMotive(s, crime);
    SeedPresence(s, crime);
    SeedFingerprint(s, crime);
  }

  /**
   * On the seed data the escroquerie body holds for alice only: bruno's bank
   * transaction and sophie's fake identity do not count without a motive.
   */
  lemma SeedFraud(s: string)
    ensures FraudGuilt(SeedProgram(), s) <==> Guilty(s, "escroquerie")
    ensures Stored(SeedProgram(), "has_bank_transaction", ["bruno", "escroquerie"])
    ensures Stored(SeedProgram(), "owns_fake_identity", ["sophie", "escroquerie"])
  {
    SeedSuspect(s);
    SeedMotive(s, "escroquerie");
    SeedBankTransaction(s, "escroquerie");
    SeedFakeIdentity(s, "escroquerie");
    SeedBankTransaction("bruno", "escroquerie");
    SeedFakeIdentity("sophie", "escroquerie");
  }

  /** The rule bodies call only the nine cleared predicates. */
  lemma BodiesCallDomain()
    ensures forall r, k :: r in GuiltRules() && r.GuiltRule? && k in Calls(r.body) ==> k in DomainPredicates
  {
  }

  /**
   * A store made of clauses of other predicates, then facts, then rules
   * calling only the nine predicates, answers is_guilty from its own rules
   * over its facts and rules alone.
   */
  lemma RulesAnswer(kept: seq<Clause>, facts: seq<Clause>, rules: seq<Clause>, who: QueryArg, crime: string)
    requires forall x :: x in kept ==> x.Key() !in DomainPredicates
    requires forall x :: x in facts ==> x.Fact?
    requires forall r, k :: r in rules && r.GuiltRule? && k in Calls(r.body) ==> k in DomainPredicates
    ensures GuiltQuery(kept + (facts + rules), who, crime) == RuleAnswers(facts + rules, rules, who, crime)
  {
    var db := kept + (facts + rules);
    RuleAnswersAppend(db, kept, facts + rules, who, crime);
    RuleAnswersAppend(db, facts, rules, who, crime);
    assert forall x :: x in kept ==> x.Fact?;
    NoRuleNoAnswer(db, kept, who, crime);
    NoRuleNoAnswer(db, facts, who, crime);
    RuleAnswersIgnoreOthers(kept, facts + rules, rules, who, crime);
  }

  /** The three crimes the rules and the crime_type facts name (serveur.py:39-41). */
  predicate IsCrime(crime: string) {
    crime == "vol" || crime == "assassinat" || crime == "escroquerie"
  }

  /** The body of the one rule for `crime`. */
  function RuleBody(crime: string): Goal {
    if crime == "escroquerie" then FraudBody() else WitnessedBody(crime)
  }

  /** After any reload, is_guilty is answered by the three seed rules over the seed facts alone. */
  lemma ReloadedGuilt(c: seq<Clause>, who: QueryArg, crime: string)
    ensures GuiltQuery(Reloaded(c), who, crime) == RuleAnswers(SeedProgram(), GuiltRules(), who, crime)
  {
    WithoutMembers(c, DomainPredicates);
    SeedGroups();
    BodiesCallDomain();
    RulesAnswer(Kept(c), SeedFacts(), GuiltRules(), who, crime);
  }

  /** The three rules, tried in order, answer `is_guilty(who, crime)` by crime. */
  lemma RulesByCrime(db: seq<Clause>, who: QueryArg, crime: string)
    ensures RuleAnswers(db, GuiltRules(), who, crime) ==
      if IsCrime(crime) then Answers(who, Solve(db, RuleBody(crime), Start(who))) else []
  {
    var rules := GuiltRules();
    var r1, r2, r3 := rules[1..], rules[2..], rules[3..];
    assert rules[0] == GuiltRule("vol", WitnessedBody("vol")) && r1[1..] == r2 && r2[1..] == r3;
    assert r1[0] == GuiltRule("assassinat", WitnessedBody("assassinat"));
    assert r2[0] == GuiltRule("escroquerie", FraudBody()) && r3 == [];
    var vol := if crime == "vol" then Answers(who, Solve(db, WitnessedBody("vol"), Start(who))) else [];
    var ass := if crime == "assassinat" then Answers(who, Solve(db, WitnessedBody("assassinat"), Start(who))) else [];
    var esc := if crime == "escroquerie" then Answers(who, Solve(db, FraudBody(), Start(who))) else [];
    assert RuleAnswers(db, r2, who, crime) == esc + [];
    assert RuleAnswers(db, r1, who, crime) == ass + esc;
    assert RuleAnswers(db, rules, who, crime) == vol + (ass + esc);
  }

  /**
   * `is_guilty(s, crime)` with `s` an atom, after any reload: one empty
   * answer when s is guilty of crime, none otherwise. The conditional keeps
   * it to one answer even when both of its branches have evidence.
   */
  lemma GuiltVerdict(c: seq<Clause>, s: string, crime: string)
    ensures GuiltQuery(Reloaded(c), Given(s), crime) == if Guilty(s, crime) then [map[]] else []
  {
    ReloadedGuilt(c, Given(s), crime);
    RulesByCrime(SeedProgram(), Given(s), crime);
    SeedDistinct();
    if crime == "vol" || crime == "assassinat" {
      GroundGoal(SeedProgram(), WitnessedBody(crime), s);
      WitnessedBodyMeaning(SeedProgram(), s, crime);
      SeedWitnessed(s, crime);
    } else if crime == "escroquerie" {
      GroundGoal(SeedProgram(), FraudBody(), s);
      FraudBodyMeaning(SeedProgram(), s);
      SeedFraud(s);
    }
  }

  /** The seed suspects in assertion order (serveur.py:44-48). */
  const SuspectNames: seq<string> := ["john", "mary", "alice", "bruno", "sophie"]

  /** No fact of `g` belongs to predicate `k`. */
  predicate Lacks(g: seq<Clause>, k: Indicator) {
    forall c :: c in g && c.Fact? ==> c.Key() != k
  }

  /**
   * A call on a store of nine groups sees only the one group that may hold
   * its predicate. The nine groups are those of the seed program; stating
   * this over symbolic groups, rather than over a list of groups, keeps the
   * seed literals folded.
   */
  lemma CallOneGroup(g0: seq<Clause>, g1: seq<Clause>, g2: seq<Clause>, g3: seq<Clause>, g4: seq<Clause>,
                     g5: seq<Clause>, g6: seq<Clause>, g7: seq<Clause>, g8: seq<Clause>,
                     p: string, args: seq<Arg>, e: Env)
    requires Lacks(g0, Indicator(p, |args|)) && Lacks(g2, Indicator(p, |args|)) && Lacks(g3, Indicator(p, |args|))
    requires Lacks(g4, Indicator(p, |args|)) && Lacks(g5, Indicator(p, |args|)) && Lacks(g6, Indicator(p, |args|))
    requires Lacks(g7, Indicator(p, |args|)) && Lacks(g8, Indicator(p, |args|))
    ensures CallSolutions(g0 + g1 + g2 + g3 + g4 + g5 + g6 + g7 + g8, p, args, e) == CallSolutions(g1, p, args, e)
  {
    var a := g0 + g1;
    CallSolutionsAppend(g0, g1, p, args, e);
    NoCalledFacts(g0, p, args, e);
    CallSolutionsAppend(a, g2, p, args, e);
    NoCalledFacts(g2, p, args, e);
    a := a + g2;
    CallSolutionsAppend(a, g3, p, args, e);
    NoCalledFacts(g3, p, args, e);
    a := a + g3;
    CallSolutionsAppend(a, g4, p, args, e);
    NoCalledFacts(g4, p, args, e);
    a := a + g4;
    CallSolutionsAppend(a, g5, p, args, e);
    NoCalledFacts(g5, p, args, e);
    a := a + g5;
    CallSolutionsAppend(a, g6, p, args, e);
    NoCalledFacts(g6, p, args, e);
    a := a + g6;
    CallSolutionsAppend(a, g7, p, args, e);
    NoCalledFacts(g7, p, args, e);
    a := a + g7;
    CallSolutionsAppend(a, g8, p, args, e);
    NoCalledFacts(g8, p, args, e);
  }

  /** The suspect group answers `suspect(Suspect)` with each suspect in turn. */
  lemma SuspectGroupUnbound()
    ensures CallSolutions(Suspects(), "suspect", [SuspectVar], Unbound) == BoundAll(SuspectNames)
  {
  }

  /** `suspect(Suspect)` with `Suspect` free enumerates the suspects in assertion order. */
  lemma SeedSuspectsUnbound()
    ensures CallSolutions(SeedProgram(), "suspect", [SuspectVar], Unbound) == BoundAll(SuspectNames)
  {
    SeedGroups();
    var k := SuspectKey;
    assert Lacks(CrimeTypes(), k) && Lacks(Motives(), k) && Lacks(Presences(), k) && Lacks(Fingerprints(), k);
    assert Lacks(Transactions(), k) && Lacks(FakeIdentities(), k) && Lacks(Eyewitnesses(), k) && Lacks(GuiltRules(), k);
    CallOneGroup(CrimeTypes(), Suspects(), Motives(), Presences(), Fingerprints(), Transactions(),
      FakeIdentities(), Eyewitnesses(), GuiltRules(), "suspect", [SuspectVar], Unbound);
    SuspectGroupUnbound();
  }

  /** For a seed suspect, the part of each body after `suspect(Suspect)` decides guilt. */
  lemma SeedTail(n: string, crime: string)
    requires n in SuspectNames
    ensures Holds(SeedProgram(), WitnessedBody(crime).right, n) <==> Guilty(n, crime) && crime != "escroquerie"
    ensures Holds(SeedProgram(), FraudBody().right, n) <==> Guilty(n, "escroquerie")
  {
    SeedSuspect(n);
    GroundAbout(n, crime);
    WitnessedBodyMeaning(SeedProgram(), n, crime);
    SeedWitnessed(n, crime);
    FraudBodyMeaning(SeedProgram(), n);
    SeedFraud(n);
  }

  /** The culprit of each crime under the seed data, if any. */
  function Culprits(crime: string): seq<string> {
    if crime == "vol" then ["john"]
    else if crime == "assassinat" then ["mary"]
    else if crime == "escroquerie" then ["alice"]
    else []
  }

  /** Filtering five values, the five suspects of serveur.py:44-48, tests each in turn. */
  lemma PassingFive(db: seq<Clause>, g: Goal, v1: string, v2: string, v3: string, v4: string, v5: string)
    ensures Passing(db, g, [v1, v2, v3, v4, v5]) ==
      (if Holds(db, g, v1) then [v1] else []) + ((if Holds(db, g, v2) then [v2] else [])
      + ((if Holds(db, g, v3) then [v3] else []) + ((if Holds(db, g, v4) then [v4] else [])
      + (if Holds(db, g, v5) then [v5] else []))))
  {
    var h5 := if Holds(db, g, v5) then [v5] else [];
    PassingCons(db, g, v5, []);
    assert [v5] + [] == [v5] && h5 + [] == h5;
    PassingCons(db, g, v4, [v5]);
    assert [v4] + [v5] == [v4, v5];
    PassingCons(db, g, v3, [v4, v5]);
    assert [v3] + [v4, v5] == [v3, v4, v5];
    PassingCons(db, g, v2, [v3, v4, v5]);
    assert [v2] + [v3, v4, v5] == [v2, v3, v4, v5];
    PassingCons(db, g, v1, [v2, v3, v4, v5]);
    assert [v1] + [v2, v3, v4, v5] == [v1, v2, v3, v4, v5];
  }

  /** Filtering the suspects by a test that holds exactly for the guilty ones leaves the culprits. */
  lemma PassingSuspects(db: seq<Clause>, g: Goal, crime: string)
    requires forall v :: v in SuspectNames ==> (Holds(db, g, v) <==> Guilty(v, crime))
    ensures Passing(db, g, SuspectNames) == Culprits(crime)
  {
    PassingFive(db, g, "john", "mary", "alice", "bruno", "sophie");
    assert Holds(db, g, "john") <==> Guilty("john", crime);
    assert Holds(db, g, "mary") <==> Guilty("mary", crime);
    assert Holds(db, g, "alice") <==> Guilty("alice", crime);
    assert Holds(db, g, "bruno") <==> Guilty("bruno", crime);
    assert Holds(db, g, "sophie") <==> Guilty("sophie", crime);
  }

  /**
   * A body that enumerates `Suspect` over `names` and then tests each:
   * its solutions from an unbound `Suspect` are the names that pass, in order.
   */
  lemma EnumerateThenTest(db: seq<Clause>, body: Goal, crime: string)
    requires DistinctFacts(db)
    requires body.And? && body.left == Call("suspect", [SuspectVar])
    requires CallSolutions(db, "suspect", [SuspectVar], Unbound) == BoundAll(SuspectNames)
    requires forall v :: v in SuspectNames ==> (Holds(db, body.right, v) <==> Guilty(v, crime))
    ensures Solve(db, body, Unbound) == BoundAll(Culprits(crime))
  {
    AndGround(db, SuspectNames, body.right);
    PassingSuspects(db, body.right, crime);
  }

  /** From an unbound `Suspect`, each rule body of the seed yields its crime's culprits. */
  lemma SeedBodySolutions(crime: string)
    requires IsCrime(crime)
    ensures Solve(SeedProgram(), RuleBody(crime), Unbound) == BoundAll(Culprits(crime))
  {
    SeedDistinct();
    SeedSuspectsUnbound();
    forall v | v in SuspectNames
      ensures Holds(SeedProgram(), RuleBody(crime).right, v) <==> Guilty(v, crime)
    {
      SeedTail(v, crime);
    }
    EnumerateThenTest(SeedProgram(), RuleBody(crime), crime);
  }

  /**
   * `is_guilty(X, crime)` with `X` a query variable, after any reload: one
   * answer per culprit, binding X to that culprit, so `is_guilty(X, vol)`
   * has the single solution X = john.
   */
  lemma GuiltCulprits(c: seq<Clause>, x: string, crime: string)
    ensures GuiltQuery(Reloaded(c), Unknown(x), crime) ==
      if crime == "vol" then [map[x := "john"]]
      else if crime == "assassinat" then [map[x := "mary"]]
      else if crime == "escroquerie" then [map[x := "alice"]]
      else []
  {
    ReloadedGuilt(c, Unknown(x), crime);
    RulesByCrime(SeedProgram(), Unknown(x), crime);
    if IsCrime(crime) {
      SeedBodySolutions(crime);
    }
  }

  /**
   * john has both fingerprints on the weapon and an eyewitness for vol, yet
   * `is_guilty(john, vol)` succeeds once: the conditional commits to its
   * first branch (serveur.py:73, 79).
   */
  lemma CommittedChoiceOnce(c: seq<Clause>)
    ensures Stored(SeedProgram(), "has_fingerprint_on_weapon", ["john", "vol"])
    ensures Stored(SeedProgram(), "eyewitness_identification", ["john", "vol"])
    ensures |GuiltQuery(Reloaded(c), Given("john"), "vol")| == 1
  {
    SeedFingerprint("john", "vol");
    SeedEyewitness("john", "vol");
    GuiltVerdict(c, "john", "vol");
  }

  /**
   * After any reload, a ground query of one of the eight fact predicates
   * succeeds exactly when its fact is one of the seed facts. (A ground
   * `is_guilty` query is answered by the rules instead: see GuiltVerdict.)
   */
  lemma ReloadedFactQuery(c: seq<Clause>, p: string, vals: seq<string>)
    requires Indicator(p, |vals|) in DomainPredicates && Indicator(p, |vals|) != GuiltKey
    ensures FactQuery(Reloaded(c), p, vals) != [] <==> Stored(SeedProgram(), p, vals)
  {
    WithoutMembers(c, DomainPredicates);
    assert Fact(p, vals).Key() == Indicator(p, |vals|);
    assert Fact(p, vals) in Reloaded(c) <==> Fact(p, vals) in Kept(c) || Fact(p, vals) in SeedProgram();
  }

  /** After any reload `suspect(john)` has a solution (serveur.py:44, 261). */
  lemma SuspectJohnAfterReload(c: seq<Clause>)
    ensures FactQuery(Reloaded(c), "suspect", ["john"]) != []
  {
    SeedSuspect("john");
    ReloadedFactQuery(c, "suspect", ["john"]);
  }
}
