/**
 * The Prolog store that serveur.py shares as the global `prolog`
 * (serveur.py:17) and that load_prolog_knowledge rebuilds
 * (serveur.py:19-103): a sequence of clauses, where `retractall` with an
 * all-anonymous head removes one predicate and `assertz` appends.
 */
module KnowledgeBase {
  import opened PrologTerms

  /** The nine domain predicates, as name/arity. */
  const SuspectKey := Indicator("suspect", 1)
  const CrimeTypeKey := Indicator("crime_type", 1)
  const MotiveKey := Indicator("has_motive", 2)
  const NearSceneKey := Indicator("was_near_crime_scene", 2)
  const FingerprintKey := Indicator("has_fingerprint_on_weapon", 2)
  const BankTransactionKey := Indicator("has_bank_transaction", 2)
  const FakeIdentityKey := Indicator("owns_fake_identity", 2)
  const EyewitnessKey := Indicator("eyewitness_identification", 2)
  const GuiltKey := Indicator("is_guilty", 2)

  /** The nine predicates cleared before reloading, in the order of serveur.py:26-34. */
  const DomainPredicates: seq<Indicator> := [
    SuspectKey,
    CrimeTypeKey,
    MotiveKey,
    NearSceneKey,
    FingerprintKey,
    BankTransactionKey,
    FakeIdentityKey,
    EyewitnessKey,
    GuiltKey
  ]

  /** Crime types (serveur.py:39-41). */
  function CrimeTypes(): seq<Clause> {
    [ Fact("crime_type", ["vol"]),
      Fact("crime_type", ["assassinat"]),
      Fact("crime_type", ["escroquerie"]) ]
  }

  /** Suspects (serveur.py:44-48). */
  function Suspects(): seq<Clause> {
    [ Fact("suspect", ["john"]),
      Fact("suspect", ["mary"]),
      Fact("suspect", ["alice"]),
      Fact("suspect", ["bruno"]),
      Fact("suspect", ["sophie"]) ]
  }

  /** Motives (serveur.py:51-53). */
  function Motives(): seq<Clause> {
    [ Fact("has_motive", ["john", "vol"]),
      Fact("has_motive", ["mary", "assassinat"]),
      Fact("has_motive", ["alice", "escroquerie"]) ]
  }

  /** Presence near the crime scene (serveur.py:56-57). */
  function Presences(): seq<Clause> {
    [ Fact("was_near_crime_scene", ["john", "vol"]),
      Fact("was_near_crime_scene", ["mary", "assassinat"]) ]
  }

  /** Fingerprints on the weapon (serveur.py:60-61). */
  function Fingerprints(): seq<Clause> {
    [ Fact("has_fingerprint_on_weapon", ["john", "vol"]),
      Fact("has_fingerprint_on_weapon", ["mary", "assassinat"]) ]
  }

  /** Bank transactions (serveur.py:64-65). */
  function Transactions(): seq<Clause> {
    [ Fact("has_bank_transaction", ["alice", "escroquerie"]),
      Fact("has_bank_transaction", ["bruno", "escroquerie"]) ]
  }

  /** Fake identities (serveur.py:68). */
  function FakeIdentities(): seq<Clause> {
    [ Fact("owns_fake_identity", ["sophie", "escroquerie"]) ]
  }

  /** Eyewitness identifications (serveur.py:71). */
  function Eyewitnesses(): seq<Clause> {
    [ Fact("eyewitness_identification", ["john", "vol"]) ]
  }

  /** The ground facts of serveur.py:39-71, in assertion order. */
  function SeedFacts(): seq<Clause> {
    CrimeTypes() + Suspects() + Motives() + Presences() + Fingerprints()
      + Transactions() + FakeIdentities() + Eyewitnesses()
  }

  /** `p(Suspect, crime)` as a call in a rule body. */
  function About(p: string, crime: string): Goal {
    Call(p, [SuspectVar, Atom(crime)])
  }

  /**
   * The body of the vol and assassinat rules (serveur.py:75-79, 83-87):
   * suspect, motive and presence, then fingerprint, or else an eyewitness.
   */
  function WitnessedBody(crime: string): Goal {
    And(Call("suspect", [SuspectVar]),
      And(About("has_motive", crime),
        And(About("was_near_crime_scene", crime),
          IfThenElse(About("has_fingerprint_on_weapon", crime), Succeed,
            About("eyewitness_identification", crime)))))
  }

  /**
   * The body of the escroquerie rule (serveur.py:91-94): suspect and motive,
   * then a bank transaction, or else a fake identity.
   */
  function FraudBody(): Goal {
    And(Call("suspect", [SuspectVar]),
      And(About("has_motive", "escroquerie"),
        IfThenElse(About("has_bank_transaction", "escroquerie"), Succeed,
          About("owns_fake_identity", "escroquerie"))))
  }

  /** The three is_guilty clauses of serveur.py:74-95, in assertion order. */
  function GuiltRules(): seq<Clause> {
    [ GuiltRule("vol", WitnessedBody("vol")),
      GuiltRule("assassinat", WitnessedBody("assassinat")),
      GuiltRule("escroquerie", FraudBody()) ]
  }

  /** Everything load_prolog_knowledge asserts, in order. */
  function SeedProgram(): seq<Clause> {
    SeedFacts() + GuiltRules()
  }

  /** The clauses whose predicate is not in `keys`, in their order. */
  function Without(db: seq<Clause>, keys: seq<Indicator>): (r: seq<Clause>)
    ensures |r| <= |db|
  {
    if db == [] then []
    else (if db[0].Key() in keys then [] else [db[0]]) + Without(db[1..], keys)
  }

  /** The clauses whose predicate is in `keys`, in their order. */
  function Only(db: seq<Clause>, keys: seq<Indicator>): (r: seq<Clause>)
    ensures |r| <= |db|
  {
    if db == [] then []
    else (if db[0].Key() in keys then [db[0]] else []) + Only(db[1..], keys)
  }

  /** The clauses of the nine domain predicates. */
  function Domain(db: seq<Clause>): seq<Clause> {
    Only(db, DomainPredicates)
  }

  /** The clauses a reload keeps: those of predicates outside the nine. */
  function Kept(db: seq<Clause>): seq<Clause> {
    Without(db, DomainPredicates)
  }

  /** The store after load_prolog_knowledge, from the store `db` before it. */
  function Reloaded(db: seq<Clause>): seq<Clause> {
    Kept(db) + SeedProgram()
  }

  lemma {:induction false} WithoutNothing(db: seq<Clause>)
    ensures Without(db, []) == db
  {
    if db != [] {
      WithoutNothing(db[1..]);
      assert db == [db[0]] + db[1..];
    }
  }

  lemma {:induction false} WithoutAppend(x: seq<Clause>, y: seq<Clause>, keys: seq<Indicator>)
    ensures Without(x + y, keys) == Without(x, keys) + Without(y, keys)
  {
    if x == [] {
      assert x + y == y;
    } else {
      assert (x + y)[0] == x[0] && (x + y)[1..] == x[1..] + y;
      WithoutAppend(x[1..], y, keys);
      var head := if x[0].Key() in keys then [] else [x[0]];
      assert Without(x + y, keys) == head + Without(x[1..] + y, keys);
      assert Without(x, keys) == head + Without(x[1..], keys);
    }
  }

  lemma {:induction false} OnlyAppend(x: seq<Clause>, y: seq<Clause>, keys: seq<Indicator>)
    ensures Only(x + y, keys) == Only(x, keys) + Only(y, keys)
  {
    if x == [] {
      assert x + y == y;
    } else {
      assert (x + y)[0] == x[0] && (x + y)[1..] == x[1..] + y;
      OnlyAppend(x[1..], y, keys);
      var head := if x[0].Key() in keys then [x[0]] else [];
      assert Only(x + y, keys) == head + Only(x[1..] + y, keys);
      assert Only(x, keys) == head + Only(x[1..], keys);
    }
  }

  /** Clearing some predicates after others clears them all at once. */
  lemma {:induction false} WithoutWithout(db: seq<Clause>, a: seq<Indicator>, b: seq<Indicator>)
    ensures Without(Without(db, a), b) == Without(db, a + b)
  {
    if db != [] {
      WithoutWithout(db[1..], a, b);
      var head := if db[0].Key() in a then [] else [db[0]];
      assert Without(db, a) == head + Without(db[1..], a);
      WithoutAppend(head, Without(db[1..], a), b);
      if head != [] {
        assert head[1..] == [];
      }
    }
  }

  /** Filtering depends only on which keys are listed. */
  lemma {:induction false} WithoutSameKeys(db: seq<Clause>, a: seq<Indicator>, b: seq<Indicator>)
    requires forall k :: k in a <==> k in b
    ensures Without(db, a) == Without(db, b)
  {
    if db != [] {
      WithoutSameKeys(db[1..], a, b);
    }
  }

  /** A clause survives clearing `keys` exactly when it was there and is of another predicate. */
  lemma {:induction false} WithoutMembers(db: seq<Clause>, keys: seq<Indicator>)
    ensures forall c :: c in Without(db, keys) <==> c in db && c.Key() !in keys
  {
    if db != [] {
      WithoutMembers(db[1..], keys);
      assert db == [db[0]] + db[1..];
    }
  }

  /** Clauses all of listed predicates are all selected and none survives clearing. */
  lemma {:induction false} AllListed(db: seq<Clause>, keys: seq<Indicator>)
    requires forall c :: c in db ==> c.Key() in keys
    ensures Only(db, keys) == db
    ensures Without(db, keys) == []
  {
    if db != [] {
      assert db[0] in db;
      assert forall c :: c in db[1..] ==> c in db;
      AllListed(db[1..], keys);
      assert db == [db[0]] + db[1..];
    }
  }

  /** What clearing `keys` leaves has no clause of `keys`. */
  lemma {:induction false} OnlyWithout(db: seq<Clause>, keys: seq<Indicator>)
    ensures Only(Without(db, keys), keys) == []
  {
    if db != [] {
      OnlyWithout(db[1..], keys);
      var head := if db[0].Key() in keys then [] else [db[0]];
      OnlyAppend(head, Without(db[1..], keys), keys);
      if head != [] {
        assert head[1..] == [];
      }
    }
  }

  /** Every clause of the seed program belongs to one of the nine predicates. */
  lemma SeedIsDomain()
    ensures forall c :: c in SeedProgram() ==> c.Key() in DomainPredicates
  {
  }

  lemma SeedAllDomain()
    ensures Domain(SeedProgram()) == SeedProgram()
    ensures Kept(SeedProgram()) == []
  {
    SeedIsDomain();
    AllListed(SeedProgram(), DomainPredicates);
  }

  /**
   * Whatever the store held before, the reloaded store's clauses for the
   * nine predicates are exactly the seed program in assertion order: the
   * 19 facts, then the three rules.
   */
  lemma ReloadExact(db: seq<Clause>)
    ensures Domain(Reloaded(db)) == SeedProgram()
    ensures |SeedFacts()| == 19 && |GuiltRules()| == 3
  {
    SeedAllDomain();
    OnlyAppend(Kept(db), SeedProgram(), DomainPredicates);
    OnlyWithout(db, DomainPredicates);
  }

  /** A reload keeps every clause of other predicates, in order, and nothing else. */
  lemma ReloadKeepsOthers(db: seq<Clause>)
    ensures Kept(Reloaded(db)) == Kept(db)
  {
    SeedAllDomain();
    KeptAppendDomain(db, SeedProgram());
  }

  lemma KeptAppendDomain(db: seq<Clause>, extra: seq<Clause>)
    requires Kept(extra) == []
    ensures Kept(Kept(db) + extra) == Kept(db)
  {
    WithoutAppend(Kept(db), extra, DomainPredicates);
    WithoutWithout(db, DomainPredicates, DomainPredicates);
    WithoutSameKeys(db, DomainPredicates + DomainPredicates, DomainPredicates);
  }

  /**
   * Nine retractall calls in a row clear the nine predicates they name.
   * The nine parameters mirror the nine calls of serveur.py:26-34; a fold of
   * WithoutWithout over a key list would state the same for any number of
   * calls, but makes the solver unfold the list at every use.
   */
  lemma NineClears(db: seq<Clause>, k1: Indicator, k2: Indicator, k3: Indicator,
                   k4: Indicator, k5: Indicator, k6: Indicator, k7: Indicator,
                   k8: Indicator, k9: Indicator)
    ensures Without(Without(Without(Without(Without(Without(Without(Without(Without(db,
      [k1]), [k2]), [k3]), [k4]), [k5]), [k6]), [k7]), [k8]), [k9])
      == Without(db, [k1, k2, k3, k4, k5, k6, k7, k8, k9])
  {
    assert Without(Without(db, [k1]), [k2]) == Without(db, [k1, k2]) by {
      WithoutWithout(db, [k1], [k2]);
      assert [k1] + [k2] == [k1, k2];
    }
    assert Without(Without(db, [k1, k2]), [k3]) == Without(db, [k1, k2, k3]) by {
      WithoutWithout(db, [k1, k2], [k3]);
      assert [k1, k2] + [k3] == [k1, k2, k3];
    }
    assert Without(Without(db, [k1, k2, k3]), [k4]) == Without(db, [k1, k2, k3, k4]) by {
      WithoutWithout(db, [k1, k2, k3], [k4]);
      assert [k1, k2, k3] + [k4] == [k1, k2, k3, k4];
    }
    assert Without(Without(db, [k1, k2, k3, k4]), [k5]) == Without(db, [k1, k2, k3, k4, k5]) by {
      WithoutWithout(db, [k1, k2, k3, k4], [k5]);
      assert [k1, k2, k3, k4] + [k5] == [k1, k2, k3, k4, k5];
    }
    assert Without(Without(db, [k1, k2, k3, k4, k5]), [k6]) == Without(db, [k1, k2, k3, k4, k5, k6]) by {
      WithoutWithout(db, [k1, k2, k3, k4, k5], [k6]);
      assert [k1, k2, k3, k4, k5] + [k6] == [k1, k2, k3, k4, k5, k6];
    }
    assert Without(Without(db, [k1, k2, k3, k4, k5, k6]), [k7]) == Without(db, [k1, k2, k3, k4, k5, k6, k7]) by {
      WithoutWithout(db, [k1, k2, k3, k4, k5, k6], [k7]);
      assert [k1, k2, k3, k4, k5, k6] + [k7] == [k1, k2, k3, k4, k5, k6, k7];
    }
    assert Without(Without(db, [k1, k2, k3, k4, k5, k6, k7]), [k8]) == Without(db, [k1, k2, k3, k4, k5, k6, k7, k8]) by {
      WithoutWithout(db, [k1, k2, k3, k4, k5, k6, k7], [k8]);
      assert [k1, k2, k3, k4, k5, k6, k7] + [k8] == [k1, k2, k3, k4, k5, k6, k7, k8];
    }
    assert Without(Without(db, [k1, k2, k3, k4, k5, k6, k7, k8]), [k9]) == Without(db, [k1, k2, k3, k4, k5, k6, k7, k8, k9]) by {
      WithoutWithout(db, [k1, k2, k3, k4, k5, k6, k7, k8], [k9]);
      assert [k1, k2, k3, k4, k5, k6, k7, k8] + [k9] == [k1, k2, k3, k4, k5, k6, k7, k8, k9];
    }
  }

  /** Reloading twice leaves the store as reloading once does. */
  lemma ReloadIdempotent(db: seq<Clause>)
    ensures Reloaded(Reloaded(db)) == Reloaded(db)
  {
    ReloadKeepsOthers(db);
  }

  /**
   * Appending nine groups one by one appends their concatenation. The arity
   * is that of the nine groups load_prolog_knowledge asserts; stated over
   * symbolic groups, it keeps the solver from unfolding the seed literals.
   */
  lemma AppendNine(k: seq<Clause>, g0: seq<Clause>, g1: seq<Clause>, g2: seq<Clause>, g3: seq<Clause>,
                   g4: seq<Clause>, g5: seq<Clause>, g6: seq<Clause>, g7: seq<Clause>, g8: seq<Clause>)
    ensures k + g0 + g1 + g2 + g3 + g4 + g5 + g6 + g7 + g8
      == k + (g0 + g1 + g2 + g3 + g4 + g5 + g6 + g7 + g8)
  {
  }

  /** The Prolog engine's clause store, as serveur.py's global `prolog` uses it. */
  class PrologStore {
    var clauses: seq<Clause>

    /** `Prolog()` (serveur.py:17): a store without clauses. */
    constructor ()
      ensures clauses == []
    {
      clauses := [];
    }

    /** `retractall(name(_, ..., _))`: drop every clause of name/arity; never fails. */
    method RetractAll(key: Indicator)
      modifies this
      ensures clauses == Without(old(clauses), [key])
    {
      clauses := Without(clauses, [key]);
    }

    /** `assertz(c)`: add `c` as the last clause. */
    method Assertz(c: Clause)
      modifies this
      ensures clauses == old(clauses) + [c]
    {
      clauses := clauses + [c];
    }

    /** The clearing phase (serveur.py:25-36): nine retractall calls. */
    method ClearDomain()
      modifies this
      ensures clauses == Kept(old(clauses))
    {
      ghost var before := clauses;
      RetractAll(SuspectKey);
      RetractAll(CrimeTypeKey);
      RetractAll(MotiveKey);
      RetractAll(NearSceneKey);
      RetractAll(FingerprintKey);
      RetractAll(BankTransactionKey);
      RetractAll(FakeIdentityKey);
      RetractAll(EyewitnessKey);
      RetractAll(GuiltKey);
      NineClears(before, SuspectKey, CrimeTypeKey, MotiveKey, NearSceneKey, FingerprintKey,
        BankTransactionKey, FakeIdentityKey, EyewitnessKey, GuiltKey);
    }

    /** Crime types (serveur.py:39-41), asserted one by one. */
    method AssertCrimeTypes()
      modifies this
      ensures clauses == old(clauses) + CrimeTypes()
    {
      Assertz(Fact("crime_type", ["vol"]));
      Assertz(Fact("crime_type", ["assassinat"]));
      Assertz(Fact("crime_type", ["escroquerie"]));
    }

    /** Suspects (serveur.py:44-48), asserted one by one. */
    method AssertSuspects()
      modifies this
      ensures clauses == old(clauses) + Suspects()
    {
      Assertz(Fact("suspect", ["john"]));
      Assertz(Fact("suspect", ["mary"]));
      Assertz(Fact("suspect", ["alice"]));
      Assertz(Fact("suspect", ["bruno"]));
      Assertz(Fact("suspect", ["sophie"]));
    }

    /** Motives (serveur.py:51-53), asserted one by one. */
    method AssertMotives()
      modifies this
      ensures clauses == old(clauses) + Motives()
    {
      Assertz(Fact("has_motive", ["john", "vol"]));
      Assertz(Fact("has_motive", ["mary", "assassinat"]));
      Assertz(Fact("has_motive", ["alice", "escroquerie"]));
    }

    /** Presence near the crime scene (serveur.py:56-57), asserted one by one. */
    method AssertPresences()
      modifies this
      ensures clauses == old(clauses) + Presences()
    {
      Assertz(Fact("was_near_crime_scene", ["john", "vol"]));
      Assertz(Fact("was_near_crime_scene", ["mary", "assassinat"]));
    }

    /** Fingerprints on the weapon (serveur.py:60-61), asserted one by one. */
    method AssertFingerprints()
      modifies this
      ensures clauses == old(clauses) + Fingerprints()
    {
      Assertz(Fact("has_fingerprint_on_weapon", ["john", "vol"]));
      Assertz(Fact("has_fingerprint_on_weapon", ["mary", "assassinat"]));
    }

    /** Bank transactions (serveur.py:64-65), asserted one by one. */
    method AssertTransactions()
      modifies this
      ensures clauses == old(clauses) + Transactions()
    {
      Assertz(Fact("has_bank_transaction", ["alice", "escroquerie"]));
      Assertz(Fact("has_bank_transaction", ["bruno", "escroquerie"]));
    }

    /** Fake identities (serveur.py:68), asserted one by one. */
    method AssertFakeIdentities()
      modifies this
      ensures clauses == old(clauses) + FakeIdentities()
    {
      Assertz(Fact("owns_fake_identity", ["sophie", "escroquerie"]));
    }

    /** Eyewitness identifications (serveur.py:71), asserted one by one. */
    method AssertEyewitnesses()
      modifies this
      ensures clauses == old(clauses) + Eyewitnesses()
    {
      Assertz(Fact("eyewitness_identification", ["john", "vol"]));
    }

    /** The three is_guilty rules (serveur.py:74-95), asserted one by one. */
    method AssertGuiltRules()
      modifies this
      ensures clauses == old(clauses) + GuiltRules()
    {
      Assertz(GuiltRule("vol", WitnessedBody("vol")));
      Assertz(GuiltRule("assassinat", WitnessedBody("assassinat")));
      Assertz(GuiltRule("escroquerie", FraudBody()));
    }

    /**
     * load_prolog_knowledge (serveur.py:19-103): clear the nine predicates,
     * then assert the seed facts and the three rules. Reports success.
     */
    method LoadKnowledge() returns (ok: bool)
      modifies this
      ensures ok
      ensures clauses == Reloaded(old(clauses))
    {
      ClearDomain();
      ghost var cleared := clauses;
      AssertCrimeTypes();
      AssertSuspects();
      AssertMotives();
      AssertPresences();
      AssertFingerprints();
      AssertTransactions();
      AssertFakeIdentities();
      AssertEyewitnesses();
      AssertGuiltRules();
      AppendNine(cleared, CrimeTypes(), Suspects(), Motives(), Presences(), Fingerprints(),
        Transactions(), FakeIdentities(), Eyewitnesses(), GuiltRules());
      ok := true;
    }

    /** The reload endpoint called twice in a row (serveur.py:235-254). */
    method ReloadTwice()
      modifies this
      ensures clauses == Reloaded(old(clauses))
    {
      var first := LoadKnowledge();
      var second := LoadKnowledge();
      ReloadIdempotent(old(clauses));
    }
  }
}
