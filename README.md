# Crime-detective Prolog server, modelled in Dafny

`serveur.py` is a small Flask server in front of an embedded SWI-Prolog
engine. It keeps one global Prolog store. `load_prolog_knowledge` clears
nine predicates and then asserts a fixed crime scenario: 19 ground facts
(crime types, suspects, motives, presence at the scene, fingerprints, bank
transactions, fake identities, an eyewitness) and three `is_guilty` rules.
Each rule ends in an if-then-else `(C -> true ; E)`, the control construct of
section 7.8.8 of ISO/IEC 13211-1. The query endpoint strips the query text,
adds a final `.` if it is missing, runs the query, and classifies the answer
list as false, true, or a list of bindings with their count. The health
endpoint reports the Prolog status `OK` when `suspect(john)` has a solution.

The Dafny project has five modules:

- `PrologTerms` (`prolog_terms.dfy`) defines the clauses of this program.
  A fact is a predicate name with atom arguments. A rule is
  `is_guilty(Suspect, crime) :- body`, with a body built from `true`, calls,
  conjunctions and if-then-else.
- `KnowledgeBase` (`knowledge_base.dfy`) holds the seed data and the store.
  - The store is the class `PrologStore`, with a clause sequence.
  - `retractall` of an all-anonymous head filters out one predicate.
  - `assertz` appends a clause.
  - `LoadKnowledge` performs the nine retractall calls and then the 22
    assertz calls in source order.
  - The store it produces is `Reloaded`, and the lemmas here prove that
    result exact and idempotent.
- `Resolution` (`resolution.dfy`) gives what a query means against a store.
  - Answers are listed in Prolog's backtracking order and keep repetitions,
    which is the order pyswip returns them in.
  - The if-then-else commits to the first solution of its condition.
  - A ground reading `Holds` is shown to agree with resolution on stores
    without duplicate facts.
- `Guilt` (`guilt.dfy`) covers the three rule bodies.
  - Each body is read as a formula over the stored facts.
  - The verdicts are evaluated on the seed data.
  - Both are proved for any store a reload leaves behind: every ground
    verdict, and the culprit of each crime when the suspect is a variable.
- `QueryService` (`query_service.dfy`) covers the query endpoint's own
  logic and the health status.
  - It models Python's `strip` with its whitespace set.
  - It models normalisation, the processing loop, classification and the
    reply.
  - The Prolog engine is a function parameter. It maps the normalised text
    to an exception or to an answer list.
- `ServerProbes` (`probes.dfy`) joins the modules for the queries that the
  test and health endpoints run. It states what each classifies as after
  any reload.

The code has three points a reader can miss, and the model follows the code
on each:

- The emptiness check on the `query` field happens before stripping. A
  whitespace-only query is therefore sent to Prolog as `.` (see
  `BlankQueryIsPeriod`).
- bruno has a bank transaction and sophie has a fake identity, but neither
  has a motive. `has_motive` sits outside the conditional, so neither is
  guilty of escroquerie.
- john has both fingerprints and an eyewitness for vol. The conditional still
  gives one answer, not two.

## Model

| member | source | states |
|---|---|---|
| PrologTerms.Ground | serveur.py:75-94 | grounding a body call puts the suspect in every `Suspect` position and leaves the atoms |
| PrologTerms.Atoms | serveur.py:202 | a ground query's call pattern has one atom per argument |
| KnowledgeBase.CrimeTypes | serveur.py:39-41 | the three crime_type facts, in assertion order |
| KnowledgeBase.Suspects | serveur.py:44-48 | the five suspect facts, in assertion order |
| KnowledgeBase.Motives | serveur.py:51-53 | the three has_motive facts, in assertion order |
| KnowledgeBase.Presences | serveur.py:56-57 | the two was_near_crime_scene facts, in assertion order |
| KnowledgeBase.Fingerprints | serveur.py:60-61 | the two has_fingerprint_on_weapon facts, in assertion order |
| KnowledgeBase.Transactions | serveur.py:64-65 | the two has_bank_transaction facts, in assertion order |
| KnowledgeBase.FakeIdentities | serveur.py:68 | the owns_fake_identity fact |
| KnowledgeBase.Eyewitnesses | serveur.py:71 | the eyewitness_identification fact |
| KnowledgeBase.SeedFacts | serveur.py:39-71 | the 19 ground facts, group after group in assertion order |
| KnowledgeBase.WitnessedBody | serveur.py:75-87 | the vol and assassinat body: suspect, motive, presence, then `(fingerprint -> true ; eyewitness)` |
| KnowledgeBase.FraudBody | serveur.py:90-94 | the escroquerie body: suspect, motive, then `(bank transaction -> true ; fake identity)` |
| KnowledgeBase.GuiltRules | serveur.py:73-95 | the three is_guilty clauses for vol, assassinat and escroquerie, in assertion order |
| KnowledgeBase.SeedProgram | serveur.py:39-95 | the 19 facts followed by the 3 rules |
| KnowledgeBase.Without | serveur.py:25-34 | retractall of all-anonymous heads: the clauses of the other predicates, in order, never more than before |
| KnowledgeBase.Only | serveur.py:25-34 | the clauses whose name/arity is listed, in order, never more than before: the complement of `Without` |
| KnowledgeBase.Domain | serveur.py:26-34 | the clauses of the nine predicates that the reload clears and re-asserts |
| KnowledgeBase.Kept | serveur.py:25-34 | what the nine retractall calls leave: the clauses outside the nine predicates |
| KnowledgeBase.Reloaded | serveur.py:19-99 | the store after a reload: what clearing keeps, then the seed program |
| KnowledgeBase.WithoutNothing | serveur.py:25-34 | clearing the empty list of predicates changes nothing |
| KnowledgeBase.WithoutAppend | serveur.py:25-34 | clearing distributes over a split of the store |
| KnowledgeBase.OnlyAppend | serveur.py:25-34 | selecting predicates distributes over a split of the store |
| KnowledgeBase.WithoutMembers | serveur.py:25-34 | a clause survives clearing exactly when it was stored and its predicate is not cleared |
| KnowledgeBase.WithoutWithout | serveur.py:25-34 | two clearings in a row equal one clearing of both lists |
| KnowledgeBase.WithoutSameKeys | serveur.py:25-34 | clearing depends only on the set of cleared predicates, not their order or repetition |
| KnowledgeBase.AllListed | serveur.py:25-95 | a store made only of listed predicates is kept whole by selection and emptied by clearing |
| KnowledgeBase.OnlyWithout | serveur.py:25-34 | after clearing, no clause of a cleared predicate remains |
| KnowledgeBase.SeedIsDomain | serveur.py:26-95 | every asserted clause belongs to one of the nine cleared predicates |
| KnowledgeBase.SeedAllDomain | serveur.py:26-95 | the seed program is all domain clauses, so clearing empties it |
| KnowledgeBase.ReloadExact | serveur.py:24-95 | after a reload, the store's clauses of the nine predicates are exactly the 19 facts and then the 3 rules, in assertion order, whatever was stored before |
| KnowledgeBase.ReloadKeepsOthers | serveur.py:24-36 | a reload keeps every clause of other predicates, in order, and adds none |
| KnowledgeBase.KeptAppendDomain | serveur.py:24-95 | appending domain clauses to a cleared store does not change what a second clearing keeps |
| KnowledgeBase.NineClears | serveur.py:26-34 | nine successive retractall calls clear the nine predicates they name at once |
| KnowledgeBase.ReloadIdempotent | serveur.py:19-103 | reloading twice leaves the same store as reloading once |
| KnowledgeBase.PrologStore.constructor | serveur.py:17 | a new engine has an empty store |
| KnowledgeBase.PrologStore.RetractAll | serveur.py:26-34 | retractall of `name(_, …, _)` drops exactly the clauses of name/arity and never fails |
| KnowledgeBase.PrologStore.Assertz | serveur.py:39-95 | assertz appends the clause at the end |
| KnowledgeBase.PrologStore.ClearDomain | serveur.py:24-36 | the clearing phase leaves exactly the clauses outside the nine predicates |
| KnowledgeBase.PrologStore.AssertCrimeTypes | serveur.py:38-41 | appends the three crime types in order |
| KnowledgeBase.PrologStore.AssertSuspects | serveur.py:43-48 | appends the five suspects in order |
| KnowledgeBase.PrologStore.AssertMotives | serveur.py:50-53 | appends the three motives in order |
| KnowledgeBase.PrologStore.AssertPresences | serveur.py:55-57 | appends the two presences at the scene in order |
| KnowledgeBase.PrologStore.AssertFingerprints | serveur.py:59-61 | appends the two fingerprint facts in order |
| KnowledgeBase.PrologStore.AssertTransactions | serveur.py:63-65 | appends the two bank transactions in order |
| KnowledgeBase.PrologStore.AssertFakeIdentities | serveur.py:67-68 | appends the fake identity |
| KnowledgeBase.PrologStore.AssertEyewitnesses | serveur.py:70-71 | appends the eyewitness identification |
| KnowledgeBase.PrologStore.AssertGuiltRules | serveur.py:73-95 | appends the vol, assassinat and escroquerie rules in order |
| KnowledgeBase.PrologStore.LoadKnowledge | serveur.py:19-103 | reports success and leaves the store cleared and then reloaded with the seed program |
| KnowledgeBase.PrologStore.ReloadTwice | serveur.py:235-247 | two reload requests in a row leave the store as one does |
| Resolution.MatchBoundIff | serveur.py:75-94 | with `Suspect` bound, a call pattern matches a fact exactly when the fact is the pattern's ground instance, and the binding is unchanged |
| Resolution.MatchAtomsIff | serveur.py:202 | a ground call matches exactly the fact with its own arguments and binds nothing |
| Resolution.MatchArgs | serveur.py:148 | positional matching of a call against a fact: an atom must be equal, `Suspect` must equal its binding or becomes bound |
| Resolution.ClauseSolutions | serveur.py:148 | what one stored clause gives a body call: the match of a fact of the called predicate, nothing from any other clause or from a rule |
| Resolution.CallSolutions | serveur.py:148 | one solution per matching fact, in assertion order; rules are not consulted by a body call |
| Resolution.Solve | serveur.py:74-95 | the solutions of a body in backtracking order; `(C -> T ; E)` runs T from the first solution of C only, and E when C has none |
| Resolution.AndSolutions | serveur.py:76-79 | the `,` of the rule bodies: for each solution of the left conjunct in turn, every solution of the right one |
| Resolution.Stored | serveur.py:39-71 | a fact is one of the stored facts |
| Resolution.Holds | serveur.py:74-95 | the independent ground reading of a body: calls are stored facts, the conditional a boolean if-then-else |
| Resolution.CallSolutionsAppend | serveur.py:148 | a call's solutions over a split store are those of the first part, then those of the second |
| Resolution.GroundFactCall | serveur.py:148 | a ground call has a solution exactly when its fact is stored |
| Resolution.NoFactNoSolution | serveur.py:148 | a call whose only candidate fact for the bound value is not stored has no solution |
| Resolution.BoundAll | serveur.py:76 | one binding of `Suspect` per value, in order |
| Resolution.AndGround | serveur.py:76-79 | a conjunction after an enumeration gives each enumerated value that passes the rest once, in order, on a duplicate-free store |
| Resolution.DistinctJoin | serveur.py:39-71 | two duplicate-free stores with no fact in common join into a duplicate-free store |
| Resolution.GroundCall | serveur.py:76-78 | on a duplicate-free store a ground call succeeds once if its fact is stored and otherwise not at all |
| Resolution.GroundGoal | serveur.py:75-94 | with `Suspect` bound, a body has one solution when its ground reading holds and none otherwise; the if-then-else keeps the count at one |
| Resolution.SolveIgnoresOthers | serveur.py:75-94 | facts of predicates a goal never calls do not change its solutions |
| Resolution.AndIgnoresOthers | serveur.py:75-94 | the same for the right side of a conjunction |
| Resolution.NoCalledFacts | serveur.py:148 | a store part without facts of the called predicate gives the call no solution |
| Resolution.Start | serveur.py:148 | the query's first argument meets the head's `Suspect`: an atom binds it, a query variable leaves it unbound |
| Resolution.Answer | serveur.py:148 | the dictionary pyswip returns for one solution: empty for a ground query, the query variable's value otherwise |
| Resolution.Answers | serveur.py:148 | one answer dictionary per solution, in order |
| Resolution.RuleAnswers | serveur.py:148 | the answers of `is_guilty(who, crime)`: each stored rule for the crime in turn, each solution of its body as one dictionary |
| Resolution.GuiltQuery | serveur.py:148 | an `is_guilty` query asked of the whole store |
| Resolution.RuleAnswersAppend | serveur.py:74-95 | is_guilty answers over a split of the clause list are the first part's, then the second's |
| Resolution.NoRuleNoAnswer | serveur.py:74-95 | clauses that are not rules for the asked crime add no answer |
| Resolution.RuleAnswersIgnoreOthers | serveur.py:74-95 | facts of predicates no rule body calls do not change is_guilty's answers |
| Resolution.FactQuery | serveur.py:261 | a ground fact query has answers exactly when its fact is stored, and each answer is an empty dictionary |
| Guilt.WitnessedGuilt | serveur.py:75-87 | the vol/assassinat body read as a formula over stored facts |
| Guilt.FraudGuilt | serveur.py:90-94 | the escroquerie body read as a formula over stored facts |
| Guilt.Guilty | serveur.py:201-206 | the guilty pairs on the seed data: john/vol, mary/assassinat, alice/escroquerie, the three the test endpoint probes |
| Guilt.WitnessedBodyMeaning | serveur.py:74-88 | the vol/assassinat body holds exactly for a suspect with motive and presence, and then fingerprints, or failing those an eyewitness |
| Guilt.FraudBodyMeaning | serveur.py:91-94 | the escroquerie body holds exactly for a suspect with a motive, and then a bank transaction, or failing that a fake identity |
| Guilt.SeedGroups | serveur.py:38-95 | each group of asserted clauses belongs to a single predicate |
| Guilt.GroupsDistinct | serveur.py:38-71 | no group repeats a fact |
| Guilt.FirstGroupsDistinct | serveur.py:38-53 | the crime-type, suspect and motive groups do not repeat a fact |
| Guilt.PairGroupsDistinct | serveur.py:55-65 | the presence, fingerprint and transaction groups do not repeat a fact |
| Guilt.JoinByKey | serveur.py:38-71 | appending a group of a new predicate keeps the store duplicate-free |
| Guilt.SeedDistinct | serveur.py:38-95 | the seed program stores no fact twice |
| Guilt.SeedSuspect | serveur.py:44-48 | the suspects are exactly john, mary, alice, bruno and sophie |
| Guilt.SeedMotive | serveur.py:51-53 | the motives are exactly the guilty pairs |
| Guilt.SeedPresence | serveur.py:56-57 | presence near the scene is stored exactly for john/vol and mary/assassinat |
| Guilt.SeedFingerprint | serveur.py:60-61 | fingerprints on the weapon are stored exactly for john/vol and mary/assassinat |
| Guilt.SeedBankTransaction | serveur.py:64-65 | a bank transaction is stored exactly for alice and bruno, for escroquerie |
| Guilt.SeedFakeIdentity | serveur.py:68 | a fake identity is stored exactly for sophie, for escroquerie |
| Guilt.SeedEyewitness | serveur.py:71 | an eyewitness identification is stored exactly for john, for vol |
| Guilt.SeedWitnessed | serveur.py:44-88 | on the seed data the vol/assassinat reading holds exactly for the culprits of those crimes |
| Guilt.SeedFraud | serveur.py:44-95 | on the seed data the escroquerie reading holds for alice only, although bruno and sophie have other evidence |
| Guilt.BodiesCallDomain | serveur.py:26-95 | the rule bodies call only the nine cleared predicates |
| Guilt.RulesAnswer | serveur.py:24-95 | a store of other clauses, then facts, then rules answers is_guilty from its facts and rules alone |
| Guilt.ReloadedGuilt | serveur.py:24-95 | after any reload, is_guilty is answered by the seed program alone |
| Guilt.RulesByCrime | serveur.py:74-95 | the three rules answer by crime: the witnessed body for vol and assassinat, the fraud body for escroquerie, nothing for other atoms |
| Guilt.GuiltVerdict | serveur.py:73-95 | after any reload, `is_guilty(s, crime)` has one answer when s is guilty of crime and none otherwise, so at most one per suspect |
| Guilt.CallOneGroup | serveur.py:148 | a call on a store of groups sees only the group of its own predicate |
| Guilt.SuspectGroupUnbound | serveur.py:44-48 | `suspect(Suspect)` on the suspect group binds the five suspects in order |
| Guilt.SeedSuspectsUnbound | serveur.py:44-48 | `suspect(Suspect)` on the seed program binds the five suspects in assertion order |
| Guilt.SeedTail | serveur.py:77-94 | for a seed suspect, the body after `suspect(Suspect)` holds exactly when that suspect is guilty of the crime |
| Guilt.PassingFive | serveur.py:76-79 | filtering five values tests each in turn |
| Guilt.PassingSuspects | serveur.py:44-48 | filtering the suspects by guilt leaves the crime's culprits |
| Guilt.EnumerateThenTest | serveur.py:76-79 | a body that enumerates suspects and then tests each yields the passing suspects in order |
| Guilt.SeedBodySolutions | serveur.py:75-94 | from a free `Suspect`, each seed rule body yields exactly its crime's culprit |
| Guilt.GuiltCulprits | serveur.py:73-95 | after any reload, `is_guilty(X, crime)` has exactly one answer per culprit: X = john for vol, mary for assassinat, alice for escroquerie, none otherwise |
| Guilt.CommittedChoiceOnce | serveur.py:59-79 | john has both fingerprints and an eyewitness for vol, yet `is_guilty(john, vol)` has exactly one answer |
| Guilt.ReloadedFactQuery | serveur.py:24-71 | after any reload, a ground query of one of the eight fact predicates succeeds exactly when its fact is in the seed program (`is_guilty` is answered by its rules, `Guilt.GuiltVerdict`) |
| Guilt.SuspectJohnAfterReload | serveur.py:261 | after any reload `suspect(john)` has a solution |
| QueryService.IsSpace | serveur.py:142 | Python's `str.isspace` for one character, the Unicode whitespace set that `strip` removes |
| QueryService.TrimStart | serveur.py:142 | only leading whitespace is removed, and the result does not start with whitespace |
| QueryService.TrimEnd | serveur.py:142 | only trailing whitespace is removed, and the result does not end with whitespace |
| QueryService.Strip | serveur.py:142 | the result is no longer than the input and has no whitespace at either end |
| QueryService.StripSplits | serveur.py:142 | the input is whitespace, then its strip, then whitespace: only whitespace is cut, on either side |
| QueryService.StripCharacterised | serveur.py:142 | stripping `pre + mid + post`, where pre and post are whitespace and mid has no whitespace at its ends, gives mid |
| QueryService.TrimStartSkips | serveur.py:142 | leading whitespace before a non-whitespace character is removed exactly |
| QueryService.TrimEndSkips | serveur.py:142 | trailing whitespace after a non-whitespace character is removed exactly |
| QueryService.StripFixed | serveur.py:142 | a string with no whitespace at either end is its own strip |
| QueryService.EndsWithPeriod | serveur.py:143 | `endswith('.')`: the text is non-empty and its last character is '.' |
| QueryService.Normalise | serveur.py:142-144 | the cleaned query is non-empty and ends with '.'; it is the stripped input extended by exactly one '.' when that input lacks one, and by nothing otherwise |
| QueryService.NormaliseTrimmed | serveur.py:142-144 | a cleaned query has no whitespace at either end |
| QueryService.NormaliseIdempotent | serveur.py:142-144 | cleaning an already cleaned query changes nothing |
| QueryService.NormaliseAround | serveur.py:142-144 | a trimmed text with whitespace around it is cleaned to the text itself when it ends with '.', and to the text plus '.' otherwise |
| QueryService.PeriodOptional | serveur.py:142-144 | for a trimmed text without a final '.', typing the '.' or not and any surrounding whitespace give the same cleaned query, the text plus '.' |
| QueryService.BlankQueryIsPeriod | serveur.py:135-144 | a whitespace-only query becomes "." |
| QueryService.HasBinding | serveur.py:152 | an answer that is a dictionary with at least one binding, the test inside `any` |
| QueryService.AnyBinding | serveur.py:152 | the `any(...)` test: some answer is a dictionary with at least one binding |
| QueryService.AsDict | serveur.py:155-158 | a dictionary answer is passed through unchanged; any other answer becomes `{'result': text}` |
| QueryService.Processed | serveur.py:153-158 | one processed element per answer, in order, with nothing dropped or merged |
| QueryService.BuildResults | serveur.py:153-158 | the loop builds one element per answer, in order, each dictionary unchanged |
| QueryService.Classify | serveur.py:151-175 | false exactly for no answer; true exactly when there are answers but none is a non-empty dictionary; otherwise all processed answers in order, with count equal to the number of answers |
| QueryService.RunQuery | serveur.py:134-183 | a missing or empty field is refused; otherwise the cleaned text is sent, an engine exception is reported with the cleaned text, and answers are classified |
| QueryService.RunQueryNormalised | serveur.py:142-183 | sending an already cleaned query gives the same reply |
| QueryService.PrologStatus | serveur.py:262 | the status is "OK" exactly when there is an answer, and "WARNING" otherwise |
| ServerProbes.DictRows | serveur.py:148 | one dictionary row per answer, in order |
| ServerProbes.VerdictAfterReload | serveur.py:201-206 | after any reload a ground is_guilty query classifies as true when the suspect is guilty and as false otherwise |
| ServerProbes.TestProbesAfterReload | serveur.py:201-215 | after any reload the three guilt probes classify as true, and bruno and sophie for escroquerie as false |
| ServerProbes.CulpritQueryAfterReload | serveur.py:152-163 | after any reload `is_guilty(X, vol)` classifies as the single binding X = john with count 1 |
| ServerProbes.HealthAfterReload | serveur.py:261-262 | after any reload the health endpoint's Prolog status is "OK" |
| ServerProbes.CulpritThroughEndpoint | serveur.py:134-163 | the field `is_guilty(X, vol)`, with any whitespace around it and whether or not its final '.' is typed, reaches the engine as `is_guilty(X, vol).`; an engine answering that text from the reloaded store gives the reply with the one binding X = john and count 1 |

## Left out

- The HTTP layer is not modelled, because it is plumbing. This covers Flask routing, CORS, JSON and form decoding, `jsonify`, the templates, HTTP status codes and the 404/500 handlers.
- The SWI-Prolog engine is not modelled, because it is a foreign library. Query parsing and general unification are missing.
  - `RunQuery` takes the engine as a function from the query text to an exception or an answer list.
  - `Resolution` gives the meaning of this program's own clauses only. That means one rule variable, body calls answered from facts, and `is_guilty` asked with an atom or a variable for the suspect and an atom for the crime.
  - Only named query variables are represented. `Resolution.Answer` gives a query variable `x` the entry `x: value`; for the anonymous variable `_`, SWI-Prolog leaves it out of the variable names, so `is_guilty(_, vol)` would be answered with an empty dictionary (classified as true), while the model's `Answer(Unknown("_"), e)` has a `_` entry. `Guilt.GuiltCulprits` is therefore meant for a named variable such as `X`.
  - Queries with a variable crime, queries of the form `suspect(X)` sent by a user, and other arbitrary goals are not given a meaning.
- How pyswip renders a non-dictionary answer is not modelled. Such an answer enters the model as the text `str()` would give.
- `RunQuery` does not model a `query` field that is not a string. In the code, a truthy non-string (a number, a list, an object) raises an exception in `strip` and gets the 500 reply; a falsy one (`0`, `false`, `[]`, `{}`) fails the emptiness test of serveur.py:135 and is refused as missing before `strip` runs.
- Logging is left out, and so are the exception paths of `load_prolog_knowledge` and of the endpoints (serveur.py:100-103, 185-191, 228-233, 249-254, 270-276); the Prolog error reply of serveur.py:177-183 is modelled by `RunQuery`.
  - In the model retractall and assertz cannot fail, so the bare `except: pass` around clearing never fires.
  - As a result, `LoadKnowledge` always reports success.
- Only the all-anonymous head patterns that the code uses are modelled for `retractall`.
- The `/test` endpoint's loop and the dictionary it builds are not modelled. Only the outcomes of its four queries are stated, in `ServerProbes`.
- The `/reload` endpoint's messages, the `/` page, the startup printing and `app.run` are not modelled, because they are I/O.
- Locking and concurrency between a reload and queries are not modelled. The code has none.
- The fresh name pyswip would show for an unbound variable is written `"_"`. No rule body leaves `Suspect` unbound.
