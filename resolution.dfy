/**
 * What a query means against the store, for the goals this program
 * contains: calls to fact predicates, conjunction, and the committed-choice
 * conditional `(C -> T ; E)` of section 7.8.8 of ISO/IEC 13211-1.
 * Solutions are listed in the order Prolog's backtracking produces them,
 * with repetitions, because pyswip returns them that way (serveur.py:148).
 *
 * This is not a general resolver: only the one rule variable `Suspect`
 * exists, and a call inside a body is answered from facts only (no body of
 * the program calls `is_guilty`).
 */
module Resolution {
  import opened PrologTerms

  /** Positional matching of a call pattern against a fact's arguments. */
  function MatchArgs(pattern: seq<Arg>, vals: seq<string>, e: Env): Option<Env>
    decreases |pattern|
  {
    if |pattern| != |vals| then None
    else if pattern == [] then Some(e)
    else match pattern[0]
      case Atom(a) =>
        if a == vals[0] then MatchArgs(pattern[1..], vals[1..], e) else None
      case SuspectVar =>
        match e
        case Bound(v) =>
          if v == vals[0] then MatchArgs(pattern[1..], vals[1..], e) else None
        case Unbound => MatchArgs(pattern[1..], vals[1..], Bound(vals[0]))
  }

  /** With `Suspect` bound, a pattern matches exactly its own ground instance. */
  lemma {:induction false} MatchBoundIff(pattern: seq<Arg>, vals: seq<string>, v: string)
    ensures MatchArgs(pattern, vals, Bound(v)) == Some(Bound(v)) <==> Ground(pattern, v) == vals
    ensures MatchArgs(pattern, vals, Bound(v)).Some? ==> MatchArgs(pattern, vals, Bound(v)) == Some(Bound(v))
    decreases |pattern|
  {
    if |pattern| == |vals| && pattern != [] {
      MatchBoundIff(pattern[1..], vals[1..], v);
      assert Ground(pattern, v) == [Ground(pattern, v)[0]] + Ground(pattern[1..], v);
      assert vals == [vals[0]] + vals[1..];
    }
  }

  /** A ground pattern matches exactly its own atoms and leaves `Suspect` as it was. */
  lemma {:induction false} MatchAtomsIff(vals: seq<string>, w: seq<string>, e: Env)
    ensures MatchArgs(Atoms(vals), w, e) == if w == vals then Some(e) else None
    decreases |vals|
  {
    if |vals| == |w| && vals != [] {
      var pattern := Atoms(vals);
      assert pattern[0] == Atom(vals[0]);
      assert pattern[1..] == Atoms(vals[1..]);
      MatchAtomsIff(vals[1..], w[1..], e);
      assert MatchArgs(pattern, w, e) ==
        if vals[0] == w[0] then MatchArgs(Atoms(vals[1..]), w[1..], e) else None;
      assert w == vals <==> w[0] == vals[0] && w[1..] == vals[1..] by {
        if w[0] == vals[0] && w[1..] == vals[1..] {
          assert w == [w[0]] + w[1..] && vals == [vals[0]] + vals[1..];
        }
      }
    }
  }

  /** The solutions one clause gives to a call. Rules are never consulted. */
  function ClauseSolutions(c: Clause, p: string, args: seq<Arg>, e: Env): seq<Env> {
    match c
    case Fact(q, vals) =>
      if q == p then
        match MatchArgs(args, vals, e)
        case Some(e') => [e']
        case None => []
      else []
    case GuiltRule(_, _) => []
  }

  /** The solutions of a call: one per matching fact, in assertion order. */
  function CallSolutions(db: seq<Clause>, p: string, args: seq<Arg>, e: Env): seq<Env> {
    if db == [] then []
    else ClauseSolutions(db[0], p, args, e) + CallSolutions(db[1..], p, args, e)
  }

  /** Solving a call distributes over a split of the store. */
  lemma {:induction false} CallSolutionsAppend(a: seq<Clause>, b: seq<Clause>, p: string, args: seq<Arg>, e: Env)
    ensures CallSolutions(a + b, p, args, e) == CallSolutions(a, p, args, e) + CallSolutions(b, p, args, e)
  {
    if a == [] {
      assert a + b == b;
    } else {
      var ab := a + b;
      assert ab != [] && ab[0] == a[0];
      assert ab[1..] == a[1..] + b;
      var head, rest := ClauseSolutions(a[0], p, args, e), CallSolutions(a[1..], p, args, e);
      CallSolutionsAppend(a[1..], b, p, args, e);
      assert CallSolutions(ab, p, args, e) == head + (rest + CallSolutions(b, p, args, e));
      assert head + (rest + CallSolutions(b, p, args, e)) == (head + rest) + CallSolutions(b, p, args, e);
    }
  }

  /** The solutions of a goal from binding `e`, in Prolog's order. */
  function Solve(db: seq<Clause>, g: Goal, e: Env): seq<Env>
    decreases g, 0
  {
    match g
    case Succeed => [e]
    case Call(p, args) => CallSolutions(db, p, args, e)
    case And(l, r) => AndSolutions(db, Solve(db, l, e), r)
    case IfThenElse(c, t, o) =>
      var first := Solve(db, c, e);
      if first != [] then Solve(db, t, first[0]) else Solve(db, o, e)
  }

  /** For each solution of the left conjunct in turn, every solution of `r`. */
  function AndSolutions(db: seq<Clause>, lefts: seq<Env>, r: Goal): seq<Env>
    decreases r, 1, |lefts|
  {
    if lefts == [] then []
    else Solve(db, r, lefts[0]) + AndSolutions(db, lefts[1..], r)
  }

  /** `p(args)` is one of the stored facts. */
  predicate Stored(db: seq<Clause>, p: string, args: seq<string>) {
    Fact(p, args) in db
  }

  /** The ground reading of a goal, `Suspect` being `v`: its calls are facts of the store. */
  predicate Holds(db: seq<Clause>, g: Goal, v: string) {
    match g
    case Succeed => true
    case Call(p, args) => Stored(db, p, Ground(args, v))
    case And(l, r) => Holds(db, l, v) && Holds(db, r, v)
    case IfThenElse(c, t, o) => if Holds(db, c, v) then Holds(db, t, v) else Holds(db, o, v)
  }

  /** No fact is stored twice. */
  predicate DistinctFacts(db: seq<Clause>) {
    forall i, j :: 0 <= i < j < |db| && db[i].Fact? ==> db[i] != db[j]
  }

  /** A ground call with no matching fact has no solution. */
  lemma {:induction false} NoFactNoSolution(db: seq<Clause>, p: string, args: seq<Arg>, v: string)
    requires Fact(p, Ground(args, v)) !in db
    ensures CallSolutions(db, p, args, Bound(v)) == []
  {
    if db != [] {
      MatchBoundIff(args, if db[0].Fact? then db[0].args else [], v);
      NoFactNoSolution(db[1..], p, args, v);
    }
  }

  /**
   * On a store without duplicate facts a ground call succeeds at most once,
   * and exactly once when its fact is stored.
   */
  lemma {:induction false} GroundCall(db: seq<Clause>, p: string, args: seq<Arg>, v: string)
    requires DistinctFacts(db)
    ensures CallSolutions(db, p, args, Bound(v)) ==
      if Fact(p, Ground(args, v)) in db then [Bound(v)] else []
  {
    if db != [] {
      assert DistinctFacts(db[1..]) by {
        forall i, j | 0 <= i < j < |db[1..]| && db[1..][i].Fact?
          ensures db[1..][i] != db[1..][j]
        {
          assert db[1..][i] == db[i + 1] && db[1..][j] == db[j + 1];
        }
      }
      GroundCall(db[1..], p, args, v);
      var f := Fact(p, Ground(args, v));
      MatchBoundIff(args, if db[0].Fact? then db[0].args else [], v);
      if db[0] == f {
        assert f !in db[1..] by {
          forall j | 0 <= j < |db[1..]| ensures db[1..][j] != f {
            assert db[1..][j] == db[j + 1];
          }
        }
      } else {
        assert f in db <==> f in db[1..];
      }
    }
  }

  /**
   * The resolution of a body with `Suspect` already bound to `v` (a ground
   * test) on a duplicate-free store yields `v` once when the ground reading
   * holds and nothing otherwise; committed choice keeps the count at one.
   */
  lemma {:induction false} GroundGoal(db: seq<Clause>, g: Goal, v: string)
    requires DistinctFacts(db)
    ensures Solve(db, g, Bound(v)) == if Holds(db, g, v) then [Bound(v)] else []
    decreases g
  {
    match g
    case Succeed =>
    case Call(p, args) => GroundCall(db, p, args, v);
    case And(l, r) =>
      GroundGoal(db, l, v);
      if Holds(db, l, v) {
        GroundGoal(db, r, v);
        assert AndSolutions(db, [Bound(v)], r) == Solve(db, r, Bound(v)) + AndSolutions(db, [], r);
      }
    case IfThenElse(c, t, o) =>
      GroundGoal(db, c, v);
      GroundGoal(db, t, v);
      GroundGoal(db, o, v);
  }

  /** Facts of predicates a goal never calls do not change its solutions. */
  lemma {:induction false} SolveIgnoresOthers(pre: seq<Clause>, db: seq<Clause>, g: Goal, e: Env)
    requires forall c :: c in pre && c.Fact? ==> c.Key() !in Calls(g)
    ensures Solve(pre + db, g, e) == Solve(db, g, e)
    decreases g, 0
  {
    match g
    case Succeed =>
    case Call(p, args) =>
      CallSolutionsAppend(pre, db, p, args, e);
      NoCalledFacts(pre, p, args, e);
    case And(l, r) =>
      SolveIgnoresOthers(pre, db, l, e);
      AndIgnoresOthers(pre, db, Solve(db, l, e), r);
    case IfThenElse(c, t, o) =>
      SolveIgnoresOthers(pre, db, c, e);
      var first := Solve(db, c, e);
      if first != [] {
        SolveIgnoresOthers(pre, db, t, first[0]);
      } else {
        SolveIgnoresOthers(pre, db, o, e);
      }
  }

  lemma {:induction false} AndIgnoresOthers(pre: seq<Clause>, db: seq<Clause>, lefts: seq<Env>, r: Goal)
    requires forall c :: c in pre && c.Fact? ==> c.Key() !in Calls(r)
    ensures AndSolutions(pre + db, lefts, r) == AndSolutions(db, lefts, r)
    decreases r, 1, |lefts|
  {
    if lefts != [] {
      SolveIgnoresOthers(pre, db, r, lefts[0]);
      AndIgnoresOthers(pre, db, lefts[1..], r);
    }
  }

  /** A part of the store without facts of `p/|args|` gives a call no solution. */
  lemma {:induction false} NoCalledFacts(pre: seq<Clause>, p: string, args: seq<Arg>, e: Env)
    requires forall c :: c in pre && c.Fact? ==> c.Key() != Indicator(p, |args|)
    ensures CallSolutions(pre, p, args, e) == []
  {
    if pre != [] {
      assert pre[0] in pre;
      assert forall c :: c in pre[1..] ==> c in pre;
      NoCalledFacts(pre[1..], p, args, e);
    }
  }

  /** A ground call has a solution exactly when its fact is stored. */
  lemma {:induction false} GroundFactCall(db: seq<Clause>, p: string, vals: seq<string>)
    ensures CallSolutions(db, p, Atoms(vals), Unbound) != [] <==> Fact(p, vals) in db
  {
    if db != [] {
      GroundFactCall(db[1..], p, vals);
      if db[0].Fact? {
        MatchAtomsIff(vals, db[0].args, Unbound);
      }
      assert Fact(p, vals) in db <==> db[0] == Fact(p, vals) || Fact(p, vals) in db[1..] by {
        assert db == [db[0]] + db[1..];
      }
    }
  }

  /** `Suspect` bound to each of `vs` in turn. */
  function BoundAll(vs: seq<string>): (sols: seq<Env>)
    ensures |sols| == |vs|
    ensures forall i :: 0 <= i < |vs| ==> sols[i] == Bound(vs[i])
  {
    if vs == [] then [] else [Bound(vs[0])] + BoundAll(vs[1..])
  }

  /** The values among `vs`, in order, for which the ground reading of `g` holds. */
  function Passing(db: seq<Clause>, g: Goal, vs: seq<string>): seq<string> {
    if vs == [] then []
    else (if Holds(db, g, vs[0]) then [vs[0]] else []) + Passing(db, g, vs[1..])
  }

  /** Filtering tests the first value, then filters the rest. */
  lemma PassingCons(db: seq<Clause>, g: Goal, v: string, vs: seq<string>)
    ensures Passing(db, g, [v] + vs) == (if Holds(db, g, v) then [v] else []) + Passing(db, g, vs)
  {
    assert ([v] + vs)[1..] == vs;
  }

  /**
   * A conjunction whose left side binds `Suspect` to each of `vs` in turn:
   * on a duplicate-free store each value passes the right side at most once,
   * in the order of `vs`.
   */
  lemma {:induction false} AndGround(db: seq<Clause>, vs: seq<string>, r: Goal)
    requires DistinctFacts(db)
    ensures AndSolutions(db, BoundAll(vs), r) == BoundAll(Passing(db, r, vs))
  {
    if vs != [] {
      assert BoundAll(vs)[1..] == BoundAll(vs[1..]);
      GroundGoal(db, r, vs[0]);
      AndGround(db, vs[1..], r);
      var head := if Holds(db, r, vs[0]) then [vs[0]] else [];
      assert BoundAll(head + Passing(db, r, vs[1..])) == BoundAll(head) + BoundAll(Passing(db, r, vs[1..]));
    }
  }

  /** Two duplicate-free stores without a fact in common join into a duplicate-free store. */
  lemma DistinctJoin(a: seq<Clause>, b: seq<Clause>)
    requires DistinctFacts(a) && DistinctFacts(b)
    requires forall x, y :: x in a && y in b && x.Fact? ==> x != y
    ensures DistinctFacts(a + b)
  {
    forall i, j | 0 <= i < j < |a + b| && (a + b)[i].Fact?
      ensures (a + b)[i] != (a + b)[j]
    {
      if j < |a| {
        assert (a + b)[i] == a[i] && (a + b)[j] == a[j];
      } else if i < |a| {
        assert (a + b)[i] == a[i] && (a + b)[j] == b[j - |a|];
        assert a[i] in a && b[j - |a|] in b;
      } else {
        assert (a + b)[i] == b[i - |a|] && (a + b)[j] == b[j - |a|];
      }
    }
  }

  /** A query argument: an atom, or a query variable with its name. */
  datatype QueryArg = Given(atom: string) | Unknown(variable: string)

  /** The binding of `Suspect` a query argument starts the rule with. */
  function Start(who: QueryArg): Env {
    match who
    case Given(a) => Bound(a)
    case Unknown(_) => Unbound
  }

  /**
   * The dictionary pyswip returns for one solution: empty for a ground
   * query, the query variable's value otherwise (an unbound variable shows
   * as a fresh name, written "_" here; no body of the program leaves one).
   * The query variable is a named one: the anonymous `_` of a query is not
   * reported by the engine, and is not represented here.
   */
  function Answer(who: QueryArg, e: Env): map<string, string> {
    match who
    case Given(_) => map[]
    case Unknown(x) => map[x := if e.Bound? then e.value else "_"]
  }

  function Answers(who: QueryArg, sols: seq<Env>): (rows: seq<map<string, string>>)
    ensures |rows| == |sols|
    ensures forall i :: 0 <= i < |sols| ==> rows[i] == Answer(who, sols[i])
  {
    if sols == [] then [] else [Answer(who, sols[0])] + Answers(who, sols[1..])
  }

  /** The answers the rules in `rules` give to `is_guilty(who, crime)`, in clause order. */
  function RuleAnswers(db: seq<Clause>, rules: seq<Clause>, who: QueryArg, crime: string): seq<map<string, string>> {
    if rules == [] then []
    else
      (match rules[0]
       case GuiltRule(c, body) =>
         if c == crime then Answers(who, Solve(db, body, Start(who))) else []
       case Fact(_, _) => [])
      + RuleAnswers(db, rules[1..], who, crime)
  }

  /** The answers of the query `is_guilty(who, crime)` against the store. */
  function GuiltQuery(db: seq<Clause>, who: QueryArg, crime: string): seq<map<string, string>> {
    RuleAnswers(db, db, who, crime)
  }

  lemma {:induction false} RuleAnswersAppend(db: seq<Clause>, a: seq<Clause>, b: seq<Clause>, who: QueryArg, crime: string)
    ensures RuleAnswers(db, a + b, who, crime) == RuleAnswers(db, a, who, crime) + RuleAnswers(db, b, who, crime)
  {
    if a == [] {
      assert a + b == b;
    } else {
      assert (a + b)[0] == a[0] && (a + b)[1..] == a[1..] + b;
      RuleAnswersAppend(db, a[1..], b, who, crime);
    }
  }

  /** Clauses that are not rules for `crime` add no answer. */
  lemma {:induction false} NoRuleNoAnswer(db: seq<Clause>, rules: seq<Clause>, who: QueryArg, crime: string)
    requires forall c :: c in rules && c.GuiltRule? ==> c.crime != crime
    ensures RuleAnswers(db, rules, who, crime) == []
  {
    if rules != [] {
      assert rules[0] in rules;
      assert forall c :: c in rules[1..] ==> c in rules;
      NoRuleNoAnswer(db, rules[1..], who, crime);
    }
  }

  /** Facts outside the predicates the rules call do not change the rules' answers. */
  lemma {:induction false} RuleAnswersIgnoreOthers(pre: seq<Clause>, db: seq<Clause>, rules: seq<Clause>, who: QueryArg, crime: string)
    requires forall r, c :: r in rules && r.GuiltRule? && c in pre && c.Fact? ==> c.Key() !in Calls(r.body)
    ensures RuleAnswers(pre + db, rules, who, crime) == RuleAnswers(db, rules, who, crime)
  {
    if rules != [] {
      assert rules[0] in rules;
      if rules[0].GuiltRule? {
        SolveIgnoresOthers(pre, db, rules[0].body, Start(who));
      }
      assert forall r :: r in rules[1..] ==> r in rules;
      RuleAnswersIgnoreOthers(pre, db, rules[1..], who, crime);
    }
  }

  /**
   * The answers of a ground fact query such as `suspect(john)`: one empty
   * dictionary per solution, and at least one exactly when the fact is stored.
   * Only facts are consulted, so this is the meaning of a query of a fact
   * predicate; `is_guilty` queries are answered by GuiltQuery.
   */
  function FactQuery(db: seq<Clause>, p: string, vals: seq<string>): (rows: seq<map<string, string>>)
    ensures rows != [] <==> Stored(db, p, vals)
    ensures forall i :: 0 <= i < |rows| ==> rows[i] == map[]
  {
    GroundFactCall(db, p, vals);
    seq(|CallSolutions(db, p, Atoms(vals), Unbound)|, _ => map[])
  }
}
