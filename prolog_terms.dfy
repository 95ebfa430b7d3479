/**
 * The shape of the clauses that load_prolog_knowledge hands to the Prolog
 * store (serveur.py:39-95).
 *
 * Every clause of this program mentions at most one variable, the rule
 * variable `Suspect`, so an argument is either an atom or that variable.
 * A rule is always `is_guilty(Suspect, Crime) :- Body` with an atom for
 * Crime, so a rule clause records only the crime atom and the body.
 */
module PrologTerms {

  datatype Option<T> = None | Some(value: T)

  /** An argument position of a call in a rule body. */
  datatype Arg = Atom(name: string) | SuspectVar

  /** A rule body: `true`, a call, a conjunction `(A, B)`, or `(C -> T ; E)`. */
  datatype Goal =
    | Succeed
    | Call(pred: string, args: seq<Arg>)
    | And(left: Goal, right: Goal)
    | IfThenElse(cond: Goal, onTrue: Goal, onFalse: Goal)

  /** A predicate indicator `name/arity`, the unit retractall clears here. */
  datatype Indicator = Indicator(name: string, arity: nat)

  /** A clause of the store: a ground fact or a guilt rule. */
  datatype Clause =
    | Fact(pred: string, args: seq<string>)
    | GuiltRule(crime: string, body: Goal)
  {
    /** The predicate the clause belongs to; a guilt rule is `is_guilty/2`. */
    function Key(): Indicator {
      match this
      case Fact(p, args) => Indicator(p, |args|)
      case GuiltRule(_, _) => Indicator("is_guilty", 2)
    }
  }

  /** The binding of `Suspect` during the resolution of one rule body. */
  datatype Env = Unbound | Bound(value: string)

  /** The argument list with `Suspect` replaced by `v`. */
  function Ground(args: seq<Arg>, v: string): (vals: seq<string>)
    ensures |vals| == |args|
    ensures forall i :: 0 <= i < |args| ==>
      vals[i] == (if args[i].Atom? then args[i].name else v)
  {
    if args == [] then [] else
      [if args[0].Atom? then args[0].name else v] + Ground(args[1..], v)
  }

  /** The call pattern that asks for exactly the ground `vals`. */
  function Atoms(vals: seq<string>): (args: seq<Arg>)
    ensures |args| == |vals|
    ensures forall i :: 0 <= i < |vals| ==> args[i] == Atom(vals[i])
  {
    if vals == [] then [] else [Atom(vals[0])] + Atoms(vals[1..])
  }

  /** The predicates a goal calls, as name/arity. */
  function Calls(g: Goal): set<Indicator> {
    match g
    case Succeed => {}
    case Call(p, args) => {Indicator(p, |args|)}
    case And(l, r) => Calls(l) + Calls(r)
    case IfThenElse(c, t, e) => Calls(c) + Calls(t) + Calls(e)
  }
}
