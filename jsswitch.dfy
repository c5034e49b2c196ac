/**
 * The semantics of a JavaScript `switch` statement over a string, as the
 * payment-selection examples use it: control enters at the first `case` whose
 * key is strictly equal to the discriminant (or at `default` when none is),
 * then runs the bodies of that clause and of every clause after it ("falls
 * through") until a `return` or a `throw` ends the statement.
 */
module JsSwitch {

  import opened Wrappers

  /** A statement in a clause body: an expression statement whose value is dropped, `return e;`, or `throw new Error(m);`. */
  datatype Stmt<V> = Discard(value: V) | Return(value: V) | Throw(message: string)

  datatype Clause<V> = Case(key: string, body: seq<Stmt<V>>) | Default(body: seq<Stmt<V>>)

  /**
   * How a statement list or the switch completes. `Normal` at the end of a
   * function body means the function returns `undefined`.
   */
  datatype Completion<V> = Normal | Returned(value: V) | Threw(message: string)

  /** The index of the first `case` clause labelled `x`. */
  function FirstMatch<V>(clauses: seq<Clause<V>>, x: string): (r: Option<nat>)
    ensures r.Some? ==> r.value < |clauses| && clauses[r.value].Case? && clauses[r.value].key == x
    ensures r.Some? ==> forall k :: 0 <= k < r.value ==> !(clauses[k].Case? && clauses[k].key == x)
    ensures r.None? ==> forall k :: 0 <= k < |clauses| ==> !(clauses[k].Case? && clauses[k].key == x)
    decreases |clauses|
  {
    if clauses == [] then None
    else if clauses[0].Case? && clauses[0].key == x then Some(0)
    else match FirstMatch(clauses[1..], x)
      case None => None
      case Some(i) => Some(i + 1)
  }

  /** The index of the first `default` clause. */
  function DefaultIndex<V>(clauses: seq<Clause<V>>): (r: Option<nat>)
    ensures r.Some? ==> r.value < |clauses| && clauses[r.value].Default?
    ensures r.Some? ==> forall k :: 0 <= k < r.value ==> clauses[k].Case?
    ensures r.None? ==> forall k :: 0 <= k < |clauses| ==> clauses[k].Case?
    decreases |clauses|
  {
    if clauses == [] then None
    else if clauses[0].Default? then Some(0)
    else match DefaultIndex(clauses[1..])
      case None => None
      case Some(i) => Some(i + 1)
  }

  /** Runs a statement list: the first `return` or `throw` ends it. */
  function ExecStmts<V>(stmts: seq<Stmt<V>>): (r: Completion<V>)
    ensures r.Returned? ==> Return(r.value) in stmts
    ensures r.Threw? ==> Throw(r.message) in stmts
    decreases |stmts|
  {
    if stmts == [] then Normal
    else match stmts[0]
      case Discard(_) =>
        assert stmts == [stmts[0]] + stmts[1..];
        ExecStmts(stmts[1..])
      case Return(v) => Returned(v)
      case Throw(m) => Threw(m)
  }

  /** Runs the bodies of clause `i` and of every later clause, falling through while they complete normally. */
  function ExecFrom<V>(clauses: seq<Clause<V>>, i: nat): (r: Completion<V>)
    requires i <= |clauses|
    ensures !r.Normal? ==> exists k :: i <= k < |clauses| && ExecStmts(clauses[k].body) == r
    decreases |clauses| - i
  {
    if i == |clauses| then Normal
    else match ExecStmts(clauses[i].body)
      case Normal => ExecFrom(clauses, i + 1)
      case c => c
  }

  /** The whole `switch (x) { ... }` statement. */
  function Switch<V>(clauses: seq<Clause<V>>, x: string): (r: Completion<V>)
    ensures !r.Normal? ==> exists k :: 0 <= k < |clauses| && ExecStmts(clauses[k].body) == r
  {
    match FirstMatch(clauses, x)
    case Some(i) => ExecFrom(clauses, i)
    case None =>
      match DefaultIndex(clauses)
      case Some(d) => ExecFrom(clauses, d)
      case None => Normal
  }

  /** A body made only of expression statements completes normally: control falls through it. */
  lemma {:induction false} DiscardsFallThrough<V>(stmts: seq<Stmt<V>>)
    requires forall k :: 0 <= k < |stmts| ==> stmts[k].Discard?
    ensures ExecStmts(stmts) == Normal
    decreases |stmts|
  {
    if stmts != [] {
      DiscardsFallThrough(stmts[1..]);
    }
  }

  /**
   * Entering at clause `i`, when every clause before `j` has a body that falls
   * through, the switch completes as clause `j`'s body does.
   */
  lemma {:induction false} FallThroughTo<V>(clauses: seq<Clause<V>>, i: nat, j: nat)
    requires i <= j < |clauses|
    requires forall k :: i <= k < j ==> forall n :: 0 <= n < |clauses[k].body| ==> clauses[k].body[n].Discard?
    requires ExecStmts(clauses[j].body) != Normal
    ensures ExecFrom(clauses, i) == ExecStmts(clauses[j].body)
    decreases j - i
  {
    if i < j {
      DiscardsFallThrough(clauses[i].body);
      FallThroughTo(clauses, i + 1, j);
    }
  }
}
