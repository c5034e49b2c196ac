/**
 * Order processing with the State pattern (behavioral/state.ts).
 *
 * Each stage object of the source becomes a constructor of the closed
 * datatype `Stage`; the per-stage `next`/`cancel` methods, which either return
 * the following stage or throw, become the functions `Next` and `Cancel`,
 * returning a `Transition`. The `Order` class holds the mutable `state` field
 * and, like the source's `try`/`catch` blocks, reassigns it only when the
 * transition succeeds; a thrown message is written to the console, which is
 * modelled as the list of lines `output`.
 */
module OrderLifecycle {

  datatype Stage = Pending | Confirmed | Delivered | Cancelled

  /** The two operations an order offers: `nextState` and `cancelOrder`. */
  datatype Op = NextOp | CancelOp

  /** What a stage's `next()` or `cancel()` does: return a new stage or throw an `Error`. */
  datatype Transition = Moved(to: Stage) | Threw(message: string)

  const AlreadyDelivered: string := "Order already delivered"
  const DeliveredNotCancellable: string := "Delivered Product can't be Cancelled anymore"
  const CancelledNotProcessable: string := "Cancelled orders cannot be processed"
  const AlreadyCancelled: string := "Order is already cancelled"

  /** Delivered and cancelled orders admit no further transition. */
  predicate IsTerminal(s: Stage) {
    s == Delivered || s == Cancelled
  }

  /** `next()` of the four stage classes. */
  function Next(s: Stage): (t: Transition)
    ensures t.Moved? <==> !IsTerminal(s)
    ensures t.Moved? ==> t.to != s && t.to != Pending
  {
    match s
    case Pending => Moved(Confirmed)
    case Confirmed => Moved(Delivered)
    case Delivered => Threw(AlreadyDelivered)
    case Cancelled => Threw(CancelledNotProcessable)
  }

  /** `cancel()` of the four stage classes. */
  function Cancel(s: Stage): (t: Transition)
    ensures t.Moved? <==> !IsTerminal(s)
    ensures t.Moved? ==> t.to == Cancelled
  {
    match s
    case Pending => Moved(Cancelled)
    case Confirmed => Moved(Cancelled)
    case Delivered => Threw(DeliveredNotCancellable)
    case Cancelled => Threw(AlreadyCancelled)
  }

  /** Every message a stage throws. */
  predicate IsRejection(m: string) {
    m == AlreadyDelivered || m == DeliveredNotCancellable || m == CancelledNotProcessable || m == AlreadyCancelled
  }

  /** `getStatus()` of the four stage classes, including the source's spelling 'PEDNING'. */
  function Status(s: Stage): (r: string)
    ensures |r| > 0 && forall i :: 0 <= i < |r| ==> 'A' <= r[i] <= 'Z'
    ensures s == Pending ==> r == "PEDNING"
  {
    match s
    case Pending => "PEDNING"
    case Confirmed => "CONFIRMED"
    case Delivered => "DELIVERED"
    case Cancelled => "CANCELLED"
  }

  function Attempt(s: Stage, op: Op): Transition {
    match op
    case NextOp => Next(s)
    case CancelOp => Cancel(s)
  }

  /** The stage an order is in after one operation: the new stage, or the old one when the operation threw. */
  function Apply(s: Stage, op: Op): (r: Stage)
    ensures IsTerminal(s) ==> r == s
    ensures op == CancelOp ==> IsTerminal(r)
    ensures r != Pending
  {
    match Attempt(s, op)
    case Moved(t) => t
    case Threw(_) => s
  }

  /** The stage after a sequence of operations applied in order. */
  function Run(s: Stage, ops: seq<Op>): (r: Stage)
    ensures IsTerminal(s) ==> IsTerminal(r)
    ensures CancelOp in ops ==> IsTerminal(r)
    decreases |ops|
  {
    if ops == [] then s
    else
      assert ops == [ops[0]] + ops[1..];
      Run(Apply(s, ops[0]), ops[1..])
  }

  /** The console lines that a sequence of operations writes: one message per rejected operation. */
  function Messages(s: Stage, ops: seq<Op>): (r: seq<string>)
    ensures |r| <= |ops|
    ensures forall i :: 0 <= i < |r| ==> IsRejection(r[i])
    decreases |ops|
  {
    if ops == [] then []
    else
      var rest := Messages(Apply(s, ops[0]), ops[1..]);
      match Attempt(s, ops[0])
      case Moved(_) => rest
      case Threw(m) => [m] + rest
  }

  /** The complete transition table: the four legal moves and the four fixed rejection messages. */
  lemma TransitionTable()
    ensures Next(Pending) == Moved(Confirmed) && Next(Confirmed) == Moved(Delivered)
    ensures Cancel(Pending) == Moved(Cancelled) && Cancel(Confirmed) == Moved(Cancelled)
    ensures Next(Delivered) == Threw("Order already delivered")
    ensures Next(Cancelled) == Threw("Cancelled orders cannot be processed")
    ensures Cancel(Delivered) == Threw("Delivered Product can't be Cancelled anymore")
    ensures Cancel(Cancelled) == Threw("Order is already cancelled")
  {
  }

  /** The four status strings are pairwise distinct, so the status identifies the stage. */
  lemma StatusIdentifiesStage(a: Stage, b: Stage)
    ensures Status(a) == Status(b) <==> a == b
  {
    if a != b {
      assert Status(a)[0] != Status(b)[0] || Status(a)[1] != Status(b)[1];
    }
  }

  /** One operation either moves to the stage the table dictates or fails and leaves the stage as it was. */
  lemma StepOutcome(s: Stage, op: Op)
    ensures Attempt(s, op).Moved? <==> !IsTerminal(s)
    ensures IsTerminal(s) ==> Apply(s, op) == s
    ensures !IsTerminal(s) ==> Apply(s, op) == (if op == CancelOp then Cancelled else if s == Pending then Confirmed else Delivered)
  {
  }

  /** Delivered and Cancelled are absorbing: no sequence of operations leaves them. */
  lemma {:induction false} TerminalIsAbsorbing(s: Stage, ops: seq<Op>)
    requires IsTerminal(s)
    ensures Run(s, ops) == s
    ensures |Messages(s, ops)| == |ops|
    decreases |ops|
  {
    if ops != [] {
      assert Apply(s, ops[0]) == s;
      TerminalIsAbsorbing(s, ops[1..]);
    }
  }

  /** Repeating `nextState` on a delivered order always fails with the same message. */
  lemma {:induction false} RepeatedAdvanceOnDelivered(ops: seq<Op>)
    requires forall i :: 0 <= i < |ops| ==> ops[i] == NextOp
    ensures Run(Delivered, ops) == Delivered
    ensures forall i :: 0 <= i < |Messages(Delivered, ops)| ==> Messages(Delivered, ops)[i] == AlreadyDelivered
    ensures |Messages(Delivered, ops)| == |ops|
    decreases |ops|
  {
    if ops != [] {
      RepeatedAdvanceOnDelivered(ops[1..]);
    }
  }

  /** No operation leads back to Pending: an order is pending only if it started so and nothing was done. */
  lemma {:induction false} PendingOnlyAtStart(s: Stage, ops: seq<Op>)
    ensures Run(s, ops) == Pending <==> s == Pending && ops == []
    decreases |ops|
  {
    if ops != [] {
      PendingOnlyAtStart(Apply(s, ops[0]), ops[1..]);
      if Apply(s, ops[0]) != Pending {
        assert Run(s, ops) == Run(Apply(s, ops[0]), ops[1..]);
      }
    }
  }

  /** Running two sequences one after the other is running their concatenation. */
  lemma {:induction false} RunAppend(s: Stage, ops: seq<Op>, op: Op)
    ensures Run(s, ops + [op]) == Apply(Run(s, ops), op)
    ensures Messages(s, ops + [op]) == Messages(s, ops) + Messages(Run(s, ops), [op])
    decreases |ops|
  {
    if ops == [] {
      assert ops + [op] == [op];
    } else {
      assert (ops + [op])[1..] == ops[1..] + [op];
      RunAppend(Apply(s, ops[0]), ops[1..], op);
    }
  }

  /** The forward paths: advance twice delivers, a cancel from Pending or Confirmed cancels. */
  lemma Reachability()
    ensures Run(Pending, [NextOp, NextOp]) == Delivered
    ensures Run(Pending, [CancelOp]) == Cancelled
    ensures Run(Confirmed, [CancelOp]) == Cancelled
    ensures Run(Pending, [NextOp, NextOp, CancelOp]) == Delivered
    ensures Messages(Pending, [NextOp, NextOp, CancelOp]) == [DeliveredNotCancellable]
  {
  }

  class Order {
    var state: Stage
    /** The lines this order has written to the console. */
    var output: seq<string>

    /** A new order starts out pending. */
    constructor ()
      ensures state == Pending && output == []
    {
      state := Pending;
      output := [];
    }

    /** `nextState`: take the next stage, or log the error and keep the current stage. */
    method NextState()
      modifies this
      ensures state == Apply(old(state), NextOp)
      ensures output == old(output) + Messages(old(state), [NextOp])
    {
      var t := Next(state);
      if t.Moved? {
        state := t.to;
      } else {
        output := output + [t.message];
      }
    }

    /** `cancelOrder`: move to Cancelled, or log the error and keep the current stage. */
    method CancelOrder()
      modifies this
      ensures state == Apply(old(state), CancelOp)
      ensures output == old(output) + Messages(old(state), [CancelOp])
    {
      var t := Cancel(state);
      if t.Moved? {
        state := t.to;
      } else {
        output := output + [t.message];
      }
    }

    /** `getStatus`: write the current stage's status string to the console. */
    method GetStatus()
      modifies this
      ensures state == old(state)
      ensures output == old(output) + [Status(state)]
    {
      output := output + [Status(state)];
    }

    /** Performs a sequence of operations one at a time. */
    method Perform(ops: seq<Op>)
      modifies this
      ensures state == Run(old(state), ops)
      ensures output == old(output) + Messages(old(state), ops)
    {
      var i := 0;
      while i < |ops|
        invariant 0 <= i <= |ops|
        invariant state == Run(old(state), ops[..i])
        invariant output == old(output) + Messages(old(state), ops[..i])
      {
        RunAppend(old(state), ops[..i], ops[i]);
        assert ops[..i + 1] == ops[..i] + [ops[i]];
        if ops[i] == NextOp {
          NextState();
        } else {
          CancelOrder();
        }
        i := i + 1;
      }
      assert ops[..i] == ops;
    }
  }

  /** The script at the end of the source file: status, next, status, cancel, status, next, status. */
  method Demo() returns (output: seq<string>, final: Stage)
    ensures output == ["PEDNING", "CONFIRMED", "CANCELLED", "Cancelled orders cannot be processed", "CANCELLED"]
    ensures final == Cancelled
  {
    var order := new Order();
    order.GetStatus();
    order.NextState();
    order.GetStatus();
    order.CancelOrder();
    order.GetStatus();
    order.NextState();
    order.GetStatus();
    output, final := order.output, order.state;
  }
}
