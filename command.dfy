/**
 * A task queue with the Command pattern (behavioral/command.ts).
 *
 * A command stores the arguments it was constructed with and, when executed,
 * forwards exactly those to its service. Both services only write a line to
 * the console, which is modelled as the `Console` object recording one
 * `ServiceCall` per call. The invoker queues commands, runs them one after
 * the other in insertion order and then empties the queue.
 */
module Command {

  datatype Command = SendEmail(to: string, message: string) | GenerateReport(userId: int)

  /** A call received by EmailService.sendEmail or ReportService.generateReport. */
  datatype ServiceCall = EmailSent(to: string, message: string) | ReportGenerated(userId: int)

  class Console {
    var calls: seq<ServiceCall>

    constructor ()
      ensures calls == []
    {
      calls := [];
    }
  }

  /** The service call a command makes: its stored arguments, unchanged. */
  function CallOf(c: Command): (call: ServiceCall)
    ensures c.SendEmail? <==> call.EmailSent?
    ensures c.SendEmail? ==> call.to == c.to && call.message == c.message
    ensures c.GenerateReport? ==> call.userId == c.userId
  {
    match c
    case SendEmail(to, message) => EmailSent(to, message)
    case GenerateReport(userId) => ReportGenerated(userId)
  }

  /** The service calls made by running a sequence of commands in order. */
  function CallsOf(q: seq<Command>): (calls: seq<ServiceCall>)
    ensures |calls| == |q|
    ensures forall i :: 0 <= i < |q| ==> calls[i] == CallOf(q[i])
    decreases |q|
  {
    if q == [] then [] else [CallOf(q[0])] + CallsOf(q[1..])
  }

  /** Running two queues one after the other makes the calls of their concatenation. */
  lemma {:induction false} CallsOfAppend(a: seq<Command>, b: seq<Command>)
    ensures CallsOf(a + b) == CallsOf(a) + CallsOf(b)
    decreases |a|
  {
    if a == [] {
      assert a + b == b;
    } else {
      assert (a + b)[1..] == a[1..] + b;
      CallsOfAppend(a[1..], b);
    }
  }

  /** `execute` of SendEmailCommand and GenerateReportCommand. */
  method Execute(c: Command, console: Console)
    modifies console
    ensures console.calls == old(console.calls) + [CallOf(c)]
  {
    match c
    case SendEmail(to, message) => console.calls := console.calls + [EmailSent(to, message)];
    case GenerateReport(userId) => console.calls := console.calls + [ReportGenerated(userId)];
  }

  class CommandInvoker {
    var queue: seq<Command>

    constructor ()
      ensures queue == []
    {
      queue := [];
    }

    /** `addCommand`: append at the end of the queue. */
    method AddCommand(c: Command)
      modifies this
      ensures queue == old(queue) + [c]
    {
      queue := queue + [c];
    }

    /** `run`: execute every queued command in insertion order, then empty the queue. */
    method Run(console: Console)
      modifies this, console
      ensures console.calls == old(console.calls) + CallsOf(old(queue))
      ensures queue == []
    {
      for i := 0 to |queue|
        invariant queue == old(queue)
        invariant console.calls == old(console.calls) + CallsOf(queue[..i])
      {
        CallsOfAppend(queue[..i], [queue[i]]);
        assert queue[..i + 1] == queue[..i] + [queue[i]];
        Execute(queue[i], console);
      }
      assert queue[..|queue|] == queue;
      queue := [];
    }
  }

  /** The script at the end of the source file: an email, then a report, once each and in that order. */
  method Demo() returns (calls: seq<ServiceCall>, left: seq<Command>)
    ensures calls == [EmailSent("john@example.com", "Hello, world!"), ReportGenerated(1213243)]
    ensures left == []
  {
    var console := new Console();
    var invoker := new CommandInvoker();
    invoker.AddCommand(SendEmail("john@example.com", "Hello, world!"));
    invoker.AddCommand(GenerateReport(1213243));
    invoker.Run(console);
    calls, left := console.calls, invoker.queue;
  }
}
