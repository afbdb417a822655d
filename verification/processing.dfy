/**
 * The command processor of src/processor.ts: the class `Processor`, whose
 * methods update its position and its buffer in place, and the two driver
 * loops `start_processing` and `poll_commands`.
 *
 * Requests to the event database are recorded in the field `sent` in the
 * order they are posted; each method is proved to change the state exactly
 * as the functions of module Sequencing say.
 */
module Processing {
  import opened Wrappers
  import opened Registration
  import opened Sequencing

  class Processor {
    /** The event-log position the read-model has caught up to; absent at first. */
    var eventT: Option<int>
    /** Commands that arrived while the position was unknown, in arrival order. */
    var pending: seq<QueuedCommand>
    /** Requests posted to the event database, in order. */
    var sent: seq<Request>
    /** Evaluation of a command to its terminal outcome. */
    const evaluate: Evaluator

    function Snapshot(): State
      reads this
    {
      State(eventT, pending, sent)
    }

    ghost predicate Valid()
      reads this
    {
      Consistent(Snapshot())
    }

    constructor (evaluate: Evaluator)
      ensures Valid()
      ensures Snapshot() == Initial && this.evaluate == evaluate
    {
      this.evaluate := evaluate;
      eventT, pending, sent := None, [], [];
    }

    /**
     * `process_command`: reads the position once on entry, evaluates the
     * command and posts its outcome with the expected position one past it.
     */
    method ProcessCommand(command: QueuedCommand)
      requires eventT.Some?
      modifies this`sent
      ensures sent == old(sent) + [Process(evaluate, command, eventT.value)]
    {
      var t := eventT.value;
      var outcome := evaluate(command.commandType, command.commandData);
      sent := sent + [RequestFor(command, outcome, t + 1)];
    }

    /**
     * `event_handled(t)`. On the first call it sets the position, processes
     * the buffered commands one by one in buffer order and clears the buffer.
     * Afterwards it accepts only the position one past the current one; any
     * other report fails (`ok` is false) and changes nothing.
     */
    method EventHandled(t: int) returns (ok: bool)
      requires Valid()
      modifies this
      ensures Valid()
      ensures ok == Sequencing.EventHandled(evaluate, old(Snapshot()), t).Next?
      ensures ok ==> Snapshot() == Sequencing.EventHandled(evaluate, old(Snapshot()), t).state
      ensures !ok ==> Snapshot() == old(Snapshot())
    {
      match eventT
      case None =>
        eventT := Some(t);
        var i := 0;
        while i < |pending|
          invariant 0 <= i <= |pending|
          invariant eventT == Some(t) && pending == old(pending)
          invariant sent == old(sent) + ProcessAll(evaluate, pending[..i], t)
        {
          assert pending[..i + 1][..i] == pending[..i];
          ProcessCommand(pending[i]);
          i := i + 1;
        }
        assert pending[..i] == pending;
        pending := [];
        ok := true;
      case Some(n) =>
        if t != n + 1 {
          ok := false;
          return;
        }
        eventT := Some(t);
        ok := true;
    }

    /** `enqueue_command`: buffer while the position is unknown, otherwise process now. */
    method EnqueueCommand(command: QueuedCommand)
      requires Valid()
      modifies this
      ensures Valid()
      ensures Snapshot() == Enqueue(evaluate, old(Snapshot()), command)
    {
      if eventT.None? {
        pending := pending + [command];
      } else {
        ProcessCommand(command);
      }
    }
  }

  /** Enqueue every command of a fetched queue, in queue order. */
  method EnqueueQueue(p: Processor, queue: seq<QueuedCommand>)
    requires p.Valid()
    modifies p
    ensures p.Valid()
    ensures p.Snapshot() == EnqueueAll(p.evaluate, old(p.Snapshot()), queue)
  {
    var i := 0;
    while i < |queue|
      invariant 0 <= i <= |queue|
      invariant p.Valid()
      invariant p.Snapshot() == EnqueueAll(p.evaluate, old(p.Snapshot()), queue[..i])
    {
      assert queue[..i + 1][..i] == queue[..i];
      p.EnqueueCommand(queue[i]);
      i := i + 1;
    }
    assert queue[..i] == queue;
  }

  /**
   * `start_processing`, for `rounds` iterations of its loop: report the
   * fetched position `first`, then each following one. Every report is
   * accepted, the buffered commands are processed at the first one, and the
   * position ends at the last one reported.
   */
  method StartProcessing(p: Processor, first: int, rounds: nat) returns (accepted: seq<bool>)
    requires p.Valid() && p.eventT.None?
    modifies p
    ensures p.Valid()
    ensures accepted == seq(rounds, _ => true)
    ensures rounds == 0 ==> p.Snapshot() == old(p.Snapshot())
    ensures rounds > 0 ==>
      p.Snapshot() == State(Some(first + rounds - 1), [], old(p.sent) + ProcessAll(p.evaluate, old(p.pending), first))
  {
    var eventT := first;
    var i := 0;
    accepted := [];
    while i < rounds
      invariant 0 <= i <= rounds
      invariant p.Valid()
      invariant eventT == first + i
      invariant accepted == seq(i, _ => true)
      invariant i == 0 ==> p.Snapshot() == old(p.Snapshot())
      invariant i > 0 ==>
        p.Snapshot() == State(Some(first + i - 1), [], old(p.sent) + ProcessAll(p.evaluate, old(p.pending), first))
    {
      var ok := p.EventHandled(eventT);
      accepted := accepted + [ok];
      eventT := eventT + 1;
      i := i + 1;
    }
  }

  /** The concatenation of the fetched queues, in fetch order. */
  function Concat(queues: seq<seq<QueuedCommand>>): seq<QueuedCommand>
  {
    if queues == [] then [] else Concat(queues[..|queues| - 1]) + queues[|queues| - 1]
  }

  /**
   * `poll_commands`: enqueue the first fetched queue, then for each later
   * queue advance the status position by one, poll with it and enqueue that
   * queue. Returns the status positions polled, in order.
   */
  method PollCommands(p: Processor, statusT: int, first: seq<QueuedCommand>, later: seq<seq<QueuedCommand>>)
    returns (polled: seq<int>)
    requires p.Valid()
    modifies p
    ensures p.Valid()
    ensures |polled| == |later|
    ensures Contiguous(polled, statusT + 1)
    ensures p.Snapshot() == EnqueueAll(p.evaluate, old(p.Snapshot()), first + Concat(later))
  {
    EnqueueQueue(p, first);
    var status := statusT;
    var k := 0;
    polled := [];
    assert first + Concat(later[..0]) == first;
    while k < |later|
      invariant 0 <= k <= |later|
      invariant p.Valid()
      invariant status == statusT + k && |polled| == k
      invariant Contiguous(polled, statusT + 1)
      invariant p.Snapshot() == EnqueueAll(p.evaluate, old(p.Snapshot()), first + Concat(later[..k]))
    {
      status := status + 1;
      polled := polled + [status];
      EnqueueQueue(p, later[k]);
      assert later[..k + 1][..k] == later[..k];
      assert first + Concat(later[..k + 1]) == first + Concat(later[..k]) + later[k];
      EnqueueAllAppend(p.evaluate, old(p.Snapshot()), first + Concat(later[..k]), later[k]);
      k := k + 1;
    }
    assert later[..k] == later;
  }
}
