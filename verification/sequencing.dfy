/**
 * The processor's sequencing state machine (class `Processor` in
 * src/processor.ts), as functions over its state. The class in module
 * Processing is proved to follow these functions; the lemmas here state what
 * the state machine guarantees over whole traces of inputs.
 *
 * The state is the known event-log position `eventT` (absent until the first
 * catch-up signal), the buffer `pending` of commands that arrived before
 * it, and the log `sent` of requests posted to the event database, in order.
 */
module Sequencing {
  import opened Wrappers
  import CR = CommandRules
  import opened Registration

  /**
   * Evaluation of a queued command to a terminal outcome. The function that
   * does this in the source (`process_command` of command-rules) is not part
   * of this model, so the processor is given it.
   */
  type Evaluator = (string, CR.Payload) -> TerminalOutcome

  datatype State = State(eventT: Option<int>, pending: seq<QueuedCommand>, sent: seq<Request>)

  /** A fresh processor: position unknown, nothing buffered, nothing posted. */
  const Initial: State := State(None, [], [])

  /** Commands are buffered only while the position is unknown. */
  predicate Consistent(s: State)
  {
    s.eventT.Some? ==> s.pending == []
  }

  /**
   * `process_command` at position `eventT`: evaluate the command and register
   * its outcome with the expected position `eventT + 1`.
   */
  function Process(eval: Evaluator, c: QueuedCommand, eventT: int): (r: Request)
    ensures r.commandUuid == c.commandUuid
    ensures Reported(r) == eval(c.commandType, c.commandData)
    ensures r.SucceedCommand? ==> r.eventT == eventT + 1
  {
    RequestFor(c, eval(c.commandType, c.commandData), eventT + 1)
  }

  /** Processing each command of `cs` once, in order, at position `eventT`. */
  function ProcessAll(eval: Evaluator, cs: seq<QueuedCommand>, eventT: int): (rs: seq<Request>)
    ensures |rs| == |cs|
    ensures forall i :: 0 <= i < |cs| ==> rs[i] == Process(eval, cs[i], eventT)
  {
    if cs == [] then []
    else ProcessAll(eval, cs[..|cs| - 1], eventT) + [Process(eval, cs[|cs| - 1], eventT)]
  }

  /** `enqueue_command`: buffer while the position is unknown, otherwise process now. */
  function Enqueue(eval: Evaluator, s: State, c: QueuedCommand): (r: State)
    ensures r.eventT == s.eventT
    ensures Consistent(s) ==> Consistent(r)
    ensures s.eventT.None? ==> r.sent == s.sent && |r.pending| == |s.pending| + 1
    ensures s.eventT.Some? ==> r.pending == s.pending && |r.sent| == |s.sent| + 1
  {
    match s.eventT
    case None => s.(pending := s.pending + [c])
    case Some(n) => s.(sent := s.sent + [Process(eval, c, n)])
  }

  /** A catch-up signal either moves the machine on or violates sequencing. */
  datatype StepResult = Next(state: State) | Violation(expected: int, reported: int)

  /**
   * `event_handled(t)`: the first signal fixes the position, processes every
   * buffered command in buffer order and empties the buffer; every later
   * signal must report exactly one more than the known position, and any
   * other report is a fatal violation that leaves the state as it was.
   */
  function EventHandled(eval: Evaluator, s: State, t: int): (r: StepResult)
    ensures r.Next? <==> s.eventT.None? || t == s.eventT.value + 1
    ensures r.Next? ==> r.state.eventT == Some(t)
    ensures r.Next? && s.eventT.None? ==> r.state.pending == [] && |r.state.sent| == |s.sent| + |s.pending|
    ensures r.Next? && s.eventT.None? ==> r.state.sent == s.sent + ProcessAll(eval, s.pending, t)
    ensures r.Next? && s.eventT.Some? ==> r.state == s.(eventT := Some(t))
    ensures r.Violation? ==> r.expected == s.eventT.value + 1 && r.reported == t
  {
    match s.eventT
    case None => Next(State(Some(t), [], s.sent + ProcessAll(eval, s.pending, t)))
    case Some(n) => if t == n + 1 then Next(s.(eventT := Some(t))) else Violation(n + 1, t)
  }

  /** Enqueuing every command of `cs`, in order. */
  function EnqueueAll(eval: Evaluator, s: State, cs: seq<QueuedCommand>): State
  {
    if cs == [] then s
    else Enqueue(eval, EnqueueAll(eval, s, cs[..|cs| - 1]), cs[|cs| - 1])
  }

  /** The two kinds of input the processor receives. */
  datatype Input = Handled(t: int) | Arrived(c: QueuedCommand)

  function Step(eval: Evaluator, s: State, i: Input): StepResult
  {
    match i
    case Handled(t) => EventHandled(eval, s, t)
    case Arrived(c) => Next(Enqueue(eval, s, c))
  }

  /** Feeding a trace of inputs to the machine; a violation stops it. */
  function Run(eval: Evaluator, s: State, ins: seq<Input>): StepResult
  {
    if ins == [] then Next(s)
    else
      match Run(eval, s, ins[..|ins| - 1])
      case Violation(e, r) => Violation(e, r)
      case Next(s') => Step(eval, s', ins[|ins| - 1])
  }

  /** The positions reported by the catch-up signals of a trace, in order. */
  function Positions(ins: seq<Input>): seq<int>
  {
    if ins == [] then []
    else Positions(ins[..|ins| - 1]) + (if ins[|ins| - 1].Handled? then [ins[|ins| - 1].t] else [])
  }

  /** The commands that arrive in a trace, in order. */
  function Arrivals(ins: seq<Input>): seq<QueuedCommand>
  {
    if ins == [] then []
    else Arrivals(ins[..|ins| - 1]) + (if ins[|ins| - 1].Arrived? then [ins[|ins| - 1].c] else [])
  }

  /** The trace in which the commands of `cs` arrive one after another. */
  function ArrivalInputs(cs: seq<QueuedCommand>): (ins: seq<Input>)
  {
    seq(|cs|, i requires 0 <= i < |cs| => Arrived(cs[i]))
  }

  /** `ps` counts up by one from `first`. */
  predicate Contiguous(ps: seq<int>, first: int)
  {
    forall k :: 0 <= k < |ps| ==> ps[k] == first + k
  }

  function RequestUuids(rs: seq<Request>): seq<string>
  {
    seq(|rs|, i requires 0 <= i < |rs| => rs[i].commandUuid)
  }

  function CommandUuids(cs: seq<QueuedCommand>): seq<string>
  {
    seq(|cs|, i requires 0 <= i < |cs| => cs[i].commandUuid)
  }

  /** Every input keeps the buffer empty once the position is known. */
  lemma {:induction false} RunKeepsConsistent(eval: Evaluator, s: State, ins: seq<Input>)
    requires Consistent(s)
    ensures Run(eval, s, ins).Next? ==> Consistent(Run(eval, s, ins).state)
  {
    if ins != [] {
      RunKeepsConsistent(eval, s, ins[..|ins| - 1]);
    }
  }

  /** While the position is unknown, arriving commands are buffered in arrival order and nothing is posted. */
  lemma {:induction false} BufferKeepsArrivalOrder(eval: Evaluator, s: State, cs: seq<QueuedCommand>)
    requires s.eventT.None?
    ensures EnqueueAll(eval, s, cs) == s.(pending := s.pending + cs)
  {
    if cs != [] {
      BufferKeepsArrivalOrder(eval, s, cs[..|cs| - 1]);
      assert s.pending + cs[..|cs| - 1] + [cs[|cs| - 1]] == s.pending + cs;
    }
  }

  /** Once the position is known, arriving commands are processed at once, in order, and never buffered. */
  lemma {:induction false} ReadyProcessesArrivals(eval: Evaluator, s: State, cs: seq<QueuedCommand>)
    requires s.eventT.Some?
    ensures EnqueueAll(eval, s, cs) == s.(sent := s.sent + ProcessAll(eval, cs, s.eventT.value))
  {
    if cs != [] {
      ReadyProcessesArrivals(eval, s, cs[..|cs| - 1]);
      assert s.sent + ProcessAll(eval, cs[..|cs| - 1], s.eventT.value) + [Process(eval, cs[|cs| - 1], s.eventT.value)]
          == s.sent + ProcessAll(eval, cs, s.eventT.value);
    }
  }

  /** Enqueuing two queues one after the other is enqueuing their concatenation. */
  lemma {:induction false} EnqueueAllAppend(eval: Evaluator, s: State, a: seq<QueuedCommand>, b: seq<QueuedCommand>)
    ensures EnqueueAll(eval, EnqueueAll(eval, s, a), b) == EnqueueAll(eval, s, a + b)
  {
    if b != [] {
      EnqueueAllAppend(eval, s, a, b[..|b| - 1]);
      assert (a + b)[..|a + b| - 1] == a + b[..|b| - 1];
      assert (a + b)[|a + b| - 1] == b[|b| - 1];
      assert EnqueueAll(eval, EnqueueAll(eval, s, a), b)
          == Enqueue(eval, EnqueueAll(eval, EnqueueAll(eval, s, a), b[..|b| - 1]), b[|b| - 1]);
      assert EnqueueAll(eval, s, a + b) == Enqueue(eval, EnqueueAll(eval, s, a + b[..|b| - 1]), b[|b| - 1]);
    } else {
      assert a + b == a;
    }
  }

  /** A trace of arrivals only is the same as enqueuing its commands. */
  lemma {:induction false} RunArrivals(eval: Evaluator, s: State, cs: seq<QueuedCommand>)
    ensures Run(eval, s, ArrivalInputs(cs)) == Next(EnqueueAll(eval, s, cs))
  {
    if cs != [] {
      assert ArrivalInputs(cs)[..|cs| - 1] == ArrivalInputs(cs[..|cs| - 1]);
      RunArrivals(eval, s, cs[..|cs| - 1]);
    }
  }

  /**
   * From a fresh processor, commands that arrive before the first catch-up
   * signal are each processed exactly once, in arrival order, at the
   * signalled position, and the buffer is left empty.
   */
  lemma BufferedCommandsProcessedOnFirstSignal(eval: Evaluator, cs: seq<QueuedCommand>, t: int)
    ensures Run(eval, Initial, ArrivalInputs(cs) + [Handled(t)]) == Next(State(Some(t), [], ProcessAll(eval, cs, t)))
  {
    var ins := ArrivalInputs(cs) + [Handled(t)];
    assert ins[..|ins| - 1] == ArrivalInputs(cs);
    RunArrivals(eval, Initial, cs);
    BufferKeepsArrivalOrder(eval, Initial, cs);
  }

  /** Appending one position keeps a run contiguous exactly when it is the next one. */
  lemma ContiguousSnoc(ps: seq<int>, t: int, first: int)
    ensures Contiguous(ps + [t], first) <==> Contiguous(ps, first) && t == first + |ps|
  {
    if Contiguous(ps + [t], first) {
      forall k | 0 <= k < |ps| ensures ps[k] == first + k {
        assert (ps + [t])[k] == ps[k];
      }
      assert (ps + [t])[|ps|] == t;
    }
  }

  /** A non-empty trace runs its prefix, then its last input. */
  lemma RunSnoc(eval: Evaluator, s: State, ins: seq<Input>)
    requires ins != []
    ensures Run(eval, s, ins) ==
      if Run(eval, s, ins[..|ins| - 1]).Violation? then Run(eval, s, ins[..|ins| - 1])
      else Step(eval, Run(eval, s, ins[..|ins| - 1]).state, ins[|ins| - 1])
    ensures Positions(ins) ==
      Positions(ins[..|ins| - 1]) + (if ins[|ins| - 1].Handled? then [ins[|ins| - 1].t] else [])
  {
  }

  /** What one input does to the position. */
  lemma StepPosition(eval: Evaluator, m: State, i: Input)
    ensures i.Arrived? ==> Step(eval, m, i).Next? && Step(eval, m, i).state.eventT == m.eventT
    ensures i.Handled? ==>
      (Step(eval, m, i).Next? <==> m.eventT.None? || i.t == m.eventT.value + 1)
    ensures i.Handled? && Step(eval, m, i).Next? ==> Step(eval, m, i).state.eventT == Some(i.t)
  {
  }

  /**
   * Once the position is known, a trace runs without a sequencing violation
   * exactly when its signals report the positions following the known one,
   * one by one; the position is then never lost and has advanced by one per
   * signal.
   */
  lemma {:induction false} ReadyRunIff(eval: Evaluator, s: State, ins: seq<Input>)
    requires s.eventT.Some?
    ensures Run(eval, s, ins).Next? <==> Contiguous(Positions(ins), s.eventT.value + 1)
    ensures Run(eval, s, ins).Next? ==>
      Run(eval, s, ins).state.eventT == Some(s.eventT.value + |Positions(ins)|)
  {
    if ins != [] {
      var pre, last := ins[..|ins| - 1], ins[|ins| - 1];
      ReadyRunIff(eval, s, pre);
      RunSnoc(eval, s, ins);
      var ps' := Positions(pre);
      if Run(eval, s, pre).Next? {
        StepPosition(eval, Run(eval, s, pre).state, last);
      }
      if last.Handled? {
        assert Positions(ins) == ps' + [last.t];
        ContiguousSnoc(ps', last.t, s.eventT.value + 1);
      } else {
        assert Positions(ins) == ps';
      }
    }
  }

  /**
   * Before the position is known, a trace runs without a sequencing violation
   * exactly when its signals report consecutive positions, starting wherever
   * the first one does. The position stays unknown until the first signal
   * and is the last reported one afterwards.
   */
  lemma {:induction false} UninitializedRunIff(eval: Evaluator, s: State, ins: seq<Input>)
    requires s.eventT.None?
    ensures Run(eval, s, ins).Next? <==> (Positions(ins) == [] || Contiguous(Positions(ins), Positions(ins)[0]))
    ensures Run(eval, s, ins).Next? ==>
      (Run(eval, s, ins).state.eventT.None? <==> Positions(ins) == [])
    ensures Run(eval, s, ins).Next? && Positions(ins) != [] ==>
      Run(eval, s, ins).state.eventT == Some(Positions(ins)[0] + |Positions(ins)| - 1)
  {
    if ins != [] {
      var pre, last := ins[..|ins| - 1], ins[|ins| - 1];
      UninitializedRunIff(eval, s, pre);
      RunSnoc(eval, s, ins);
      var ps' := Positions(pre);
      if Run(eval, s, pre).Next? {
        StepPosition(eval, Run(eval, s, pre).state, last);
      }
      if last.Handled? {
        assert Positions(ins) == ps' + [last.t];
        if ps' == [] {
          assert Contiguous([last.t], last.t);
        } else {
          assert (ps' + [last.t])[0] == ps'[0];
          ContiguousSnoc(ps', last.t, ps'[0]);
        }
      } else {
        assert Positions(ins) == ps';
      }
    }
  }

  /** The uuid of a processed command is that of the command. */
  lemma ProcessAllUuids(eval: Evaluator, cs: seq<QueuedCommand>, t: int)
    ensures RequestUuids(ProcessAll(eval, cs, t)) == CommandUuids(cs)
  {
  }

  /** One input adds the uuid of the command it brings, if any, after those already posted or buffered. */
  lemma StepKeepsUuids(eval: Evaluator, m: State, i: Input)
    requires Consistent(m)
    requires Step(eval, m, i).Next?
    ensures RequestUuids(Step(eval, m, i).state.sent) + CommandUuids(Step(eval, m, i).state.pending)
      == RequestUuids(m.sent) + CommandUuids(m.pending) + (if i.Arrived? then [i.c.commandUuid] else [])
  {
    var m' := Step(eval, m, i).state;
    match i
    case Arrived(c) =>
      if m.eventT.None? {
        assert CommandUuids(m'.pending) == CommandUuids(m.pending) + [c.commandUuid];
        assert RequestUuids(m'.sent) == RequestUuids(m.sent);
      } else {
        assert RequestUuids(m'.sent) == RequestUuids(m.sent) + [c.commandUuid];
        assert CommandUuids(m'.pending) == CommandUuids(m.pending) == [];
      }
    case Handled(t) =>
      if m.eventT.None? {
        ProcessAllUuids(eval, m.pending, t);
        assert RequestUuids(m'.sent) == RequestUuids(m.sent) + CommandUuids(m.pending);
        assert CommandUuids(m'.pending) == [];
      } else {
        assert m' == m.(eventT := Some(t));
      }
  }

  /** The uuids of the commands that arrive in a trace grow by the last input's command. */
  lemma ArrivalUuidsSnoc(ins: seq<Input>)
    requires ins != []
    ensures CommandUuids(Arrivals(ins)) == CommandUuids(Arrivals(ins[..|ins| - 1]))
      + (if ins[|ins| - 1].Arrived? then [ins[|ins| - 1].c.commandUuid] else [])
  {
    var pre := Arrivals(ins[..|ins| - 1]);
    if ins[|ins| - 1].Arrived? {
      assert Arrivals(ins) == pre + [ins[|ins| - 1].c];
      assert CommandUuids(pre + [ins[|ins| - 1].c]) == CommandUuids(pre) + [ins[|ins| - 1].c.commandUuid];
    } else {
      assert Arrivals(ins) == pre;
    }
  }

  /**
   * No command is dropped, duplicated or reordered: over any trace that runs
   * without violation, the uuids posted followed by the uuids still buffered
   * grow by exactly the uuids of the commands that arrived, in arrival order.
   */
  lemma {:induction false} NothingDroppedOrReordered(eval: Evaluator, s: State, ins: seq<Input>)
    requires Consistent(s)
    ensures Run(eval, s, ins).Next? ==>
      RequestUuids(Run(eval, s, ins).state.sent) + CommandUuids(Run(eval, s, ins).state.pending)
      == RequestUuids(s.sent) + CommandUuids(s.pending) + CommandUuids(Arrivals(ins))
  {
    if ins != [] {
      var pre := ins[..|ins| - 1];
      var r := Run(eval, s, pre);
      if r.Next? {
        NothingDroppedOrReordered(eval, s, pre);
        RunKeepsConsistent(eval, s, pre);
        assert Run(eval, s, ins) == Step(eval, r.state, ins[|ins| - 1]);
        if Run(eval, s, ins).Next? {
          StepKeepsUuids(eval, r.state, ins[|ins| - 1]);
          ArrivalUuidsSnoc(ins);
        }
      }
    }
  }
}
