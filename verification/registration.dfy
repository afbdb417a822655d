/**
 * Registering a terminal outcome with the event database (src/processor.ts,
 * `fail_command`, `succeed_command` and `register_outcome`).
 *
 * The HTTP calls are modelled by the request the processor posts and by the
 * replies it gets back, one per attempt. A reply is either a failure to get
 * an answer at all (`Threw`) or the HTTP status the server answered with.
 * The HTTP client throws on a status its status check rejects: by default
 * any status outside 2xx, and for `succeed_command` any status other than
 * 200 and 409. The retry loops of the source never stop; here they run over
 * a finite stream of replies, and running out of replies means "still
 * retrying".
 */
module Registration {
  import opened Wrappers
  import CR = CommandRules

  /** A command as taken from the event database's queue. */
  datatype QueuedCommand = QueuedCommand(
    commandUuid: string,
    commandType: string,
    commandData: CR.Payload,
    commandDate: string,
    scheduledFor: string,
    statusT: string)

  /** `terminal_command_outcome`: the outcomes that need no further read. */
  datatype TerminalOutcome = Succeeded(events: seq<CR.Event>) | Failed(reason: string)

  /** A terminal outcome seen as a rule outcome. */
  function FromTerminal(t: TerminalOutcome): (o: CR.Outcome)
    ensures !o.Fetch?
  {
    match t
    case Succeeded(events) => CR.Succeeded(events)
    case Failed(reason) => CR.Failed(reason)
  }

  /**
   * The terminal part of a rule outcome: absent exactly for a `Fetch`, and
   * otherwise the outcome itself, read as a terminal one.
   */
  function AsTerminal(o: CR.Outcome): (r: Option<TerminalOutcome>)
    ensures r.None? <==> o.Fetch?
    ensures r.Some? ==> FromTerminal(r.value) == o
  {
    match o
    case Fetch(_) => None
    case Succeeded(events) => Some(Succeeded(events))
    case Failed(reason) => Some(Failed(reason))
  }

  /** Every terminal outcome is a rule outcome that reads back as itself. */
  lemma TerminalRoundTrip(t: TerminalOutcome)
    ensures AsTerminal(FromTerminal(t)) == Some(t)
  {
  }

  /**
   * The concrete rule table only ever yields terminal outcomes: a `register`
   * command its single `user_registered` event, a `change_email` command the
   * failure "not implemented".
   */
  lemma ConcreteRulesAreTerminal(c: CR.ParsedCommand)
    ensures AsTerminal(CR.Dispatch(CR.CommandRulesTable(), c)).Some?
    ensures c.Register? ==>
      AsTerminal(CR.Dispatch(CR.CommandRulesTable(), c)) == Some(Succeeded(CR.RegisterHandler(c.registerArgs).events))
    ensures c.ChangeEmail? ==>
      AsTerminal(CR.Dispatch(CR.CommandRulesTable(), c)) == Some(Failed("not implemented"))
  {
    CR.DispatchConcreteRules(c);
  }

  /** The body of a POST to the event database. */
  datatype Request =
    | FailCommand(commandUuid: string, reason: string)
    | SucceedCommand(commandUuid: string, eventT: int, events: seq<CR.Event>)

  /** What the event database learns about the command from a request. */
  function Reported(r: Request): TerminalOutcome
  {
    match r
    case FailCommand(_, reason) => Failed(reason)
    case SucceedCommand(_, _, events) => Succeeded(events)
  }

  /**
   * `register_outcome`'s choice of request: a failure goes to `fail_command`
   * with the command's uuid and reason, a success to `succeed_command` with
   * the uuid, the expected position and the events unchanged.
   */
  function RequestFor(command: QueuedCommand, outcome: TerminalOutcome, eventT: int): (r: Request)
    ensures r.commandUuid == command.commandUuid
    ensures r.FailCommand? <==> outcome.Failed?
    ensures r.SucceedCommand? ==> r.eventT == eventT
    ensures Reported(r) == outcome
  {
    match outcome
    case Failed(reason) => FailCommand(command.commandUuid, reason)
    case Succeeded(events) => SucceedCommand(command.commandUuid, eventT, events)
  }

  /** The result of one POST attempt. */
  datatype Reply = Threw | Responded(status: int)

  /** Either the call settled with a `reprocess` flag, or it is retried. */
  datatype Attempt = Settled(reprocess: bool) | Retry

  /**
   * `succeed_command`'s reading of the HTTP status: 409 (conflict) asks for
   * reprocessing, 200 does not, and any other status is an error that is
   * retried.
   */
  function StatusToReprocess(status: int): (r: Attempt)
    ensures r.Settled? <==> status == 200 || status == 409
    ensures r.Settled? ==> (r.reprocess <==> status == 409)
  {
    if status == 409 then Settled(true)
    else if status == 200 then Settled(false)
    else Retry
  }

  /** The HTTP client's default status check: only 2xx statuses are accepted. */
  predicate Success2xx(status: int)
  {
    200 <= status < 300
  }

  /**
   * One attempt at posting `request`. A `fail_command` post settles with
   * `reprocess: false` on a 2xx status, and any other status makes the
   * client throw; a `succeed_command` post goes through the status mapping;
   * a post that gets no answer is retried.
   */
  function Answer(request: Request, reply: Reply): (r: Attempt)
    ensures reply.Threw? ==> r.Retry?
    ensures request.FailCommand? && reply.Responded? ==>
      r == (if Success2xx(reply.status) then Settled(false) else Retry)
    ensures request.SucceedCommand? && reply.Responded? ==> r == StatusToReprocess(reply.status)
  {
    match reply
    case Threw => Retry
    case Responded(status) =>
      if request.FailCommand? then (if Success2xx(status) then Settled(false) else Retry)
      else StatusToReprocess(status)
  }

  /**
   * The retry loop of `fail_command` and `succeed_command`: post the same
   * request again until an attempt settles. `tries` is the number of posts
   * made; the result is the first settled answer, or `Retry` when every
   * reply in the stream asked for another attempt.
   */
  method Deliver(request: Request, replies: seq<Reply>) returns (result: Attempt, tries: nat)
    ensures tries <= |replies|
    ensures forall k :: 0 <= k < tries - 1 ==> Answer(request, replies[k]).Retry?
    ensures result.Settled? ==> 0 < tries && result == Answer(request, replies[tries - 1])
    ensures result.Retry? ==>
      tries == |replies| && forall k :: 0 <= k < |replies| ==> Answer(request, replies[k]).Retry?
  {
    result, tries := Retry, 0;
    while tries < |replies| && result.Retry?
      invariant tries <= |replies|
      invariant result.Settled? ==> 0 < tries && result == Answer(request, replies[tries - 1])
      invariant forall k :: 0 <= k < tries - 1 ==> Answer(request, replies[k]).Retry?
      invariant result.Retry? ==> forall k :: 0 <= k < tries ==> Answer(request, replies[k]).Retry?
    {
      result := Answer(request, replies[tries]);
      tries := tries + 1;
    }
  }

  /**
   * `register_outcome`: route the outcome to the matching call and wait for
   * it to settle. The first reply that settles decides the result. A failed
   * outcome settles only on a 2xx reply and never asks for reprocessing; a
   * succeeded one settles only on 200 or 409 and asks for reprocessing
   * exactly when that reply was a 409.
   */
  method RegisterOutcome(command: QueuedCommand, outcome: TerminalOutcome, eventT: int, replies: seq<Reply>)
    returns (result: Attempt, tries: nat)
    ensures tries <= |replies|
    ensures forall k :: 0 <= k < tries - 1 ==> Answer(RequestFor(command, outcome, eventT), replies[k]).Retry?
    ensures result.Settled? ==> 0 < tries && result == Answer(RequestFor(command, outcome, eventT), replies[tries - 1])
    ensures outcome.Failed? && result.Settled? ==> !result.reprocess
    ensures outcome.Failed? && result.Settled? ==>
      replies[tries - 1].Responded? && Success2xx(replies[tries - 1].status)
    ensures outcome.Succeeded? && result.Settled? ==>
      (result.reprocess <==> replies[tries - 1] == Responded(409))
    ensures outcome.Succeeded? && result.Settled? ==>
      replies[tries - 1] in {Responded(200), Responded(409)}
    ensures result.Retry? ==>
      forall k :: 0 <= k < |replies| ==> Answer(RequestFor(command, outcome, eventT), replies[k]).Retry?
  {
    result, tries := Deliver(RequestFor(command, outcome, eventT), replies);
  }
}
