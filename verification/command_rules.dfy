/**
 * The rule-outcome algebra and the per-command-type dispatch table of
 * src/command-rules.ts.
 *
 * A rule handler never reads the read-model itself: it returns an `Outcome`,
 * which is either terminal (`Succeeded`, `Failed`) or a `Fetch` request that
 * carries the object to read and two continuations. The generated schema
 * types (command, event and object payloads) are not part of this model;
 * payloads are opaque string maps.
 */
module CommandRules {
  import opened Wrappers

  /** An opaque JSON object, as produced by the generated schema types. */
  type Payload = map<string, string>

  /** An event as appended to the log: its type tag and its payload. */
  datatype Event = Event(eventType: string, value: Payload)

  /**
   * The three-way tagged union `command_outcome`. A `Fetch` suspends the rule
   * on a read; the other two are terminal.
   */
  datatype Outcome =
    | Fetch(desc: FetchDesc)
    | Succeeded(events: seq<Event>)
    | Failed(reason: string)

  /**
   * `fetch_func`: the object type and id to read, the success continuation
   * `sk`, given the object's value, and the failure continuation `fk`, taking
   * no argument. Each continuation yields the next outcome.
   */
  datatype FetchDesc = FetchDesc(
    objectType: string,
    id: string,
    sk: Payload -> Outcome,
    fk: () -> Outcome)

  /** Arguments of the `register` command. */
  datatype RegisterArgs = RegisterArgs(userId: string, email: string, saltedHash: string)

  /** A parsed command: its type tag selects the shape of its value. */
  datatype ParsedCommand =
    | Register(registerArgs: RegisterArgs)
    | ChangeEmail(changeEmailArgs: Payload)

  /** The `type` field of a parsed command, the key of the rule table. */
  function TypeName(c: ParsedCommand): (name: string)
    ensures name == "register" <==> c.Register?
    ensures name == "change_email" <==> c.ChangeEmail?
  {
    match c
    case Register(_) => "register"
    case ChangeEmail(_) => "change_email"
  }

  /** The `{ handler }` record handed to an inspector. */
  datatype HandlerArgs<!A> = HandlerArgs(handler: A -> Outcome)

  /**
   * A wrapped rule: a closure that gives its `{ handler }` record to whatever
   * inspector it is applied to. The result type of the inspector is fixed to
   * `Outcome`, the only one the dispatch uses.
   */
  type Entry<!A> = (HandlerArgs<A> -> Outcome) -> Outcome

  /** `Command(args)`: wraps a handler record so that `Command(args)(f) == f(args)`. */
  function Command<A, R>(args: HandlerArgs<A>): (HandlerArgs<A> -> R) -> R
  {
    (inspect: HandlerArgs<A> -> R) => inspect(args)
  }

  /** The wrapper does nothing but hand the handler record to the inspector. */
  lemma CommandHandsOverArgs<A, R>(args: HandlerArgs<A>, inspect: HandlerArgs<A> -> R)
    ensures Command(args)(inspect) == inspect(args)
  {
  }

  /** The `command_rules` table: one wrapped rule per command type. */
  datatype Rules = Rules(register: Entry<RegisterArgs>, changeEmail: Entry<Payload>)

  /** Builds a table whose entries wrap the given handlers with `Command`. */
  function Table(register: RegisterArgs -> Outcome, changeEmail: Payload -> Outcome): Rules
  {
    Rules(Command(HandlerArgs(register)), Command(HandlerArgs(changeEmail)))
  }

  /** The `register` rule: always one `user_registered` event holding the inputs. */
  function RegisterHandler(args: RegisterArgs): (r: Outcome)
    ensures r.Succeeded? && |r.events| == 1
    ensures r.events[0].eventType == "user_registered"
    ensures r.events[0].value.Keys == {"user_id", "email", "salted_hash"}
    ensures RegisteredUser(r.events[0]) == Some(args)
  {
    Succeeded([Event("user_registered",
      map["user_id" := args.userId, "email" := args.email, "salted_hash" := args.saltedHash])])
  }

  /** Reads the registration back out of a `user_registered` event. */
  function RegisteredUser(e: Event): (r: Option<RegisterArgs>)
    ensures r.Some? <==>
      e.eventType == "user_registered" && "user_id" in e.value && "email" in e.value && "salted_hash" in e.value
  {
    if e.eventType == "user_registered" && "user_id" in e.value && "email" in e.value && "salted_hash" in e.value
    then Some(RegisterArgs(e.value["user_id"], e.value["email"], e.value["salted_hash"]))
    else None
  }

  /** The `change_email` rule: fails with "not implemented". */
  function ChangeEmailHandler(args: Payload): (r: Outcome)
    ensures r.Failed? && r.reason == "not implemented"
  {
    Failed("not implemented")
  }

  /** Whatever its input, `change_email` gives the same outcome. */
  lemma ChangeEmailIgnoresInput(a: Payload, b: Payload)
    ensures ChangeEmailHandler(a) == ChangeEmailHandler(b)
  {
  }

  /**
   * The concrete `command_rules` table: the `register` key runs the register
   * handler and the `change_email` key the change-email handler.
   */
  function CommandRulesTable(): (rules: Rules)
    ensures forall a :: Dispatch(rules, Register(a)) == RegisterHandler(a)
    ensures forall p :: Dispatch(rules, ChangeEmail(p)) == ChangeEmailHandler(p)
  {
    Table(RegisterHandler, ChangeEmailHandler)
  }

  /**
   * Dispatch: select the entry keyed by the command's type and let it run its
   * handler on the command's value, through an inspector. The constructor of
   * the parsed command plays the role of its `type` key (see `TypeName`). When that entry is
   * the `Command` wrapper of a handler record, the result is the handler
   * applied to the command's value.
   */
  function Dispatch(rules: Rules, c: ParsedCommand): (r: Outcome)
    ensures c.Register? ==> forall h: HandlerArgs<RegisterArgs> {:trigger Command<RegisterArgs, Outcome>(h)} ::
      rules.register == Command(h) ==> r == h.handler(c.registerArgs)
    ensures c.ChangeEmail? ==> forall h: HandlerArgs<Payload> {:trigger Command<Payload, Outcome>(h)} ::
      rules.changeEmail == Command(h) ==> r == h.handler(c.changeEmailArgs)
  {
    match c
    case Register(a) => rules.register((h: HandlerArgs<RegisterArgs>) => h.handler(a))
    case ChangeEmail(p) => rules.changeEmail((h: HandlerArgs<Payload>) => h.handler(p))
  }

  /** Dispatch on a table built from handlers applies the handler keyed by the command's type. */
  lemma DispatchAppliesHandler(register: RegisterArgs -> Outcome, changeEmail: Payload -> Outcome, c: ParsedCommand)
    ensures c.Register? ==> Dispatch(Table(register, changeEmail), c) == register(c.registerArgs)
    ensures c.ChangeEmail? ==> Dispatch(Table(register, changeEmail), c) == changeEmail(c.changeEmailArgs)
  {
  }

  /**
   * On the concrete table, dispatch never suspends on a read: `register`
   * succeeds with its one event and `change_email` fails.
   */
  lemma DispatchConcreteRules(c: ParsedCommand)
    ensures !Dispatch(CommandRulesTable(), c).Fetch?
    ensures TypeName(c) == "register" ==> Dispatch(CommandRulesTable(), c) == RegisterHandler(c.registerArgs)
    ensures TypeName(c) == "change_email" ==>
      Dispatch(CommandRulesTable(), c) == Failed("not implemented")
  {
    DispatchAppliesHandler(RegisterHandler, ChangeEmailHandler, c);
  }
}
