/** `CandyCheck::PlayStore::Acknowledger`: the service object with a
    two-state boot lifecycle, unbooted then booted. "Booted" means a client
    has been assigned, whether or not that client's own `boot!` succeeded. */
module Acknowledgers {
  import opened Outcomes
  import PlayClient
  import Receipts
  import Subscriptions
  import AcknowledgementFailures
  import Acknowledgements
  import SubscriptionAcknowledgements

  const AlreadyBootedMessage := "You're only allowed to boot the acknowledger once"
  const NotBootedMessage := "You need to boot the acknowledger service first: CandyCheck::PlayStore::Verifier#boot!"

  /** The message `BootRequiredError` carries at each of its call sites. */
  function BootErrorMessage(v: BootViolation): string {
    match v
    case AlreadyBooted => AlreadyBootedMessage
    case NotBooted => NotBootedMessage
  }

  /** `boot_error(message)`: one error class for both call sites, whose
      message alone tells the two sites apart. */
  function BootError(v: BootViolation): (e: Exception)
    ensures e.BootRequiredError? && e.violation == v
    ensures forall w :: BootErrorMessage(w) == e.message <==> w == v
  {
    BootRequiredError(v, BootErrorMessage(v))
  }

  /** The configuration path and, once booted, the client (`@client`). */
  datatype Acknowledger = Acknowledger(configKeyPath: string, client: Option<PlayClient.Client>)

  /** What booting takes from outside: `Client.new(config_key_path)`, and
      what the new client's `boot!` answers. */
  datatype Environment = Environment(
    newClient: string -> PlayClient.Client,
    bootClient: PlayClient.Client -> PlayClient.Response<()>)

  /** One call on the acknowledger: the state afterwards, the client methods
      invoked, and what the call returned or raised. */
  datatype Step<+T> = Step(state: Acknowledger, invocations: seq<PlayClient.Invocation>, result: Raising<T>)

  /** `booted?`: whether `@client` has been assigned. The only acknowledger
      that is not booted is the freshly constructed one for its path. */
  predicate Booted(a: Acknowledger)
    ensures !Booted(a) <==> a == New(a.configKeyPath)
  {
    a.client.Some?
  }

  /** `Acknowledger.new(config_key_path)`: unbooted, holding the path. */
  function New(configKeyPath: string): (a: Acknowledger)
    ensures a.client.None?
    ensures ConfigKeyPath(a) == configKeyPath
  {
    Acknowledger(configKeyPath, None)
  }

  /** `config_key_path` */
  function ConfigKeyPath(a: Acknowledger): string {
    a.configKeyPath
  }

  /** `boot!`: raises `BootRequiredError` when already booted, before
      touching the client; otherwise assigns `Client.new(config_key_path)`
      and then calls its `boot!` once, so a failing client boot still leaves
      the acknowledger booted, and the client's own error propagates. */
  function Boot(a: Acknowledger, env: Environment): (s: Step<()>)
    ensures Booted(s.state) && s.state.configKeyPath == a.configKeyPath
    ensures Booted(a) ==> s.state == a && s.invocations == [] && s.result == Raised(BootError(AlreadyBooted))
    ensures !Booted(a) ==> s.state.client == Some(env.newClient(a.configKeyPath))
    ensures !Booted(a) ==> s.invocations == [PlayClient.ClientBoot]
    ensures !Booted(a) ==>
              var answer := env.bootClient(env.newClient(a.configKeyPath));
              && (answer.Ok? ==> s.result == Returned(()))
              && (answer.ApiFailure? ==> s.result == Raised(RaisedApiError(answer.apiError)))
              && (answer.OtherFailure? ==> s.result == Raised(RaisedOther(answer.otherError)))
  {
    if Booted(a) then
      Step(a, [], Raised(BootError(AlreadyBooted)))
    else
      var client := env.newClient(a.configKeyPath);
      var booted := a.(client := Some(client));
      match env.bootClient(client)
      case Ok(_) => Step(booted, [PlayClient.ClientBoot], Returned(()))
      case ApiFailure(e) => Step(booted, [PlayClient.ClientBoot], Raised(RaisedApiError(e)))
      case OtherFailure(e) => Step(booted, [PlayClient.ClientBoot], Raised(RaisedOther(e)))
  }

  /** Relays what a call object did: same invocations, same result. */
  function Relay<S, F>(a: Acknowledger, e: PlayClient.Execution<S, F>): Step<PlayClient.Outcome<S, F>> {
    Step(a, e.invocations, e.result)
  }

  /** `acknowledge(package, product_id, token)`: unbooted, raises
      `BootRequiredError` without calling anything; booted, builds an
      `Acknowledgement` over the held client and returns what its `call!`
      returns. The acknowledger itself never changes. */
  function Acknowledge(a: Acknowledger, package: string, productId: string, token: string)
    : (s: Step<PlayClient.Outcome<Receipts.Receipt, AcknowledgementFailures.AcknowledgementFailure>>)
    ensures s.state == a
    ensures !Booted(a) ==> s.invocations == [] && s.result == Raised(BootError(NotBooted))
    ensures Booted(a) ==>
              var e := Acknowledgements.Call(Acknowledgements.Acknowledgement(a.client.value, package, productId, token));
              s.invocations == e.invocations && s.result == e.result
  {
    if !Booted(a) then
      Step(a, [], Raised(BootError(NotBooted)))
    else
      Relay(a, Acknowledgements.Call(Acknowledgements.Acknowledgement(a.client.value, package, productId, token)))
  }

  /** `acknowledge_subscription(package, subscription_id, token)`: the same
      gate, then a `SubscriptionAcknowledgement` over the held client. */
  function AcknowledgeSubscription(a: Acknowledger, package: string, subscriptionId: string, token: string)
    : (s: Step<PlayClient.Outcome<Subscriptions.Subscription, AcknowledgementFailures.AcknowledgementFailure>>)
    ensures s.state == a
    ensures !Booted(a) ==> s.invocations == [] && s.result == Raised(BootError(NotBooted))
    ensures Booted(a) ==>
              var e := SubscriptionAcknowledgements.Call(Acknowledgements.Acknowledgement(a.client.value, package, subscriptionId, token));
              s.invocations == e.invocations && s.result == e.result
  {
    if !Booted(a) then
      Step(a, [], Raised(BootError(NotBooted)))
    else
      Relay(a, SubscriptionAcknowledgements.Call(Acknowledgements.Acknowledgement(a.client.value, package, subscriptionId, token)))
  }

  /** A call a program makes on an acknowledger. */
  datatype Command =
    | BootCommand
    | AcknowledgeCommand(package: string, productId: string, token: string)
    | AcknowledgeSubscriptionCommand(package: string, subscriptionId: string, token: string)

  function StateAfter(a: Acknowledger, env: Environment, c: Command): Acknowledger {
    match c
    case BootCommand => Boot(a, env).state
    case AcknowledgeCommand(p, i, t) => Acknowledge(a, p, i, t).state
    case AcknowledgeSubscriptionCommand(p, i, t) => AcknowledgeSubscription(a, p, i, t).state
  }

  /** Whether the command is a `boot!` that got past the double-boot guard. */
  predicate AssignsClient(a: Acknowledger, env: Environment, c: Command) {
    c.BootCommand? && Boot(a, env).result != Raised(BootError(AlreadyBooted))
  }

  /** The state after running the commands in order. */
  function Run(a: Acknowledger, env: Environment, cmds: seq<Command>): Acknowledger
    decreases |cmds|
  {
    if cmds == [] then a else Run(StateAfter(a, env, cmds[0]), env, cmds[1..])
  }

  /** How many `boot!` calls in the run got past the guard. */
  function AssignedBoots(a: Acknowledger, env: Environment, cmds: seq<Command>): nat
    decreases |cmds|
  {
    if cmds == [] then 0
    else (if AssignsClient(a, env, cmds[0]) then 1 else 0) + AssignedBoots(StateAfter(a, env, cmds[0]), env, cmds[1..])
  }

  /** Once booted, no sequence of calls changes the acknowledger: not the
      path, not the held client. */
  lemma {:induction false} BootedIsFinal(a: Acknowledger, env: Environment, cmds: seq<Command>)
    requires Booted(a)
    ensures Run(a, env, cmds) == a
    ensures AssignedBoots(a, env, cmds) == 0
    decreases |cmds|
  {
    if cmds != [] {
      BootedIsFinal(StateAfter(a, env, cmds[0]), env, cmds[1..]);
    }
  }

  /** From unbooted, a run ends booted exactly when it contains a `boot!`;
      the client it then holds is the one made from the configuration path,
      and at most one `boot!` ever got past the guard. */
  lemma {:induction false} RunFromUnbooted(a: Acknowledger, env: Environment, cmds: seq<Command>)
    requires !Booted(a)
    ensures Run(a, env, cmds).configKeyPath == a.configKeyPath
    ensures Booted(Run(a, env, cmds)) <==> BootCommand in cmds
    ensures Booted(Run(a, env, cmds)) ==> Run(a, env, cmds).client == Some(env.newClient(a.configKeyPath))
    ensures AssignedBoots(a, env, cmds) == (if BootCommand in cmds then 1 else 0)
    decreases |cmds|
  {
    if cmds != [] {
      var next := StateAfter(a, env, cmds[0]);
      if cmds[0].BootCommand? {
        BootedIsFinal(next, env, cmds[1..]);
      } else {
        RunFromUnbooted(next, env, cmds[1..]);
        assert BootCommand in cmds <==> BootCommand in cmds[1..] by {
          assert cmds == [cmds[0]] + cmds[1..];
        }
      }
    }
  }

  /** Before `boot!`, both operations raise `BootRequiredError` for every
      argument and call nothing. */
  lemma UnbootedRejects(configKeyPath: string, package: string, productId: string, token: string)
    ensures Acknowledge(New(configKeyPath), package, productId, token).result == Raised(BootError(NotBooted))
    ensures AcknowledgeSubscription(New(configKeyPath), package, productId, token).result == Raised(BootError(NotBooted))
    ensures Acknowledge(New(configKeyPath), package, productId, token).invocations == []
    ensures AcknowledgeSubscription(New(configKeyPath), package, productId, token).invocations == []
  {
  }

  /** A second `boot!` raises whatever the first one did, even when the
      client's own boot raised. */
  lemma SecondBootRejected(configKeyPath: string, env: Environment)
    ensures var first := Boot(New(configKeyPath), env);
            && first.state.client == Some(env.newClient(configKeyPath))
            && Boot(first.state, env) == Step(first.state, [], Raised(BootError(AlreadyBooted)))
  {
  }

  /** Once booted, each operation invokes exactly its own method with the
      given arguments, in order, and its result is the one the call object
      over the held client produces. */
  lemma BootedAcknowledgeCallsHeldClient(a: Acknowledger, package: string, productId: string, token: string)
    requires Booted(a)
    ensures Acknowledge(a, package, productId, token).invocations
            == [PlayClient.Invocation(PlayClient.Acknowledge, package, productId, token)]
    ensures AcknowledgeSubscription(a, package, productId, token).invocations
            == [PlayClient.Invocation(PlayClient.AcknowledgeSubscriptionPurchase, package, productId, token)]
    ensures Acknowledge(a, package, productId, token).result
            == Acknowledgements.Call(Acknowledgements.Acknowledgement(a.client.value, package, productId, token)).result
    ensures AcknowledgeSubscription(a, package, productId, token).result
            == SubscriptionAcknowledgements.Call(Acknowledgements.Acknowledgement(a.client.value, package, productId, token)).result
  {
  }

  /** The program always boots the real `Client`, which has no `acknowledge`
      method: then, after `boot!`, every `acknowledge` raises instead of
      returning a receipt or a failure, whatever the client's boot did. */
  lemma RealClientAcknowledgeRaises(configKeyPath: string, env: Environment, package: string, productId: string, token: string)
    requires PlayClient.LacksAcknowledge(env.newClient(configKeyPath))
    ensures Acknowledge(Boot(New(configKeyPath), env).state, package, productId, token).result.Raised?
    ensures Acknowledge(Boot(New(configKeyPath), env).state, package, productId, token).result.exception.RaisedOther?
  {
  }

  /** With a client that defines `acknowledge` and raises only Google API
      errors from it, `acknowledge` after `boot!` always returns a value: a
      receipt or an `AcknowledgementFailure`, never a raised error. */
  lemma DefinedAcknowledgeReturns(configKeyPath: string, env: Environment, package: string, productId: string, token: string)
    requires PlayClient.DefinesAcknowledge(env.newClient(configKeyPath))
    ensures Acknowledge(Boot(New(configKeyPath), env).state, package, productId, token).result.Returned?
  {
  }
}
