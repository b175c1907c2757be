/** The collaborators that `main` drives but whose code is not part of this model:
    the connection-profile, CA-client and wallet builders, the admin and user
    enrollment helpers, and the fabric-network `Gateway` with the network and
    contract it resolves. Each is reduced to what `main` can observe of it: the
    call is recorded in a trace, and it either completes (with a payload, for a
    transaction) or throws an error chosen by the environment. */
module Fabric {
  import opened Base

  /** A ledger transaction is either submitted for endorsement and ordering
      (it may change the world state) or evaluated on a peer (read-only). */
  datatype Kind = Submit | Evaluate

  /** One transaction call as the contract sees it: its kind, the chaincode
      function name and the positional string arguments. */
  datatype Call = Call(kind: Kind, name: string, args: seq<string>)

  /** What the ledger does with one transaction call: return a payload (the
      response buffer, decoded as text) or throw. */
  datatype Reply = Returns(payload: string) | Throws(error: Error)

  /** One attempted call on a collaborator, in the order `main` makes them. */
  datatype Event =
    | Setup(caHostName: string)
    | AdminEnrollment(mspId: string)
    | UserEnrollment(mspId: string, userId: string, affiliation: string)
    | GatewayConstruction
    | Connection(identity: string, discoveryEnabled: bool, asLocalhost: bool)
    | ContractResolution(channelName: string, chaincodeName: string)
    | Invoke(call: Call)
    | Disconnection

  /** How the environment behaves during one request: which setup step throws
      (if any), and how the ledger answers each transaction call. */
  datatype Collaborators = Collaborators(
    setupFault: Option<Error>,       // building the profile, the CA client or the wallet
    adminFault: Option<Error>,       // enrolling the admin
    userFault: Option<Error>,        // registering and enrolling the application user
    connectFault: Option<Error>,     // gateway.connect
    networkFault: Option<Error>,     // gateway.getNetwork
    ledger: Call -> Reply)

  /** Where a request stands with respect to its gateway. */
  datatype Phase =
    | Provisioning   // no gateway constructed yet
    | Created        // `new Gateway()` done
    | Connected      // connect succeeded
    | Ready          // network and contract resolved
    | Closed         // disconnected

  /** The collaborators as seen from one call of `main`. */
  class Client {
    const collaborators: Collaborators
    var phase: Phase
    var trace: seq<Event>

    constructor (collaborators: Collaborators)
      ensures this.collaborators == collaborators
      ensures phase == Provisioning && trace == []
    {
      this.collaborators := collaborators;
      phase := Provisioning;
      trace := [];
    }

    /** Builds the connection profile, the CA client for `caHostName` and the wallet. */
    method BuildClients(caHostName: string) returns (o: Outcome)
      requires phase == Provisioning
      modifies this
      ensures phase == Provisioning
      ensures trace == old(trace) + [Setup(caHostName)]
      ensures o.Fail? <==> collaborators.setupFault.Some?
      ensures o.Fail? ==> o.error == collaborators.setupFault.value
    {
      trace := trace + [Setup(caHostName)];
      o := OutcomeOf(collaborators.setupFault);
    }

    method EnrollAdmin(mspId: string) returns (o: Outcome)
      requires phase == Provisioning
      modifies this
      ensures phase == Provisioning
      ensures trace == old(trace) + [AdminEnrollment(mspId)]
      ensures o.Fail? <==> collaborators.adminFault.Some?
      ensures o.Fail? ==> o.error == collaborators.adminFault.value
    {
      trace := trace + [AdminEnrollment(mspId)];
      o := OutcomeOf(collaborators.adminFault);
    }

    method RegisterAndEnrollUser(mspId: string, userId: string, affiliation: string) returns (o: Outcome)
      requires phase == Provisioning
      modifies this
      ensures phase == Provisioning
      ensures trace == old(trace) + [UserEnrollment(mspId, userId, affiliation)]
      ensures o.Fail? <==> collaborators.userFault.Some?
      ensures o.Fail? ==> o.error == collaborators.userFault.value
    {
      trace := trace + [UserEnrollment(mspId, userId, affiliation)];
      o := OutcomeOf(collaborators.userFault);
    }

    /** `new Gateway()`: cannot fail. */
    method NewGateway()
      requires phase == Provisioning
      modifies this
      ensures phase == Created
      ensures trace == old(trace) + [GatewayConstruction]
    {
      trace := trace + [GatewayConstruction];
      phase := Created;
    }

    /** `gateway.connect` with the wallet identity `identity` and the discovery
        options: whether discovery is enabled and whether discovered endpoints
        are resolved against localhost. */
    method Connect(identity: string, discoveryEnabled: bool, asLocalhost: bool) returns (o: Outcome)
      requires phase == Created
      modifies this
      ensures trace == old(trace) + [Connection(identity, discoveryEnabled, asLocalhost)]
      ensures o.Fail? <==> collaborators.connectFault.Some?
      ensures o.Fail? ==> o.error == collaborators.connectFault.value
      ensures phase == if o.Pass? then Connected else Created
    {
      trace := trace + [Connection(identity, discoveryEnabled, asLocalhost)];
      o := OutcomeOf(collaborators.connectFault);
      if o.Pass? {
        phase := Connected;
      }
    }

    /** `gateway.getNetwork(channelName)` followed by `network.getContract(chaincodeName)`. */
    method ResolveContract(channelName: string, chaincodeName: string) returns (o: Outcome)
      requires phase == Connected
      modifies this
      ensures trace == old(trace) + [ContractResolution(channelName, chaincodeName)]
      ensures o.Fail? <==> collaborators.networkFault.Some?
      ensures o.Fail? ==> o.error == collaborators.networkFault.value
      ensures phase == if o.Pass? then Ready else Connected
    {
      trace := trace + [ContractResolution(channelName, chaincodeName)];
      o := OutcomeOf(collaborators.networkFault);
      if o.Pass? {
        phase := Ready;
      }
    }

    /** `contract.submitTransaction(name, ...args)`. */
    method SubmitTransaction(name: string, args: seq<string>) returns (r: Result<string>)
      requires phase == Ready
      modifies this
      ensures phase == Ready
      ensures trace == old(trace) + [Invoke(Call(Submit, name, args))]
      ensures r.Success? <==> collaborators.ledger(Call(Submit, name, args)).Returns?
      ensures r.Success? ==> r.value == collaborators.ledger(Call(Submit, name, args)).payload
      ensures r.Failure? ==> r.error == collaborators.ledger(Call(Submit, name, args)).error
    {
      var call := Call(Submit, name, args);
      trace := trace + [Invoke(call)];
      match collaborators.ledger(call)
      case Returns(payload) => r := Success(payload);
      case Throws(e) => r := Failure(e);
    }

    /** `contract.evaluateTransaction(name, ...args)`. */
    method EvaluateTransaction(name: string, args: seq<string>) returns (r: Result<string>)
      requires phase == Ready
      modifies this
      ensures phase == Ready
      ensures trace == old(trace) + [Invoke(Call(Evaluate, name, args))]
      ensures r.Success? <==> collaborators.ledger(Call(Evaluate, name, args)).Returns?
      ensures r.Success? ==> r.value == collaborators.ledger(Call(Evaluate, name, args)).payload
      ensures r.Failure? ==> r.error == collaborators.ledger(Call(Evaluate, name, args)).error
    {
      var call := Call(Evaluate, name, args);
      trace := trace + [Invoke(call)];
      match collaborators.ledger(call)
      case Returns(payload) => r := Success(payload);
      case Throws(e) => r := Failure(e);
    }

    /** `gateway.disconnect()`: allowed in every phase once the gateway exists,
        and cannot fail. */
    method Disconnect()
      requires phase != Provisioning
      modifies this
      ensures phase == Closed
      ensures trace == old(trace) + [Disconnection]
    {
      trace := trace + [Disconnection];
      phase := Closed;
    }
  }

  /** The transaction calls in a trace, in order. */
  function Invocations(trace: seq<Event>): (calls: seq<Call>)
    ensures |calls| <= |trace|
  {
    if trace == [] then []
    else
      var last := trace[|trace| - 1];
      Invocations(trace[..|trace| - 1]) + (if last.Invoke? then [last.call] else [])
  }

  /** The calls of a concatenation are the calls of each part, in order. */
  lemma {:induction false} InvocationsAppend(a: seq<Event>, b: seq<Event>)
    ensures Invocations(a + b) == Invocations(a) + Invocations(b)
    decreases |b|
  {
    if b == [] {
      assert a + b == a;
    } else {
      var n := |b| - 1;
      assert (a + b)[..|a| + n] == a + b[..n];
      assert (a + b)[|a| + n] == b[n];
      InvocationsAppend(a, b[..n]);
    }
  }
}
