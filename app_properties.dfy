/** What one call of `main` guarantees, stated over `Behaviour` (which the
    method `Execute` is proved to follow): which ledger calls it makes, when the
    gateway is released, which errors reach the caller and which strings it
    returns. */
module AppProperties {
  import opened Base
  import opened Fabric
  import opened AssetTable
  import opened App

  /** Provisioning succeeds and the gateway connects and resolves the contract. */
  predicate GatewayWorks(c: Collaborators) {
    ProvisioningSucceeds(c) && c.connectFault.None? && c.networkFault.None?
  }

  /** The fault of provisioning step `step`: building the clients and the
      wallet, enrolling the admin, registering and enrolling the user. */
  function ProvisioningFault(c: Collaborators, step: nat): Option<Error>
    requires step < 3
  {
    [c.setupFault, c.adminFault, c.userFault][step]
  }

  /** A call made through the gateway rather than by the provisioning helpers. */
  predicate GatewayEvent(e: Event) {
    !(e.Setup? || e.AdminEnrollment? || e.UserEnrollment?)
  }

  /** A trace without transaction events holds no transaction calls. */
  lemma {:induction false} NoInvocations(t: seq<Event>)
    requires forall i :: 0 <= i < |t| ==> !t[i].Invoke?
    ensures Invocations(t) == []
    decreases |t|
  {
    if t != [] {
      NoInvocations(t[..|t| - 1]);
    }
  }

  /** The ledger calls of the session: the routed call once the contract is
      resolved, none if connecting or resolving fails or the name is unknown. */
  lemma SessionCalls(c: Collaborators, json: JsonLib, req: Request)
    ensures Invocations(SessionBehaviour(c, json, req).trace) ==
              if c.connectFault.None? && c.networkFault.None? && Route(req).Some? then [Route(req).value] else []
  {
    var s := SessionBehaviour(c, json, req);
    var call := Route(req);
    if c.connectFault.None? && c.networkFault.None? && call.Some? {
      var resolved := [Connection(ORG1_USER_ID, true, true), ContractResolution(CHANNEL_NAME, CHAINCODE_NAME)];
      assert s.trace == resolved + [Invoke(call.value)];
      InvocationsAppend(resolved, [Invoke(call.value)]);
      NoInvocations(resolved);
      assert Invocations([Invoke(call.value)]) == [call.value];
    } else {
      NoInvocations(s.trace);
    }
  }

  /** With the identities in place, `main` is the gateway's construction, the
      session and the disconnect, and returns what the session returns. */
  lemma GatewayShape(c: Collaborators, json: JsonLib, req: Request)
    requires ProvisioningSucceeds(c)
    ensures var s := SessionBehaviour(c, json, req);
            Behaviour(c, json, req) ==
              Observation(PROVISIONING + [GatewayConstruction] + s.trace + [Disconnection], s.result)
  {
  }

  /** Without the identities, `main` is a non-empty prefix of the provisioning steps. */
  lemma ProvisioningShape(c: Collaborators, json: JsonLib, req: Request)
    requires !ProvisioningSucceeds(c)
    ensures var t := Behaviour(c, json, req).trace;
            1 <= |t| <= 3 && t == PROVISIONING[..|t|]
  {
  }

  /** The session's calls are the only ledger calls of `main`. */
  lemma GatewayCalls(c: Collaborators, json: JsonLib, req: Request)
    requires ProvisioningSucceeds(c)
    ensures Invocations(Behaviour(c, json, req).trace) == Invocations(SessionBehaviour(c, json, req).trace)
  {
    var s := SessionBehaviour(c, json, req);
    var head := PROVISIONING + [GatewayConstruction];
    GatewayShape(c, json, req);
    InvocationsAppend(head + s.trace, [Disconnection]);
    InvocationsAppend(head, s.trace);
    NoInvocations(head);
    NoInvocations([Disconnection]);
  }

  /** The ledger calls of one call of `main`: the routed call when the gateway
      works and the name is known, none otherwise. */
  lemma CallsOf(c: Collaborators, json: JsonLib, req: Request)
    ensures Invocations(Behaviour(c, json, req).trace) ==
              if GatewayWorks(c) && Route(req).Some? then [Route(req).value] else []
  {
    if ProvisioningSucceeds(c) {
      GatewayCalls(c, json, req);
      SessionCalls(c, json, req);
    } else {
      ProvisioningShape(c, json, req);
      NoInvocations(Behaviour(c, json, req).trace);
    }
  }

  /** Each of the seven known names makes exactly one ledger call, of that
      name, submitted for the four that change the ledger and evaluated for the
      three that read it. */
  lemma KnownOperationCallsOnce(c: Collaborators, json: JsonLib, req: Request)
    requires GatewayWorks(c) && req.functionName in KNOWN_OPERATIONS
    ensures var calls := Invocations(Behaviour(c, json, req).trace);
            && |calls| == 1
            && calls[0].name == req.functionName
            && (calls[0].kind == Submit <==> req.functionName in {"InitLedger", "CreateAsset", "UpdateAsset", "TransferAsset"})
            && (calls[0].kind == Evaluate <==> req.functionName in {"ReadAsset", "AssetExists", "GetAllAssets"})
  {
    CallsOf(c, json, req);
  }

  /** No call of `main` makes more than one ledger call: nothing is retried. */
  lemma AtMostOneCall(c: Collaborators, json: JsonLib, req: Request)
    ensures |Invocations(Behaviour(c, json, req).trace)| <= 1
  {
    CallsOf(c, json, req);
  }

  /** The argument lists: CreateAsset forwards the caller's five fields in
      order; the other operations use their own literals. */
  lemma OperationCalls(c: Collaborators, json: JsonLib, req: Request)
    requires GatewayWorks(c)
    ensures var calls := Invocations(Behaviour(c, json, req).trace);
            var name := req.functionName;
            && (name == "InitLedger" ==> calls == [Call(Submit, "InitLedger", [])])
            && (name == "CreateAsset" ==>
                  calls == [Call(Submit, "CreateAsset", [req.assetID, req.color, req.size, req.owner, req.appraisedValue])])
            && (name == "ReadAsset" ==> calls == [Call(Evaluate, "ReadAsset", ["asset313"])])
            && (name == "UpdateAsset" ==> calls == [Call(Submit, "UpdateAsset", ["asset1", "blue", "5", "Tomoko", "350"])])
            && (name == "AssetExists" ==> calls == [Call(Evaluate, "AssetExists", ["asset1"])])
            && (name == "TransferAsset" ==> calls == [Call(Submit, "TransferAsset", ["asset1", "Tom"])])
            && (name == "GetAllAssets" ==> calls == [Call(Evaluate, "GetAllAssets", [])])
            && (name !in KNOWN_OPERATIONS ==> calls == [])
  {
    CallsOf(c, json, req);
  }

  /** CreateAsset loses none of the caller's fields: two CreateAsset requests
      that make the same call are the same request. */
  lemma CreateAssetForwards(r1: Request, r2: Request)
    requires r1.functionName == r2.functionName == "CreateAsset"
    ensures Route(r1) == Route(r2) ==> r1 == r2
  {
  }

  /** Every other name ignores the caller's asset fields: two requests for the
      same name behave alike. */
  lemma OtherOperationsIgnoreFields(c: Collaborators, json: JsonLib, r1: Request, r2: Request)
    requires r1.functionName == r2.functionName != "CreateAsset"
    ensures Behaviour(c, json, r1) == Behaviour(c, json, r2)
  {
    assert Route(r1) == Route(r2);
  }

  /** An unknown name makes no ledger call and is not an error: the gateway is
      connected, the contract resolved and the gateway released as for any
      other name, and the result is the fixed string. */
  lemma UnknownOperation(c: Collaborators, json: JsonLib, req: Request)
    requires GatewayWorks(c) && req.functionName !in KNOWN_OPERATIONS
    ensures Behaviour(c, json, req) == Observation(
              PROVISIONING + [GatewayConstruction, Connection(ORG1_USER_ID, true, true),
                              ContractResolution(CHANNEL_NAME, CHAINCODE_NAME), Disconnection],
              Success(NOT_IMPLEMENTED))
    ensures Invocations(Behaviour(c, json, req).trace) == []
  {
    CallsOf(c, json, req);
  }

  /** Once the gateway is constructed it is disconnected exactly once; without
      a gateway there is nothing to disconnect. */
  lemma DisconnectExactlyOnce(c: Collaborators, json: JsonLib, req: Request)
    ensures var t := Behaviour(c, json, req).trace;
            && multiset(t)[GatewayConstruction] == (if ProvisioningSucceeds(c) then 1 else 0)
            && multiset(t)[Disconnection] == multiset(t)[GatewayConstruction]
  {
    var t := Behaviour(c, json, req).trace;
    if ProvisioningSucceeds(c) {
      var s := SessionBehaviour(c, json, req);
      assert t == PROVISIONING + [GatewayConstruction] + s.trace + [Disconnection];
      assert multiset(t) == multiset(PROVISIONING) + multiset([GatewayConstruction]) + multiset(s.trace) + multiset([Disconnection]);
      assert GatewayConstruction !in s.trace && Disconnection !in s.trace;
    }
  }

  /** Every call through the gateway comes after the three provisioning steps,
      in their order. */
  lemma ProvisioningPrecedesGateway(c: Collaborators, json: JsonLib, req: Request)
    ensures var t := Behaviour(c, json, req).trace;
            forall i :: 0 <= i < |t| && GatewayEvent(t[i]) ==> 3 <= i && t[..3] == PROVISIONING
  {
  }

  /** A failing provisioning step ends the call: the steps run in order up to
      the first that throws, its error reaches the caller, and no gateway is
      constructed and no ledger call made. */
  lemma ProvisioningFailureStops(c: Collaborators, json: JsonLib, req: Request)
    requires !ProvisioningSucceeds(c)
    ensures var b := Behaviour(c, json, req);
            var n := |b.trace|;
            && 1 <= n <= 3
            && b.trace == PROVISIONING[..n]
            && (forall step :: 0 <= step < n - 1 ==> ProvisioningFault(c, step).None?)
            && ProvisioningFault(c, n - 1).Some?
            && b.result == Failure(ProvisioningFault(c, n - 1).value)
            && GatewayConstruction !in b.trace
            && Invocations(b.trace) == []
  {
    CallsOf(c, json, req);
  }

  /** A failing connect, contract resolution or ledger call ends the session
      with that very error, after which the gateway is still released. */
  lemma ErrorsPropagate(c: Collaborators, json: JsonLib, req: Request)
    requires ProvisioningSucceeds(c)
    ensures var b := Behaviour(c, json, req);
            var head := PROVISIONING + [GatewayConstruction, Connection(ORG1_USER_ID, true, true)];
            && (c.connectFault.Some? ==>
                  b == Observation(head + [Disconnection], Failure(c.connectFault.value)))
            && (c.connectFault.None? && c.networkFault.Some? ==>
                  b == Observation(head + [ContractResolution(CHANNEL_NAME, CHAINCODE_NAME), Disconnection],
                                   Failure(c.networkFault.value)))
            && (GatewayWorks(c) && Route(req).Some? && c.ledger(Route(req).value).Throws? ==>
                  b == Observation(head + [ContractResolution(CHANNEL_NAME, CHAINCODE_NAME),
                                           Invoke(Route(req).value), Disconnection],
                                   Failure(c.ledger(Route(req).value).error)))
  {
  }

  /** The result string of each known operation whose ledger call returns
      `payload`; the table of GetAllAssets carries no prefix. */
  lemma ResultMessages(c: Collaborators, json: JsonLib, req: Request, payload: string)
    requires GatewayWorks(c) && Route(req).Some? && c.ledger(Route(req).value) == Returns(payload)
    ensures var r := Behaviour(c, json, req).result;
            var name := req.functionName;
            && (name == "InitLedger" ==> r == Success("Ledger initialized."))
            && (name == "CreateAsset" ==> r == PrettyPrinted("Asset created: ", json, payload))
            && (name == "ReadAsset" ==> r == PrettyPrinted("Asset details: ", json, payload))
            && (name == "UpdateAsset" ==> r == Success("Asset updated."))
            && (name == "AssetExists" ==> r == Success("Asset exists: " + payload))
            && (name == "TransferAsset" ==> r == Success("Asset transferred. Previous owner: " + payload))
            && (name == "GetAllAssets" ==>
                  r == match json.assetList(payload)
                       case Success(assets) => Success(Table(assets))
                       case Failure(e) => Failure(e))
  {
  }

  /** The fixed text each operation's successful result starts with; for an
      unknown name, the whole result. */
  function Prefix(name: string): string {
    if name == "InitLedger" then "Ledger initialized."
    else if name == "CreateAsset" then "Asset created: "
    else if name == "ReadAsset" then "Asset details: "
    else if name == "UpdateAsset" then "Asset updated."
    else if name == "AssetExists" then "Asset exists: "
    else if name == "TransferAsset" then "Asset transferred. Previous owner: "
    else if name == "GetAllAssets" then TABLE_OPEN
    else NOT_IMPLEMENTED
  }

  /** A successful result of a known operation starts with that operation's
      fixed text. */
  lemma ResultPrefix(name: string, payload: string, json: JsonLib)
    requires name in KNOWN_OPERATIONS && Normalize(name, payload, json).Success?
    ensures Prefix(name) <= Normalize(name, payload, json).value
  {
  }

  /** The known operation a result string comes from, read off its first and
      seventh characters; the empty name when it is none of them. */
  function OperationOf(result: string): (name: string)
    ensures name == "" || name in KNOWN_OPERATIONS
  {
    if |result| < 7 then ""
    else if result[0] == 'L' then "InitLedger"
    else if result[0] == '<' then "GetAllAssets"
    else if result[0] != 'A' then ""
    else if result[6] == 'c' then "CreateAsset"
    else if result[6] == 'd' then "ReadAsset"
    else if result[6] == 'u' then "UpdateAsset"
    else if result[6] == 'e' then "AssetExists"
    else if result[6] == 't' then "TransferAsset"
    else ""
  }

  /** The fixed text of each known operation names that operation, and the
      string of an unknown name names none. */
  lemma PrefixNamesOperation(name: string, r: string)
    requires Prefix(name) <= r
    ensures OperationOf(r) == if name in KNOWN_OPERATIONS then name else ""
  {
    var p := Prefix(name);
    assert |p| >= 7 && r[0] == p[0] && r[6] == p[6];
  }

  /** The result names the operation: a successful result of a known
      operation reads back to that operation, so no two known operations
      return the same string, and none returns the string of an unknown name. */
  lemma ResultIdentifiesOperation(n1: string, p1: string, j1: JsonLib, n2: string, p2: string, j2: JsonLib)
    requires n1 in KNOWN_OPERATIONS && n2 in KNOWN_OPERATIONS
    requires Normalize(n1, p1, j1).Success?
    ensures OperationOf(Normalize(n1, p1, j1).value) == n1
    ensures Normalize(n1, p1, j1) == Normalize(n2, p2, j2) ==> n1 == n2
    ensures Normalize(n1, p1, j1) != Success(NOT_IMPLEMENTED)
  {
    var r := Normalize(n1, p1, j1).value;
    ResultPrefix(n1, p1, j1);
    PrefixNamesOperation(n1, r);
    PrefixNamesOperation("", NOT_IMPLEMENTED);
    if Normalize(n1, p1, j1) == Normalize(n2, p2, j2) {
      ResultPrefix(n2, p2, j2);
      PrefixNamesOperation(n2, r);
    }
  }

  /** The GetAllAssets result: the table of the parsed asset list, which reads
      back to that list when no cell holds markup, and which is the bare header
      for an empty list. */
  lemma GetAllAssetsResult(c: Collaborators, json: JsonLib, req: Request, payload: string, assets: seq<Asset>)
    requires GatewayWorks(c) && req.functionName == "GetAllAssets"
    requires c.ledger(Call(Evaluate, "GetAllAssets", [])) == Returns(payload)
    requires json.assetList(payload) == Success(assets)
    ensures var r := Behaviour(c, json, req).result;
            && r == Success(Table(assets))
            && r.value[..|TABLE_OPEN + HEADER|] == TABLE_OPEN + HEADER
            && r.value[|r.value| - |TABLE_CLOSE|..] == TABLE_CLOSE
            && ((forall i :: 0 <= i < |assets| ==> PlainAsset(assets[i])) ==> ParseTable(r.value) == Some(assets))
            && (assets == [] ==> r.value == TABLE_OPEN + HEADER + TABLE_CLOSE)
  {
    var t := Table(assets);
    assert t == (TABLE_OPEN + HEADER) + (Rows(assets) + TABLE_CLOSE);
    assert t == (TABLE_OPEN + HEADER + Rows(assets)) + TABLE_CLOSE;
    if forall i :: 0 <= i < |assets| ==> PlainAsset(assets[i]) {
      TableRoundTrip(assets);
    }
    if assets == [] {
      EmptyTable();
    }
  }
}
