/** The request handler `main`: it provisions the identities, opens a gateway,
    maps the operation name to one transaction call, turns the payload into a
    result string, and disconnects the gateway on every way out of the session.

    The functions `Route`, `Normalize`, `SessionBehaviour` and `Behaviour` say
    what one call does; the methods `RunSession` and `Execute` do it step by
    step against the collaborators and are proved to match. */
module App {
  import opened Base
  import opened Fabric
  import opened AssetTable

  const MSP_ORG1: string := "Org1MSP"
  const ORG1_USER_ID: string := "javascriptAppUser"
  const AFFILIATION: string := "org1.department1"
  const CA_HOST_NAME: string := "ca.org1.example.com"
  /** The channel and chaincode names when no environment variable overrides them. */
  const CHANNEL_NAME: string := "mychannel"
  const CHAINCODE_NAME: string := "basic"

  const NOT_IMPLEMENTED: string := "Function not implemented."

  const SUBMIT_OPERATIONS: set<string> := {"InitLedger", "CreateAsset", "UpdateAsset", "TransferAsset"}
  const EVALUATE_OPERATIONS: set<string> := {"ReadAsset", "AssetExists", "GetAllAssets"}
  const KNOWN_OPERATIONS: set<string> := SUBMIT_OPERATIONS + EVALUATE_OPERATIONS

  /** The arguments of one call of `main`. */
  datatype Request = Request(
    functionName: string,
    assetID: string,
    color: string,
    size: string,
    owner: string,
    appraisedValue: string)

  /** The JSON library as `main` uses it: parsing a payload and printing it
      again with two-space indentation, and parsing a payload into the list of
      asset records that the table loop walks. Either may throw. */
  datatype JsonLib = JsonLib(
    prettyPrint: string -> Result<string>,
    assetList: string -> Result<seq<Asset>>)

  /** What one call of `main` (or of its inner session) does: the calls it
      makes on the collaborators, in order, and what it returns or throws. */
  datatype Observation = Observation(trace: seq<Event>, result: Result<string>)

  /** The transaction call an operation name leads to, if any. */
  function Route(req: Request): (call: Option<Call>)
    ensures call.Some? <==> req.functionName in KNOWN_OPERATIONS
    ensures call.Some? ==> call.value.name == req.functionName
    ensures call.Some? ==> (call.value.kind == Submit <==> req.functionName in SUBMIT_OPERATIONS)
    ensures call.Some? ==> (call.value.kind == Evaluate <==> req.functionName in EVALUATE_OPERATIONS)
  {
    var name := req.functionName;
    if name == "InitLedger" then
      Some(Call(Submit, "InitLedger", []))
    else if name == "CreateAsset" then
      Some(Call(Submit, "CreateAsset", [req.assetID, req.color, req.size, req.owner, req.appraisedValue]))
    else if name == "ReadAsset" then
      Some(Call(Evaluate, "ReadAsset", ["asset313"]))
    else if name == "UpdateAsset" then
      Some(Call(Submit, "UpdateAsset", ["asset1", "blue", "5", "Tomoko", "350"]))
    else if name == "AssetExists" then
      Some(Call(Evaluate, "AssetExists", ["asset1"]))
    else if name == "TransferAsset" then
      Some(Call(Submit, "TransferAsset", ["asset1", "Tom"]))
    else if name == "GetAllAssets" then
      Some(Call(Evaluate, "GetAllAssets", []))
    else
      None
  }

  /** `prefix` followed by the re-printed JSON, or the parser's error. */
  function PrettyPrinted(prefix: string, json: JsonLib, payload: string): Result<string> {
    match json.prettyPrint(payload)
    case Success(text) => Success(prefix + text)
    case Failure(e) => Failure(e)
  }

  /** The result string a known operation makes of its transaction's payload. */
  function Normalize(name: string, payload: string, json: JsonLib): Result<string>
    requires name in KNOWN_OPERATIONS
  {
    if name == "InitLedger" then Success("Ledger initialized.")
    else if name == "CreateAsset" then PrettyPrinted("Asset created: ", json, payload)
    else if name == "ReadAsset" then PrettyPrinted("Asset details: ", json, payload)
    else if name == "UpdateAsset" then Success("Asset updated.")
    else if name == "AssetExists" then Success("Asset exists: " + payload)
    else if name == "TransferAsset" then Success("Asset transferred. Previous owner: " + payload)
    else
      match json.assetList(payload)
      case Success(assets) => Success(Table(assets))
      case Failure(e) => Failure(e)
  }

  /** The inner `try` block, from `gateway.connect` to the returned result; the
      `finally` clause is not part of it. */
  function SessionBehaviour(c: Collaborators, json: JsonLib, req: Request): (b: Observation)
    ensures forall e :: e in b.trace ==> e.Connection? || e.ContractResolution? || e.Invoke?
    ensures |b.trace| >= 1 && b.trace[0] == Connection(ORG1_USER_ID, true, true)
    ensures c.connectFault.Some? ==> b == Observation([Connection(ORG1_USER_ID, true, true)], Failure(c.connectFault.value))
  {
    var connected := [Connection(ORG1_USER_ID, true, true)];
    var resolved := connected + [ContractResolution(CHANNEL_NAME, CHAINCODE_NAME)];
    if c.connectFault.Some? then Observation(connected, Failure(c.connectFault.value))
    else if c.networkFault.Some? then Observation(resolved, Failure(c.networkFault.value))
    else
      match Route(req)
      case None => Observation(resolved, Success(NOT_IMPLEMENTED))
      case Some(call) =>
        var result :=
          match c.ledger(call)
          case Throws(e) => Failure(e)
          case Returns(payload) => Normalize(req.functionName, payload, json);
        Observation(resolved + [Invoke(call)], result)
  }

  predicate ProvisioningSucceeds(c: Collaborators) {
    c.setupFault.None? && c.adminFault.None? && c.userFault.None?
  }

  /** The calls made before any gateway exists. */
  const PROVISIONING: seq<Event> := [
    Setup(CA_HOST_NAME),
    AdminEnrollment(MSP_ORG1),
    UserEnrollment(MSP_ORG1, ORG1_USER_ID, AFFILIATION)]

  /** One whole call of `main`. */
  function Behaviour(c: Collaborators, json: JsonLib, req: Request): (b: Observation)
    ensures GatewayConstruction in b.trace <==> ProvisioningSucceeds(c)
    ensures ProvisioningSucceeds(c) ==>
              && |b.trace| >= 5
              && b.trace[..4] == PROVISIONING + [GatewayConstruction]
              && b.trace[|b.trace| - 1] == Disconnection
              && Disconnection !in b.trace[..|b.trace| - 1]
    ensures !ProvisioningSucceeds(c) ==> Disconnection !in b.trace && b.result.Failure?
  {
    var setup := PROVISIONING[..1];
    var admin := PROVISIONING[..2];
    if c.setupFault.Some? then Observation(setup, Failure(c.setupFault.value))
    else if c.adminFault.Some? then Observation(admin, Failure(c.adminFault.value))
    else if c.userFault.Some? then Observation(PROVISIONING, Failure(c.userFault.value))
    else
      var session := SessionBehaviour(c, json, req);
      var trace := PROVISIONING + [GatewayConstruction] + session.trace + [Disconnection];
      assert trace[..|trace| - 1] == PROVISIONING + [GatewayConstruction] + session.trace;
      assert trace[..4] == PROVISIONING + [GatewayConstruction];
      Observation(trace, session.result)
  }

  /** The inner `try` block, step by step: connect, resolve the contract, then
      the chain of operation-name tests, each making its one transaction call and
      building its result. A throwing call ends the block with its error. */
  method RunSession(client: Client, json: JsonLib, req: Request) returns (result: Result<string>)
    requires client.phase == Created
    modifies client
    ensures client.phase == if client.collaborators.connectFault.Some? then Created
                            else if client.collaborators.networkFault.Some? then Connected
                            else Ready
    ensures client.trace == old(client.trace) + SessionBehaviour(client.collaborators, json, req).trace
    ensures result == SessionBehaviour(client.collaborators, json, req).result
  {
    var o := client.Connect(ORG1_USER_ID, true, true);
    if o.Fail? {
      return Failure(o.error);
    }
    o := client.ResolveContract(CHANNEL_NAME, CHAINCODE_NAME);
    if o.Fail? {
      return Failure(o.error);
    }
    var functionName := req.functionName;
    if functionName == "InitLedger" {
      var r := client.SubmitTransaction("InitLedger", []);
      if r.Failure? {
        return Failure(r.error);
      }
      result := Success("Ledger initialized.");
    } else if functionName == "CreateAsset" {
      var assetBuffer := client.SubmitTransaction("CreateAsset", [req.assetID, req.color, req.size, req.owner, req.appraisedValue]);
      if assetBuffer.Failure? {
        return Failure(assetBuffer.error);
      }
      var asset := json.prettyPrint(assetBuffer.value);
      if asset.Failure? {
        return Failure(asset.error);
      }
      result := Success("Asset created: " + asset.value);
    } else if functionName == "ReadAsset" {
      var asset := client.EvaluateTransaction("ReadAsset", ["asset313"]);
      if asset.Failure? {
        return Failure(asset.error);
      }
      var pretty := json.prettyPrint(asset.value);
      if pretty.Failure? {
        return Failure(pretty.error);
      }
      result := Success("Asset details: " + pretty.value);
    } else if functionName == "UpdateAsset" {
      var r := client.SubmitTransaction("UpdateAsset", ["asset1", "blue", "5", "Tomoko", "350"]);
      if r.Failure? {
        return Failure(r.error);
      }
      result := Success("Asset updated.");
    } else if functionName == "AssetExists" {
      var existsReply := client.EvaluateTransaction("AssetExists", ["asset1"]);
      if existsReply.Failure? {
        return Failure(existsReply.error);
      }
      result := Success("Asset exists: " + existsReply.value);
    } else if functionName == "TransferAsset" {
      var oldOwner := client.SubmitTransaction("TransferAsset", ["asset1", "Tom"]);
      if oldOwner.Failure? {
        return Failure(oldOwner.error);
      }
      result := Success("Asset transferred. Previous owner: " + oldOwner.value);
    } else if functionName == "GetAllAssets" {
      var assets := client.EvaluateTransaction("GetAllAssets", []);
      if assets.Failure? {
        return Failure(assets.error);
      }
      var assetsData := json.assetList(assets.value);
      if assetsData.Failure? {
        return Failure(assetsData.error);
      }
      var tableHTML := BuildTable(assetsData.value);
      return Success(tableHTML);
    } else {
      result := Success(NOT_IMPLEMENTED);
    }
  }

  /** `main`: provisioning, then the gateway with its session and a
      disconnect that runs however the session ends. The outer `catch` only
      rethrows, so every error leaves unchanged. */
  method Execute(client: Client, json: JsonLib, req: Request) returns (result: Result<string>)
    requires client.phase == Provisioning
    modifies client
    ensures client.trace == old(client.trace) + Behaviour(client.collaborators, json, req).trace
    ensures result == Behaviour(client.collaborators, json, req).result
    ensures client.phase == if ProvisioningSucceeds(client.collaborators) then Closed else Provisioning
  {
    var o := client.BuildClients(CA_HOST_NAME);
    if o.Fail? {
      return Failure(o.error);
    }
    o := client.EnrollAdmin(MSP_ORG1);
    if o.Fail? {
      return Failure(o.error);
    }
    o := client.RegisterAndEnrollUser(MSP_ORG1, ORG1_USER_ID, AFFILIATION);
    if o.Fail? {
      return Failure(o.error);
    }
    client.NewGateway();
    ghost var built := client.trace;
    result := RunSession(client, json, req);
    ghost var session := SessionBehaviour(client.collaborators, json, req);
    assert client.trace == built + session.trace;
    client.Disconnect();
    assert client.trace == old(client.trace) + (PROVISIONING + [GatewayConstruction] + session.trace + [Disconnection]);
  }
}
