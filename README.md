# Asset-transfer web backend: the `main` request handler

This project models the request handler `main` of the asset-transfer web
backend (`app.js`). One call of `main`:

- provisions the identities: it builds the connection profile, the CA client and the wallet, enrolls the admin and registers and enrolls the application user;
- constructs a fabric-network `Gateway`, connects it with the user's identity and resolves the channel and the chaincode;
- maps the operation name to exactly one transaction call, either submitted (InitLedger, CreateAsset, UpdateAsset, TransferAsset) or evaluated (ReadAsset, AssetExists, GetAllAssets);
- turns the returned payload into a result string, which for GetAllAssets is an HTML table built row by row;
- disconnects the gateway in a `finally` clause, however the session ends.

Errors from every collaborator reach the caller unchanged.

Modules:

- `Base` (`base.dfy`): errors, `Option`, `Result` and `Outcome`.
- `Fabric` (`fabric.dfy`): the collaborators as a class `Client`. Each call appends an event to a `trace`. A `phase` field follows the gateway's life (provisioning, created, connected, ready, closed). A `Collaborators` value chooses which step throws and how the ledger answers each call.
- `AssetTable` (`asset_table.dfy`): the table renderer.
  - It has a specification function `Table` and the imperative `BuildTable` loop that is proved to compute it.
  - An independent parser `ParseTable` serves as its inverse. The round trip is proved for cells without markup.
  - A counterexample shows that unescaped cells make different asset lists render to the same table.
- `App` (`app.dfy`): the handler.
  - The functions `Route`, `Normalize`, `SessionBehaviour` and `Behaviour` state what one call does.
  - The methods `RunSession` (the inner `try` block) and `Execute` (the whole of `main`) are proved to change the client's trace and to return exactly what those functions say.
- `AppProperties` (`app_properties.dfy`): the guarantees of one call, proved over `Behaviour`. They cover the ledger calls made, the single disconnect, the provisioning order, error propagation and the result strings.

Four facts about `main` that shape the model:

- An unknown operation name is not an error (app.js:89-91). The handler still connects and resolves the contract, makes no ledger call, returns the string `Function not implemented.` and disconnects.
- ReadAsset, UpdateAsset, AssetExists and TransferAsset ignore the caller's fields and use literals (app.js:55, 58, 61, 64): 'asset313'; 'asset1', 'blue', '5', 'Tomoko', '350'; 'asset1'; 'asset1', 'Tom'. Only CreateAsset forwards the five fields (app.js:51).
- Provisioning (app.js:28-33) runs before `new Gateway()` (app.js:35).
- The outer `catch` rethrows each error as it is (app.js:101-103).

## Model

| member | source | states |
|---|---|---|
| `Fabric.Client.constructor` | app.js:26 | a fresh call of `main` has made no calls and holds no gateway |
| `Fabric.Client.BuildClients` | app.js:28-30 | building the profile, CA client and wallet is recorded and either completes or throws the injected error; it needs and keeps the provisioning phase |
| `Fabric.Client.EnrollAdmin` | app.js:32 | enrolling the admin for the MSP is recorded and completes or throws |
| `Fabric.Client.RegisterAndEnrollUser` | app.js:33 | registering and enrolling the user with its affiliation is recorded and completes or throws |
| `Fabric.Client.NewGateway` | app.js:35 | constructing the gateway cannot fail and moves to the created phase |
| `Fabric.Client.Connect` | app.js:37-41 | connecting with the identity and the discovery options (enabled, resolved against localhost) is recorded; the gateway is connected exactly when it does not throw, and a thrown error is the injected one |
| `Fabric.Client.ResolveContract` | app.js:43-44 | resolving the channel and the chaincode is recorded; the contract is ready exactly when it does not throw |
| `Fabric.Client.SubmitTransaction` | app.js:48 | a submitted call is recorded as (submit, name, arguments); it succeeds exactly when the ledger returns, with that payload, and otherwise fails with the ledger's own error |
| `Fabric.Client.EvaluateTransaction` | app.js:55 | an evaluated call is recorded as (evaluate, name, arguments); it succeeds exactly when the ledger returns, with that payload, and otherwise fails with the ledger's own error |
| `Fabric.Client.Disconnect` | app.js:98-100 | disconnecting is allowed in every phase after construction, cannot fail and closes the gateway |
| `Fabric.InvocationsAppend` | app.js:47-87 | the transaction calls of a concatenated trace are those of each part, in order |
| `AssetTable.Cell` | app.js:77-81 | definition (no `ensures`): one `<td>` template around a cell text; `CellRoundTrip` gives it meaning |
| `AssetTable.Row` | app.js:76-82 | definition (no `ensures`): the row tag, the five cells ID, Color, Size, Owner, AppraisedValue and the closing tag; `RowRoundTrip` and `AppendAssetRow` give it meaning |
| `AssetTable.Table` | app.js:73-86 | definition (no `ensures`): `<table>`, the header row, the rows in input order and `</table>`; `TableRoundTrip`, `EmptyTable`, `UnescapedCellsCollide` and `BuildTable` give it meaning |
| `AssetTable.AppendAssetRow` | app.js:76-82 | the seven appends for one asset extend the table by exactly that asset's row: ID, Color, Size, Owner, AppraisedValue cells |
| `AssetTable.AppendAssetRows` | app.js:75-83 | the `forEach` loop appends one row per asset, in input order |
| `AssetTable.BuildTable` | app.js:73-86 | the built string is `<table>`, the five-column header, the rows in order and `</table>` |
| `AssetTable.ConcatCons` | app.js:75-83 | rendering a list is rendering its first element followed by the rest |
| `AssetTable.ConcatFirst` | app.js:75-83 | the rows of a non-empty list followed by any text start with the first asset's row |
| `AssetTable.AppendRow` | app.js:76-82 | the seven pieces appended for one asset together make its row |
| `AssetTable.ExpectPrefix` | app.js:73-84 | the reader consumes exactly a fixed tag written in front of the text |
| `AssetTable.TextLengthPlain` | app.js:77-81 | the reader of a cell text stops exactly where a markup-free text ends |
| `AssetTable.CellRoundTrip` | app.js:77-81 | a cell without markup reads back to its text and the rest of the input |
| `AssetTable.RowShape` | app.js:76-82 | a row is the row tag, five cells and the closing tag, in that order |
| `AssetTable.RowRoundTrip` | app.js:76-82 | a row of a markup-free asset reads back to that asset |
| `AssetTable.RowsRoundTripStep` | app.js:75-83 | reading the rows of a list takes the first row and then the rows of the rest |
| `AssetTable.RowsRoundTrip` | app.js:75-83 | the rows of markup-free assets read back to the same list, in order, and stop at a non-row |
| `AssetTable.TableRoundTrip` | app.js:73-86 | the table of markup-free assets reads back to exactly that list, so no asset is lost, added or reordered |
| `AssetTable.EmptyTable` | app.js:73-74 | an empty list gives the opening tag, the header row and the closing tag only |
| `AssetTable.UnescapedCellsCollide` | app.js:77-81 | two different asset lists render to the same table because cell texts are not escaped |
| `App.Route` | app.js:47-91 | a call is made exactly for the seven known names, under the name itself; it is submitted exactly for InitLedger, CreateAsset, UpdateAsset and TransferAsset and evaluated exactly for ReadAsset, AssetExists and GetAllAssets |
| `App.PrettyPrinted` | app.js:22-24 | definition (no `ensures`): the fixed prefix followed by the re-printed JSON of the payload, or the JSON library's error, as `prettyJSONString` and its uses at app.js:53 and 56; `ResultMessages` gives it meaning |
| `App.Normalize` | app.js:49-86 | definition (no `ensures`): the result string of each known operation made from its payload; `ResultMessages`, `ResultPrefix` and `ResultIdentifiesOperation` give it meaning |
| `App.SessionBehaviour` | app.js:36-97 | the session starts by connecting with the user identity and discovery enabled against localhost, makes only connect, resolve and transaction calls (so never disconnects by itself), and ends at once with the connect error if connecting throws |
| `App.Behaviour` | app.js:26-104 | a gateway is constructed exactly when provisioning succeeds; it is then preceded by the three provisioning steps and followed by one disconnect as the last call; otherwise the call fails without disconnecting |
| `App.RunSession` | app.js:36-97 | the inner `try` block makes the calls and returns the result that `SessionBehaviour` describes; it leaves the gateway created if connecting throws, connected if resolving throws, and ready otherwise |
| `App.Execute` | app.js:26-104 | `main` makes the calls and returns the result that `Behaviour` describes; the gateway ends closed exactly when provisioning succeeded |
| `AppProperties.GatewayShape` | app.js:35-100 | after provisioning, `main` is the construction, the session and a disconnect, and returns the session's result |
| `AppProperties.ProvisioningShape` | app.js:28-33 | when provisioning fails, the calls made are a non-empty prefix of the three provisioning steps |
| `AppProperties.SessionCalls` | app.js:36-91 | the session makes the routed ledger call if connecting and resolving succeed and the name is known, and none otherwise |
| `AppProperties.GatewayCalls` | app.js:35-100 | the only ledger calls of `main` are those of its session |
| `AppProperties.CallsOf` | app.js:26-104 | `main` makes exactly the routed ledger call when everything up to the contract succeeds and the name is known, and no ledger call otherwise |
| `AppProperties.KnownOperationCallsOnce` | app.js:47-87 | each known name makes exactly one ledger call, of that name, submitted for the four state-changing names and evaluated for the three reading ones |
| `AppProperties.AtMostOneCall` | app.js:101-103 | no call of `main` makes more than one ledger call, so nothing is retried |
| `AppProperties.OperationCalls` | app.js:47-91 | the exact call per name: CreateAsset forwards assetID, color, size, owner and appraisedValue in order; ReadAsset uses 'asset313'; UpdateAsset uses 'asset1', 'blue', '5', 'Tomoko', '350'; AssetExists uses 'asset1'; TransferAsset uses 'asset1', 'Tom'; InitLedger and GetAllAssets use none; an unknown name makes no call |
| `AppProperties.CreateAssetForwards` | app.js:51 | two CreateAsset requests that make the same call carry the same five fields |
| `AppProperties.OtherOperationsIgnoreFields` | app.js:55-69 | for every other name the caller's fields change nothing in what `main` does |
| `AppProperties.UnknownOperation` | app.js:89-91 | an unknown name connects, resolves, makes no ledger call, disconnects and returns 'Function not implemented.' instead of failing |
| `AppProperties.DisconnectExactlyOnce` | app.js:35-100 | the gateway is constructed at most once, and it is disconnected exactly as many times as it is constructed |
| `AppProperties.ProvisioningPrecedesGateway` | app.js:28-35 | every call through the gateway comes after setup, admin enrollment and user enrollment, in that order |
| `AppProperties.ProvisioningFailureStops` | app.js:28-33 | provisioning steps run in order up to the first that throws; that step's error is the result; no gateway is constructed and no ledger call made |
| `AppProperties.ErrorsPropagate` | app.js:37-103 | a connect, network or ledger error is the result as it is, and the gateway is still disconnected as the last call |
| `AppProperties.ResultMessages` | app.js:47-87 | the result per name when the ledger returns a payload: the fixed messages, the payload after the AssetExists and TransferAsset prefixes, the re-printed JSON after the CreateAsset and ReadAsset prefixes, and the bare table for GetAllAssets |
| `AppProperties.ResultPrefix` | app.js:49-86 | every successful result of a known name starts with that name's fixed text |
| `AppProperties.OperationOf` | app.js:49-90 | reading a result back yields a known name or none |
| `AppProperties.PrefixNamesOperation` | app.js:49-90 | a string that starts with a name's fixed text reads back to that name, and the unknown-name string reads back to none |
| `AppProperties.ResultIdentifiesOperation` | app.js:47-91 | a successful result reads back to its operation, so two different known names never return the same string and none returns 'Function not implemented.' |
| `AppProperties.GetAllAssetsResult` | app.js:68-86 | GetAllAssets returns the table of the parsed list with no prefix; it starts with `<table>` and the header and ends with `</table>`; it reads back to the list when no cell holds markup, and it is the bare header for an empty list |

## Left out

- HTTP plumbing is not modelled, because it only relays `main`'s result (app.js:110-153). This covers the Express routes, the query-string reading, `res.json`/`res.send`, static file serving and `app.listen`. It also covers the route at app.js:134, which the parameterised route registered before it shadows.
- Undefined request fields are not modelled: a request here always carries five strings. The generic route calls `main(functionName)` without fields, so JavaScript passes `undefined` (app.js:124). The CreateAsset route passes `req.query` values, which are `undefined` when a query parameter is missing (app.js:115-121).
- The channel and chaincode names are their defaults 'mychannel' and 'basic'. Overriding them through the environment (app.js:15-16) is configuration and not modelled.
- `console.error` logging is I/O and not modelled.
- CAUtil.js and AppUtil.js (`buildCCPOrg1`, `buildCAClient`, `buildWallet`, `enrollAdmin`, `registerAndEnrollUser`) are not part of this model. Each is a step that completes or throws an injected error.
  - Whether enrollment is skipped for identities already in the wallet is therefore not stated.
  - `Fabric.Client.BuildClients` merges the three builders into one step that fails as a whole.
- The fabric-network `Gateway`, `Network` and `Contract` internals are not modelled: discovery, endorsement and ordering.
  - `getNetwork` and the synchronous `getContract` are one step that may throw.
  - `disconnect` is taken never to throw.
  - `Fabric.Client.NewGateway`: `new Gateway()` (app.js:35) is taken never to throw.
  - The connection profile and the wallet passed to `gateway.connect` (app.js:37-38) are not carried as values. They are the ones the setup step built. The recorded connect event holds the identity and the two discovery options.
- JSON handling is a pair of function parameters (`JsonLib`): `JSON.parse`/`JSON.stringify` with two-space indentation (app.js:22-24, 52-53) and the parse of the asset list (app.js:70).
  - Turning each parsed record's fields into the text a template literal prints is part of that parameter. This includes `undefined` for a missing field.
  - A payload that is not an array is a failure of that parameter.
- Payload buffers are already-decoded text. UTF-8 decoding is not modelled.
- `async`/`await` scheduling and concurrent requests are not modelled: one call of `main` is a sequential procedure.
- `AssetTable.TableRoundTrip` is stated only for cell texts without `<`. With markup in a cell the table is ambiguous, as `AssetTable.UnescapedCellsCollide` shows.
