# JIMM service-account ownership, modelled in Dafny

JIMM (Juju Intelligent Model Manager) decides who may administer a service
account by keeping relation tuples `(Object, Relation, Target)` in an OpenFGA
relation store. This project models the two operations of
`internal/jimm/service_account.go` over that store:

- **AddServiceAccount** claims an unowned service account for the calling
  user. It checks whether the user already holds `administrator`; if so it
  returns at once. Otherwise it reads the first page (size 10) of
  administrator tuples of the account with the subject left open. If the page
  is not empty it fails with "service account already owned". Only then does
  it write the single tuple `(user, administrator, serviceaccount)`.
- **GrantServiceAccountAccess** parses each textual entity. It rejects
  anything that is not a user or a group and turns a group into its `#member`
  subject. Only after every entity is accepted does it build one administrator
  tuple per entity and submit them all in one batched write.

Files:

- `wrappers.dfy`: `Option` (the Go `nil`/value pair) and `Result`.
- `errors.dfy`: the error shapes the operations build: `errors.E(op, err)`,
  `errors.E(op, "message")` and `errors.E(op, code, err)`.
- `names.dfy`: the closed `Kind` and `Relation` enumerations, the relation-store
  `Tag`, and the conversions `NewServiceAccountTag` and `ConvertTag`.
- `openfga.dfy`: `Tuple`, the partial read `Key`, and class `Client`, the
  store. It holds a mutable tuple set, the fault each kind of call reports
  (`Faults`), and a ghost record of every batch submitted to its write. `CheckRelation`, `ReadRelatedObjects` and `AddRelation` are
  methods on it.
- `service_account.dfy`: class `JIMM` with the two operations as methods.
  Beside it are the specification functions `ClaimResult` and `GrantResult`,
  which the methods are proved to follow, and the policy lemmas about them.

The injected tag parser (`ParseTag`) is a function-valued field of `JIMM`.
Nothing is assumed about it. The store's failures are its configured
`Faults`, so every error path is covered. "No write was attempted" is stated
directly: the store's record of submitted batches is unchanged. "No read was
attempted" is stated extensionally: the result does not depend on what the
read would have returned.

## Model

| member | source | states |
|---|---|---|
| `Names.ConvertTagInjective` | internal/jimm/service_account.go:21-27 | the user and service-account tag conversions are injective, never produce the same tag, and give bare tags with no subject relation |
| `OpenFGA.Client.CheckRelation` | internal/jimm/service_account.go:29-37 | reports the store's check error when there is one; otherwise `allowed` holds exactly when the tuple is in the store |
| `OpenFGA.Client.ReadRelatedObjects` | internal/jimm/service_account.go:39-45 | on success returns distinct stored tuples matching the key, `min(pageSize, number of matches)` of them in any order, with an empty continuation token exactly when nothing is left; on failure returns the store's error and no tuples |
| `OpenFGA.Client.AddRelation` | internal/jimm/service_account.go:51-54 | a successful write adds every tuple of the batch and nothing else; a failed write reports the store's error and changes nothing; either way the batch is appended to the record of submitted writes |
| `Jimm.OwnershipKeyMatchesAdministrators` | internal/jimm/service_account.go:22-25 | the ownership key, with its subject left empty, matches exactly the administrator tuples of the service account, so a read finds a match iff the account has an administrator |
| `Jimm.ClaimResult` | internal/jimm/service_account.go:18-56 | no failure path writes; at most the claim tuple is added, and only when the account had no administrator; on success the caller administers the account; every error carries the op `jimm.AddServiceAccount`; no diagnostics; at most one write, of the claim tuple alone, and only after a clean check and a read that found no administrator |
| `Jimm.ClaimEarlyReturn` | internal/jimm/service_account.go:29-37 | a caller who already administers the account gets success with the store unchanged and no write submitted, whatever the read and the write would do |
| `Jimm.ClaimAlreadyOwned` | internal/jimm/service_account.go:39-45 | a non-administrator claiming an account that has an administrator gets "service account already owned", the store is unchanged and no write is submitted |
| `Jimm.ClaimUnowned` | internal/jimm/service_account.go:46-55 | claiming an unowned account adds exactly `(user, administrator, serviceaccount(clientId))`, succeeds, and leaves the user as the sole administrator |
| `Jimm.ClaimPropagatesStoreErrors` | internal/jimm/service_account.go:29-54 | a failing check, read or write returns that store error wrapped with the op `jimm.AddServiceAccount`, the store is unchanged, and no later step runs |
| `Jimm.ClaimIdempotent` | internal/jimm/service_account.go:29-55 | repeating a successful claim by the same user succeeds without writing and leaves the store as the first call left it, whatever the second call's read and write would do |
| `Jimm.ClaimSoleOwnership` | internal/jimm/service_account.go:29-55 | on an unowned account, a claim by `u` followed by a claim by another user gives success then "already owned", and `u` is the only administrator |
| `Jimm.ValidateEntity` | internal/jimm/service_account.go:66-76 | an entity is accepted iff it parses to a user or a group; users are kept as parsed; groups keep kind and id and get the `member` relation; parse errors are wrapped with the op; any other kind gives "invalid entity - not user or group" |
| `Jimm.ValidateEntities` | internal/jimm/service_account.go:63-77 | on success gives one accepted tag per entity, in input order; on failure gives the error of the first rejected entity, all before it being accepted |
| `Jimm.FirstInvalidDecides` | internal/jimm/service_account.go:65-72 | validation stops at the first rejected entity and returns its error, whatever follows |
| `Jimm.AllValidDecides` | internal/jimm/service_account.go:65-77 | when every entity is accepted, validation returns exactly their tags |
| `Jimm.GrantResult` | internal/jimm/service_account.go:61-94 | a failure never writes; the store only grows, and only by administrator tuples on the given service account whose subject is a user or a group's members; every error carries the op; a diagnostic goes with an `OpenFGARequestFailed` error; exactly one batch is submitted when every entity is accepted, and none otherwise |
| `Jimm.GrantValidatesBeforeWrite` | internal/jimm/service_account.go:65-88 | if any entity is rejected, the first rejection is returned, the store is unchanged, nothing is logged, no write is submitted, and the result does not depend on the store's faults |
| `Jimm.GrantBatchInInputOrder` | internal/jimm/service_account.go:78-88 | when every entity is accepted, exactly one batch is submitted, whether the write then fails or not; it holds one tuple per entity, in input order, each with relation administrator and the service account as target |
| `Jimm.GrantAddsOneTuplePerEntity` | internal/jimm/service_account.go:73-93 | a successful grant adds exactly the administrator tuples of the accepted entities' tags and nothing else |
| `Jimm.GrantRewritesGroups` | internal/jimm/service_account.go:73-75 | a group entity is written as `group#member`, never as the group with any other subject relation or none |
| `Jimm.GrantWriteFailure` | internal/jimm/service_account.go:88-92 | a failed batch write, submitted once, returns `OpenFGARequestFailed` wrapping the store's error, logs it under `add-relation-error`, and leaves the store unchanged |
| `Jimm.ScenarioClaims` | internal/jimm/service_account.go:18-56 | on an empty store Alice's claim writes and adds her tuple, her second claim changes and writes nothing, and Bob's claim fails as already owned without writing; the method `ClaimScenarioOnStore` (no contract) replays the same three claims on a `Client` and a `JIMM` object |
| `Jimm.ScenarioGrantUserAndGroup` | internal/jimm/service_account.go:61-94 | granting `user-bob` and `group-ops` submits the one batch `[user-bob, group-ops#member]` and adds both tuples |
| `Jimm.ScenarioGrantRejectsModel` | internal/jimm/service_account.go:65-72 | granting `model-foo` returns "invalid entity - not user or group" with no write and the store unchanged |
| `Jimm.ScenarioGrantWriteFails` | internal/jimm/service_account.go:88-92 | a grant to `user-bob` while writes fail submits one batch, returns `OpenFGARequestFailed`, emits one diagnostic and stores nothing |
| `Jimm.JIMM.AddServiceAccount` | internal/jimm/service_account.go:18-56 | the check, read and write sequence leaves the store and returns the error exactly as `ClaimResult` says, and submits exactly the writes it lists |
| `Jimm.JIMM.GrantServiceAccountAccess` | internal/jimm/service_account.go:61-94 | the validation loop, the tuple-building loop and the batched write leave the store, return the error and append the diagnostics exactly as `GrantResult` says, and submits exactly the batch it lists, in input order |

## Left out

- `CheckRelation` is direct membership in the tuple set. OpenFGA's transitive evaluation (group membership, relation hierarchy) belongs to the external store.
- `ReadRelatedObjects` serves only the first page: the caller always passes an empty continuation token, so resuming from a token is not modelled. The returned token is an opaque non-empty string. A page size of zero is excluded.
- Store failures are one configured outcome per kind of call. A failed write commits nothing, because OpenFGA writes are transactional. Partially committed writes are not modelled.
- The race between concurrent claims (check/read, then write) and `ctx` cancellation are not modelled: each request is sequential.
- The `zapctx.Error` call is recorded as a `Diagnostic` in a ghost field of `JIMM`. Log output is not modelled.
- `ParseTag` is injected as a pure function. Its implementation, which may consult the database, is not part of this model. The source changes the relation of the `*Tag` it returns in place; the model updates a value, so aliasing of that tag is not modelled.
- `NewServiceAccountTag`, `ConvertTag` and `ResourceTag` have simple injective definitions. Their real packages are not part of this model.
- The errors package is reduced to the three `errors.E` shapes used here. How it derives a code from a wrapped error is not modelled.
- `GrantServiceAccountAccess` does not use `u`: whether `u` may grant is checked by the caller, and the model keeps the unused parameter.
- Tag rendering and parsing from text (a round trip) live outside the modelled file and are not modelled.
- The mock JIMM, the charm, the websocket handler, the macaroon authentication and the Mongo and dialing tests are not modelled: they are scaffolding and I/O with no policy logic.
- A store failure during a claim is returned wrapped with the op `jimm.AddServiceAccount` only; unlike the grant's failed write, no `OpenFGARequestFailed` code is attached. The model does the same.
- The claim uses `j.OpenFGAClient` and the grant uses `j.AuthorizationClient()`. The model assumes both are the same store client, one `Client` object; how `AuthorizationClient()` is wired is not part of this model.
- Which store calls a claim makes before its write is not recorded; only the writes are. That no read happens after an early return is stated as the result not depending on the read's outcome.
