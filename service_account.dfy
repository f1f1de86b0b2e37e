/**
 * The service-account ownership policy: claiming an unowned service account
 * (AddServiceAccount) and granting administrator access on it to users and
 * groups (GrantServiceAccountAccess).
 *
 * Each operation is specified by a function of the store's tuples and the
 * store's configured faults (ClaimResult, GrantResult); the methods of class
 * JIMM are proved to follow them, and the lemmas state the policy.
 */
module Jimm {
  import opened Wrappers
  import opened Errors
  import opened Names
  import opened OpenFGA

  const AddServiceAccountOp: Op := "jimm.AddServiceAccount"
  const GrantServiceAccountAccessOp: Op := "jimm.GrantServiceAccountAccess"

  /** How many administrator tuples the claim reads to decide whether an owner exists. */
  const OwnershipPageSize: nat := 10

  const AlreadyOwnedMessage := "service account already owned"
  const InvalidEntityMessage := "invalid entity - not user or group"
  const AddRelationFailedMessage := "failed to add tuple(s)"
  const AddRelationErrorKey := "add-relation-error"

  /** A structured diagnostic: a message and one named error field. */
  datatype Diagnostic = Diagnostic(message: string, key: string, err: Error)

  /**
   * What an operation leaves behind: the store's tuples, the returned error,
   * the diagnostics emitted, and the batches it submitted to the store's write.
   */
  datatype Effect = Effect(tuples: set<Tuple>, err: Option<Error>, diagnostics: seq<Diagnostic>, writes: seq<seq<Tuple>>)

  /** The relation-store tag of the service account with this client id. */
  function ServiceAccountEntity(clientId: string): Tag
  {
    ConvertServiceAccountTag(NewServiceAccountTag(clientId))
  }

  function UserEntity(u: User): Tag
  {
    ConvertUserTag(ResourceTag(u))
  }

  /** The ownership read: administrators of the service account, any subject. */
  function OwnershipKey(clientId: string): Key
  {
    Key(None, AdministratorRelation, ServiceAccountEntity(clientId))
  }

  /** The tuple a successful claim by `u` writes. */
  function ClaimTuple(u: User, clientId: string): Tuple
  {
    Tuple(UserEntity(u), AdministratorRelation, ServiceAccountEntity(clientId))
  }

  /** The subjects holding administrator on `target`. */
  function Administrators(tuples: set<Tuple>, target: Tag): set<Tag>
  {
    set t | t in tuples && t.relation == AdministratorRelation && t.target == target :: t.subject
  }

  /** The ownership key matches exactly the administrator tuples of the service account. */
  lemma OwnershipKeyMatchesAdministrators(tuples: set<Tuple>, clientId: string)
    ensures forall t | t in tuples :: Matches(OwnershipKey(clientId), t) <==>
      t.relation == AdministratorRelation && t.target == ServiceAccountEntity(clientId)
    ensures Matching(tuples, OwnershipKey(clientId)) == {} <==>
      Administrators(tuples, ServiceAccountEntity(clientId)) == {}
  {
    var s := ServiceAccountEntity(clientId);
    if Administrators(tuples, s) != {} {
      var a :| a in Administrators(tuples, s);
      var t :| t in tuples && t.relation == AdministratorRelation && t.target == s && t.subject == a;
      assert t in Matching(tuples, OwnershipKey(clientId));
    }
    if Matching(tuples, OwnershipKey(clientId)) != {} {
      var t :| t in Matching(tuples, OwnershipKey(clientId));
      assert t.subject in Administrators(tuples, s);
    }
  }

  // ---------------------------------------------------------------------------
  // AddServiceAccount

  /**
   * The effect of AddServiceAccount(u, clientId) on a store holding `tuples`
   * whose calls fail as `faults` says: check, then read, then write, stopping
   * at the first failure or decision.
   */
  function ClaimResult(tuples: set<Tuple>, faults: Faults, u: User, clientId: string): (r: Effect)
    // No failure path writes.
    ensures r.err.Some? ==> r.tuples == tuples
    // At most the claim tuple is added, and only to an account nobody administers.
    ensures tuples <= r.tuples && r.tuples - tuples <= {ClaimTuple(u, clientId)}
    ensures r.tuples != tuples ==> Administrators(tuples, ServiceAccountEntity(clientId)) == {}
    // On success the caller administers the service account.
    ensures r.err.None? ==> ClaimTuple(u, clientId) in r.tuples
    // Every error names the operation; the claim emits no diagnostics.
    ensures r.err.Some? ==> r.err.value.op == AddServiceAccountOp
    ensures r.diagnostics == []
    // At most one write, of the claim tuple alone, and only after a clean check
    // and a read that found no administrator.
    ensures r.writes == [] || r.writes == [[ClaimTuple(u, clientId)]]
    ensures r.writes != [] ==> (faults.check.None? && ClaimTuple(u, clientId) !in tuples &&
      faults.read.None? && Administrators(tuples, ServiceAccountEntity(clientId)) == {})
  {
    OwnershipKeyMatchesAdministrators(tuples, clientId);
    var claim := ClaimTuple(u, clientId);
    if faults.check.Some? then
      Effect(tuples, Some(WrapError(AddServiceAccountOp, faults.check.value)), [], [])
    else if claim in tuples then
      Effect(tuples, None, [], [])
    else if faults.read.Some? then
      Effect(tuples, Some(WrapError(AddServiceAccountOp, faults.read.value)), [], [])
    else if Matching(tuples, OwnershipKey(clientId)) != {} then
      Effect(tuples, Some(NewError(AddServiceAccountOp, AlreadyOwnedMessage)), [], [])
    else if faults.write.Some? then
      Effect(tuples, Some(WrapError(AddServiceAccountOp, faults.write.value)), [], [[claim]])
    else
      Effect(tuples + {claim}, None, [], [[claim]])
  }

  /**
   * A caller who already administers the account gets success straight after
   * the check: the store is untouched, and what a read or write would do is
   * irrelevant (neither is attempted).
   */
  lemma ClaimEarlyReturn(tuples: set<Tuple>, u: User, clientId: string)
    requires ClaimTuple(u, clientId) in tuples
    ensures forall read, write :: ClaimResult(tuples, Faults(None, read, write), u, clientId) == Effect(tuples, None, [], [])
  {
  }

  /**
   * A caller who does not administer an account that has some administrator
   * gets "service account already owned"; nothing is written, and what a
   * write would do is irrelevant.
   */
  lemma ClaimAlreadyOwned(tuples: set<Tuple>, u: User, clientId: string)
    requires ClaimTuple(u, clientId) !in tuples
    requires Administrators(tuples, ServiceAccountEntity(clientId)) != {}
    ensures forall write :: (ClaimResult(tuples, Faults(None, None, write), u, clientId) ==
      Effect(tuples, Some(NewError(AddServiceAccountOp, AlreadyOwnedMessage)), [], []))
  {
    OwnershipKeyMatchesAdministrators(tuples, clientId);
  }

  /**
   * Claiming an account nobody administers, with a healthy store, adds
   * exactly the claim tuple and makes the caller the sole administrator.
   */
  lemma ClaimUnowned(tuples: set<Tuple>, u: User, clientId: string)
    requires Administrators(tuples, ServiceAccountEntity(clientId)) == {}
    ensures ClaimResult(tuples, NoFaults, u, clientId) ==
      Effect(tuples + {ClaimTuple(u, clientId)}, None, [], [[ClaimTuple(u, clientId)]])
    ensures Administrators(tuples + {ClaimTuple(u, clientId)}, ServiceAccountEntity(clientId)) == {UserEntity(u)}
  {
    OwnershipKeyMatchesAdministrators(tuples, clientId);
    var s := ServiceAccountEntity(clientId);
    var after := tuples + {ClaimTuple(u, clientId)};
    assert UserEntity(u) in Administrators(after, s) by {
      assert ClaimTuple(u, clientId) in after;
    }
    forall a | a in Administrators(after, s) ensures a == UserEntity(u) {
      var t :| t in after && t.relation == AdministratorRelation && t.target == s && t.subject == a;
    }
  }

  /** Every store error surfaces, prefixed with the operation, and no later step runs. */
  lemma ClaimPropagatesStoreErrors(tuples: set<Tuple>, faults: Faults, u: User, clientId: string)
    ensures faults.check.Some? ==>
      ClaimResult(tuples, faults, u, clientId) == Effect(tuples, Some(WrapError(AddServiceAccountOp, faults.check.value)), [], [])
    ensures faults.check.None? && ClaimTuple(u, clientId) !in tuples && faults.read.Some? ==>
      ClaimResult(tuples, faults, u, clientId) == Effect(tuples, Some(WrapError(AddServiceAccountOp, faults.read.value)), [], [])
    ensures faults.check.None? && faults.read.None? &&
            Administrators(tuples, ServiceAccountEntity(clientId)) == {} && faults.write.Some? ==>
      ClaimResult(tuples, faults, u, clientId) == Effect(tuples, Some(WrapError(AddServiceAccountOp, faults.write.value)), [],
        [[ClaimTuple(u, clientId)]])
  {
    OwnershipKeyMatchesAdministrators(tuples, clientId);
    if ClaimTuple(u, clientId) in tuples {
      assert UserEntity(u) in Administrators(tuples, ServiceAccountEntity(clientId));
    }
  }

  /**
   * Repeating a successful claim succeeds without writing and leaves the store
   * as the first call left it, whatever the second call's read and write would do.
   */
  lemma ClaimIdempotent(tuples: set<Tuple>, faults: Faults, u: User, clientId: string)
    requires ClaimResult(tuples, faults, u, clientId).err.None?
    ensures var first := ClaimResult(tuples, faults, u, clientId);
      forall read, write :: ClaimResult(first.tuples, Faults(None, read, write), u, clientId) ==
        Effect(first.tuples, None, [], [])
  {
  }

  /**
   * Sequential sole ownership: after `u` claims an unowned account, a claim by
   * another user fails with "already owned" and `u` stays the only administrator.
   */
  lemma ClaimSoleOwnership(tuples: set<Tuple>, u: User, v: User, clientId: string)
    requires Administrators(tuples, ServiceAccountEntity(clientId)) == {}
    requires u != v
    ensures var first := ClaimResult(tuples, NoFaults, u, clientId);
      var second := ClaimResult(first.tuples, NoFaults, v, clientId);
      first.err.None? &&
      second == Effect(first.tuples, Some(NewError(AddServiceAccountOp, AlreadyOwnedMessage)), [], []) &&
      Administrators(second.tuples, ServiceAccountEntity(clientId)) == {UserEntity(u)}
  {
    ClaimUnowned(tuples, u, clientId);
    var after := tuples + {ClaimTuple(u, clientId)};
    ClaimAlreadyOwned(after, v, clientId);
  }

  // ---------------------------------------------------------------------------
  // GrantServiceAccountAccess

  /**
   * One entity of a grant: parse it, accept only users and groups, and make a
   * group stand for its members.
   */
  function ValidateEntity(parse: string -> Result<Tag, Error>, entity: string): (r: Result<Tag, Error>)
    ensures r.Success? <==> parse(entity).Success? && parse(entity).value.kind in {UserType, GroupType}
    ensures r.Success? ==> r.value.kind == parse(entity).value.kind && r.value.id == parse(entity).value.id
    ensures r.Success? && r.value.kind == UserType ==> r.value == parse(entity).value
    ensures r.Success? && r.value.kind == GroupType ==> r.value.relation == Some(MemberRelation)
    ensures parse(entity).Failure? ==> r == Failure(WrapError(GrantServiceAccountAccessOp, parse(entity).error))
    ensures parse(entity).Success? && parse(entity).value.kind !in {UserType, GroupType} ==>
      r == Failure(NewError(GrantServiceAccountAccessOp, InvalidEntityMessage))
    ensures r.Failure? ==> r.error.op == GrantServiceAccountAccessOp
  {
    match parse(entity)
    case Failure(e) => Failure(WrapError(GrantServiceAccountAccessOp, e))
    case Success(tag) =>
      if tag.kind != UserType && tag.kind != GroupType then
        Failure(NewError(GrantServiceAccountAccessOp, InvalidEntityMessage))
      else if tag.kind == GroupType then
        Success(tag.(relation := Some(MemberRelation)))
      else
        Success(tag)
  }

  /**
   * All entities of a grant, validated in order: the tags of all of them, or
   * the error of the first one that is rejected.
   */
  function ValidateEntities(parse: string -> Result<Tag, Error>, entities: seq<string>): (r: Result<seq<Tag>, Error>)
    ensures r.Success? ==> (|r.value| == |entities| &&
      forall i | 0 <= i < |entities| :: ValidateEntity(parse, entities[i]) == Success(r.value[i]))
    ensures r.Failure? ==> exists i | 0 <= i < |entities| ::
      ValidateEntity(parse, entities[i]) == Failure(r.error) &&
      forall j | 0 <= j < i :: ValidateEntity(parse, entities[j]).Success?
  {
    if entities == [] then
      Success([])
    else
      match ValidateEntity(parse, entities[0])
      case Failure(e) => Failure(e)
      case Success(tag) =>
        match ValidateEntities(parse, entities[1..])
        case Failure(e) =>
          ghost var i :| 0 <= i < |entities[1..]| &&
            ValidateEntity(parse, entities[1..][i]) == Failure(e) &&
            forall j | 0 <= j < i :: ValidateEntity(parse, entities[1..][j]).Success?;
          assert ValidateEntity(parse, entities[i + 1]) == Failure(e);
          Failure(e)
        case Success(tags) => Success([tag] + tags)
  }

  /** The batch a grant writes: one administrator tuple per tag, in order. */
  function AdministratorTuples(tags: seq<Tag>, target: Tag): seq<Tuple>
  {
    seq(|tags|, i requires 0 <= i < |tags| => Tuple(tags[i], AdministratorRelation, target))
  }

  /**
   * The effect of GrantServiceAccountAccess(u, svcAccTag, entities): validate
   * every entity, then submit a single batched write.
   */
  function GrantResult(tuples: set<Tuple>, faults: Faults, parse: string -> Result<Tag, Error>,
                       svcAccTag: ServiceAccountTag, entities: seq<string>): (r: Effect)
    ensures r.err.Some? ==> r.tuples == tuples
    ensures tuples <= r.tuples
    ensures forall t | t in r.tuples - tuples ::
      t.relation == AdministratorRelation && t.target == ConvertServiceAccountTag(svcAccTag) &&
      (t.subject.kind == UserType || (t.subject.kind == GroupType && t.subject.relation == Some(MemberRelation)))
    ensures r.err.Some? ==> r.err.value.op == GrantServiceAccountAccessOp
    ensures r.diagnostics != [] ==> r.err.Some? && r.err.value.code == OpenFGARequestFailed
    // A single batched write, submitted exactly when every entity was accepted.
    ensures |r.writes| <= 1
    ensures r.writes == [] <==> ValidateEntities(parse, entities).Failure?
  {
    match ValidateEntities(parse, entities)
    case Failure(e) => Effect(tuples, Some(e), [], [])
    case Success(tags) =>
      var batch := AdministratorTuples(tags, ConvertServiceAccountTag(svcAccTag));
      if faults.write.Some? then
        Effect(tuples,
               Some(WrapWithCode(GrantServiceAccountAccessOp, OpenFGARequestFailed, faults.write.value)),
               [Diagnostic(AddRelationFailedMessage, AddRelationErrorKey, faults.write.value)],
               [batch])
      else
        assert forall t | t in batch :: exists i | 0 <= i < |tags| :: t == batch[i];
        Effect(tuples + (set t | t in batch), None, [], [batch])
  }

  /** Validation decides at the first rejected entity, whatever follows it. */
  lemma FirstInvalidDecides(parse: string -> Result<Tag, Error>, entities: seq<string>, i: nat)
    requires i < |entities| && ValidateEntity(parse, entities[i]).Failure?
    requires forall j | 0 <= j < i :: ValidateEntity(parse, entities[j]).Success?
    ensures ValidateEntities(parse, entities) == Failure(ValidateEntity(parse, entities[i]).error)
  {
    var r := ValidateEntities(parse, entities);
    if r.Failure? {
      var k :| 0 <= k < |entities| && ValidateEntity(parse, entities[k]) == Failure(r.error) &&
        forall j | 0 <= j < k :: ValidateEntity(parse, entities[j]).Success?;
      assert k == i;
    }
  }

  /** When every entity is accepted, validation yields exactly their tags. */
  lemma {:induction false} AllValidDecides(parse: string -> Result<Tag, Error>, entities: seq<string>, tags: seq<Tag>)
    requires |tags| == |entities|
    requires forall i | 0 <= i < |entities| :: ValidateEntity(parse, entities[i]) == Success(tags[i])
    ensures ValidateEntities(parse, entities) == Success(tags)
  {
    if entities != [] {
      assert forall i | 0 <= i < |entities[1..]| :: entities[1..][i] == entities[i + 1] && tags[1..][i] == tags[i + 1];
      AllValidDecides(parse, entities[1..], tags[1..]);
      assert [tags[0]] + tags[1..] == tags;
    }
  }

  /**
   * Validate-all-before-write: if any entity is rejected, the grant returns the
   * first rejection, writes nothing, emits nothing, and its result does not
   * depend on the store at all (no write is attempted).
   */
  lemma GrantValidatesBeforeWrite(tuples: set<Tuple>, faults: Faults, parse: string -> Result<Tag, Error>,
                                  svcAccTag: ServiceAccountTag, entities: seq<string>, i: nat)
    requires i < |entities| && ValidateEntity(parse, entities[i]).Failure?
    ensures var r := GrantResult(tuples, faults, parse, svcAccTag, entities);
      r.tuples == tuples && r.diagnostics == [] && r.writes == [] &&
      r == GrantResult(tuples, NoFaults, parse, svcAccTag, entities) &&
      exists k | 0 <= k <= i :: ValidateEntity(parse, entities[k]).Failure? &&
        r.err == Some(ValidateEntity(parse, entities[k]).error) &&
        forall j | 0 <= j < k :: ValidateEntity(parse, entities[j]).Success?
  {
    var r := ValidateEntities(parse, entities);
    assert r.Failure?;
    var k :| 0 <= k < |entities| && ValidateEntity(parse, entities[k]) == Failure(r.error) &&
      forall j | 0 <= j < k :: ValidateEntity(parse, entities[j]).Success?;
    assert k <= i;
  }

  /**
   * When every entity is accepted, the grant submits exactly one batch, whether
   * or not the write then fails, holding one administrator tuple per entity in
   * input order.
   */
  lemma GrantBatchInInputOrder(tuples: set<Tuple>, faults: Faults, parse: string -> Result<Tag, Error>,
                               svcAccTag: ServiceAccountTag, entities: seq<string>)
    requires forall i | 0 <= i < |entities| :: ValidateEntity(parse, entities[i]).Success?
    ensures var r := GrantResult(tuples, faults, parse, svcAccTag, entities);
      |r.writes| == 1 && |r.writes[0]| == |entities| &&
      forall i | 0 <= i < |entities| ::
        r.writes[0][i] == Tuple(ValidateEntity(parse, entities[i]).value, AdministratorRelation, ConvertServiceAccountTag(svcAccTag))
  {
    var tags := seq(|entities|, i requires 0 <= i < |entities| => ValidateEntity(parse, entities[i]).value);
    AllValidDecides(parse, entities, tags);
  }

  /**
   * A successful grant adds exactly one administrator tuple per entity: the
   * user as parsed, or the group's members.
   */
  lemma GrantAddsOneTuplePerEntity(tuples: set<Tuple>, faults: Faults, parse: string -> Result<Tag, Error>,
                                   svcAccTag: ServiceAccountTag, entities: seq<string>)
    requires faults.write.None?
    requires forall i | 0 <= i < |entities| :: ValidateEntity(parse, entities[i]).Success?
    ensures var r := GrantResult(tuples, faults, parse, svcAccTag, entities);
      r.err.None? && r.diagnostics == [] &&
      r.tuples == tuples + (set i | 0 <= i < |entities| ::
        Tuple(ValidateEntity(parse, entities[i]).value, AdministratorRelation, ConvertServiceAccountTag(svcAccTag)))
  {
    var tags := seq(|entities|, i requires 0 <= i < |entities| => ValidateEntity(parse, entities[i]).value);
    AllValidDecides(parse, entities, tags);
    var s := ConvertServiceAccountTag(svcAccTag);
    var batch := AdministratorTuples(tags, s);
    var added := set i | 0 <= i < |entities| :: Tuple(ValidateEntity(parse, entities[i]).value, AdministratorRelation, s);
    assert (set t | t in batch) == added by {
      forall t | t in batch ensures t in added {
        var i :| 0 <= i < |batch| && batch[i] == t;
      }
      forall t | t in added ensures t in batch {
        var i :| 0 <= i < |entities| && t == Tuple(ValidateEntity(parse, entities[i]).value, AdministratorRelation, s);
        assert batch[i] == t;
      }
    }
  }

  /** A group entity is written as its `#member` subject, never as the bare group. */
  lemma GrantRewritesGroups(tuples: set<Tuple>, faults: Faults, parse: string -> Result<Tag, Error>,
                            svcAccTag: ServiceAccountTag, entities: seq<string>, i: nat)
    requires faults.write.None?
    requires forall k | 0 <= k < |entities| :: ValidateEntity(parse, entities[k]).Success?
    requires i < |entities| && parse(entities[i]).Success? && parse(entities[i]).value.kind == GroupType
    ensures var g := parse(entities[i]).value;
      var r := GrantResult(tuples, faults, parse, svcAccTag, entities);
      Tuple(g.(relation := Some(MemberRelation)), AdministratorRelation, ConvertServiceAccountTag(svcAccTag)) in r.tuples &&
      forall rel | rel != Some(MemberRelation) ::
        Tuple(g.(relation := rel), AdministratorRelation, ConvertServiceAccountTag(svcAccTag)) in r.tuples ==>
        Tuple(g.(relation := rel), AdministratorRelation, ConvertServiceAccountTag(svcAccTag)) in tuples
  {
    GrantAddsOneTuplePerEntity(tuples, faults, parse, svcAccTag, entities);
    var g := parse(entities[i]).value;
    assert ValidateEntity(parse, entities[i]).value == g.(relation := Some(MemberRelation));
  }

  /**
   * A failed batch write returns OpenFGARequestFailed wrapping the store's
   * error, logs it under "add-relation-error", and leaves the store unchanged.
   */
  lemma GrantWriteFailure(tuples: set<Tuple>, faults: Faults, parse: string -> Result<Tag, Error>,
                          svcAccTag: ServiceAccountTag, entities: seq<string>)
    requires faults.write.Some?
    requires forall i | 0 <= i < |entities| :: ValidateEntity(parse, entities[i]).Success?
    ensures var r := GrantResult(tuples, faults, parse, svcAccTag, entities);
      r.tuples == tuples && |r.writes| == 1 &&
      r.err == Some(WrapWithCode(GrantServiceAccountAccessOp, OpenFGARequestFailed, faults.write.value)) &&
      r.diagnostics == [Diagnostic(AddRelationFailedMessage, AddRelationErrorKey, faults.write.value)]
  {
    var tags := seq(|entities|, i requires 0 <= i < |entities| => ValidateEntity(parse, entities[i]).value);
    AllValidDecides(parse, entities, tags);
  }

  // ---------------------------------------------------------------------------
  // End-to-end scenarios

  /** Alice claims an unowned account, claims it again, then Bob tries to claim it. */
  lemma ScenarioClaims()
    ensures var alice, bob := User("alice"), User("bob");
      var claim := Tuple(Tag(UserType, "alice", None), AdministratorRelation, Tag(ServiceAccountType, "acme-bot", None));
      ClaimResult({}, NoFaults, alice, "acme-bot") == Effect({claim}, None, [], [[claim]]) &&
      ClaimResult({claim}, NoFaults, alice, "acme-bot") == Effect({claim}, None, [], []) &&
      ClaimResult({claim}, NoFaults, bob, "acme-bot") ==
        Effect({claim}, Some(NewError(AddServiceAccountOp, AlreadyOwnedMessage)), [], [])
  {
    var alice, bob := User("alice"), User("bob");
    ClaimUnowned({}, alice, "acme-bot");
    ClaimSoleOwnership({}, alice, bob, "acme-bot");
  }

  /** Alice, owner of acme-bot, grants it to a user and a group in one batch. */
  lemma ScenarioGrantUserAndGroup(parse: string -> Result<Tag, Error>)
    requires parse("user-bob") == Success(Tag(UserType, "bob", None))
    requires parse("group-ops") == Success(Tag(GroupType, "ops", None))
    ensures var svc := Tag(ServiceAccountType, "acme-bot", None);
      var owned := {Tuple(Tag(UserType, "alice", None), AdministratorRelation, svc)};
      var toBob := Tuple(Tag(UserType, "bob", None), AdministratorRelation, svc);
      var toOps := Tuple(Tag(GroupType, "ops", Some(MemberRelation)), AdministratorRelation, svc);
      GrantResult(owned, NoFaults, parse, ServiceAccountTag("acme-bot"), ["user-bob", "group-ops"]) ==
        Effect(owned + {toBob, toOps}, None, [], [[toBob, toOps]])
  {
    var svc := Tag(ServiceAccountType, "acme-bot", None);
    var owned := {Tuple(Tag(UserType, "alice", None), AdministratorRelation, svc)};
    var acme := ServiceAccountTag("acme-bot");
    var two := ["user-bob", "group-ops"];
    var toBob := Tuple(Tag(UserType, "bob", None), AdministratorRelation, svc);
    var toOps := Tuple(Tag(GroupType, "ops", Some(MemberRelation)), AdministratorRelation, svc);
    assert ValidateEntity(parse, two[0]).value == Tag(UserType, "bob", None);
    assert ValidateEntity(parse, two[1]).value == Tag(GroupType, "ops", Some(MemberRelation));
    GrantAddsOneTuplePerEntity(owned, NoFaults, parse, acme, two);
    GrantBatchInInputOrder(owned, NoFaults, parse, acme, two);
    var r := GrantResult(owned, NoFaults, parse, acme, two);
    assert (set i | 0 <= i < |two| :: Tuple(ValidateEntity(parse, two[i]).value, AdministratorRelation, svc)) == {toBob, toOps};
    assert r.writes[0] == [toBob, toOps];
    assert r.writes == [r.writes[0]];
  }

  /** Granting a model is rejected as an invalid entity; nothing is written. */
  lemma ScenarioGrantRejectsModel(parse: string -> Result<Tag, Error>)
    requires parse("model-foo") == Success(Tag(ModelType, "foo", None))
    ensures var owned := {Tuple(Tag(UserType, "alice", None), AdministratorRelation, Tag(ServiceAccountType, "acme-bot", None))};
      GrantResult(owned, NoFaults, parse, ServiceAccountTag("acme-bot"), ["model-foo"]) ==
        Effect(owned, Some(NewError(GrantServiceAccountAccessOp, InvalidEntityMessage)), [], [])
  {
    FirstInvalidDecides(parse, ["model-foo"], 0);
  }

  /** A grant to Bob while the store's writes fail: one batch submitted, one diagnostic, nothing stored. */
  lemma ScenarioGrantWriteFails(parse: string -> Result<Tag, Error>, storeError: Error)
    requires parse("user-bob") == Success(Tag(UserType, "bob", None))
    ensures var svc := Tag(ServiceAccountType, "acme-bot", None);
      var owned := {Tuple(Tag(UserType, "alice", None), AdministratorRelation, svc)};
      var toBob := Tuple(Tag(UserType, "bob", None), AdministratorRelation, svc);
      GrantResult(owned, Faults(None, None, Some(storeError)), parse, ServiceAccountTag("acme-bot"), ["user-bob"]) ==
        Effect(owned, Some(WrapWithCode(GrantServiceAccountAccessOp, OpenFGARequestFailed, storeError)),
               [Diagnostic(AddRelationFailedMessage, AddRelationErrorKey, storeError)], [[toBob]])
  {
    var svc := Tag(ServiceAccountType, "acme-bot", None);
    var owned := {Tuple(Tag(UserType, "alice", None), AdministratorRelation, svc)};
    var toBob := Tuple(Tag(UserType, "bob", None), AdministratorRelation, svc);
    var faults := Faults(None, None, Some(storeError));
    var acme := ServiceAccountTag("acme-bot");
    GrantWriteFailure(owned, faults, parse, acme, ["user-bob"]);
    GrantBatchInInputOrder(owned, faults, parse, acme, ["user-bob"]);
    var r := GrantResult(owned, faults, parse, acme, ["user-bob"]);
    assert r.writes[0] == [toBob];
    assert r.writes == [r.writes[0]];
  }

  /** The object-level view of the claim scenario: a fresh store, two claims by Alice, one by Bob. */
  method ClaimScenarioOnStore()
  {
    var store := new Client({}, NoFaults);
    var jimm := new JIMM(store, _ => Failure(NewError("jimm.ParseTag", "not used")));
    var alice, bob := User("alice"), User("bob");
    var owned := {ClaimTuple(alice, "acme-bot")};
    ClaimUnowned({}, alice, "acme-bot");
    var err := jimm.AddServiceAccount(alice, "acme-bot");
    assert err.None? && store.tuples == owned;
    err := jimm.AddServiceAccount(alice, "acme-bot");
    assert err.None? && store.tuples == owned;
    ClaimSoleOwnership({}, alice, bob, "acme-bot");
    err := jimm.AddServiceAccount(bob, "acme-bot");
    assert err == Some(NewError(AddServiceAccountOp, AlreadyOwnedMessage)) && store.tuples == owned;
  }

  // ---------------------------------------------------------------------------
  // The JIMM object

  class JIMM {
    /** The relation store, used both as `OpenFGAClient` and as `AuthorizationClient()`. */
    const client: Client
    /** The injected tag parser (`ParseTag`). */
    const parseTag: string -> Result<Tag, Error>
    /** Structured diagnostics emitted so far. */
    ghost var diagnostics: seq<Diagnostic>

    constructor (client: Client, parseTag: string -> Result<Tag, Error>)
      ensures this.client == client && this.parseTag == parseTag && diagnostics == []
    {
      this.client := client;
      this.parseTag := parseTag;
      diagnostics := [];
    }

    /** Claim ownership of the service account `clientId` for `u`. */
    method AddServiceAccount(u: User, clientId: string) returns (err: Option<Error>)
      modifies client`tuples, client`writes
      ensures var r := ClaimResult(old(client.tuples), client.faults, u, clientId);
        client.tuples == r.tuples && err == r.err && client.writes == old(client.writes) + r.writes
    {
      var op := AddServiceAccountOp;
      var svcTag := NewServiceAccountTag(clientId);
      var key := Key(None, AdministratorRelation, ConvertServiceAccountTag(svcTag));
      var keyWithUser := Tuple(ConvertUserTag(ResourceTag(u)), key.relation, key.target);

      var ok, checkErr := client.CheckRelation(keyWithUser, false);
      if checkErr.Some? {
        return Some(WrapError(op, checkErr.value));
      }
      // Already an administrator: nothing to do.
      if ok {
        return None;
      }

      var page, next, readErr := client.ReadRelatedObjects(key, OwnershipPageSize);
      if readErr.Some? {
        return Some(WrapError(op, readErr.value));
      }
      if |page| > 0 {
        return Some(NewError(op, AlreadyOwnedMessage));
      }
      var addTuple := Tuple(ConvertUserTag(ResourceTag(u)), AdministratorRelation, ConvertServiceAccountTag(svcTag));
      var writeErr := client.AddRelation([addTuple]);
      assert (set t | t in [addTuple]) == {addTuple};
      if writeErr.Some? {
        return Some(WrapError(op, writeErr.value));
      }
      return None;
    }

    /**
     * Make every entity (a user, or the members of a group) an administrator
     * of `svcAccTag`. That `u` may do so is checked by the caller.
     */
    method GrantServiceAccountAccess(u: User, svcAccTag: ServiceAccountTag, entities: seq<string>) returns (err: Option<Error>)
      modifies client`tuples, client`writes, this`diagnostics
      ensures var r := GrantResult(old(client.tuples), client.faults, parseTag, svcAccTag, entities);
        client.tuples == r.tuples && err == r.err && diagnostics == old(diagnostics) + r.diagnostics &&
        client.writes == old(client.writes) + r.writes
    {
      var op := GrantServiceAccountAccessOp;
      var tags: seq<Tag> := [];
      for i := 0 to |entities|
        invariant |tags| == i
        invariant forall k | 0 <= k < i :: ValidateEntity(parseTag, entities[k]) == Success(tags[k])
      {
        var parsed := parseTag(entities[i]);
        if parsed.Failure? {
          FirstInvalidDecides(parseTag, entities, i);
          return Some(WrapError(op, parsed.error));
        }
        var tag := parsed.value;
        if tag.kind != UserType && tag.kind != GroupType {
          FirstInvalidDecides(parseTag, entities, i);
          return Some(NewError(op, InvalidEntityMessage));
        }
        if tag.kind == GroupType {
          tag := tag.(relation := Some(MemberRelation));
        }
        tags := tags + [tag];
      }
      AllValidDecides(parseTag, entities, tags);

      var tuples: seq<Tuple> := [];
      var svcAccEntity := ConvertServiceAccountTag(svcAccTag);
      for j := 0 to |tags|
        invariant |tuples| == j
        invariant forall k | 0 <= k < j :: tuples[k] == Tuple(tags[k], AdministratorRelation, svcAccEntity)
      {
        tuples := tuples + [Tuple(tags[j], AdministratorRelation, svcAccEntity)];
      }
      assert tuples == AdministratorTuples(tags, svcAccEntity);

      var writeErr := client.AddRelation(tuples);
      if writeErr.Some? {
        diagnostics := diagnostics + [Diagnostic(AddRelationFailedMessage, AddRelationErrorKey, writeErr.value)];
        return Some(WrapWithCode(op, OpenFGARequestFailed, writeErr.value));
      }
      return None;
    }
  }
}
