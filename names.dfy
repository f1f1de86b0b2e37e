/**
 * Tags: the identifiers the relation store uses for principals and resources,
 * and the conversions from Juju/JIMM entity tags into them.
 */
module Names {
  import opened Wrappers

  /** The closed set of object types known to the authorization schema. */
  datatype Kind =
    | UserType
    | GroupType
    | ServiceAccountType
    | ModelType
    | ControllerType
    | CloudType
    | CloudCredentialType
    | ApplicationOfferType

  /** The closed set of relations known to the authorization schema. */
  datatype Relation =
    | MemberRelation
    | AdministratorRelation
    | ReaderRelation
    | WriterRelation
    | ConsumerRelation

  /**
   * A relation-store tag. `relation` qualifies a subject ("members of group G");
   * it is absent for atomic principals and for resources.
   */
  datatype Tag = Tag(kind: Kind, id: string, relation: Option<Relation>)

  /** A Juju user tag, as returned by a user's `ResourceTag()`. */
  datatype UserTag = UserTag(name: string)

  /** A JIMM service-account tag, identified by its client id. */
  datatype ServiceAccountTag = ServiceAccountTag(clientId: string)

  /** `NewServiceAccountTag`: the tag of the service account with this client id. */
  function NewServiceAccountTag(clientId: string): ServiceAccountTag
  {
    ServiceAccountTag(clientId)
  }

  /** `ConvertTag` on a user tag: a bare user principal. */
  function ConvertUserTag(t: UserTag): Tag
  {
    Tag(UserType, t.name, None)
  }

  /** `ConvertTag` on a service-account tag: a bare service-account resource. */
  function ConvertServiceAccountTag(t: ServiceAccountTag): Tag
  {
    Tag(ServiceAccountType, t.clientId, None)
  }

  /**
   * The conversions are injective and never confuse a user with a service
   * account. This holds by construction here; it records what the model
   * relies on of the real conversions.
   */
  lemma ConvertTagInjective(u1: UserTag, u2: UserTag, s1: ServiceAccountTag, s2: ServiceAccountTag)
    ensures ConvertUserTag(u1) == ConvertUserTag(u2) ==> u1 == u2
    ensures ConvertServiceAccountTag(s1) == ConvertServiceAccountTag(s2) ==> s1 == s2
    ensures ConvertUserTag(u1) != ConvertServiceAccountTag(s1)
    ensures ConvertUserTag(u1).relation.None? && ConvertServiceAccountTag(s1).relation.None?
  {
  }
}
