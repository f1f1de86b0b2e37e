/**
 * The relation store client (OpenFGA) as the service-account operations see it:
 * a set of `(Object, Relation, Target)` tuples, single-relation checks, reads by
 * partial key, and batched writes. Store failures are configured per call kind,
 * as an in-memory test store would be.
 */
module OpenFGA {
  import opened Wrappers
  import opened Errors
  import opened Names

  /** The authenticated user a request acts for. */
  datatype User = User(name: string)

  /** `u.ResourceTag()`: the Juju user tag of the principal. */
  function ResourceTag(u: User): UserTag
  {
    UserTag(u.name)
  }

  /** A stored relationship: `subject` (the Object of a tuple) holds `relation` on `target`. */
  datatype Tuple = Tuple(subject: Tag, relation: Relation, target: Tag)

  /** A partial tuple used to read the store: an absent subject stands for any subject. */
  datatype Key = Key(subject: Option<Tag>, relation: Relation, target: Tag)

  predicate Matches(key: Key, t: Tuple)
  {
    (key.subject.None? || key.subject == Some(t.subject)) &&
    t.relation == key.relation && t.target == key.target
  }

  /** The stored tuples a read with `key` may return, across all pages. */
  function Matching(tuples: set<Tuple>, key: Key): set<Tuple>
  {
    set t | t in tuples && Matches(key, t)
  }

  function Min(a: nat, b: nat): nat
  {
    if a <= b then a else b
  }

  /** The error each kind of store call reports, or `None` when that call succeeds. */
  datatype Faults = Faults(check: Option<Error>, read: Option<Error>, write: Option<Error>)

  const NoFaults := Faults(None, None, None)

  class Client {
    var tuples: set<Tuple>
    var faults: Faults
    /** Every batch submitted to `AddRelation`, in call order. */
    ghost var writes: seq<seq<Tuple>>

    constructor (tuples: set<Tuple>, faults: Faults)
      ensures this.tuples == tuples && this.faults == faults && writes == []
    {
      this.tuples := tuples;
      this.faults := faults;
      writes := [];
    }

    /**
     * Does `tuple` hold? The store's transitive evaluation (group membership,
     * relation hierarchy) is abstracted to direct membership.
     */
    method CheckRelation(tuple: Tuple, trace: bool) returns (allowed: bool, err: Option<Error>)
      ensures err == faults.check
      ensures allowed <==> err.None? && tuple in tuples
    {
      err := faults.check;
      allowed := err.None? && tuple in tuples;
    }

    /**
     * The first page of tuples matching `key`, in no particular order, and a
     * continuation token that is empty exactly when no further page exists.
     */
    method ReadRelatedObjects(key: Key, pageSize: nat) returns (page: seq<Tuple>, continuationToken: string, err: Option<Error>)
      requires pageSize > 0
      ensures err == faults.read
      ensures err.Some? ==> page == [] && continuationToken == ""
      ensures err.None? ==> forall i | 0 <= i < |page| :: page[i] in Matching(tuples, key)
      ensures err.None? ==> forall i, j | 0 <= i < j < |page| :: page[i] != page[j]
      ensures err.None? ==> |page| == Min(pageSize, |Matching(tuples, key)|)
      ensures err.None? ==> (continuationToken == "" <==> |page| == |Matching(tuples, key)|)
    {
      err := faults.read;
      page, continuationToken := [], "";
      if err.Some? {
        return;
      }
      var matching := Matching(tuples, key);
      var remaining := matching;
      while |page| < pageSize && remaining != {}
        invariant remaining <= matching
        invariant |page| + |remaining| == |matching|
        invariant |page| <= pageSize
        invariant forall i | 0 <= i < |page| :: page[i] in matching && page[i] !in remaining
        invariant forall i, j | 0 <= i < j < |page| :: page[i] != page[j]
        decreases remaining
      {
        var t :| t in remaining;
        page := page + [t];
        remaining := remaining - {t};
      }
      if remaining != {} {
        continuationToken := "next";
      }
    }

    /** Write a batch of tuples; a failed write commits none of them. */
    method AddRelation(batch: seq<Tuple>) returns (err: Option<Error>)
      modifies this`tuples, this`writes
      ensures err == faults.write
      ensures tuples == if err.None? then old(tuples) + (set t | t in batch) else old(tuples)
      ensures writes == old(writes) + [batch]
    {
      writes := writes + [batch];
      err := faults.write;
      if err.None? {
        tuples := tuples + (set t | t in batch);
      }
    }
  }
}
