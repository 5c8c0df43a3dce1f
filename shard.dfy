/**
 * Shard identity and role (toshi-server/src/cluster/shard.rs).
 *
 * A shard is a partition of an index. It is either a writable primary or a
 * read-only replica that names the primary it copies. Both kinds carry a
 * 128-bit id and, at run time only, an optional handle on the open local
 * index. The two Rust structs behind the `Shard` trait become one
 * datatype whose `role` tells them apart; the four trait methods are its
 * member functions.
 */
module ClusterShard {
  import opened Wrappers

  /** A 128-bit UUID, octet 0 in the most significant bits. */
  type Uuid = bv128

  /**
   * A version-4 (random) UUID as section 4.4 of RFC 4122 lays it out: the
   * high nibble of octet 6 is the version 4, and the two high bits of
   * octet 8 are the variant `10`. `Uuid::new_v4` only yields these; the
   * other 122 bits are random and are handed in by the caller here.
   */
  predicate IsVersion4(u: Uuid)
  {
    (u >> 76) & 0xF == 4 && (u >> 62) & 0x3 == 2
  }

  /** The one error kind the shard code produces. */
  datatype Error = IOError(message: string)

  /** Wording of `index_name()` when no handle is attached, per role. */
  const PrimaryNoHandleMessage: string := "Unable to get index handle"
  const ReplicaNoHandleMessage: string := "No index with that name exists"

  /** An opened local index. Only its name is observable here. */
  datatype LocalIndex = LocalIndex(name: string) {
    function GetName(): string { name }
  }

  /**
   * What opening the engine under the default settings yields: success, or
   * a failure whose text is the underlying error's description.
   */
  datatype OpenOutcome = Opened | OpenFailed(cause: string)

  /**
   * `LocalIndex::new(index, settings, &name)`: on success the handle
   * reports `name` as its name; on failure the cause is passed on.
   */
  function NewLocalIndex(name: string, outcome: OpenOutcome): (r: Result<LocalIndex, string>)
    ensures r.Ok? <==> outcome.Opened?
    ensures r.Ok? ==> r.value.GetName() == name
    ensures r.Err? ==> r.error == outcome.cause
  {
    match outcome
    case Opened => Ok(LocalIndex(name))
    case OpenFailed(cause) => Err(cause)
  }

  datatype Role = Primary | Replica(primaryId: Uuid)

  datatype Shard = Shard(id: Uuid, role: Role, handle: Option<LocalIndex>) {

    /** `Shard::shard_id`. */
    function ShardId(): Uuid { id }

    /** `Shard::primary_shard_id`: only a replica refers to a primary. */
    function PrimaryShardId(): (r: Option<Uuid>)
      ensures r.None? <==> role.Primary?
      ensures r.Some? ==> role == Replica(r.value)
    {
      match role
      case Primary => None
      case Replica(p) => Some(p)
    }

    /** `Shard::is_primary`: a shard is primary exactly when it refers to no primary. */
    function IsPrimary(): (r: bool)
      ensures r <==> PrimaryShardId().None?
    {
      match role
      case Primary => true
      case Replica(_) => false
    }

    /**
     * `Shard::index_name`: the attached handle's name, and an explicit
     * `IOError` (never a default name) when no handle is attached.
     */
    function IndexName(): (r: Result<string, Error>)
      ensures r.Ok? <==> handle.Some?
      ensures r.Ok? ==> r.value == handle.value.GetName()
      ensures r.Err? ==> r.error == IOError(NoHandleMessage(IsPrimary()))
    {
      match handle
      case Some(h) => Ok(h.GetName())
      case None =>
        match role
        case Primary => Err(IOError(PrimaryNoHandleMessage))
        case Replica(_) => Err(IOError(ReplicaNoHandleMessage))
    }
  }

  /** The missing-handle message that the primary or the replica struct uses. */
  function NoHandleMessage(isPrimary: bool): string
  {
    if isPrimary then PrimaryNoHandleMessage else ReplicaNoHandleMessage
  }

  /**
   * `PrimaryShard::new` / `PrimaryShard::default`: a primary with the given
   * fresh id and no handle.
   */
  function NewPrimary(freshId: Uuid): (s: Shard)
    requires IsVersion4(freshId)
    ensures s.ShardId() == freshId
    ensures s.IsPrimary() && s.PrimaryShardId() == None
    ensures s.IndexName() == Err(IOError(PrimaryNoHandleMessage))
  {
    Shard(freshId, Primary, None)
  }

  /**
   * `ReplicaShard::new(primary_shard_id)`: a replica of `primaryId` with the
   * given fresh id and no handle.
   */
  function NewReplica(primaryId: Uuid, freshId: Uuid): (s: Shard)
    requires IsVersion4(freshId)
    ensures s.ShardId() == freshId
    ensures !s.IsPrimary() && s.PrimaryShardId() == Some(primaryId)
    ensures s.IndexName() == Err(IOError(ReplicaNoHandleMessage))
  {
    Shard(freshId, Replica(primaryId), None)
  }

  /**
   * `with_index(index, name)` on either struct: open the local index and, on
   * success, return the same shard with the handle attached; on failure
   * return the cause as an `IOError` and no shard.
   */
  function WithIndex(s: Shard, name: string, outcome: OpenOutcome): (r: Result<Shard, Error>)
    ensures r.Ok? <==> outcome.Opened?
    ensures r.Err? ==> r.error == IOError(outcome.cause)
    ensures r.Ok? ==> r.value.(handle := s.handle) == s
    ensures r.Ok? ==> r.value.ShardId() == s.ShardId() && r.value.PrimaryShardId() == s.PrimaryShardId()
    ensures r.Ok? ==> r.value.IsPrimary() == s.IsPrimary()
    ensures r.Ok? ==> r.value.IndexName() == Ok(name)
  {
    match NewLocalIndex(name, outcome)
    case Ok(lh) => Ok(s.(handle := Some(lh)))
    case Err(e) => Err(IOError(e))
  }

  /**
   * Every attached handle was attached by a successful `WithIndex` of its
   * name on a shard without a handle, and that shard can only be `s` itself
   * with the handle removed.
   */
  lemma AttachedHandleComesFromWithIndex(s: Shard)
    requires s.handle.Some?
    ensures exists bare: Shard :: bare.handle.None? && WithIndex(bare, s.handle.value.GetName(), Opened) == Ok(s)
    ensures forall bare: Shard :: bare.handle.None? && WithIndex(bare, s.handle.value.GetName(), Opened) == Ok(s) ==> bare == s.(handle := None)
  {
    var bare := s.(handle := None);
    assert WithIndex(bare, s.handle.value.GetName(), Opened) == Ok(s);
  }

  /**
   * Every shard without a handle whose id is a version-4 UUID is what one of
   * the two constructors builds from some fresh id. Together with
   * `AttachedHandleComesFromWithIndex`, every shard with a version-4 id is
   * reached by a constructor followed by at most one attach. Other ids are
   * reached only by deserialising (`DeserializedIdNeedNotBeVersion4`).
   */
  lemma BareShardComesFromConstructor(s: Shard)
    requires s.handle.None? && IsVersion4(s.id)
    ensures (exists freshId: Uuid :: IsVersion4(freshId) && s == NewPrimary(freshId))
         || (exists primaryId: Uuid, freshId: Uuid :: IsVersion4(freshId) && s == NewReplica(primaryId, freshId))
  {
    match s.role
    case Primary => assert s == NewPrimary(s.id);
    case Replica(p) => assert s == NewReplica(p, s.id);
  }

  /**
   * The trait's answers agree for every shard, attached or not: a shard is
   * primary exactly when it names no primary, and the missing-handle error
   * is the one of its role.
   */
  lemma RoleAnswersAreConsistent(s: Shard)
    ensures s.IsPrimary() <==> s.role == Primary
    ensures s.IsPrimary() ==> s.PrimaryShardId() == None
    ensures !s.IsPrimary() ==> s.PrimaryShardId() == Some(s.role.primaryId)
    ensures s.handle.None? ==> s.IndexName() == Err(IOError(if s.role == Primary then PrimaryNoHandleMessage else ReplicaNoHandleMessage))
  {
  }

  /** The shard tests: a new primary is primary, a replica of it is not. */
  lemma CreatedShardsReportTheirRole(primaryId: Uuid, replicaId: Uuid)
    requires IsVersion4(primaryId) && IsVersion4(replicaId)
    ensures NewPrimary(primaryId).IsPrimary()
    ensures !NewReplica(NewPrimary(primaryId).ShardId(), replicaId).IsPrimary()
    ensures NewReplica(NewPrimary(primaryId).ShardId(), replicaId).PrimaryShardId() == Some(primaryId)
  {
  }

  /**
   * Attaching to a shard that already has a handle replaces that handle:
   * the result is what attaching directly to the original shard gives.
   */
  lemma WithIndexReplacesHandle(s: Shard, first: string, second: string)
    ensures WithIndex(s, first, Opened).Ok?
    ensures WithIndex(WithIndex(s, first, Opened).value, second, Opened) == WithIndex(s, second, Opened)
  {
  }

  // Persisted form. The handle is skipped both ways (serde `skip_serializing`
  // and `skip_deserializing`), so the stored record is the map from the
  // struct's remaining field names to their ids.

  const ShardIdField: string := "shard_id"
  const PrimaryShardIdField: string := "primary_shard_id"

  /** Why a stored record does not decode into the requested struct. */
  datatype DecodeError = MissingField(field: string)

  /** The serialised form of a `PrimaryShard` or a `ReplicaShard`. */
  function Serialize(s: Shard): (f: map<string, Uuid>)
    ensures f.Keys <= {ShardIdField, PrimaryShardIdField}
    ensures ShardIdField in f && f[ShardIdField] == s.ShardId()
    ensures PrimaryShardIdField in f <==> !s.IsPrimary()
    ensures PrimaryShardIdField in f ==> Some(f[PrimaryShardIdField]) == s.PrimaryShardId()
  {
    match s.role
    case Primary => map[ShardIdField := s.id]
    case Replica(p) => map[ShardIdField := s.id, PrimaryShardIdField := p]
  }

  /**
   * Deserialising into `PrimaryShard`: `shard_id` must be present, other
   * fields are ignored, and the handle is always absent.
   */
  function DeserializePrimary(f: map<string, Uuid>): (r: Result<Shard, DecodeError>)
    ensures r.Ok? <==> ShardIdField in f
    ensures r.Err? ==> r.error == MissingField(ShardIdField)
    ensures r.Ok? ==> r.value.IsPrimary() && r.value.ShardId() == f[ShardIdField] && r.value.handle == None
  {
    if ShardIdField !in f then Err(MissingField(ShardIdField))
    else Ok(Shard(f[ShardIdField], Primary, None))
  }

  /**
   * Deserialising into `ReplicaShard`: both ids must be present (a missing
   * `shard_id` is reported first, following the field order), other fields
   * are ignored, and the handle is always absent.
   */
  function DeserializeReplica(f: map<string, Uuid>): (r: Result<Shard, DecodeError>)
    ensures r.Ok? <==> ShardIdField in f && PrimaryShardIdField in f
    ensures r.Err? ==> r.error == MissingField(if ShardIdField in f then PrimaryShardIdField else ShardIdField)
    ensures r.Ok? ==> !r.value.IsPrimary() && r.value.handle == None
    ensures r.Ok? ==> r.value.ShardId() == f[ShardIdField] && r.value.PrimaryShardId() == Some(f[PrimaryShardIdField])
  {
    if ShardIdField !in f then Err(MissingField(ShardIdField))
    else if PrimaryShardIdField !in f then Err(MissingField(PrimaryShardIdField))
    else Ok(Shard(f[ShardIdField], Replica(f[PrimaryShardIdField]), None))
  }

  /** Deserialising into the struct the shard came from. */
  function Deserialize(isPrimary: bool, f: map<string, Uuid>): Result<Shard, DecodeError>
  {
    if isPrimary then DeserializePrimary(f) else DeserializeReplica(f)
  }

  /**
   * Round trip: reading back a stored shard as its own struct gives the same
   * ids and role, with no handle, whether or not a handle was attached.
   */
  lemma SerializeRoundTrip(s: Shard)
    ensures Deserialize(s.IsPrimary(), Serialize(s)) == Ok(s.(handle := None))
  {
  }

  /** The stored form does not depend on the handle. */
  lemma SerializeIgnoresHandle(s: Shard, h: Option<LocalIndex>)
    ensures Serialize(s.(handle := h)) == Serialize(s)
  {
  }

  /**
   * The converse round trip: a record holding exactly a struct's fields is
   * the stored form of the shard it decodes to.
   */
  lemma DeserializeRoundTrip(isPrimary: bool, f: map<string, Uuid>)
    requires f.Keys == if isPrimary then {ShardIdField} else {ShardIdField, PrimaryShardIdField}
    ensures Deserialize(isPrimary, f).Ok?
    ensures Serialize(Deserialize(isPrimary, f).value) == f
  {
  }

  /** Two shards with the same stored form have the same id and role. */
  lemma SerializeIsInjectiveOnIdentity(a: Shard, b: Shard)
    requires Serialize(a) == Serialize(b)
    ensures a.ShardId() == b.ShardId() && a.role == b.role
  {
  }

  /**
   * The stored form carries no role tag: a stored primary does not decode as
   * a replica, and a stored replica decodes as a primary with the same id.
   */
  lemma StoredFormIsUntagged(s: Shard)
    ensures s.IsPrimary() ==> DeserializeReplica(Serialize(s)) == Err(MissingField(PrimaryShardIdField))
    ensures !s.IsPrimary() ==> DeserializePrimary(Serialize(s)) == Ok(Shard(s.ShardId(), Primary, None))
  {
  }

  /**
   * Deserialising accepts any stored id, including ones `Uuid::new_v4` never
   * yields: the nil id decodes into a primary without a handle that no
   * constructor builds.
   */
  lemma DeserializedIdNeedNotBeVersion4()
    ensures DeserializePrimary(map[ShardIdField := 0]).Ok?
    ensures !IsVersion4(DeserializePrimary(map[ShardIdField := 0]).value.ShardId())
    ensures DeserializePrimary(map[ShardIdField := 0]).value.handle.None?
  {
  }
}
