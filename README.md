# Shard identity and role model of Toshi

This project models the shard identity and role code of the Toshi search server
(`toshi-server/src/cluster/shard.rs`) in Dafny and proves what that code promises.

A shard is one partition of an index. There are two kinds. A `PrimaryShard` is
writable. A `ReplicaShard` is a read-only copy that stores the id of its primary.
Both kinds carry a 128-bit id. A newly built shard draws it from
`Uuid::new_v4`, a version-4 UUID as in section 4.4 of RFC 4122: the version
nibble is 4, the variant bits are `10`, and the other 122 bits are random. A
deserialised shard carries whatever id was stored. At run time a shard may also carry a handle
on the opened local index. Both structs implement the `Shard` trait, which has
four methods: `shard_id`, `primary_shard_id`, `is_primary` and `index_name`.

The model has two files:

- `wrappers.dfy`: `Option` and `Result`, shaped like Rust's.
- `shard.dfy`: module `ClusterShard`.
  - The two structs become one datatype `Shard(id, role, handle)` with
    `Role = Primary | Replica(primaryId)`.
  - The trait methods are the datatype's member functions. `ShardId()` is the
    `id` field, and the constructor and `WithIndex` contracts state its value.
  - `NewPrimary` and `NewReplica` take the fresh id as a parameter and require
    it to satisfy `IsVersion4`, the layout every id from `Uuid::new_v4` has.
  - `WithIndex` takes an `OpenOutcome` that stands for the result of
    `LocalIndex::new`: either success, or the failure's description.
  - The persisted form is the map from the serde field names that remain
    (`shard_id`, and `primary_shard_id` for replicas) to their ids. The handle
    is skipped in both directions.
  - Deserialising follows serde's derive defaults: a missing field is an error,
    reported in field-declaration order, and unknown fields are ignored.

The two structs word the missing-handle error differently.
`PrimaryShard::index_name` fails with "Unable to get index handle"
(`shard.rs:84`). `ReplicaShard::index_name` fails with "No index with that name
exists" (`shard.rs:133`). Both constants are modelled exactly.

## Model

| member | source | states |
|---|---|---|
| `ClusterShard.Shard.ShardId` | toshi-server/src/cluster/shard.rs:66-68 | The shard's own id (replica impl at lines 114-116). Its value is fixed by the contracts of `NewPrimary` and `NewReplica` (the fresh id), kept by `WithIndex`, stored under `shard_id` by `Serialize` and read back by both deserialisers. |
| `ClusterShard.Shard.PrimaryShardId` | toshi-server/src/cluster/shard.rs:70-73 | Absent exactly for a primary. For a replica it is `Some` of the primary id the replica stores (replica impl at lines 118-122). |
| `ClusterShard.Shard.IsPrimary` | toshi-server/src/cluster/shard.rs:75-78 | True exactly when the shard names no primary. So it is true for every primary and false for every replica (replica impl at lines 124-127), whatever the handle. |
| `ClusterShard.Shard.IndexName` | toshi-server/src/cluster/shard.rs:80-86 | `Ok` exactly when a handle is attached, and then it is the handle's name. Otherwise it is `IOError` with the role's own message, never a default name (replica impl at lines 129-135). |
| `ClusterShard.NewPrimary` | toshi-server/src/cluster/shard.rs:55-62 | Given a fresh version-4 id, as `Uuid::new_v4` at line 58 yields, a new primary has that id, is primary and names no primary. It has no handle, so `IndexName()` is `IOError("Unable to get index handle")`. `new` at lines 36-40 delegates here. |
| `ClusterShard.NewReplica` | toshi-server/src/cluster/shard.rs:89-97 | Given a fresh version-4 id, as `Uuid::new_v4` at line 94 yields, a new replica has that id and is not primary. `PrimaryShardId()` is exactly `Some` of the given id, and `IndexName()` is `IOError("No index with that name exists")`. |
| `ClusterShard.NewLocalIndex` | toshi-server/src/cluster/shard.rs:44-45 | Opening succeeds exactly when the engine opens. A handle opened under `name` reports `name`, and a failure passes its cause on. |
| `ClusterShard.WithIndex` | toshi-server/src/cluster/shard.rs:42-52 | Succeeds exactly when opening succeeds. On success only the handle changes: id, role, `PrimaryShardId()` and `IsPrimary()` are the same, and `IndexName()` is `Ok(name)`. On failure it returns `IOError` with the cause's text and no shard. The replica's copy is at lines 99-109. |
| `ClusterShard.AttachedHandleComesFromWithIndex` | toshi-server/src/cluster/shard.rs:46-48 | Every shard `s` with a handle is the result of a successful `WithIndex` of its handle's name on some shard without a handle, and that shard can only be `s.(handle := None)`, the same shard without its handle. |
| `ClusterShard.BareShardComesFromConstructor` | toshi-server/src/cluster/shard.rs:55-97 | Every shard without a handle is what `NewPrimary` (`PrimaryShard::default`, lines 55-62) or `NewReplica` (`ReplicaShard::new`, lines 89-97) builds from some fresh version-4 id, provided its own id is version 4. Together with the previous row, construction plus one attach reaches every shard with a version-4 id. Other ids are reached only by deserialising (next row). |
| `ClusterShard.DeserializedIdNeedNotBeVersion4` | toshi-server/src/cluster/shard.rs:20-25 | The derived deserialiser takes any stored id. The nil id decodes into a primary without a handle whose id is not version 4, so no constructor builds it. |
| `ClusterShard.WithIndexReplacesHandle` | toshi-server/src/cluster/shard.rs:46-48 | Attaching to a shard that already has a handle replaces it. The result equals attaching the second handle to the original shard. |
| `ClusterShard.RoleAnswersAreConsistent` | toshi-server/src/cluster/shard.rs:64-87 | For every shard, with or without a handle: it is primary exactly when its role is `Primary`. A primary names no primary, and a replica names its stored primary. With no handle, the error is the role's message. |
| `ClusterShard.CreatedShardsReportTheirRole` | toshi-server/src/cluster/shard.rs:142-153 | The unit tests, for all version-4 ids: a new primary is primary. A replica built from that primary's id is not primary and names that id. |
| `ClusterShard.Serialize` | toshi-server/src/cluster/shard.rs:19-34 | The stored form holds only id fields. `shard_id` is always present with the shard's id. `primary_shard_id` is present exactly for a replica and holds its primary's id. |
| `ClusterShard.DeserializePrimary` | toshi-server/src/cluster/shard.rs:20-25 | Succeeds exactly when `shard_id` is present, otherwise it reports that field missing. The result is a primary with that id and no handle. |
| `ClusterShard.DeserializeReplica` | toshi-server/src/cluster/shard.rs:28-34 | Succeeds exactly when both ids are present. Otherwise it reports the first missing field in declaration order. The result is a replica with both ids and no handle. |
| `ClusterShard.SerializeRoundTrip` | toshi-server/src/cluster/shard.rs:20-34 | Reading a stored shard back as its own struct gives the same id and role with `handle == None`, whether or not a handle was attached. |
| `ClusterShard.SerializeIgnoresHandle` | toshi-server/src/cluster/shard.rs:23-24 | The stored form does not depend on the handle. |
| `ClusterShard.DeserializeRoundTrip` | toshi-server/src/cluster/shard.rs:20-34 | A record holding exactly one struct's fields decodes successfully. Storing the decoded shard gives the same record back. |
| `ClusterShard.SerializeIsInjectiveOnIdentity` | toshi-server/src/cluster/shard.rs:20-34 | Two shards with the same stored form have the same id and the same role. |
| `ClusterShard.StoredFormIsUntagged` | toshi-server/src/cluster/shard.rs:20-34 | The stored form has no role tag. A stored primary fails to decode as a replica (missing `primary_shard_id`). A stored replica decodes as a primary with the same id. |

## Left out

- `toshi-server/src/handlers/summary.rs` is not part of this model. It is async HTTP handlers around the catalog and writer locks, timing and tracing, and calls into code not shown (`exists`, `get_index`, `load_metas`, `get_space`, `commit`). Its catalog lock is in fact still held during `commit`, and the model makes no claim about locking.
- `Uuid::new_v4` randomness: the fresh id is a constructor parameter, constrained only to the version-4 layout. No uniqueness of ids is claimed, since it is only probabilistic.
- The tantivy `Index`, `Settings::default` and the internals of `LocalIndex::new` are foreign. Opening is the `OpenOutcome` parameter, and `LocalIndex` is a record with only its name.
- `ClusterShard.NewLocalIndex`: the fact that a handle opened under `name` reports `name` from `get_name` is an assumption of the model. That code is not shown.
- `toshi_types::Error` has more variants than `IOError`. Only `IOError` occurs in this code, so only it is modelled.
- Serde's wire format: the stored form is the field-name-to-id map, not bytes. Type errors in field values and duplicate fields cannot occur in that form.
- Ownership and moves (`with_index` consumes `self`) are not modelled. Shards are values, so a by-value update is exact.
