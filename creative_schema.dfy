/** The Creative document of src/models/schemas/Creative.ts as a record type,
    its field constraints as a validity predicate, its defaults, and the
    unique index on `publishedHash` as an invariant of the index map. */
module CreativeSchema {
  import opened Text
  import opened SchemaTypes

  /** One `leaseHistory` sub-document (`_id: false`). */
  datatype LeaseEntry = LeaseEntry(user: string, expires: int, transactionHash: string, createdAt: int)

  /** A Creative document. The paths a write may leave unset are Options:
      Mongoose does not validate `findOneAndUpdate`/`updateOne` writes, so a
      stored document need not satisfy `CreativeValid`. Times are integers. */
  datatype CreativeRecord = CreativeRecord(
    originalHash: Option<string>,
    publishedHash: Option<string>,
    tokenId: Option<string>,
    owner: Option<string>,
    contractAddress: Option<string>,
    chainId: Option<int>,
    tokenURI: Option<string>,
    fileUrl: Option<string>,
    metadataUrl: Option<string>,
    transactionHash: Option<string>,
    status: Status,
    user: Option<string>,
    userExpires: int,
    leaseHistory: seq<LeaseEntry>,
    createdAt: int,
    updatedAt: int
  )

  /** `userExpires: { default: 0 }` */
  const DEFAULT_USER_EXPIRES := 0

  /** A lease entry passes its sub-schema: the three required paths are set;
      `createdAt` always holds a time because it defaults to now. */
  predicate LeaseEntryValid(e: LeaseEntry) {
    e.user != "" && e.transactionHash != ""
  }

  /** The document passes the schema's validators. */
  predicate CreativeValid(r: CreativeRecord) {
    && r.originalHash.Some? && IsHash32(r.originalHash.value)
    && r.publishedHash.Some? && IsHash32(r.publishedHash.value)
    && RequiredString(r.owner)
    && RequiredString(r.contractAddress)
    && RequiredString(r.tokenURI)
    && RequiredString(r.fileUrl)
    && RequiredString(r.metadataUrl)
    && RequiredString(r.transactionHash)
    && forall i :: 0 <= i < |r.leaseHistory| ==> LeaseEntryValid(r.leaseHistory[i])
  }

  /** A new document built from the paths a write sets; every path it leaves
      out takes the schema default (`status` pending, no `user`, `userExpires`
      0, empty `leaseHistory`, both timestamps now). */
  function NewCreative(
    originalHash: Option<string>, publishedHash: Option<string>, tokenId: Option<string>,
    owner: Option<string>, contractAddress: Option<string>, chainId: Option<int>,
    tokenURI: Option<string>, fileUrl: Option<string>, metadataUrl: Option<string>,
    transactionHash: Option<string>, status: Option<Status>, user: Option<string>,
    userExpires: Option<int>, leaseHistory: Option<seq<LeaseEntry>>, now: int): (r: CreativeRecord)
    ensures r.status == (if status.Some? then status.value else Pending)
    ensures r.user == user
    ensures r.userExpires == (if userExpires.Some? then userExpires.value else 0)
    ensures r.leaseHistory == (if leaseHistory.Some? then leaseHistory.value else [])
    ensures r.publishedHash == publishedHash && r.originalHash == originalHash
    ensures r.createdAt == now && r.updatedAt == now
  {
    CreativeRecord(originalHash, publishedHash, tokenId, owner, contractAddress, chainId,
      tokenURI, fileUrl, metadataUrl, transactionHash,
      if status.Some? then status.value else DEFAULT_STATUS,
      user,
      if userExpires.Some? then userExpires.value else DEFAULT_USER_EXPIRES,
      if leaseHistory.Some? then leaseHistory.value else [],
      now, now)
  }

  /** The collection as a map keyed by `publishedHash`. The unique index admits
      one document without a `publishedHash` (indexed as null), which is the key None. */
  predicate KeyedByPublishedHash(m: map<Option<string>, CreativeRecord>) {
    forall k :: k in m ==> m[k].publishedHash == k
  }

  /** The unique index: no two stored documents share a `publishedHash`. */
  lemma PublishedHashUnique(m: map<Option<string>, CreativeRecord>, k1: Option<string>, k2: Option<string>)
    requires KeyedByPublishedHash(m)
    requires k1 in m && k2 in m && m[k1].publishedHash == m[k2].publishedHash
    ensures k1 == k2
  {
  }

  /** `originalHash` is only indexed: two documents of a keyed collection may share it. */
  lemma OriginalHashNotUnique(r: CreativeRecord, h1: string, h2: string)
    requires h1 != h2
    ensures var m := map[Some(h1) := r.(publishedHash := Some(h1)), Some(h2) := r.(publishedHash := Some(h2))];
      KeyedByPublishedHash(m) && |m.Keys| == 2 && m[Some(h1)].originalHash == m[Some(h2)].originalHash
  {
    var m := map[Some(h1) := r.(publishedHash := Some(h1)), Some(h2) := r.(publishedHash := Some(h2))];
    assert m.Keys == {Some(h1), Some(h2)};
  }

  /** A document whose `transactionHash` is empty fails the schema's required test. */
  lemma EmptyTransactionHashInvalid(r: CreativeRecord)
    requires r.transactionHash == Some("")
    ensures !CreativeValid(r)
  {
  }
}
