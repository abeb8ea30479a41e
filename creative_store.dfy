/** The `CreativeModel` collection of src/models/schemas/Creative.ts as the
    creative service uses it: a map from `publishedHash` to document, changed
    in place by the three writes of src/services/creative.service.ts and read
    by its owner listing.

    Mongoose semantics assumed throughout: `timestamps: true` sets `updatedAt`
    on every write and `createdAt` on every insert; a key whose value is
    `undefined` is stripped from an update (so it leaves the stored path as it
    was); an upsert that inserts copies the filter's equality paths into the
    new document and fills the schema defaults. */
module CreativeStore {
  import opened Text
  import opened SchemaTypes
  import opened CreativeSchema

  type Collection = map<Option<string>, CreativeRecord>

  // ---------------------------------------------------------------------------
  // The pending upsert (`findOneAndUpdate`, creative.service.ts:103-122)
  // ---------------------------------------------------------------------------

  /** The `$set` paths of the pending upsert, other than the fixed ones. */
  datatype PendingWrite = PendingWrite(
    publishedHash: string, originalHash: string, owner: string, contractAddress: string,
    chainId: int, tokenURI: string, fileUrl: string, metadataUrl: string)

  /** The stored document after the pending upsert: `$set` on a match, a new
      document with `createdAt` from `$setOnInsert` otherwise. */
  function PendingDocument(m: Collection, w: PendingWrite, now: int): (r: CreativeRecord)
    ensures r.publishedHash == Some(w.publishedHash) && r.originalHash == Some(w.originalHash)
    ensures r.owner == Some(w.owner) && r.contractAddress == Some(w.contractAddress)
    ensures r.chainId == Some(w.chainId) && r.tokenURI == Some(w.tokenURI)
    ensures r.fileUrl == Some(w.fileUrl) && r.metadataUrl == Some(w.metadataUrl)
    ensures r.transactionHash == Some("") && r.status == Pending && r.updatedAt == now
    ensures Some(w.publishedHash) in m ==>
      var old_ := m[Some(w.publishedHash)];
      && r.tokenId == old_.tokenId && r.user == old_.user && r.userExpires == old_.userExpires
      && r.leaseHistory == old_.leaseHistory && r.createdAt == old_.createdAt
    ensures Some(w.publishedHash) !in m ==>
      && r.tokenId.None? && r.user.None? && r.userExpires == DEFAULT_USER_EXPIRES
      && r.leaseHistory == [] && r.createdAt == now
  {
    var key := Some(w.publishedHash);
    if key in m then
      m[key].(publishedHash := key, originalHash := Some(w.originalHash), owner := Some(w.owner),
        contractAddress := Some(w.contractAddress), chainId := Some(w.chainId),
        tokenURI := Some(w.tokenURI), fileUrl := Some(w.fileUrl), metadataUrl := Some(w.metadataUrl),
        transactionHash := Some(""), status := Pending, updatedAt := now)
    else
      NewCreative(Some(w.originalHash), key, None, Some(w.owner), Some(w.contractAddress),
        Some(w.chainId), Some(w.tokenURI), Some(w.fileUrl), Some(w.metadataUrl), Some(""),
        Some(Pending), None, None, None, now)
  }

  function PendingUpserted(m: Collection, w: PendingWrite, now: int): (m': Collection)
    ensures m'.Keys == m.Keys + {Some(w.publishedHash)}
    ensures m'[Some(w.publishedHash)] == PendingDocument(m, w, now)
    ensures forall k :: k in m && k != Some(w.publishedHash) ==> m'[k] == m[k]
    ensures KeyedByPublishedHash(m) ==> KeyedByPublishedHash(m')
  {
    m[Some(w.publishedHash) := PendingDocument(m, w, now)]
  }

  // ---------------------------------------------------------------------------
  // The terminal update (`updateOne`, creative.service.ts:149-166)
  // ---------------------------------------------------------------------------

  /** The paths of the terminal update; `tokenId` None is `undefined`. */
  datatype FinalWrite = FinalWrite(
    publishedHash: string, originalHash: string, tokenId: Option<string>, owner: string,
    contractAddress: string, chainId: int, tokenURI: string, fileUrl: string,
    metadataUrl: string, transactionHash: string, status: Status)

  function FinalDocument(r: CreativeRecord, w: FinalWrite, now: int): (r': CreativeRecord)
    ensures r'.publishedHash == Some(w.publishedHash) && r'.originalHash == Some(w.originalHash)
    ensures r'.tokenId == (if w.tokenId.Some? then w.tokenId else r.tokenId)
    ensures r'.transactionHash == Some(w.transactionHash) && r'.status == w.status
    ensures r'.tokenURI == Some(w.tokenURI) && r'.owner == Some(w.owner)
    ensures r'.user == r.user && r'.userExpires == r.userExpires && r'.leaseHistory == r.leaseHistory
    ensures r'.createdAt == r.createdAt && r'.updatedAt == now
  {
    r.(originalHash := Some(w.originalHash), publishedHash := Some(w.publishedHash),
      tokenId := if w.tokenId.Some? then w.tokenId else r.tokenId,
      owner := Some(w.owner), contractAddress := Some(w.contractAddress), chainId := Some(w.chainId),
      tokenURI := Some(w.tokenURI), fileUrl := Some(w.fileUrl), metadataUrl := Some(w.metadataUrl),
      transactionHash := Some(w.transactionHash), status := w.status, updatedAt := now)
  }

  /** `updateOne` without `upsert`: a miss changes nothing. */
  function Finalized(m: Collection, w: FinalWrite, now: int): (m': Collection)
    ensures m'.Keys == m.Keys
    ensures Some(w.publishedHash) in m ==> m'[Some(w.publishedHash)] == FinalDocument(m[Some(w.publishedHash)], w, now)
    ensures forall k :: k in m && k != Some(w.publishedHash) ==> m'[k] == m[k]
    ensures KeyedByPublishedHash(m) ==> KeyedByPublishedHash(m')
  {
    var key := Some(w.publishedHash);
    if key in m then m[key := FinalDocument(m[key], w, now)] else m
  }

  // ---------------------------------------------------------------------------
  // The lease upsert (`findOneAndUpdate`, creative.service.ts:219-238)
  // ---------------------------------------------------------------------------

  /** The filter, the `$set` paths and the `$push`ed entry of the lease upsert;
      `user` None is `undefined`. */
  datatype LeaseWrite = LeaseWrite(
    tokenId: string, contractAddress: string, chainId: int,
    owner: string, user: Option<string>, userExpires: int, tokenURI: string,
    transactionHash: string, entry: LeaseEntry)

  predicate MatchesLease(r: CreativeRecord, w: LeaseWrite) {
    r.tokenId == Some(w.tokenId) && r.contractAddress == Some(w.contractAddress) && r.chainId == Some(w.chainId)
  }

  predicate HasLeaseMatch(m: Collection, w: LeaseWrite) {
    exists k :: k in m && MatchesLease(m[k], w)
  }

  /** A matched document after `$set` and `$push`. */
  function LeasedDocument(r: CreativeRecord, w: LeaseWrite, now: int): (r': CreativeRecord)
    ensures r'.leaseHistory == r.leaseHistory + [w.entry]
    ensures r'.owner == Some(w.owner) && r'.userExpires == w.userExpires
    ensures r'.user == (if w.user.Some? then w.user else r.user)
    ensures r'.tokenURI == Some(w.tokenURI) && r'.transactionHash == Some(w.transactionHash)
    ensures r'.status == r.status && r'.tokenId == r.tokenId && r'.publishedHash == r.publishedHash
    ensures r'.createdAt == r.createdAt && r'.updatedAt == now
  {
    r.(owner := Some(w.owner), user := if w.user.Some? then w.user else r.user,
      userExpires := w.userExpires, tokenURI := Some(w.tokenURI),
      transactionHash := Some(w.transactionHash), leaseHistory := r.leaseHistory + [w.entry],
      updatedAt := now)
  }

  /** The document an unmatched lease upsert inserts: the filter's paths, the
      `$set` paths, a one-entry history and the schema defaults. It has no
      `publishedHash`, so the unique index files it under null. */
  function LeaseInserted(w: LeaseWrite, now: int): (r: CreativeRecord)
    ensures r.publishedHash.None? && r.originalHash.None?
    ensures MatchesLease(r, w)
    ensures r.leaseHistory == [w.entry] && r.status == Pending && r.user == w.user
    ensures r.userExpires == w.userExpires && r.createdAt == now
  {
    NewCreative(None, None, Some(w.tokenId), Some(w.owner), Some(w.contractAddress), Some(w.chainId),
      Some(w.tokenURI), None, None, Some(w.transactionHash), None, w.user, Some(w.userExpires),
      Some([w.entry]), now)
  }

  /** An unmatched lease upsert inserts a second null `publishedHash`. */
  predicate LeaseUpsertConflicts(m: Collection, w: LeaseWrite) {
    !HasLeaseMatch(m, w) && None in m
  }

  /** The duplicate-key error the unique index raises for it. */
  const DUPLICATE_NULL_PUBLISHED_HASH :=
    Fault(Num(11000), "E11000 duplicate key error collection: creatives index: publishedHash_1 dup key: { publishedHash: null }")

  /** The collection after a lease upsert that did not conflict. On a match
      Mongo updates one of the matching documents; which one is not
      specified, so this is a relation rather than a function. */
  ghost predicate LeaseApplied(m: Collection, m': Collection, w: LeaseWrite, now: int) {
    if HasLeaseMatch(m, w) then
      exists k :: k in m && MatchesLease(m[k], w) && m' == m[k := LeasedDocument(m[k], w, now)]
    else
      None !in m && m' == m[None := LeaseInserted(w, now)]
  }

  /** The document a non-conflicting lease upsert wrote. */
  lemma LeaseTarget(m: Collection, m': Collection, w: LeaseWrite, now: int) returns (k: Option<string>)
    requires LeaseApplied(m, m', w, now)
    ensures k in m' && MatchesLease(m'[k], w) && m'.Keys == m.Keys + {k}
    ensures k in m ==> MatchesLease(m[k], w) && m'[k] == LeasedDocument(m[k], w, now)
    ensures k !in m ==> k.None? && m'[k] == LeaseInserted(w, now)
    ensures forall k' :: k' in m && k' != k ==> m'[k'] == m[k']
  {
    if HasLeaseMatch(m, w) {
      k :| k in m && MatchesLease(m[k], w) && m' == m[k := LeasedDocument(m[k], w, now)];
    } else {
      k := None;
    }
  }

  /** The lease history is append-only: the written document's history is its
      old history (none for an inserted document) plus the one new entry. */
  lemma LeaseHistoryAppendOnly(m: Collection, m': Collection, w: LeaseWrite, now: int)
    requires LeaseApplied(m, m', w, now)
    ensures exists k :: k in m' && m'[k].leaseHistory == (if k in m then m[k].leaseHistory else []) + [w.entry]
    ensures forall k :: k in m && k in m' ==>
      |m'[k].leaseHistory| >= |m[k].leaseHistory| && m'[k].leaseHistory[..|m[k].leaseHistory|] == m[k].leaseHistory
  {
    var k := LeaseTarget(m, m', w, now);
    assert m'[k].leaseHistory == (if k in m then m[k].leaseHistory else []) + [w.entry];
  }

  /** `user: undefined` is stripped from the update: when the ledger reports
      no user, a matched document keeps the user it had. */
  lemma ZeroUserKeepsStoredUser(m: Collection, m': Collection, w: LeaseWrite, now: int)
    requires LeaseApplied(m, m', w, now) && w.user.None? && HasLeaseMatch(m, w)
    ensures exists k :: k in m && k in m' && MatchesLease(m[k], w) && m'[k].user == m[k].user
  {
    var k := LeaseTarget(m, m', w, now);
  }

  // ---------------------------------------------------------------------------
  // The owner listing (creative.service.ts:259-269)
  // ---------------------------------------------------------------------------

  /** `{ owner: ownerChecksum, status: 'minted' }` */
  predicate MintedBy(r: CreativeRecord, owner: string) {
    r.owner == Some(owner) && r.status == Minted
  }

  ghost function MintedKeys(m: Collection, owner: string): set<Option<string>> {
    set k | k in m && MintedBy(m[k], owner)
  }

  /** `sort({ createdAt: -1 })`: newest first; ties in any order. */
  predicate NewestFirst(s: seq<CreativeRecord>) {
    forall i, j :: 0 <= i < j < |s| ==> s[i].createdAt >= s[j].createdAt
  }

  /** `all` lists every matching document once, newest first. */
  ghost predicate IsMintedListing(all: seq<CreativeRecord>, m: Collection, owner: string) {
    && NewestFirst(all)
    && |all| == |MintedKeys(m, owner)|
    && (forall i :: 0 <= i < |all| ==> MintedBy(all[i], owner) && all[i] in m.Values)
    && (forall k :: k in m && MintedBy(m[k], owner) ==> m[k] in all)
  }

  /** `.skip(skip).limit(limit)` */
  function Window(s: seq<CreativeRecord>, skip: nat, limit: nat): (w: seq<CreativeRecord>)
    ensures |w| <= limit
    ensures skip + limit <= |s| ==> |w| == limit
    ensures skip <= |s| <= skip + limit ==> |w| == |s| - skip
    ensures skip >= |s| ==> w == []
    ensures forall i :: 0 <= i < |w| ==> skip + i < |s| && w[i] == s[skip + i]
  {
    if skip >= |s| then [] else s[skip .. if skip + limit <= |s| then skip + limit else |s|]
  }

  class CreativeModel {
    var records: Collection

    /** The unique index on `publishedHash`. */
    ghost predicate Valid()
      reads this
    {
      KeyedByPublishedHash(records)
    }

    constructor ()
      ensures Valid() && records == map[]
    {
      records := map[];
    }

    method UpsertPending(w: PendingWrite, now: int)
      requires Valid()
      modifies this
      ensures Valid()
      ensures records == PendingUpserted(old(records), w, now)
    {
      records := PendingUpserted(records, w, now);
    }

    method UpdateFinal(w: FinalWrite, now: int)
      requires Valid()
      modifies this
      ensures Valid()
      ensures records == Finalized(old(records), w, now)
    {
      records := Finalized(records, w, now);
    }

    method UpsertLease(w: LeaseWrite, now: int) returns (fault: Option<Fault>)
      requires Valid()
      modifies this
      ensures Valid()
      ensures fault.Some? <==> LeaseUpsertConflicts(old(records), w)
      ensures fault.Some? ==> fault.value == DUPLICATE_NULL_PUBLISHED_HASH && records == old(records)
      ensures fault.None? ==> LeaseApplied(old(records), records, w, now)
    {
      if HasLeaseMatch(records, w) {
        var k :| k in records && MatchesLease(records[k], w);
        records := records[k := LeasedDocument(records[k], w, now)];
        fault := None;
      } else if None in records {
        fault := Some(DUPLICATE_NULL_PUBLISHED_HASH);
      } else {
        records := records[None := LeaseInserted(w, now)];
        fault := None;
      }
    }

    /** `countDocuments(filter)` and `find(filter).sort(...).skip(skip).limit(limit)`:
        each matching document is placed by insertion into a newest-first list. */
    method FindMinted(owner: string, skip: nat, limit: nat)
      returns (total: nat, items: seq<CreativeRecord>, ghost all: seq<CreativeRecord>)
      requires Valid()
      ensures IsMintedListing(all, records, owner)
      ensures total == |MintedKeys(records, owner)|
      ensures items == Window(all, skip, limit)
    {
      var remaining := records.Keys;
      var listed: seq<CreativeRecord> := [];
      ghost var seen: set<Option<string>> := {};
      while remaining != {}
        invariant remaining <= records.Keys
        invariant forall k :: k in seen <==> k in records && k !in remaining && MintedBy(records[k], owner)
        invariant |listed| == |seen|
        invariant NewestFirst(listed)
        invariant forall x :: x in listed ==>
          MintedBy(x, owner) && x.publishedHash in seen && records[x.publishedHash] == x
        invariant forall k :: k in seen ==> records[k] in listed
        decreases remaining
      {
        var k :| k in remaining;
        if MintedBy(records[k], owner) {
          assert k !in seen;
          listed := InsertNewest(listed, records[k]);
          seen := seen + {k};
        }
        remaining := remaining - {k};
      }
      assert seen == MintedKeys(records, owner);
      all := listed;
      total := |listed|;
      items := Window(listed, skip, limit);
    }
  }

  /** Inserts `r` before the first document older than it. */
  method InsertNewest(s: seq<CreativeRecord>, r: CreativeRecord) returns (t: seq<CreativeRecord>)
    requires NewestFirst(s)
    ensures NewestFirst(t)
    ensures |t| == |s| + 1
    ensures forall x :: x in t <==> x in s || x == r
    ensures multiset(t) == multiset(s) + multiset{r}
  {
    var p := 0;
    while p < |s| && s[p].createdAt >= r.createdAt
      invariant 0 <= p <= |s|
      invariant forall i :: 0 <= i < p ==> s[i].createdAt >= r.createdAt
    {
      p := p + 1;
    }
    assert forall i :: p <= i < |s| ==> s[i].createdAt < r.createdAt by {
      forall i | p <= i < |s| ensures s[i].createdAt < r.createdAt {
        assert s[p].createdAt >= s[i].createdAt;
      }
    }
    t := s[..p] + [r] + s[p..];
    InsertAtKeepsOrder(s, p, r);
    InsertAtMembers(s, p, r);
  }

  /** Splicing `r` in at a position where it fits keeps the newest-first order. */
  lemma InsertAtKeepsOrder(s: seq<CreativeRecord>, p: int, r: CreativeRecord)
    requires NewestFirst(s) && 0 <= p <= |s|
    requires forall i :: 0 <= i < p ==> s[i].createdAt >= r.createdAt
    requires forall i :: p <= i < |s| ==> s[i].createdAt < r.createdAt
    ensures NewestFirst(s[..p] + [r] + s[p..])
  {
    var t := s[..p] + [r] + s[p..];
    forall i, j | 0 <= i < j < |t| ensures t[i].createdAt >= t[j].createdAt {
      var a := if i < p then s[i] else if i == p then r else s[i - 1];
      var b := if j < p then s[j] else if j == p then r else s[j - 1];
      assert t[i] == a && t[j] == b;
    }
  }

  /** The splice holds exactly the old records and `r`. */
  lemma InsertAtMembers(s: seq<CreativeRecord>, p: int, r: CreativeRecord)
    requires 0 <= p <= |s|
    ensures multiset(s[..p] + [r] + s[p..]) == multiset(s) + multiset{r}
    ensures forall x :: x in s[..p] + [r] + s[p..] <==> x in s || x == r
  {
    assert s == s[..p] + s[p..];
    assert multiset(s) == multiset(s[..p]) + multiset(s[p..]);
  }
}
