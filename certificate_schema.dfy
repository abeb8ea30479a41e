/** The Certificate document of src/models/schemas/Certificate.ts: the same
    mint fields as a Creative, keyed by a single unique `fileHash`, and
    without the lease paths. */
module CertificateSchema {
  import opened Text
  import opened SchemaTypes

  datatype CertificateRecord = CertificateRecord(
    fileHash: Option<string>,
    tokenId: Option<string>,
    owner: Option<string>,
    contractAddress: Option<string>,
    chainId: Option<int>,
    tokenURI: Option<string>,
    fileUrl: Option<string>,
    metadataUrl: Option<string>,
    transactionHash: Option<string>,
    status: Status,
    createdAt: int,
    updatedAt: int
  )

  /** The document passes the schema's validators; `tokenId` and `chainId`
      are optional and take no part. */
  predicate CertificateValid(c: CertificateRecord) {
    && c.fileHash.Some? && IsHash32(c.fileHash.value)
    && RequiredString(c.owner)
    && RequiredString(c.contractAddress)
    && RequiredString(c.tokenURI)
    && RequiredString(c.fileUrl)
    && RequiredString(c.metadataUrl)
    && RequiredString(c.transactionHash)
  }

  /** A new document: `status` defaults to pending, `chainId` to undefined. */
  function NewCertificate(
    fileHash: Option<string>, tokenId: Option<string>, owner: Option<string>,
    contractAddress: Option<string>, chainId: Option<int>, tokenURI: Option<string>,
    fileUrl: Option<string>, metadataUrl: Option<string>, transactionHash: Option<string>,
    status: Option<Status>, now: int): (c: CertificateRecord)
    ensures c.status == (if status.Some? then status.value else Pending)
    ensures c.chainId == chainId && c.tokenId == tokenId && c.fileHash == fileHash
    ensures c.createdAt == now && c.updatedAt == now
  {
    CertificateRecord(fileHash, tokenId, owner, contractAddress, chainId, tokenURI, fileUrl,
      metadataUrl, transactionHash, if status.Some? then status.value else DEFAULT_STATUS, now, now)
  }

  /** The collection keyed by the unique `fileHash`. */
  predicate KeyedByFileHash(m: map<Option<string>, CertificateRecord>) {
    forall k :: k in m ==> m[k].fileHash == k
  }

  lemma FileHashUnique(m: map<Option<string>, CertificateRecord>, k1: Option<string>, k2: Option<string>)
    requires KeyedByFileHash(m)
    requires k1 in m && k2 in m && m[k1].fileHash == m[k2].fileHash
    ensures k1 == k2
  {
  }

  /** The optional paths: a certificate without token id or chain id can be valid. */
  lemma TokenIdAndChainIdOptional(c: CertificateRecord)
    requires CertificateValid(c)
    ensures CertificateValid(c.(tokenId := None, chainId := None))
  {
  }

  /** Every required path is needed: clearing any one of them invalidates. */
  lemma RequiredPaths(c: CertificateRecord)
    requires CertificateValid(c)
    ensures !CertificateValid(c.(owner := None))
    ensures !CertificateValid(c.(contractAddress := None))
    ensures !CertificateValid(c.(tokenURI := None))
    ensures !CertificateValid(c.(fileUrl := None))
    ensures !CertificateValid(c.(metadataUrl := None))
    ensures !CertificateValid(c.(transactionHash := None))
    ensures !CertificateValid(c.(fileHash := None))
  {
  }
}
