/** The three services of src/services/creative.service.ts: minting a creative,
    leasing it (ERC-4907 `setUser`), and listing an owner's minted creatives.

    Everything outside the service is a parameter: the ledger's answers, the
    blob store's answers, SHA-256, the image library, the address checksum,
    the database's failures and the clock. Each call the service makes is
    recorded, in order, as a `Step`, so that "X happens before Y" and "Y never
    happens" can be stated. The record store is the `CreativeModel` class. */
module CreativeService {
  import opened Text
  import opened CustomErrors
  import opened SchemaTypes
  import opened CreativeSchema
  import opened CreativeStore
  import Watermark
  import ErrorMiddleware

  // ---------------------------------------------------------------------------
  // Environment
  // ---------------------------------------------------------------------------

  /** `Number(process.env.CHAIN_ID || 11155111)`: the Sepolia test network. */
  const DEFAULT_CHAIN_ID := 11155111

  /** `ethers.ZeroAddress` */
  const ZERO_ADDRESS := "0x0000000000000000000000000000000000000000"

  /** `CREATIVE4907_CONTRACT_ADDRESS`, `CHAIN_ID` (None when unset or empty) and
      the signer's `wallet.address`. */
  datatype Config = Config(contractAddress: string, chainIdSetting: Option<int>, walletAddress: string)

  function ChainId(c: Config): int {
    if c.chainIdSetting.Some? then c.chainIdSetting.value else DEFAULT_CHAIN_ID
  }

  /** `ethers.isAddress(s)` is `checksum(s).Some?`; `ethers.getAddress(s)` is
      the value, and throws `INVALID_ADDRESS` when there is none. */
  type Checksum = string -> Option<string>

  const INVALID_ADDRESS := Fault(Str("INVALID_ARGUMENT"), "invalid address")

  /** SHA-256 maps every buffer to 32 bytes. */
  type Digest = d: seq<byte> | |d| == 32 witness seq(32, _ => 0)
  type Sha256 = seq<byte> -> Digest

  // ---------------------------------------------------------------------------
  // Gas and fees (creative.service.ts:88-101, 203-209)
  // ---------------------------------------------------------------------------

  /** `provider.getFeeData()`: each field may be null. */
  datatype FeeData = FeeData(maxFeePerGas: Option<nat>, gasPrice: Option<nat>, maxPriorityFeePerGas: Option<nat>)

  /** `gasEstimate + gasEstimate / 5n`: the estimate plus 20%, rounded down. */
  function GasLimit(estimate: nat): (limit: nat)
    ensures estimate <= limit
    ensures 5 * limit <= 6 * estimate < 5 * limit + 5
  {
    assert estimate == 5 * (estimate / 5) + estimate % 5;
    estimate + estimate / 5
  }

  /** `fee.maxFeePerGas ?? fee.gasPrice ?? 0n`: the EIP-1559 cap, else the
      legacy gas price, else nothing. */
  function FeePerGas(fee: FeeData): (p: nat)
    ensures fee.maxFeePerGas.Some? ==> p == fee.maxFeePerGas.value
    ensures fee.maxFeePerGas.None? && fee.gasPrice.Some? ==> p == fee.gasPrice.value
    ensures fee.maxFeePerGas.None? && fee.gasPrice.None? ==> p == 0
  {
    if fee.maxFeePerGas.Some? then fee.maxFeePerGas.value
    else if fee.gasPrice.Some? then fee.gasPrice.value
    else 0
  }

  /** `required = maxFeePerGas * gasLimit`: the balance the guard demands is
      120% of the estimated cost at the per-gas price, short by less than one
      gas unit's price. */
  function RequiredBalance(fee: FeeData, estimate: nat): (required: nat)
    ensures required == FeePerGas(fee) * GasLimit(estimate)
    ensures 5 * required <= 6 * FeePerGas(fee) * estimate
    ensures FeePerGas(fee) > 0 ==> 6 * FeePerGas(fee) * estimate < 5 * required + 5 * FeePerGas(fee)
  {
    var p, limit := FeePerGas(fee), GasLimit(estimate);
    MulLeft(p, 5 * limit, 6 * estimate);
    MulLeft(p, 6 * estimate + 1, 5 * limit + 5);
    p * limit
  }

  lemma MulLeft(p: nat, a: int, b: int)
    requires a <= b
    ensures p * a <= p * b
  {
  }

  /** The overrides passed to `mintAsset` and `setUser`. */
  datatype TxOverrides = TxOverrides(gasLimit: nat, maxFeePerGas: Option<nat>, maxPriorityFeePerGas: nat)

  /** `{ gasLimit, maxFeePerGas: fee.maxFeePerGas ?? fee.gasPrice,
      maxPriorityFeePerGas: fee.maxPriorityFeePerGas ?? 0n }` */
  function Overrides(fee: FeeData, estimate: nat): (o: TxOverrides)
    ensures o.gasLimit == GasLimit(estimate)
    ensures o.maxFeePerGas == (if fee.maxFeePerGas.Some? then fee.maxFeePerGas else fee.gasPrice)
    ensures o.maxPriorityFeePerGas == (if fee.maxPriorityFeePerGas.Some? then fee.maxPriorityFeePerGas.value else 0)
  {
    TxOverrides(GasLimit(estimate),
      if fee.maxFeePerGas.Some? then fee.maxFeePerGas else fee.gasPrice,
      if fee.maxPriorityFeePerGas.Some? then fee.maxPriorityFeePerGas.value else 0)
  }

  /** The balance guard demands exactly the most the submitted transaction can
      be charged: its fee cap times its gas limit (nothing when no cap is sent). */
  lemma GuardCoversSubmittedCap(fee: FeeData, estimate: nat)
    ensures var o := Overrides(fee, estimate);
      RequiredBalance(fee, estimate) == (if o.maxFeePerGas.Some? then o.maxFeePerGas.value * o.gasLimit else 0)
  {
  }

  // ---------------------------------------------------------------------------
  // The token id of the receipt (creative.service.ts:136-147)
  // ---------------------------------------------------------------------------

  /** What `parsed?.args` holds for an `AssetMinted` log. */
  datatype MintedArgs = NoArgs | NoTokenId | TokenIdArg(tokenId: nat)

  /** `contract.interface.parseLog(log)`: throws, returns null, or a description. */
  datatype ParsedLog = ParseThrows | NotParsed | Parsed(name: string, args: MintedArgs)

  /** What one iteration of the loop does to `tokenId`: None leaves it, Some(v)
      assigns v. With no `args` the optional chain yields undefined; with args
      but no `tokenId`, `.toString()` throws and the catch skips the log. */
  function LogAssignment(log: ParsedLog): (a: Option<Option<string>>)
    ensures a.Some? ==> log.Parsed? && log.name == "AssetMinted"
    ensures a == Some(None) <==> log.Parsed? && log.name == "AssetMinted" && log.args.NoArgs?
  {
    match log
    case Parsed(name, args) =>
      if name != "AssetMinted" then None
      else (match args
        case NoArgs => Some(None)
        case NoTokenId => None
        case TokenIdArg(n) => Some(Some(DecimalString(n))))
    case _ => None
  }

  /** The value the loop leaves in `tokenId`. */
  function LastAssigned(logs: seq<ParsedLog>): Option<string> {
    if logs == [] then None
    else
      var a := LogAssignment(logs[|logs| - 1]);
      if a.Some? then a.value else LastAssigned(logs[..|logs| - 1])
  }

  /** The log that assigns last decides the token id. */
  lemma {:induction false} LastAssignmentWins(logs: seq<ParsedLog>, i: nat)
    requires i < |logs| && LogAssignment(logs[i]).Some?
    requires forall j :: i < j < |logs| ==> LogAssignment(logs[j]).None?
    ensures LastAssigned(logs) == LogAssignment(logs[i]).value
    decreases |logs|
  {
    if i < |logs| - 1 {
      var init := logs[..|logs| - 1];
      assert init[i] == logs[i];
      forall j | i < j < |init| ensures LogAssignment(init[j]).None? {
        assert init[j] == logs[j];
      }
      LastAssignmentWins(init, i);
    }
  }

  /** Logs that assign nothing leave `tokenId` undefined. */
  lemma {:induction false} NoAssignmentNoToken(logs: seq<ParsedLog>)
    requires forall j :: 0 <= j < |logs| ==> LogAssignment(logs[j]).None?
    ensures LastAssigned(logs).None?
    decreases |logs|
  {
    if logs != [] {
      var init := logs[..|logs| - 1];
      forall j | 0 <= j < |init| ensures LogAssignment(init[j]).None? {
        assert init[j] == logs[j];
      }
      NoAssignmentNoToken(init);
    }
  }

  /** A token id taken from a log is the decimal string of a natural number. */
  lemma {:induction false} AssignedTokenIsDecimal(logs: seq<ParsedLog>)
    ensures LastAssigned(logs).Some? ==>
      exists n: nat :: LastAssigned(logs).value == DecimalString(n)
    decreases |logs|
  {
    if logs != [] {
      var log := logs[|logs| - 1];
      if LogAssignment(log).None? {
        AssignedTokenIsDecimal(logs[..|logs| - 1]);
      } else if LastAssigned(logs).Some? {
        assert LastAssigned(logs).value == DecimalString(log.args.tokenId);
      }
    }
  }

  /** The `for` loop over `receipt.logs`. */
  method ExtractTokenId(logs: seq<ParsedLog>) returns (tokenId: Option<string>)
    ensures tokenId == LastAssigned(logs)
  {
    tokenId := None;
    for i := 0 to |logs|
      invariant tokenId == LastAssigned(logs[..i])
    {
      assert logs[..i + 1][..i] == logs[..i];
      var a := LogAssignment(logs[i]);
      if a.Some? {
        tokenId := a.value;
      }
    }
    assert logs[..|logs|] == logs;
  }

  /** `tokenId ? 'minted' : 'failed'` (an empty string is falsy). */
  function TerminalStatus(tokenId: Option<string>): Status {
    if tokenId.Some? && tokenId.value != "" then Minted else Failed
  }

  /** For a token id from the receipt: minted exactly when it is defined. */
  lemma MintedIffTokenId(logs: seq<ParsedLog>)
    ensures TerminalStatus(LastAssigned(logs)) == Minted <==> LastAssigned(logs).Some?
    ensures TerminalStatus(LastAssigned(logs)) != Pending
  {
    AssignedTokenIsDecimal(logs);
  }

  // ---------------------------------------------------------------------------
  // Metadata document (creative.service.ts:61-78)
  // ---------------------------------------------------------------------------

  /** The characters `String.prototype.trim` removes. */
  predicate IsJsSpace(c: char) {
    c as int in {9, 10, 11, 12, 13, 32, 160, 5760, 8232, 8233, 8239, 8287, 12288, 65279}
    || 8192 <= c as int <= 8202
  }

  /** Every character of `u` is one `trim` removes. */
  predicate AllSpace(u: string) {
    forall k :: 0 <= k < |u| ==> IsJsSpace(u[k])
  }

  function TrimStart(s: string): (t: string)
    ensures |t| <= |s| && t == s[|s| - |t|..]
    ensures AllSpace(s[..|s| - |t|])
    ensures t != [] ==> !IsJsSpace(t[0])
    ensures t == [] ==> forall i :: 0 <= i < |s| ==> IsJsSpace(s[i])
  {
    if s != [] && IsJsSpace(s[0]) then
      var t := TrimStart(s[1..]);
      assert s[1..][|s| - 1 - |t|..] == s[|s| - |t|..];
      assert forall i :: 1 <= i < |s| ==> s[i] == s[1..][i - 1];
      t
    else s
  }

  function TrimEnd(s: string): (t: string)
    ensures |t| <= |s| && t == s[..|t|]
    ensures AllSpace(s[|t|..])
    ensures t != [] ==> !IsJsSpace(t[|t| - 1])
    ensures t == [] ==> forall i :: 0 <= i < |s| ==> IsJsSpace(s[i])
  {
    if s != [] && IsJsSpace(s[|s| - 1]) then
      var t := TrimEnd(s[..|s| - 1]);
      assert s[..|s| - 1][..|t|] == s[..|t|];
      assert forall i :: 0 <= i < |s| - 1 ==> s[i] == s[..|s| - 1][i];
      t
    else s
  }

  /** `s.trim()`: the slice of `s` left once the spaces at both ends are cut,
      so it has no space at either end, and empty exactly when `s` is all spaces. */
  function Trim(s: string): (t: string)
    ensures exists i, j :: 0 <= i <= j <= |s| && t == s[i..j] && AllSpace(s[..i]) && AllSpace(s[j..])
    ensures t != [] ==> !IsJsSpace(t[0]) && !IsJsSpace(t[|t| - 1])
    ensures t == [] <==> AllSpace(s)
  {
    var a := TrimStart(s);
    var t := TrimEnd(a);
    TrimCutsSpaces(s, a, t);
    t
  }

  /** Cutting a space prefix off `s`, then a space suffix off what is left,
      leaves an inner slice with spaces on both sides of it. */
  lemma TrimCutsSpaces(s: string, a: string, t: string)
    requires |a| <= |s| && a == s[|s| - |a|..] && AllSpace(s[..|s| - |a|])
    requires |t| <= |a| && t == a[..|t|] && AllSpace(a[|t|..])
    requires t != [] ==> !IsJsSpace(t[0])
    ensures exists i, j :: 0 <= i <= j <= |s| && t == s[i..j] && AllSpace(s[..i]) && AllSpace(s[j..])
    ensures t == [] <==> AllSpace(s)
  {
    var i, j := |s| - |a|, |s| - |a| + |t|;
    SliceOfSuffix(s, i, |t|);
    assert 0 <= i <= j <= |s| && t == s[i..j] && AllSpace(s[..i]) && AllSpace(s[j..]);
    if t == [] {
      forall k | 0 <= k < |s| ensures IsJsSpace(s[k]) {
        if k < i { assert s[k] == s[..i][k]; } else { assert s[k] == a[k - i]; }
      }
    } else {
      assert t[0] == s[i];
    }
  }

  /** The first `n` characters of the suffix from `i`, and what follows them. */
  lemma SliceOfSuffix(s: string, i: int, n: int)
    requires 0 <= i <= |s| && 0 <= n <= |s| - i
    ensures s[i..][..n] == s[i..i + n] && s[i..][n..] == s[i + n..]
  {
  }

  /** `s?.trim() || 'Creative'` */
  function TitleOrDefault(s: Option<string>): (t: string)
    ensures t != []
    ensures s.None? ==> t == "Creative"
    ensures s.Some? && Trim(s.value) != [] ==> t == Trim(s.value)
    ensures s.Some? && Trim(s.value) == [] ==> t == "Creative"
  {
    if s.Some? && Trim(s.value) != "" then Trim(s.value) else "Creative"
  }

  datatype Attribute = Attribute(traitType: string, value: string)

  datatype CreativeMetadata = CreativeMetadata(
    name: string, description: string, image: Option<string>, animationUrl: Option<string>,
    attributes: seq<Attribute>, externalUrl: string)

  /** The metadata object: the file URL goes to `image` for images and to
      `animation_url` otherwise, and the attributes carry the published hash. */
  function MetadataDocument(title: Option<string>, description: Option<string>, issuerName: string,
    issuerWallet: string, issueDate: string, publishedHash: string, fileUrl: string, isImage: bool): (d: CreativeMetadata)
    ensures d.image == (if isImage then Some(fileUrl) else None)
    ensures d.animationUrl == (if isImage then None else Some(fileUrl))
    ensures d.name == TitleOrDefault(title) && d.description == TitleOrDefault(description)
    ensures d.name != [] && d.description != [] && d.externalUrl == ""
    ensures d.attributes == [Attribute("issuerName", issuerName), Attribute("issuerWallet", issuerWallet),
      Attribute("issueDate", issueDate), Attribute("fileHash", publishedHash), Attribute("type", "creative")]
  {
    CreativeMetadata(TitleOrDefault(title), TitleOrDefault(description),
      if isImage then Some(fileUrl) else None,
      if isImage then None else Some(fileUrl),
      [Attribute("issuerName", issuerName), Attribute("issuerWallet", issuerWallet),
       Attribute("issueDate", issueDate), Attribute("fileHash", publishedHash),
       Attribute("type", "creative")],
      "")
  }

  // ---------------------------------------------------------------------------
  // Steps, errors and results
  // ---------------------------------------------------------------------------

  /** The calls of the three services, in the order they are made. */
  datatype Step =
    | HashOriginal | ApplyWatermark | HashPublished
    | UploadFile(folder: string, resourceType: string, publicId: string)
    | UploadMetadata(document: CreativeMetadata, publicId: string)
    | GetFeeData | EstimateMint | GetBalance | SubmitMint(overrides: TxOverrides)
    | WritePending(pending: PendingWrite) | WaitMint | WriteFinal(final: FinalWrite)
    | OwnerOf(tokenId: string)
    | EstimateSetUser(leaseTokenId: string, user: string, expires: int)
    | SubmitSetUser(setTokenId: string, setUser: string, setExpires: int, userOverrides: TxOverrides)
    | WaitSetUser | ReadLease | WriteLease(lease: LeaseWrite)

  predicate Submits(steps: seq<Step>) {
    exists i :: 0 <= i < |steps| && steps[i].SubmitMint?
  }

  /** What a service throws: an error of its own, or one from outside. */
  datatype ServiceError = Raised(error: AppError) | Propagated(fault: Fault)

  // ---------------------------------------------------------------------------
  // mintCreativeService (creative.service.ts:9-184)
  // ---------------------------------------------------------------------------

  datatype MintRequest = MintRequest(
    owner: string, issuerName: string, title: Option<string>, description: Option<string>,
    mimetype: string, buffer: seq<byte>)

  /** `tx.wait()`: the transaction hash and the logs, as the interface parses them. */
  datatype Receipt = Receipt(hash: string, logs: seq<ParsedLog>)

  /** Everything outside the service, as the mint sees it. */
  datatype MintWorld = MintWorld(
    config: Config, checksum: Checksum, sha256: Sha256, jimp: Watermark.Jimp,
    fileUpload: Result<string, Fault>, metadataUpload: Result<string, Fault>,
    feeData: Result<FeeData, Fault>, estimate: Result<nat, Fault>, balance: Result<nat, Fault>,
    submit: Option<Fault>, receipt: Result<Receipt, Fault>,
    pendingWriteFault: Option<Fault>, finalWriteFault: Option<Fault>,
    now: int, issueDate: string)

  datatype MintResult = MintResult(
    tokenId: Option<string>, publishedHash: string, originalHash: string, tokenURI: string,
    transactionHash: string, qrUrl: string, qrImage: string)

  /** What a mint returns or throws, the calls it made and the store after it. */
  datatype MintRun = MintRun(outcome: Result<MintResult, ServiceError>, steps: seq<Step>, records: Collection)

  /** The type test at line 22. */
  predicate AcceptedMime(mimetype: string) {
    mimetype == "application/pdf" || StartsWith(mimetype, "image/")
  }

  /** `createHash('sha256').update(undefined)` throws Node's type error. */
  const HASH_OF_UNDEFINED := Fault(Str("ERR_INVALID_ARG_TYPE"),
    "The \"data\" argument must be of type string or an instance of Buffer, TypedArray, or DataView. Received undefined")

  /** `throw new BadRequestError('Insufficient balance!')`, seen by the catch:
      a `BaseError` has no `code` property. */
  const INSUFFICIENT_BALANCE := Fault(Undefined, "Insufficient balance!")

  /** The catch block at lines 126-134. */
  function MintFailure(e: Fault): (err: AppError)
    ensures err.kind == BadRequest
    ensures err.message == "Owner address does not exist" <==> e.code == Str("INVALID_ARGUMENT") && e.message == "address"
    ensures err.message != "Owner address does not exist" ==> err.message == "Minting creative failed!"
  {
    if e.code == Str("INVALID_ARGUMENT") && e.message == "address" then BadRequestError("Owner address does not exist")
    else BadRequestError("Minting creative failed!")
  }

  /** What is known once both uploads are done. */
  datatype Published = Published(
    owner: string, originalHash: string, publishedHash: string, fileUrl: string, metadataUrl: string)

  function MintSpec(m: Collection, req: MintRequest, w: MintWorld): MintRun {
    if !AcceptedMime(req.mimetype) then
      MintRun(Failure(Raised(BadRequestError("File type not supported"))), [], m)
    else if w.checksum(req.owner).None? then
      MintRun(Failure(Raised(BadRequestError("Owner address is not valid"))), [], m)
    else
      match Watermark.WatermarkResult(req.buffer, req.mimetype, w.jimp)
      case Throws(f) => MintRun(Failure(Propagated(f)), [HashOriginal, ApplyWatermark], m)
      case Undefined => MintRun(Failure(Propagated(HASH_OF_UNDEFINED)), [HashOriginal, ApplyWatermark, HashPublished], m)
      case Buffer(_) =>
        if w.fileUpload.Failure? then MintRun(Failure(Propagated(w.fileUpload.error)), FileUploadSteps(req, w), m)
        else if w.metadataUpload.Failure? then MintRun(Failure(Propagated(w.metadataUpload.error)), UploadSteps(req, w), m)
        else MintOnChain(m, w, PublishedOf(req, w), UploadSteps(req, w))
  }

  /** The watermarked buffer of an accepted request; a PDF has none. */
  predicate Watermarks(req: MintRequest, w: MintWorld) {
    AcceptedMime(req.mimetype) && w.checksum(req.owner).Some?
    && Watermark.WatermarkResult(req.buffer, req.mimetype, w.jimp).Buffer?
  }

  function PublishedDigest(req: MintRequest, w: MintWorld): Digest
    requires Watermarks(req, w)
  {
    w.sha256(Watermark.WatermarkResult(req.buffer, req.mimetype, w.jimp).bytes)
  }

  /** `'0x' + sha256(watermarked)`: the key of the record. */
  function PublishedHashOf(req: MintRequest, w: MintWorld): string
    requires Watermarks(req, w)
  {
    Bytes32Hex(PublishedDigest(req, w))
  }

  /** The try block is entered: the watermark and both uploads succeeded. */
  predicate ReachesLedger(req: MintRequest, w: MintWorld) {
    Watermarks(req, w) && w.fileUpload.Success? && w.metadataUpload.Success?
  }

  /** What the mint knows on entering the try block. */
  function PublishedOf(req: MintRequest, w: MintWorld): (p: Published)
    requires ReachesLedger(req, w)
    ensures p.publishedHash == PublishedHashOf(req, w)
    ensures p.originalHash == Bytes32Hex(w.sha256(req.buffer))
  {
    Published(w.checksum(req.owner).value, Bytes32Hex(w.sha256(req.buffer)), PublishedHashOf(req, w),
      w.fileUpload.value, w.metadataUpload.value)
  }

  /** The calls up to the file upload; its public id is the published hex digest. */
  function FileUploadSteps(req: MintRequest, w: MintWorld): (steps: seq<Step>)
    requires Watermarks(req, w)
    ensures |steps| == 4
    ensures forall i :: 0 <= i < |steps| ==> !steps[i].SubmitMint? && !steps[i].WritePending?
  {
    var isImage := StartsWith(req.mimetype, "image/");
    [HashOriginal, ApplyWatermark, HashPublished,
     UploadFile("creatives", if isImage then "image" else "raw", Hex(PublishedDigest(req, w)))]
  }

  /** The calls made before the try block. */
  function UploadSteps(req: MintRequest, w: MintWorld): (steps: seq<Step>)
    requires Watermarks(req, w) && w.fileUpload.Success?
    ensures |steps| == 5
    ensures forall i :: 0 <= i < |steps| ==> !steps[i].SubmitMint? && !steps[i].WritePending?
  {
    var isImage := StartsWith(req.mimetype, "image/");
    FileUploadSteps(req, w) +
    [UploadMetadata(MetadataDocument(req.title, req.description, req.issuerName, w.config.walletAddress,
       w.issueDate, PublishedHashOf(req, w), w.fileUpload.value, isImage), Hex(PublishedDigest(req, w)))]
  }

  function PendingFor(w: MintWorld, p: Published): PendingWrite {
    PendingWrite(p.publishedHash, p.originalHash, p.owner, w.config.contractAddress,
      ChainId(w.config), p.metadataUrl, p.fileUrl, p.metadataUrl)
  }

  /** Lines 84-134: the try block and its catch. */
  function MintOnChain(m: Collection, w: MintWorld, p: Published, steps: seq<Step>): MintRun {
    if w.feeData.Failure? then
      MintRun(Failure(Raised(MintFailure(w.feeData.error))), steps + [GetFeeData], m)
    else if w.estimate.Failure? then
      MintRun(Failure(Raised(MintFailure(w.estimate.error))), steps + [GetFeeData, EstimateMint], m)
    else if w.balance.Failure? then
      MintRun(Failure(Raised(MintFailure(w.balance.error))), steps + [GetFeeData, EstimateMint, GetBalance], m)
    else if w.balance.value < RequiredBalance(w.feeData.value, w.estimate.value) then
      MintRun(Failure(Raised(MintFailure(INSUFFICIENT_BALANCE))), steps + [GetFeeData, EstimateMint, GetBalance], m)
    else MintFunded(m, w, p, steps + [GetFeeData, EstimateMint, GetBalance])
  }

  /** Lines 97-125, once the balance covers the requirement: the submit and
      the pending upsert, then the wait for the receipt. */
  function MintFunded(m: Collection, w: MintWorld, p: Published, steps: seq<Step>): MintRun
    requires w.feeData.Success? && w.estimate.Success?
  {
    var pending := PendingFor(w, p);
    var m1 := if w.pendingWriteFault.None? then PendingUpserted(m, pending, w.now) else m;
    var steps1 := steps + [SubmitMint(Overrides(w.feeData.value, w.estimate.value)), WritePending(pending)];
    if w.submit.Some? then MintRun(Failure(Raised(MintFailure(w.submit.value))), steps1, m1)
    else if w.pendingWriteFault.Some? then MintRun(Failure(Raised(MintFailure(w.pendingWriteFault.value))), steps1, m1)
    else
      var steps2 := steps1 + [WaitMint];
      match w.receipt
      case Failure(f) => MintRun(Failure(Raised(MintFailure(f))), steps2, m1)
      case Success(receipt) => MintFinish(m1, w, p, receipt, steps2)
  }

  /** Lines 136-183: the token id, the terminal update and the result. */
  function MintFinish(m: Collection, w: MintWorld, p: Published, receipt: Receipt, steps: seq<Step>): MintRun {
    var tokenId := LastAssigned(receipt.logs);
    var final := FinalWrite(p.publishedHash, p.originalHash, tokenId, p.owner, w.config.contractAddress,
      ChainId(w.config), p.metadataUrl, p.fileUrl, p.metadataUrl, receipt.hash, TerminalStatus(tokenId));
    var steps1 := steps + [WriteFinal(final)];
    if w.finalWriteFault.Some? then MintRun(Failure(Propagated(w.finalWriteFault.value)), steps1, m)
    else
      MintRun(Success(MintResult(tokenId, p.publishedHash, p.originalHash, p.metadataUrl, receipt.hash, "", "")),
        steps1, Finalized(m, final, w.now))
  }

  /** The service, step by step, against the store. */
  method MintCreative(store: CreativeModel, req: MintRequest, w: MintWorld)
    returns (outcome: Result<MintResult, ServiceError>, steps: seq<Step>)
    requires store.Valid()
    modifies store
    ensures store.Valid()
    ensures MintSpec(old(store.records), req, w) == MintRun(outcome, steps, store.records)
  {
    steps := [];
    if !AcceptedMime(req.mimetype) {
      return Failure(Raised(BadRequestError("File type not supported"))), steps;
    }
    if w.checksum(req.owner).None? {
      return Failure(Raised(BadRequestError("Owner address is not valid"))), steps;
    }
    var owner := w.checksum(req.owner).value;
    var isImage := StartsWith(req.mimetype, "image/");
    var resourceType := if isImage then "image" else "raw";

    var originalHash := Bytes32Hex(w.sha256(req.buffer));
    var watermarked := Watermark.AddWatermark(req.buffer, req.mimetype, w.jimp);
    if watermarked.Throws? {
      return Failure(Propagated(watermarked.fault)), [HashOriginal, ApplyWatermark];
    }
    if watermarked.Undefined? {
      return Failure(Propagated(HASH_OF_UNDEFINED)), [HashOriginal, ApplyWatermark, HashPublished];
    }
    var digest := w.sha256(watermarked.bytes);
    var publishedHash := Bytes32Hex(digest);

    steps := [HashOriginal, ApplyWatermark, HashPublished, UploadFile("creatives", resourceType, Hex(digest))];
    assert steps == FileUploadSteps(req, w);
    if w.fileUpload.Failure? {
      return Failure(Propagated(w.fileUpload.error)), steps;
    }
    var fileUrl := w.fileUpload.value;
    var doc := MetadataDocument(req.title, req.description, req.issuerName, w.config.walletAddress,
      w.issueDate, publishedHash, fileUrl, isImage);
    steps := steps + [UploadMetadata(doc, Hex(digest))];
    if w.metadataUpload.Failure? {
      return Failure(Propagated(w.metadataUpload.error)), steps;
    }
    var p := Published(owner, originalHash, publishedHash, fileUrl, w.metadataUpload.value);
    assert p == PublishedOf(req, w);
    outcome, steps := SubmitMintTransaction(store, w, p, steps);
  }

  /** The try block and what follows it. */
  method SubmitMintTransaction(store: CreativeModel, w: MintWorld, p: Published, steps0: seq<Step>)
    returns (outcome: Result<MintResult, ServiceError>, steps: seq<Step>)
    requires store.Valid()
    modifies store
    ensures store.Valid()
    ensures MintOnChain(old(store.records), w, p, steps0) == MintRun(outcome, steps, store.records)
  {
    if w.feeData.Failure? {
      return Failure(Raised(MintFailure(w.feeData.error))), steps0 + [GetFeeData];
    }
    if w.estimate.Failure? {
      return Failure(Raised(MintFailure(w.estimate.error))), steps0 + [GetFeeData, EstimateMint];
    }
    var required := RequiredBalance(w.feeData.value, w.estimate.value);
    steps := steps0 + [GetFeeData, EstimateMint, GetBalance];
    if w.balance.Failure? {
      return Failure(Raised(MintFailure(w.balance.error))), steps;
    }
    if w.balance.value < required {
      return Failure(Raised(MintFailure(INSUFFICIENT_BALANCE))), steps;
    }
    outcome, steps := SubmitFunded(store, w, p, steps);
  }

  /** The submit, the pending upsert and the wait for the receipt. */
  method SubmitFunded(store: CreativeModel, w: MintWorld, p: Published, steps0: seq<Step>)
    returns (outcome: Result<MintResult, ServiceError>, steps: seq<Step>)
    requires store.Valid() && w.feeData.Success? && w.estimate.Success?
    modifies store
    ensures store.Valid()
    ensures MintFunded(old(store.records), w, p, steps0) == MintRun(outcome, steps, store.records)
  {
    var pending := PendingFor(w, p);
    steps := steps0 + [SubmitMint(Overrides(w.feeData.value, w.estimate.value)), WritePending(pending)];
    if w.pendingWriteFault.None? {
      store.UpsertPending(pending, w.now);
    }
    if w.submit.Some? {
      return Failure(Raised(MintFailure(w.submit.value))), steps;
    }
    if w.pendingWriteFault.Some? {
      return Failure(Raised(MintFailure(w.pendingWriteFault.value))), steps;
    }
    steps := steps + [WaitMint];
    if w.receipt.Failure? {
      return Failure(Raised(MintFailure(w.receipt.error))), steps;
    }
    outcome, steps := FinishMint(store, w, p, w.receipt.value, steps);
  }

  /** The token id, the terminal update and the result (lines 136-183). */
  method FinishMint(store: CreativeModel, w: MintWorld, p: Published, receipt: Receipt, steps0: seq<Step>)
    returns (outcome: Result<MintResult, ServiceError>, steps: seq<Step>)
    requires store.Valid()
    modifies store
    ensures store.Valid()
    ensures MintFinish(old(store.records), w, p, receipt, steps0) == MintRun(outcome, steps, store.records)
  {
    var tokenId := ExtractTokenId(receipt.logs);
    var final := FinalWrite(p.publishedHash, p.originalHash, tokenId, p.owner, w.config.contractAddress,
      ChainId(w.config), p.metadataUrl, p.fileUrl, p.metadataUrl, receipt.hash, TerminalStatus(tokenId));
    steps := steps0 + [WriteFinal(final)];
    if w.finalWriteFault.Some? {
      return Failure(Propagated(w.finalWriteFault.value)), steps;
    }
    store.UpdateFinal(final, w.now);
    outcome := Success(MintResult(tokenId, p.publishedHash, p.originalHash, p.metadataUrl, receipt.hash, "", ""));
  }

  // ---- properties of the mint --------------------------------------------

  /** The type test and the address test come before any call: a rejected
      request hashes, uploads and submits nothing and leaves the store alone. */
  lemma MintValidatesFirst(m: Collection, req: MintRequest, w: MintWorld)
    requires !AcceptedMime(req.mimetype) || w.checksum(req.owner).None?
    ensures var run := MintSpec(m, req, w);
      && run.steps == [] && run.records == m
      && run.outcome == Failure(Raised(BadRequestError(
           if !AcceptedMime(req.mimetype) then "File type not supported" else "Owner address is not valid")))
  {
  }

  /** A mint that stops before the try block writes nothing, submits nothing,
      and raises only the two validation errors. */
  lemma MintStopsBeforeLedger(m: Collection, req: MintRequest, w: MintWorld)
    requires !ReachesLedger(req, w)
    ensures var run := MintSpec(m, req, w);
      && run.records == m && run.outcome.Failure?
      && (forall i :: 0 <= i < |run.steps| ==> !run.steps[i].SubmitMint? && !run.steps[i].WritePending?)
      && (run.outcome.error.Raised? ==>
            run.outcome.error.error in {BadRequestError("File type not supported"), BadRequestError("Owner address is not valid")})
  {
  }

  /** The fee, estimate and balance reads succeed and the balance suffices. */
  predicate Funded(w: MintWorld) {
    && w.feeData.Success? && w.estimate.Success? && w.balance.Success?
    && w.balance.value >= RequiredBalance(w.feeData.value, w.estimate.value)
  }

  /** A creative PDF is accepted by the type test but fails when its undefined
      watermark is hashed, before anything is uploaded. */
  lemma PdfMintFailsAtHash(m: Collection, req: MintRequest, w: MintWorld)
    requires req.mimetype == "application/pdf" && w.checksum(req.owner).Some?
    ensures var run := MintSpec(m, req, w);
      && run.outcome == Failure(Propagated(HASH_OF_UNDEFINED))
      && run.steps == [HashOriginal, ApplyWatermark, HashPublished] && run.records == m
  {
    Watermark.PdfFallsThrough(req.buffer, w.jimp);
  }

  /** In the try block: without funds nothing is submitted or written. */
  lemma OnChainSubmitsOnlyWhenFunded(m: Collection, w: MintWorld, p: Published, steps: seq<Step>)
    requires forall i :: 0 <= i < |steps| ==> !steps[i].SubmitMint?
    requires !Funded(w)
    ensures var run := MintOnChain(m, w, p, steps);
      && run.records == m && run.outcome == Failure(Raised(MintFailure(TryBlockFault(w).value)))
      && forall i :: 0 <= i < |run.steps| ==> !run.steps[i].SubmitMint?
  {
  }

  /** `mintAsset` is submitted only when the balance covers the requirement;
      without it the mint fails with one of the catch block's messages and
      writes nothing. */
  lemma SubmitOnlyWhenFunded(m: Collection, req: MintRequest, w: MintWorld)
    ensures Submits(MintSpec(m, req, w).steps) ==> ReachesLedger(req, w) && Funded(w)
    ensures (&& ReachesLedger(req, w) && w.feeData.Success? && w.estimate.Success? && w.balance.Success?
             && w.balance.value < RequiredBalance(w.feeData.value, w.estimate.value)) ==>
      (var run := MintSpec(m, req, w);
        && run.outcome == Failure(Raised(BadRequestError("Minting creative failed!")))
        && !Submits(run.steps) && run.records == m)
  {
    if !ReachesLedger(req, w) {
      MintStopsBeforeLedger(m, req, w);
    } else {
      if !Funded(w) {
        OnChainSubmitsOnlyWhenFunded(m, w, PublishedOf(req, w), UploadSteps(req, w));
      }
    }
  }

  /** The first failure inside the try block, in the order of the calls. */
  function TryBlockFault(w: MintWorld): Option<Fault> {
    if w.feeData.Failure? then Some(w.feeData.error)
    else if w.estimate.Failure? then Some(w.estimate.error)
    else if w.balance.Failure? then Some(w.balance.error)
    else if w.balance.value < RequiredBalance(w.feeData.value, w.estimate.value) then Some(INSUFFICIENT_BALANCE)
    else if w.submit.Some? then w.submit
    else if w.pendingWriteFault.Some? then w.pendingWriteFault
    else if w.receipt.Failure? then Some(w.receipt.error)
    else None
  }

  /** In the try block: the first failure is re-thrown through the catch block. */
  lemma OnChainRewraps(m: Collection, w: MintWorld, p: Published, steps: seq<Step>)
    ensures TryBlockFault(w).Some? ==>
      MintOnChain(m, w, p, steps).outcome == Failure(Raised(MintFailure(TryBlockFault(w).value)))
    ensures TryBlockFault(w).None? ==>
      var o := MintOnChain(m, w, p, steps).outcome;
      o.Success? || o.error.Propagated?
  {
  }

  /** Every failure in the try block is re-thrown as one BadRequest, whose
      message depends only on the caught error's `code` and `message`. */
  lemma TryBlockErrorsRewrapped(m: Collection, req: MintRequest, w: MintWorld)
    requires ReachesLedger(req, w) && TryBlockFault(w).Some?
    ensures MintSpec(m, req, w).outcome == Failure(Raised(MintFailure(TryBlockFault(w).value)))
  {
    assert MintSpec(m, req, w) == MintOnChain(m, w, PublishedOf(req, w), UploadSteps(req, w));
    OnChainRewraps(m, w, PublishedOf(req, w), UploadSteps(req, w));
  }

  /** Every error the mint throws itself is a BadRequest with one of four messages. */
  lemma MintRaisesOnlyBadRequest(m: Collection, req: MintRequest, w: MintWorld)
    ensures var o := MintSpec(m, req, w).outcome;
      o.Failure? && o.error.Raised? ==>
        && o.error.error.kind == BadRequest
        && o.error.error.message in {"File type not supported", "Owner address is not valid",
             "Owner address does not exist", "Minting creative failed!"}
  {
    if !ReachesLedger(req, w) {
      MintStopsBeforeLedger(m, req, w);
    } else {
      var p := PublishedOf(req, w);
      assert MintSpec(m, req, w) == MintOnChain(m, w, p, UploadSteps(req, w));
      OnChainRewraps(m, w, p, UploadSteps(req, w));
      if TryBlockFault(w).Some? {
        var e := MintFailure(TryBlockFault(w).value);
        assert e.message in {"Owner address does not exist", "Minting creative failed!"};
      }
    }
  }

  /** In the try block: a failure after the funded submit leaves the pending document. */
  lemma OnChainFailureStaysPending(m: Collection, w: MintWorld, p: Published, steps: seq<Step>)
    requires Funded(w) && w.pendingWriteFault.None?
    requires MintOnChain(m, w, p, steps).outcome.Failure?
    ensures MintOnChain(m, w, p, steps).records == PendingUpserted(m, PendingFor(w, p), w.now)
  {
  }

  /** Once the pending upsert is written, a mint that then fails, whether in
      the ledger or in the terminal update, leaves the record pending with an
      empty transaction hash, and every other record as it was. */
  lemma FailedMintStaysPending(m: Collection, req: MintRequest, w: MintWorld)
    requires ReachesLedger(req, w) && Funded(w) && w.pendingWriteFault.None?
    requires MintSpec(m, req, w).outcome.Failure?
    ensures var run := MintSpec(m, req, w);
      var key := Some(PublishedHashOf(req, w));
      && key in run.records && run.records[key].status == Pending
      && run.records[key].transactionHash == Some("")
      && forall k :: k in m && k != key ==> k in run.records && run.records[k] == m[k]
  {
    OnChainFailureStaysPending(m, w, PublishedOf(req, w), UploadSteps(req, w));
  }

  /** A try block and terminal update that succeed. */
  lemma OnChainSuccess(m: Collection, w: MintWorld, p: Published, steps: seq<Step>)
    requires MintOnChain(m, w, p, steps).outcome.Success?
    ensures Funded(w) && w.receipt.Success?
    ensures var run := MintOnChain(m, w, p, steps);
      var r := run.outcome.value;
      var key := Some(p.publishedHash);
      && r.publishedHash == p.publishedHash && r.originalHash == p.originalHash
      && r.tokenURI == p.metadataUrl && r.transactionHash == w.receipt.value.hash
      && r.tokenId == LastAssigned(w.receipt.value.logs)
      && key in run.records
      && run.records[key] == FinalDocument(PendingDocument(m, PendingFor(w, p), w.now),
           FinalWrite(p.publishedHash, p.originalHash, r.tokenId, p.owner, w.config.contractAddress,
             ChainId(w.config), p.metadataUrl, p.fileUrl, p.metadataUrl, r.transactionHash,
             TerminalStatus(r.tokenId)), w.now)
  {
  }

  /** A successful mint leaves the record it returns: minted exactly when a
      token id was found, with the receipt's hash and the returned fields. */
  lemma MintedRecordMatchesResult(m: Collection, req: MintRequest, w: MintWorld)
    requires MintSpec(m, req, w).outcome.Success?
    ensures ReachesLedger(req, w) && Funded(w)
    ensures var run := MintSpec(m, req, w);
      var r := run.outcome.value;
      var key := Some(r.publishedHash);
      && r.publishedHash == PublishedHashOf(req, w)
      && key in run.records
      && (run.records[key].status == Minted <==> r.tokenId.Some?)
      && run.records[key].status != Pending
      && run.records[key].transactionHash == Some(r.transactionHash) && r.transactionHash == w.receipt.value.hash
      && run.records[key].tokenURI == Some(r.tokenURI) && run.records[key].metadataUrl == Some(r.tokenURI)
      && run.records[key].originalHash == Some(r.originalHash)
      && run.records[key].publishedHash == key
      && (r.tokenId.Some? ==> run.records[key].tokenId == r.tokenId)
      && r.tokenId == LastAssigned(w.receipt.value.logs)
  {
    if !ReachesLedger(req, w) {
      MintStopsBeforeLedger(m, req, w);
    } else {
      OnChainSuccess(m, w, PublishedOf(req, w), UploadSteps(req, w));
      MintedIffTokenId(w.receipt.value.logs);
    }
  }

  /** Both hashes a mint stores pass the schema's hash validator. */
  lemma MintedHashesWellFormed(m: Collection, req: MintRequest, w: MintWorld)
    requires MintSpec(m, req, w).outcome.Success?
    ensures var r := MintSpec(m, req, w).outcome.value;
      IsHash32(r.publishedHash) && IsHash32(r.originalHash)
  {
    if !ReachesLedger(req, w) {
      MintStopsBeforeLedger(m, req, w);
    }
    OnChainSuccess(m, w, PublishedOf(req, w), UploadSteps(req, w));
    DigestMatchesHashFormat(w.sha256(req.buffer));
    DigestMatchesHashFormat(w.sha256(Watermark.WatermarkResult(req.buffer, req.mimetype, w.jimp).bytes));
  }

  /** Minting content that is already minted is not refused: the upsert turns
      the minted record back to pending, and a failing ledger leaves it so,
      still carrying its old token id. */
  lemma RemintDemotesMintedRecord(m: Collection, req: MintRequest, w: MintWorld)
    requires ReachesLedger(req, w) && Funded(w) && w.pendingWriteFault.None? && w.submit.Some?
    requires Some(PublishedHashOf(req, w)) in m && m[Some(PublishedHashOf(req, w))].status == Minted
    ensures var key := Some(PublishedHashOf(req, w));
      var run := MintSpec(m, req, w);
      && run.outcome.Failure? && key in run.records
      && run.records[key].status == Pending && run.records[key].tokenId == m[key].tokenId
  {
  }

  /** The errors the mint raises itself reach the client as 400 responses. */
  lemma MintErrorsAnswer400(m: Collection, req: MintRequest, w: MintWorld)
    requires MintSpec(m, req, w).outcome.Failure? && MintSpec(m, req, w).outcome.error.Raised?
    ensures var e := MintSpec(m, req, w).outcome.error.error;
      ErrorMiddleware.ErrorHandler(ErrorMiddleware.Plain.(custom := Some(e))).httpStatus == BAD_REQUEST
  {
    MintRaisesOnlyBadRequest(m, req, w);
    var e := MintSpec(m, req, w).outcome.error.error;
    ErrorMiddleware.BadRequestAnswers(e.message);
  }

  // ---------------------------------------------------------------------------
  // leaseCreativeService (creative.service.ts:186-251)
  // ---------------------------------------------------------------------------

  datatype LeaseRequest = LeaseRequest(tokenId: string, user: string, expires: int)

  /** Everything outside the service, as the lease sees it: `ownerOf`, the
      fee data, the `setUser` estimate, its submission and receipt hash, the
      three read-backs, a database failure and the clock. */
  datatype LeaseWorld = LeaseWorld(
    config: Config, checksum: Checksum,
    ownerOf: Result<string, Fault>, feeData: Result<FeeData, Fault>, estimate: Result<nat, Fault>,
    submit: Option<Fault>, receipt: Result<string, Fault>,
    userOf: Result<string, Fault>, userExpires: Result<nat, Fault>, tokenURI: Result<string, Fault>,
    writeFault: Option<Fault>, now: int)

  datatype LeaseResult = LeaseResult(
    tokenId: string, contractAddress: string, chainId: int, owner: string, user: Option<string>,
    expires: int, tokenURI: string, transactionHash: string, status: string)

  /** What a lease returns or throws, its calls, and the upsert it applied. */
  datatype LeasePlan = LeasePlan(outcome: Result<LeaseResult, ServiceError>, steps: seq<Step>, write: Option<LeaseWrite>)

  const NOT_OWNER := "You are not the owner of this creative"

  /** The service's wallet owns the token on the ledger. */
  predicate OwnsToken(w: LeaseWorld) {
    && w.ownerOf.Success? && w.checksum(w.ownerOf.value).Some?
    && w.checksum(w.ownerOf.value) == w.checksum(w.config.walletAddress)
  }

  /** `userOf === ethers.ZeroAddress ? undefined : ethers.getAddress(userOf)`;
      the outer None is the throw of `getAddress`. */
  function LeasedUser(w: LeaseWorld, userOf: string): Option<Option<string>> {
    if userOf == ZERO_ADDRESS then Some(None)
    else if w.checksum(userOf).Some? then Some(w.checksum(userOf))
    else None
  }

  function LeaseSpec(m: Collection, req: LeaseRequest, w: LeaseWorld): LeasePlan {
    var steps := [OwnerOf(req.tokenId)];
    if w.ownerOf.Failure? then LeasePlan(Failure(Propagated(w.ownerOf.error)), steps, None)
    else if w.checksum(w.ownerOf.value).None? || w.checksum(w.config.walletAddress).None? then
      LeasePlan(Failure(Propagated(INVALID_ADDRESS)), steps, None)
    else if w.checksum(w.ownerOf.value) != w.checksum(w.config.walletAddress) then
      LeasePlan(Failure(Raised(BadRequestError(NOT_OWNER))), steps, None)
    else if w.checksum(req.user).None? then LeasePlan(Failure(Propagated(INVALID_ADDRESS)), steps, None)
    else LeaseOnChain(m, req, w, w.checksum(w.ownerOf.value).value, w.checksum(req.user).value, steps)
  }

  /** Lines 201-250, once ownership and the user address are settled. */
  function LeaseOnChain(m: Collection, req: LeaseRequest, w: LeaseWorld, owner: string, user: string,
    steps: seq<Step>): LeasePlan
  {
    if w.feeData.Failure? then LeasePlan(Failure(Propagated(w.feeData.error)), steps + [GetFeeData], None)
    else if w.estimate.Failure? then
      LeasePlan(Failure(Propagated(w.estimate.error)), steps + [GetFeeData, EstimateSetUser(req.tokenId, user, req.expires)], None)
    else
      var steps1 := steps + [GetFeeData, EstimateSetUser(req.tokenId, user, req.expires),
        SubmitSetUser(req.tokenId, user, req.expires, Overrides(w.feeData.value, w.estimate.value))];
      if w.submit.Some? then LeasePlan(Failure(Propagated(w.submit.value)), steps1, None)
      else if w.receipt.Failure? then LeasePlan(Failure(Propagated(w.receipt.error)), steps1 + [WaitSetUser], None)
      else
        var steps2 := steps1 + [WaitSetUser, ReadLease];
        if w.userOf.Failure? then LeasePlan(Failure(Propagated(w.userOf.error)), steps2, None)
        else if w.userExpires.Failure? then LeasePlan(Failure(Propagated(w.userExpires.error)), steps2, None)
        else if w.tokenURI.Failure? then LeasePlan(Failure(Propagated(w.tokenURI.error)), steps2, None)
        else if LeasedUser(w, w.userOf.value).None? then LeasePlan(Failure(Propagated(INVALID_ADDRESS)), steps2, None)
        else
          var leased := LeasedUser(w, w.userOf.value).value;
          var write := LeaseWrite(req.tokenId, w.config.contractAddress, ChainId(w.config), owner, leased,
            w.userExpires.value, w.tokenURI.value, w.receipt.value,
            LeaseEntry(user, w.userExpires.value, w.receipt.value, w.now));
          var steps3 := steps2 + [WriteLease(write)];
          if w.writeFault.Some? then LeasePlan(Failure(Propagated(w.writeFault.value)), steps3, None)
          else if LeaseUpsertConflicts(m, write) then
            LeasePlan(Failure(Propagated(DUPLICATE_NULL_PUBLISHED_HASH)), steps3, None)
          else
            LeasePlan(Success(LeaseResult(req.tokenId, w.config.contractAddress, ChainId(w.config), owner, leased,
              w.userExpires.value, w.tokenURI.value, w.receipt.value, "leased")), steps3, Some(write))
  }

  /** The service, step by step, against the store. */
  method LeaseCreative(store: CreativeModel, req: LeaseRequest, w: LeaseWorld)
    returns (outcome: Result<LeaseResult, ServiceError>, steps: seq<Step>)
    requires store.Valid()
    modifies store
    ensures store.Valid()
    ensures var plan := LeaseSpec(old(store.records), req, w);
      && outcome == plan.outcome && steps == plan.steps
      && (plan.write.Some? ==> LeaseApplied(old(store.records), store.records, plan.write.value, w.now))
      && (plan.write.None? ==> store.records == old(store.records))
  {
    steps := [OwnerOf(req.tokenId)];
    if w.ownerOf.Failure? {
      return Failure(Propagated(w.ownerOf.error)), steps;
    }
    var onChainOwner := w.ownerOf.value;
    if w.checksum(onChainOwner).None? || w.checksum(w.config.walletAddress).None? {
      return Failure(Propagated(INVALID_ADDRESS)), steps;
    }
    if w.checksum(onChainOwner) != w.checksum(w.config.walletAddress) {
      return Failure(Raised(BadRequestError(NOT_OWNER))), steps;
    }
    if w.checksum(req.user).None? {
      return Failure(Propagated(INVALID_ADDRESS)), steps;
    }
    var owner, user := w.checksum(onChainOwner).value, w.checksum(req.user).value;
    outcome, steps := SubmitLease(store, req, w, owner, user, steps);
  }

  /** Lines 201-250: the `setUser` transaction, the read-back and the upsert. */
  method SubmitLease(store: CreativeModel, req: LeaseRequest, w: LeaseWorld, owner: string, user: string,
    steps0: seq<Step>)
    returns (outcome: Result<LeaseResult, ServiceError>, steps: seq<Step>)
    requires store.Valid()
    modifies store
    ensures store.Valid()
    ensures var plan := LeaseOnChain(old(store.records), req, w, owner, user, steps0);
      && outcome == plan.outcome && steps == plan.steps
      && (plan.write.Some? ==> LeaseApplied(old(store.records), store.records, plan.write.value, w.now))
      && (plan.write.None? ==> store.records == old(store.records))
  {
    if w.feeData.Failure? {
      return Failure(Propagated(w.feeData.error)), steps0 + [GetFeeData];
    }
    var estimate := EstimateSetUser(req.tokenId, user, req.expires);
    if w.estimate.Failure? {
      return Failure(Propagated(w.estimate.error)), steps0 + [GetFeeData, estimate];
    }
    var submit := SubmitSetUser(req.tokenId, user, req.expires, Overrides(w.feeData.value, w.estimate.value));
    steps := steps0 + [GetFeeData, estimate, submit];
    if w.submit.Some? {
      return Failure(Propagated(w.submit.value)), steps;
    }
    if w.receipt.Failure? {
      return Failure(Propagated(w.receipt.error)), steps + [WaitSetUser];
    }
    var hash := w.receipt.value;
    steps := steps + [WaitSetUser, ReadLease];
    if w.userOf.Failure? {
      return Failure(Propagated(w.userOf.error)), steps;
    }
    if w.userExpires.Failure? {
      return Failure(Propagated(w.userExpires.error)), steps;
    }
    if w.tokenURI.Failure? {
      return Failure(Propagated(w.tokenURI.error)), steps;
    }
    var leased: Option<string>;
    if w.userOf.value == ZERO_ADDRESS {
      leased := None;
    } else if w.checksum(w.userOf.value).Some? {
      leased := w.checksum(w.userOf.value);
    } else {
      return Failure(Propagated(INVALID_ADDRESS)), steps;
    }
    var chainId := ChainId(w.config);
    var expires := w.userExpires.value;
    var write := LeaseWrite(req.tokenId, w.config.contractAddress, chainId, owner, leased, expires,
      w.tokenURI.value, hash, LeaseEntry(user, expires, hash, w.now));
    steps := steps + [WriteLease(write)];
    if w.writeFault.Some? {
      return Failure(Propagated(w.writeFault.value)), steps;
    }
    var fault := store.UpsertLease(write, w.now);
    if fault.Some? {
      return Failure(Propagated(fault.value)), steps;
    }
    outcome := Success(LeaseResult(req.tokenId, w.config.contractAddress, chainId, owner, leased,
      expires, w.tokenURI.value, hash, "leased"));
  }

  // ---- properties of the lease -------------------------------------------

  /** Only the token's owner leases: otherwise the lease stops after `ownerOf`,
      and `setUser` is neither estimated nor submitted. */
  lemma LeaseRequiresOwnership(m: Collection, req: LeaseRequest, w: LeaseWorld)
    requires !OwnsToken(w)
    ensures var plan := LeaseSpec(m, req, w);
      && plan.steps == [OwnerOf(req.tokenId)] && plan.write.None? && plan.outcome.Failure?
      && (w.ownerOf.Success? && w.checksum(w.ownerOf.value).Some? && w.checksum(w.config.walletAddress).Some? ==>
            plan.outcome == Failure(Raised(BadRequestError(NOT_OWNER))))
  {
  }

  /** A lease writes exactly when it succeeds. */
  lemma LeaseWritesOnlyOnSuccess(m: Collection, req: LeaseRequest, w: LeaseWorld)
    ensures var plan := LeaseSpec(m, req, w);
      plan.write.Some? <==> plan.outcome.Success?
  {
  }

  /** Unlike the mint, the lease re-wraps nothing: its only own error is the
      ownership refusal, and every other failure is the one raised outside. */
  lemma LeaseRaisesOnlyNotOwner(m: Collection, req: LeaseRequest, w: LeaseWorld)
    ensures var o := LeaseSpec(m, req, w).outcome;
      o.Failure? && o.error.Raised? ==> o.error.error == BadRequestError(NOT_OWNER) && !OwnsToken(w)
  {
  }

  /** A lease succeeds with what the ledger reports after `setUser`, and the
      write carries the same values: the new user (none for the zero address),
      the read-back expiry, the receipt's hash, and a history entry for the
      requested user. */
  lemma LeaseReadBack(m: Collection, req: LeaseRequest, w: LeaseWorld)
    requires LeaseSpec(m, req, w).outcome.Success?
    ensures OwnsToken(w) && w.userOf.Success? && w.userExpires.Success? && w.receipt.Success? && w.tokenURI.Success?
    ensures var plan := LeaseSpec(m, req, w);
      var r := plan.outcome.value;
      && plan.write.Some?
      && r.expires == w.userExpires.value && plan.write.value.userExpires == r.expires
      && r.user == (if w.userOf.value == ZERO_ADDRESS then None else w.checksum(w.userOf.value))
      && plan.write.value.user == r.user
      && r.transactionHash == w.receipt.value && plan.write.value.transactionHash == r.transactionHash
      && r.tokenURI == w.tokenURI.value && r.owner == w.checksum(w.ownerOf.value).value
      && r.status == "leased" && r.chainId == ChainId(w.config)
      && plan.write.value.entry == LeaseEntry(w.checksum(req.user).value, r.expires, r.transactionHash, w.now)
      && SubmitSetUser(req.tokenId, w.checksum(req.user).value, req.expires,
           Overrides(w.feeData.value, w.estimate.value)) in plan.steps
  {
  }

  /** The stored lease history of a successful lease grows by the one entry
      and keeps every earlier entry. */
  lemma LeaseAppendsHistory(m: Collection, m': Collection, req: LeaseRequest, w: LeaseWorld)
    requires LeaseSpec(m, req, w).outcome.Success?
    requires LeaseApplied(m, m', LeaseSpec(m, req, w).write.value, w.now)
    ensures var write := LeaseSpec(m, req, w).write.value;
      exists k :: k in m' && MatchesLease(m'[k], write)
        && m'[k].leaseHistory == (if k in m then m[k].leaseHistory else []) + [write.entry]
        && m'[k].userExpires == LeaseSpec(m, req, w).outcome.value.expires
        && (forall k' :: k' in m && k' != k ==> k' in m' && m'[k'] == m[k'])
  {
    var write := LeaseSpec(m, req, w).write.value;
    LeaseReadBack(m, req, w);
    var k := LeaseTarget(m, m', write, w.now);
    assert m'[k].userExpires == write.userExpires;
    assert m'[k].leaseHistory == (if k in m then m[k].leaseHistory else []) + [write.entry];
  }

  // ---------------------------------------------------------------------------
  // getCreativeByOwnerAddressService (creative.service.ts:253-280)
  // ---------------------------------------------------------------------------

  /** `Number(req.body.page)` and `Number(req.body.limit)`: integers, NaN or infinities. */
  datatype JsNumber = NaN | PosInfinity | NegInfinity | Finite(value: int)

  const DEFAULT_LIMIT := 10

  /** `Number.isFinite(page) && page > 0 ? page : 1` */
  function SafePage(page: JsNumber): (p: int)
    ensures p >= 1
    ensures page.Finite? && page.value > 0 ==> p == page.value
    ensures !(page.Finite? && page.value > 0) ==> p == 1
  {
    if page.Finite? && page.value > 0 then page.value else 1
  }

  /** `Number.isFinite(limit) && limit > 0 ? limit : 10` */
  function SafeLimit(limit: JsNumber): (l: int)
    ensures l >= 1
    ensures limit.Finite? && limit.value > 0 ==> l == limit.value
    ensures !(limit.Finite? && limit.value > 0) ==> l == DEFAULT_LIMIT
  {
    if limit.Finite? && limit.value > 0 then limit.value else DEFAULT_LIMIT
  }

  /** Clamping a clamped value changes nothing. */
  lemma ClampIdempotent(page: JsNumber, limit: JsNumber)
    ensures SafePage(Finite(SafePage(page))) == SafePage(page)
    ensures SafeLimit(Finite(SafeLimit(limit))) == SafeLimit(limit)
  {
  }

  /** `(safePage - 1) * safeLimit`: the number of items on the earlier pages. */
  function Skip(page: int, limit: int): (s: nat)
    requires page >= 1 && limit >= 1
  {
    MulLeft(limit, 0, page - 1);
    (page - 1) * limit
  }

  /** `Math.ceil(total / safeLimit) || 1` */
  function Pages(total: nat, limit: int): (n: int)
    requires limit >= 1
    ensures n >= 1
    ensures total == 0 ==> n == 1
    ensures total > 0 ==> (n - 1) * limit < total <= n * limit
  {
    var c := (total + limit - 1) / limit;
    assert c * limit <= total + limit - 1 < c * limit + limit;
    if c == 0 then 1 else c
  }

  /** Every listed position lies on exactly one page within `pages`. */
  lemma PagesCoverTotal(total: nat, limit: int, i: nat)
    requires limit >= 1 && i < total
    ensures var page := i / limit + 1;
      && 1 <= page <= Pages(total, limit)
      && Skip(page, limit) <= i < Skip(page, limit) + limit
  {
    var q := i / limit;
    var n := Pages(total, limit);
    assert q * limit <= i < q * limit + limit by {
      assert i == q * limit + i % limit;
    }
    assert q * limit < n * limit;
    CancelFactor(limit, q, n);
    assert Skip(q + 1, limit) == q * limit;
  }

  lemma CancelFactor(p: int, a: int, b: int)
    requires p >= 1 && a * p < b * p
    ensures a < b
  {
  }

  datatype Pagination = Pagination(page: int, limit: int, total: nat, pages: int)
  datatype Listing = Listing(items: seq<CreativeRecord>, pagination: Pagination)

  /** The listing of an owner's minted creatives, newest first; `all` is the
      whole ordered list the page is cut from. The elements of the
      `Promise.all` array are awaited one after the other: `countDocuments`
      first, and a rejection of either propagates as it is. */
  method GetCreativeByOwnerAddress(store: CreativeModel, ownerAddress: string, page: JsNumber, limit: JsNumber,
    checksum: Checksum, countFault: Option<Fault>, findFault: Option<Fault>)
    returns (r: Result<Listing, ServiceError>, ghost all: seq<CreativeRecord>)
    requires store.Valid()
    ensures r.Success? <==> checksum(ownerAddress).Some? && countFault.None? && findFault.None?
    ensures checksum(ownerAddress).None? ==> r == Failure(Raised(BadRequestError("Owner address is not valid")))
    ensures checksum(ownerAddress).Some? && countFault.Some? ==> r == Failure(Propagated(countFault.value))
    ensures checksum(ownerAddress).Some? && countFault.None? && findFault.Some? ==>
      r == Failure(Propagated(findFault.value))
    ensures r.Success? ==>
      var owner := checksum(ownerAddress).value;
      var pg := r.value.pagination;
      && pg.page == SafePage(page) && pg.limit == SafeLimit(limit)
      && pg.total == |MintedKeys(store.records, owner)|
      && pg.pages == Pages(pg.total, pg.limit)
      && IsMintedListing(all, store.records, owner)
      && r.value.items == Window(all, Skip(pg.page, pg.limit), pg.limit)
  {
    all := [];
    if checksum(ownerAddress).None? {
      return Failure(Raised(BadRequestError("Owner address is not valid"))), all;
    }
    if countFault.Some? {
      return Failure(Propagated(countFault.value)), all;
    }
    if findFault.Some? {
      return Failure(Propagated(findFault.value)), all;
    }
    var owner := checksum(ownerAddress).value;
    var safePage, safeLimit := SafePage(page), SafeLimit(limit);
    var total, items;
    total, items, all := store.FindMinted(owner, Skip(safePage, safeLimit), safeLimit);
    r := Success(Listing(items, Pagination(safePage, safeLimit, total, Pages(total, safeLimit))));
  }
}
