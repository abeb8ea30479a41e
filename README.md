# Certchain backend: a Dafny model of its core

This project models the backend of Certchain, an Express + Mongoose service.
The service registers creative works and certificates as tokens on an
ERC-4907 ("rentable NFT") contract. The model covers:

- the three creative services in `src/services/creative.service.ts`:
  - mint: validate, hash, watermark, upload, check funds, submit `mintAsset` together with a pending upsert, then write the terminal update;
  - lease: check ownership, `setUser`, read the lease back, then upsert the record and append to its lease history;
  - listing: an owner's minted creatives, paginated and newest first;
- the Mongo collection those services write, as a class over a map keyed by the unique `publishedHash` (`CreativeStore.CreativeModel`);
- the Mongoose schemas of `Creative` and `Certificate`: defaults, required paths, hash format and unique index;
- the error classes of `src/ultis/CustomErrors.ts` and the Express error handler of `src/middlewares/error.middlewares.ts`;
- the upload-file validator and the `tokenId` check of `src/middlewares/certificate.middlewares.ts`;
- the watermark routine of `src/ultis/Watermark.ts`: the tiling loop on a 3w x 3h overlay, then one rotation;
- the unfinished certificate mint of `src/services/certificate.service.ts`;
- the metadata helper of `src/helpers/generate-metadata.ts`.

Everything outside the process is a parameter of the operation that uses it: the ledger (RPC calls, receipts and logs), Cloudinary, SHA-256, `ethers.getAddress`, Jimp and the clock. The database is the `CreativeModel` object. Each service is a method that keeps a list of the calls it made (`Step`). Each method is proved equal to a specification function of the old store and the worldview: `MintSpec`, `LeaseSpec`, or the listing contract. The properties are lemmas about those functions.

Mongoose semantics assumed (version 6 or later):

- `undefined` values are stripped from an update. So `user: undefined` in the lease, and `tokenId: undefined` in the terminal update, leave the stored value as it was.
- `timestamps: true` sets `updatedAt` on every write and `createdAt` on insert.
- An upserted insert takes the filter's equality fields and the schema defaults.

Where the code and its description differ, the model follows the code:

- **A creative PDF cannot be minted.** `addWatermark` returns `undefined` for non-images, and hashing `undefined` throws before anything is uploaded. See `PdfMintFailsAtHash`.
- **The certificate mint always refuses.** Its type guard uses `||`, so it holds for every MIME type. See `RejectsEveryType` and `MintCertificate`.
- **Minting already-minted content is not refused.** The pending upsert turns the minted record back to `pending`. See `RemintDemotesMintedRecord`.
- **A lease that reads back the zero address keeps the stored user.** It does not clear it. See `ZeroUserKeepsStoredUser`.
- **A lease upsert that matches no record inserts a document without `publishedHash`.** Under the unique index, a second such insert fails with E11000. See `LeaseUpsertConflicts`.

## Model

| member | source | states |
|---|---|---|
| Text.Hex | src/services/creative.service.ts:44 | `digest('hex')`: two lower-case hex characters per byte |
| Text.UnhexHex | src/services/creative.service.ts:44-45 | decoding the hex text of a digest gives the digest back |
| Text.HexInjective | src/services/creative.service.ts:44-45 | distinct digests have distinct hex texts |
| Text.DecimalString | src/services/creative.service.ts:142 | `tokenId.toString()` of a natural number is a non-empty string of decimal digits |
| Text.DecimalRoundTrip | src/services/creative.service.ts:142 | reading the decimal string of a token id gives the id back |
| Text.DecimalStringInjective | src/services/creative.service.ts:142 | distinct token ids have distinct strings |
| CustomErrors.StatusCode | src/ultis/CustomErrors.ts:18-106 | every error class answers 4xx or 5xx; exactly the BadRequest, Upload, Watermark and Metadata classes answer 400; only Blockchain and Config answer 5xx |
| CustomErrors.Code | src/ultis/CustomErrors.ts:18-106 | no class carries the validation code; exactly the 400 family carries the BAD_REQUEST code |
| CustomErrors.NewError | src/ultis/CustomErrors.ts:8-16 | the constructed error has its class and the given message, or else the class's default message |
| CustomErrors.BadRequestError | src/ultis/CustomErrors.ts:54-61 | a BadRequestError is of the BadRequest class, answers 400 and keeps its message |
| CustomErrors.NotFoundError | src/ultis/CustomErrors.ts:45-52 | a NotFoundError is of the NotFound class, answers 404 and keeps its message |
| CustomErrors.FixedStatusAndCode | src/ultis/CustomErrors.ts:18-61 | the exact status and code of the Authentication, Authorization, Conflict, NotFound and BadRequest classes |
| CustomErrors.UploadFamilyIsBadRequest | src/ultis/CustomErrors.ts:63-88 | Upload, Watermark and Metadata errors answer with BadRequest's status and code |
| CustomErrors.ServerSideKinds | src/ultis/CustomErrors.ts:90-106 | Blockchain answers 502 with BLOCKCHAIN_ERROR; Config answers 500 with INTERNAL |
| CustomErrors.AllOperational | src/ultis/CustomErrors.ts:21 | every error class is operational |
| CustomErrors.CodeDeterminesStatus | src/ultis/CustomErrors.ts:18-106 | two classes with the same error code have the same HTTP status |
| CustomErrors.DefaultMessages | src/ultis/CustomErrors.ts:67-103 | the five default messages; an explicit message always wins |
| ErrorMiddleware.Classify | src/middlewares/error.middlewares.ts:13-93 | each branch is taken exactly when the earlier tests fail and its own succeeds: domain error, then code 11000, then TokenExpired, then JsonWebToken, then ValidationError, then the default |
| ErrorMiddleware.DuplicateDetails | src/middlewares/error.middlewares.ts:22-28 | one detail per key-pattern field, "<field> already exists" with the key value of that field |
| ErrorMiddleware.ValidationDetails | src/middlewares/error.middlewares.ts:67-74 | one detail per failing path, with that path's message and value |
| ErrorMiddleware.ErrorHandler | src/middlewares/error.middlewares.ts:10-94 | the corrected handler: for each branch, the status, code, message and full detail list it sends; each branch passes its status to `res.status` and to the `ApiError` separately, and the two always agree |
| ErrorMiddleware.InvalidStatusOnlyFromDefault | src/middlewares/error.middlewares.ts:86-93 | the handler sends a status outside 100-999 exactly when the fallback branch takes a numeric `err.status` outside that range |
| ErrorMiddleware.ErrorHandlerAsWritten | src/middlewares/error.middlewares.ts:19-22 | the handler as written fails exactly on a duplicate-key error without `keyPattern`; otherwise it answers like the corrected handler |
| ErrorMiddleware.DuplicateKeyWithoutPatternCrashes | src/middlewares/error.middlewares.ts:20-22 | `{code: 11000}` with no `keyPattern` crashes the handler as written; the corrected one answers 409 "undefined already exists" with no details |
| ErrorMiddleware.DomainErrorFirst | src/middlewares/error.middlewares.ts:13-16 | a domain error is answered with its own status, code and message, whatever else it carries |
| ErrorMiddleware.ExpiredBeforeInvalid | src/middlewares/error.middlewares.ts:44-63 | a TokenExpiredError, which is also a JsonWebTokenError, is answered "Token expired" |
| ErrorMiddleware.DuplicateKeyNamesFirstField | src/middlewares/error.middlewares.ts:20-35 | the duplicate-key message names the first key field, matching the message of its first detail |
| ErrorMiddleware.BadRequestAnswers | src/middlewares/error.middlewares.ts:13-16 | a BadRequestError is answered 400 with the BAD_REQUEST code, its message and no details |
| CertificateMiddleware.UploadFileValidator | src/middlewares/certificate.middlewares.ts:9-26 | `next()` is called without an error iff a file is present, its type is allowed and its size is at most 10 MiB; otherwise it gets the first failing check's error |
| CertificateMiddleware.MissingFileIsNotFound | src/middlewares/certificate.middlewares.ts:11-13 | a missing file is a 404 NotFound error |
| CertificateMiddleware.SizeLimitInclusive | src/middlewares/certificate.middlewares.ts:20-23 | exactly 10485760 bytes passes; one byte more is refused |
| CertificateMiddleware.OtherImagesRefused | src/middlewares/certificate.middlewares.ts:15-18 | GIF and SVG images are refused as unsupported at any size |
| CertificateMiddleware.AllowedArePdfOrImage | src/middlewares/certificate.middlewares.ts:15 | every allowed type is a PDF or an image type |
| CertificateMiddleware.SignOf | src/middlewares/certificate.middlewares.ts:67 | the conversion `value < 0` applies to the query string: the empty string is 0, and only a `-` sign can make it negative |
| CertificateMiddleware.TokenIdCheck | src/middlewares/certificate.middlewares.ts:65-71 | the custom check on the query string throws "Token ID must be an integer" iff the string reads as a negative number; NaN passes |
| CertificateMiddleware.IntegerTokenIds | src/middlewares/certificate.middlewares.ts:65-71 | the decimal string of every natural number passes, and its negation (for a non-zero number) is refused |
| CertificateMiddleware.CoercionCases | src/middlewares/certificate.middlewares.ts:67 | "abc" passes the custom check, "-0.5" is refused and "-0" passes |
| SchemaTypes.IsHash32 | src/models/schemas/Creative.ts:12 | `/^0x[a-fA-F0-9]{64}$/`: the prefix `0x` and 64 hex digits of either case |
| SchemaTypes.ParseStatus | src/models/schemas/Creative.ts:30-36 | the status enum accepts exactly "minted", "pending" and "failed" |
| SchemaTypes.StatusNameRoundTrip | src/models/schemas/Creative.ts:30-36 | every status is stored under a name the enum reads back to it |
| SchemaTypes.Bytes32Hex | src/services/creative.service.ts:45 | `'0x' + hex`: the prefix followed by the digest's hex text |
| SchemaTypes.DigestMatchesHashFormat | src/models/schemas/Creative.ts:12 | the `0x`-hex of a 32-byte digest passes `/^0x[a-fA-F0-9]{64}$/` |
| SchemaTypes.Bytes32HexInjective | src/models/schemas/Creative.ts:15-20 | distinct digests give distinct stored hashes |
| SchemaTypes.HashFormatDecodes | src/models/schemas/Creative.ts:12 | a string that passes the hash validator decodes to 32 bytes |
| CreativeSchema.LeaseEntryValid | src/models/schemas/Creative.ts:43-50 | a lease entry's required string paths `user` and `transactionHash` are non-empty; `expires` is always a number in the model |
| CreativeSchema.CreativeValid | src/models/schemas/Creative.ts:8-54 | both hashes match the hash pattern, the six required string paths are non-empty, and every lease entry is valid |
| CreativeSchema.KeyedByPublishedHash | src/models/schemas/Creative.ts:15-21 | the unique index as the shape of the collection: every document is stored under its own `publishedHash`, and at most one has none |
| CreativeSchema.NewCreative | src/models/schemas/Creative.ts:30-56 | a new document takes status `pending`, `userExpires` 0, an empty lease history and both timestamps when these are not given |
| CreativeSchema.PublishedHashUnique | src/models/schemas/Creative.ts:18 | under the unique index two documents never share a `publishedHash`; this follows at once from the map keyed by it, and every store method keeps that keying (`CreativeModel.Valid`) |
| CreativeSchema.OriginalHashNotUnique | src/models/schemas/Creative.ts:8-13 | an example: two documents of a keyed collection may share an `originalHash` |
| CreativeSchema.EmptyTransactionHashInvalid | src/models/schemas/Creative.ts:29 | a document with an empty `transactionHash` fails the `required` validator |
| CertificateSchema.NewCertificate | src/models/schemas/Certificate.ts:4-30 | a new certificate takes status `pending` and both timestamps; `tokenId` and `chainId` stay as given |
| CertificateSchema.CertificateValid | src/models/schemas/Certificate.ts:4-30 | the file hash matches the hash pattern and the six required string paths are non-empty |
| CertificateSchema.FileHashUnique | src/models/schemas/Certificate.ts:9 | two certificates never share a `fileHash`; this follows at once from a collection keyed by it |
| CertificateSchema.TokenIdAndChainIdOptional | src/models/schemas/Certificate.ts:13-16 | a valid certificate stays valid without `tokenId` and `chainId` |
| CertificateSchema.RequiredPaths | src/models/schemas/Certificate.ts:6-20 | removing any required path makes a valid certificate invalid |
| CertificateService.RejectsType | src/services/certificate.service.ts:13 | the type guard as written: not a PDF, or not an image |
| CertificateService.RejectsEveryType | src/services/certificate.service.ts:13-15 | the type guard holds for every MIME type |
| CertificateService.Extension | src/services/certificate.service.ts:25 | `.pdf` exactly for PDF, `.png` exactly for PNG, `.jpg` otherwise |
| CertificateService.OutputName | src/services/certificate.service.ts:26 | the name is the hash followed by `_wm` and the extension |
| CertificateService.OutputNameInjective | src/services/certificate.service.ts:26 | files with different hashes or extensions get different names |
| CertificateService.MintCertificate | src/services/certificate.service.ts:12-41 | the service throws "File type not supported" for every input |
| GenerateMetadata.GenerateMetadataJson | src/helpers/generate-metadata.ts:17-29 | each of the nine fields is copied from the input |
| GenerateMetadata.ProjectionIsBijective | src/helpers/generate-metadata.ts:17-29 | the metadata and the input determine each other |
| GenerateMetadata.AbsentStaysAbsent | src/helpers/generate-metadata.ts:27-28 | an absent `hash` or `type` stays absent |
| Watermark.Overlay.Picture | src/ultis/Watermark.ts:49 | the overlay handed to the final composite is the one built, with its size and its operations |
| Watermark.Overlay.Composite | src/ultis/Watermark.ts:38-41 | composing appends one placement at (x, y) to the overlay |
| Watermark.Overlay.RotateBy | src/ultis/Watermark.ts:46 | rotating appends one rotation |
| Watermark.PlaceTiles | src/ultis/Watermark.ts:36-43 | the nested loops append exactly the tile grid |
| Watermark.TilePlacements | src/ultis/Watermark.ts:32-37 | every tile starts at (-w + 300i, -h + 200j) inside [-w, 2w) x [-h, 2h) |
| Watermark.TileCount | src/ultis/Watermark.ts:36-37 | there are ceil(3h/200) x ceil(3w/300) tiles |
| Watermark.TilesRowMajor | src/ultis/Watermark.ts:36-37 | the tiles are placed row by row, left to right |
| Watermark.RowFromPlacements | src/ultis/Watermark.ts:37 | every tile of one row lies on the 300-pixel grid inside the row |
| Watermark.GridFromPlacements | src/ultis/Watermark.ts:36 | every tile lies on the 300 x 200 grid inside the overlay |
| Watermark.RowFromLength | src/ultis/Watermark.ts:37 | one row holds ceil(span/300) tiles |
| Watermark.GridFromLength | src/ultis/Watermark.ts:36-37 | the grid holds rows x tiles-per-row tiles |
| Watermark.RowFromOrdered | src/ultis/Watermark.ts:37 | one row runs left to right at a fixed height |
| Watermark.GridFromOrdered | src/ultis/Watermark.ts:36 | the rows run top to bottom |
| Watermark.OverlayOps | src/ultis/Watermark.ts:36-46 | all placements come first, then a single rotation by -45 |
| Watermark.OverlayFor | src/ultis/Watermark.ts:29-46 | the overlay is 3w x 3h; every placement lies inside the overlay's span from (-w, -h), and the last operation is the rotation |
| Watermark.WatermarkResult | src/ultis/Watermark.ts:11-57 | a non-image gives `undefined`, and only a non-image does |
| Watermark.PdfFallsThrough | src/ultis/Watermark.ts:12 | a PDF comes back `undefined` |
| Watermark.AddWatermark | src/ultis/Watermark.ts:11-57 | the routine gives what `WatermarkResult` describes: the final composite receives the 3w x 3h overlay of `OverlayFor` |
| CreativeStore.PendingDocument | src/services/creative.service.ts:103-121 | the upserted document has the `$set` fields, an empty transaction hash and status pending; a matched document keeps its token id, user, lease data and `createdAt`, and a new one takes the defaults |
| CreativeStore.PendingUpserted | src/services/creative.service.ts:103-122 | the upsert adds or replaces exactly the published-hash key and preserves the unique index |
| CreativeStore.FinalDocument | src/services/creative.service.ts:149-166 | the terminal update sets the given fields, keeps the old token id when none was found, and keeps the lease data and `createdAt` |
| CreativeStore.Finalized | src/services/creative.service.ts:149-166 | `updateOne` changes only the matched document and inserts nothing |
| CreativeStore.LeasedDocument | src/services/creative.service.ts:219-238 | the lease `$set`s owner, expiry, token URI and transaction hash, keeps the user when none is given, and pushes one entry onto the history |
| CreativeStore.LeaseInserted | src/services/creative.service.ts:219-238 | an upserted lease document matches the filter, has one history entry, status pending and no hashes |
| CreativeStore.LeaseTarget | src/services/creative.service.ts:219-238 | a lease changes one document, matched or newly inserted, and no other |
| CreativeStore.LeaseHistoryAppendOnly | src/services/creative.service.ts:229-235 | some history grows by exactly the new entry; every surviving history keeps its old entries as a prefix |
| CreativeStore.ZeroUserKeepsStoredUser | src/services/creative.service.ts:224 | a zero-address user leaves the stored user unchanged |
| CreativeStore.Window | src/services/creative.service.ts:265-266 | `skip`/`limit`: the consecutive items starting at `skip`, `limit` of them when enough remain, all that remain on a short last page, none past the end |
| CreativeStore.InsertAtKeepsOrder | src/services/creative.service.ts:267 | splicing a record in where it fits keeps the listing newest-first |
| CreativeStore.InsertAtMembers | src/services/creative.service.ts:267 | the splice holds the old records and the new one, counted with multiplicity |
| CreativeStore.InsertNewest | src/services/creative.service.ts:267 | inserting one record into a newest-first list keeps it newest-first; the new multiset is the old one plus that record |
| CreativeStore.CreativeModel.constructor | src/models/schemas/Creative.ts:60 | an empty collection |
| CreativeStore.CreativeModel.UpsertPending | src/services/creative.service.ts:103-122 | the collection becomes `PendingUpserted` of the old one |
| CreativeStore.CreativeModel.UpdateFinal | src/services/creative.service.ts:149-166 | the collection becomes `Finalized` of the old one |
| CreativeStore.CreativeModel.UpsertLease | src/services/creative.service.ts:219-238 | fails with E11000 exactly when no document matches and one without `publishedHash` already exists, and then changes nothing; otherwise applies the lease |
| CreativeStore.CreativeModel.FindMinted | src/services/creative.service.ts:262-269 | the count is the number of the owner's minted documents; the items are the requested window of all of them, newest first |
| CreativeService.GasLimit | src/services/creative.service.ts:88 | the gas limit is the estimate plus 20%, rounded down |
| CreativeService.FeePerGas | src/services/creative.service.ts:89 | `maxFeePerGas`, else `gasPrice`, else 0 |
| CreativeService.RequiredBalance | src/services/creative.service.ts:90 | fee per gas times gas limit: at most 1.2 x fee x estimate and less than one fee unit below it |
| CreativeService.Overrides | src/services/creative.service.ts:98-102 | the overrides sent with `mintAsset` and `setUser` |
| CreativeService.GuardCoversSubmittedCap | src/services/creative.service.ts:89-101 | the balance guard is the submitted fee cap times the submitted gas limit, or 0 when no cap is sent |
| CreativeService.LastAssigned | src/services/creative.service.ts:136-147 | the token id the loop leaves: the assignment of the last `AssetMinted` log, or undefined |
| CreativeService.LogAssignment | src/services/creative.service.ts:139-143 | only an `AssetMinted` log assigns the token id, and one without arguments assigns `undefined` |
| CreativeService.LastAssignmentWins | src/services/creative.service.ts:136-147 | the token id is the one assigned by the last `AssetMinted` log |
| CreativeService.NoAssignmentNoToken | src/services/creative.service.ts:136-147 | without an `AssetMinted` log there is no token id |
| CreativeService.AssignedTokenIsDecimal | src/services/creative.service.ts:142 | a found token id is the decimal string of a natural number |
| CreativeService.ExtractTokenId | src/services/creative.service.ts:136-147 | the loop computes the last assignment |
| CreativeService.TerminalStatus | src/services/creative.service.ts:164 | `tokenId ? 'minted' : 'failed'`: minted for a defined, non-empty token id, failed otherwise |
| CreativeService.MintedIffTokenId | src/services/creative.service.ts:164 | the terminal status is `minted` iff a token id was found, and is never `pending` |
| CreativeService.IsJsSpace | src/services/creative.service.ts:65-66 | the characters `trim` removes: the ECMAScript white space and line terminator code points |
| CreativeService.TrimStart | src/services/creative.service.ts:65-66 | a suffix of the input that starts with a non-space; everything cut off is space |
| CreativeService.TrimEnd | src/services/creative.service.ts:65-66 | a prefix of the input that ends with a non-space; everything cut off is space |
| CreativeService.Trim | src/services/creative.service.ts:65-66 | the slice of the input between a space-only prefix and a space-only suffix, with no space at either end; empty iff the input is all space |
| CreativeService.TrimCutsSpaces | src/services/creative.service.ts:65-66 | cutting the leading and then the trailing spaces leaves an inner slice with only spaces outside it |
| CreativeService.TitleOrDefault | src/services/creative.service.ts:65-66 | `x?.trim() \|\| 'Creative'`: never empty, "Creative" when absent or blank, otherwise the trimmed text |
| CreativeService.MetadataDocument | src/services/creative.service.ts:61-78 | exactly one of `image` and `animation_url` is the file URL, according to the type; name and description are the defaulted trimmed title and description; the five attributes in order: issuerName, issuerWallet, issueDate, fileHash, type "creative"; an empty `external_url` |
| CreativeService.MintFailure | src/services/creative.service.ts:126-134 | the catch block throws BadRequest "Owner address does not exist" iff the error's code is INVALID_ARGUMENT and its message is "address", and "Minting creative failed!" otherwise |
| CreativeService.PublishedOf | src/services/creative.service.ts:44-52 | the published hash is taken from the watermarked bytes and the original hash from the upload |
| CreativeService.FileUploadSteps | src/services/creative.service.ts:44-57 | the hashing, watermark and file-upload calls: four steps, none submitting or writing |
| CreativeService.UploadSteps | src/services/creative.service.ts:44-81 | the calls up to the metadata upload: five steps, none submitting or writing |
| CreativeService.AcceptedMime | src/services/creative.service.ts:22 | the type test of the mint: a PDF or any `image/` type |
| CreativeService.MintSpec | src/services/creative.service.ts:9-184 | the whole mint as a value: the validations, the watermark and uploads before the try block, then `MintOnChain` |
| CreativeService.MintOnChain | src/services/creative.service.ts:84-96 | the fee data, the estimate and the balance guard, each failure re-thrown through the catch block, then `MintFunded` |
| CreativeService.MintFunded | src/services/creative.service.ts:97-134 | the submit together with the pending upsert, then the wait for the receipt, each failure re-thrown, then `MintFinish` |
| CreativeService.MintFinish | src/services/creative.service.ts:136-183 | the token id of the last `AssetMinted` log, the terminal update and the result |
| CreativeService.MintCreative | src/services/creative.service.ts:9-184 | the mint's outcome, calls and new collection are those of `MintSpec` |
| CreativeService.SubmitMintTransaction | src/services/creative.service.ts:84-184 | the try block and the terminal update agree with `MintOnChain` |
| CreativeService.SubmitFunded | src/services/creative.service.ts:97-125 | once the balance covers the requirement, the submit, the pending upsert and the wait for the receipt agree with `MintFunded` |
| CreativeService.FinishMint | src/services/creative.service.ts:136-183 | the token id, the terminal update and the result agree with `MintFinish` |
| CreativeService.MintValidatesFirst | src/services/creative.service.ts:22-28 | an unsupported type or invalid owner is refused before any call, and the store is untouched |
| CreativeService.MintStopsBeforeLedger | src/services/creative.service.ts:22-81 | a mint that stops before the try block writes and submits nothing |
| CreativeService.PdfMintFailsAtHash | src/services/creative.service.ts:48-51 | a creative PDF fails when its undefined watermark is hashed, after three calls and with no write |
| CreativeService.OnChainSubmitsOnlyWhenFunded | src/services/creative.service.ts:85-95 | without funds the try block submits nothing and writes nothing |
| CreativeService.SubmitOnlyWhenFunded | src/services/creative.service.ts:92-98 | `mintAsset` is submitted only when the balance covers the requirement; an insufficient balance ends in "Minting creative failed!" with no write |
| CreativeService.OnChainRewraps | src/services/creative.service.ts:84-134 | the first failure inside the try block (fee data, estimate, balance, insufficient balance, submit, pending upsert, receipt) is re-thrown as the catch block's error; with none of them, the outcome is a success or a failure propagated unchanged from the terminal update |
| CreativeService.TryBlockErrorsRewrapped | src/services/creative.service.ts:84-134 | the first failure in the try block is re-thrown through the catch block's rule |
| CreativeService.MintRaisesOnlyBadRequest | src/services/creative.service.ts:22-134 | every error the mint throws itself is a BadRequest with one of four messages |
| CreativeService.OnChainFailureStaysPending | src/services/creative.service.ts:97-134 | a failure after a funded submit leaves the pending upsert in place |
| CreativeService.FailedMintStaysPending | src/services/creative.service.ts:97-134 | a mint that fails after the pending write leaves its record pending with an empty transaction hash, and every other record unchanged |
| CreativeService.OnChainSuccess | src/services/creative.service.ts:97-183 | a successful try block returns the hashes, token URI, receipt hash and extracted token id, and stores the terminal update of the pending document |
| CreativeService.MintedRecordMatchesResult | src/services/creative.service.ts:136-183 | after a successful mint the stored record agrees with the returned fields; it is `minted` iff a token id was found, and never `pending` |
| CreativeService.MintedHashesWellFormed | src/services/creative.service.ts:44-52 | both returned hashes pass the schema's hash validator |
| CreativeService.RemintDemotesMintedRecord | src/services/creative.service.ts:103-122 | re-minting minted content whose submit fails leaves the record `pending` with its old token id |
| CreativeService.MintErrorsAnswer400 | src/services/creative.service.ts:126-134 | every error the mint throws itself reaches the client as 400 |
| CreativeService.LeaseSpec | src/services/creative.service.ts:186-200 | the whole lease as a value: `ownerOf`, the ownership test and the user's checksum, then `LeaseOnChain` |
| CreativeService.LeaseOnChain | src/services/creative.service.ts:201-250 | the `setUser` transaction, the read-back, the upsert and the result; every failure propagates as it is |
| CreativeService.LeaseCreative | src/services/creative.service.ts:186-251 | the lease's outcome and calls are those of `LeaseSpec`; the store takes the planned write, or is unchanged when there is none |
| CreativeService.SubmitLease | src/services/creative.service.ts:201-250 | the `setUser` transaction, the read-back and the upsert agree with `LeaseOnChain`; the store takes the planned write or is unchanged |
| CreativeService.LeaseRequiresOwnership | src/services/creative.service.ts:193-197 | without ownership the lease stops after `ownerOf` and writes nothing; a readable non-owner gets "You are not the owner of this creative" |
| CreativeService.LeaseWritesOnlyOnSuccess | src/services/creative.service.ts:219-250 | a lease writes exactly when it succeeds |
| CreativeService.LeaseRaisesOnlyNotOwner | src/services/creative.service.ts:186-251 | the lease's only own error is the ownership refusal |
| CreativeService.LeaseReadBack | src/services/creative.service.ts:199-250 | a successful lease returns and writes the ledger's read-back user, expiry, token URI and receipt hash, and records the requested user in the history |
| CreativeService.LeaseAppendsHistory | src/services/creative.service.ts:219-238 | after a successful lease one matching record's history grows by one entry, and the other records are unchanged |
| CreativeService.SafePage | src/services/creative.service.ts:260 | a finite positive page is kept; anything else becomes 1 |
| CreativeService.SafeLimit | src/services/creative.service.ts:261 | a finite positive limit is kept; anything else becomes 10 |
| CreativeService.ClampIdempotent | src/services/creative.service.ts:260-261 | clamping a clamped value changes nothing |
| CreativeService.Skip | src/services/creative.service.ts:265 | `(safePage - 1) * safeLimit`, a natural number for the clamped values |
| CreativeService.Pages | src/services/creative.service.ts:277 | `Math.ceil(total / limit) \|\| 1`: at least 1, and the fewest pages of `limit` that hold `total` |
| CreativeService.PagesCoverTotal | src/services/creative.service.ts:265-277 | every listed position falls on exactly one page within `pages` |
| CreativeService.GetCreativeByOwnerAddress | src/services/creative.service.ts:253-280 | fails with "Owner address is not valid" when the owner is not an address, else with the rejection of `countDocuments`, else with that of `find`; otherwise returns the clamped page and limit, the count of minted creatives, the page count and the requested window of the newest-first list |

## Findings

| source | as written | input that shows it | evidently intended | confidence | as-written member | corrected member |
|---|---|---|---|---|---|---|
| src/middlewares/error.middlewares.ts:22 | `Object.keys(err.keyPattern)` has no `?? {}` guard, unlike line 20 | a thrown `{ code: 11000 }` without `keyPattern` | treat a missing key pattern as empty, as line 20 does | not executed | ErrorMiddleware.DuplicateKeyWithoutPatternCrashes | ErrorMiddleware.ErrorHandler |

## Left out

- Network calls (JSON-RPC, Cloudinary), file I/O, `console.log` and environment variables are not modelled. Their results are fields of `MintWorld` and `LeaseWorld`, and `CHAIN_ID` is an optional integer in `Config`.
- The `Promise.all` calls are modelled as sequential, in array order. When several calls reject, the model takes the first in array order, though the real one depends on timing.
- Mongo's order of matched documents is not modelled. The lease upsert may update any matching document (`LeaseApplied`), and records with equal `createdAt` may be listed in any order.
- Jimp's pixel work is abstracted: resizing, blending, opacity, the fractional offsets and the encoding. The model keeps the placements and the rotation handed to it.
- ApiError timestamps and `toResponse()`'s formatting are not modelled.
- MetadataDocument: `issueDate` is a parameter; the clock is not modelled.
- CreativeService.Trim: JavaScript's whitespace set is a fixed list of code points, and Unicode categories are not consulted.
- TokenIdCheck: the conversion is modelled for an optional sign and a plain decimal (`12`, `1.5`, `.5`, `5.`) only; surrounding whitespace, exponents, `0x`/`0o`/`0b` prefixes and `Infinity` are read as NaN, so `" -1"`, `"-1e3"` and `"-Infinity"` pass the model's check although JavaScript refuses them.
- ErrorHandler: `err.status` is a `JsValue`, whose numbers are integers; a NaN or fractional `status` in the fallback branch is not modelled. The model returns the response the handler asks for; that Node refuses to write a status outside 100-999 is stated only as `InvalidStatusOnlyFromDefault`.
- Window: a `limit` of 0, which Mongo reads as "no limit", gives an empty page in the model; the listing never passes it, since `SafeLimit` is at least 1.
- CreativeService.SafePage: fractional pages and limits are left out; `JsNumber` holds integers, NaN and the infinities only.
- CreativeService.Skip: a fractional page would give a fractional skip, which Mongo rejects; it is not modelled, as above.
- The checksum of `ethers.getAddress` is a parameter function; its failure is modelled as the fault "invalid address", and the exact ethers error text is not.
- `uploadMetadataToCloudinary` and the four-argument `uploadToCloudinary` are recorded as calls with their arguments; `src/helpers/cloudinary.ts` is not part of this model.
- The controllers, routes and the `express-validator` schemas other than the custom `tokenId` check are context only; the verify service is not part of this model.
- The certificate mint's steps after the guard (saving the file) are modelled only as far as the file name, since the guard makes them unreachable.
- Mongoose versions before 6 kept `undefined` in updates as `$unset`; the model follows the stripping behaviour of later versions.
