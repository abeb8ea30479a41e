/** `mintCertificateService` of src/services/certificate.service.ts. Its type
    guard holds for every string, so the service always throws; the hashing,
    extension and file-name steps after it are modelled all the same. */
module CertificateService {
  import opened Text
  import opened CustomErrors
  import opened SchemaTypes

  /** The guard at the top of the service, as written (`||`, not `&&`). */
  predicate RejectsType(mimetype: string) {
    mimetype != "application/pdf" || !StartsWith(mimetype, "image/")
  }

  /** The guard holds for every MIME type: "application/pdf" does not start with "image/". */
  lemma RejectsEveryType(mimetype: string)
    ensures RejectsType(mimetype)
  {
    if mimetype == "application/pdf" {
      assert mimetype[..6] != "image/" by { assert mimetype[0] == 'a'; }
    }
  }

  /** The extension of the saved watermarked file. */
  function Extension(mimetype: string): (ext: string)
    ensures ext == ".pdf" <==> mimetype == "application/pdf"
    ensures ext == ".png" <==> mimetype == "image/png"
    ensures ext in {".pdf", ".png", ".jpg"}
  {
    if mimetype == "application/pdf" then ".pdf" else if mimetype == "image/png" then ".png" else ".jpg"
  }

  /** `${fileHashHex}_wm${ext}` */
  function OutputName(fileHashHex: string, mimetype: string): (name: string)
    ensures |name| == |fileHashHex| + 3 + |Extension(mimetype)|
    ensures name[..|fileHashHex|] == fileHashHex
    ensures name[|fileHashHex|..] == "_wm" + Extension(mimetype)
  {
    fileHashHex + "_wm" + Extension(mimetype)
  }

  /** Files of different content never share a name. */
  lemma OutputNameInjective(h1: string, m1: string, h2: string, m2: string)
    requires |h1| == |h2|
    requires OutputName(h1, m1) == OutputName(h2, m2)
    ensures h1 == h2 && Extension(m1) == Extension(m2)
  {
    var n := OutputName(h1, m1);
    assert h1 == n[..|h1|];
    assert h2 == OutputName(h2, m2)[..|h2|];
    assert "_wm" + Extension(m1) == n[|h1|..];
    assert "_wm" + Extension(m2) == OutputName(h2, m2)[|h2|..];
    assert Extension(m1) == ("_wm" + Extension(m1))[3..];
    assert Extension(m2) == ("_wm" + Extension(m2))[3..];
  }

  /** What the rest of the service computes before saving the file. */
  datatype MintedFile = MintedFile(fileHashBytes32: string, outName: string)

  /** The service: it throws for every input, before hashing anything. */
  function MintCertificate(owner: string, mimetype: string, buffer: seq<byte>, sha256: seq<byte> -> seq<byte>): (r: Result<MintedFile, AppError>)
    ensures r == Failure(BadRequestError("File type not supported"))
  {
    RejectsEveryType(mimetype);
    if RejectsType(mimetype) then Failure(BadRequestError("File type not supported"))
    else
      var digest := sha256(buffer);
      Success(MintedFile(Bytes32Hex(digest), OutputName(Hex(digest), mimetype)))
  }
}
