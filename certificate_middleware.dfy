/** The hand-written checks of src/middlewares/certificate.middlewares.ts: the
    upload validator's chain of early returns, and the custom non-negative
    check on the `tokenId` query parameter. */
module CertificateMiddleware {
  import opened Text
  import opened CustomErrors

  /** The multer file the validator reads: its MIME type and its size in bytes. */
  datatype UploadedFile = UploadedFile(mimetype: string, size: nat)

  const ALLOWED_MIME_TYPES: seq<string> := ["application/pdf", "image/png", "image/jpeg", "image/jpg", "image/webp"]

  /** 10 MiB */
  const MAX_FILE_SIZE: nat := 1024 * 1024 * 10

  /** The one call the middleware makes to `next`: without an argument, or with an error. */
  datatype NextCall = Next(error: Option<AppError>)

  /** `uploadFileValidator`: presence first, then the MIME whitelist, then the size. */
  function UploadFileValidator(file: Option<UploadedFile>): (r: NextCall)
    ensures r.error.None? <==>
      file.Some? && file.value.mimetype in ALLOWED_MIME_TYPES && file.value.size <= MAX_FILE_SIZE
    ensures file.None? ==> r.error == Some(NotFoundError("File not found"))
    ensures file.Some? && file.value.mimetype !in ALLOWED_MIME_TYPES ==>
      r.error == Some(BadRequestError("File type not supported"))
    ensures file.Some? && file.value.mimetype in ALLOWED_MIME_TYPES && file.value.size > MAX_FILE_SIZE ==>
      r.error == Some(BadRequestError("File size must be less than 10Mb"))
  {
    if file.None? then Next(Some(NotFoundError("File not found")))
    else if file.value.mimetype !in ALLOWED_MIME_TYPES then Next(Some(BadRequestError("File type not supported")))
    else if file.value.size > MAX_FILE_SIZE then Next(Some(BadRequestError("File size must be less than 10Mb")))
    else Next(None)
  }

  /** A missing file is reported as not found: the type and size checks never run. */
  lemma MissingFileIsNotFound()
    ensures UploadFileValidator(None).error.value.kind == NotFound
    ensures StatusCode(UploadFileValidator(None).error.value.kind) == NOT_FOUND
  {
  }

  /** The size limit is inclusive: a file of exactly 10 MiB passes, one byte more does not. */
  lemma SizeLimitInclusive(mimetype: string)
    requires mimetype in ALLOWED_MIME_TYPES
    ensures UploadFileValidator(Some(UploadedFile(mimetype, 10485760))) == Next(None)
    ensures UploadFileValidator(Some(UploadedFile(mimetype, 10485761))).error.Some?
  {
  }

  /** Image types outside the whitelist are refused even though they are images. */
  lemma OtherImagesRefused(size: nat)
    ensures UploadFileValidator(Some(UploadedFile("image/gif", size))).error ==
      Some(BadRequestError("File type not supported"))
    ensures UploadFileValidator(Some(UploadedFile("image/svg+xml", size))).error ==
      Some(BadRequestError("File type not supported"))
  {
  }

  /** Every type the validator lets through is a PDF or an image. */
  lemma AllowedArePdfOrImage(mimetype: string)
    requires mimetype in ALLOWED_MIME_TYPES
    ensures mimetype == "application/pdf" || StartsWith(mimetype, "image/")
  {
  }

  /** What `value < 0` sees of a query string once it is converted to a number:
      NaN, which compares false, or a number and whether it is below zero. */
  datatype NumberSign = NaNValue | NonNegative | Negative

  predicate IsDigit(c: char) { '0' <= c <= '9' }

  predicate AllDigits(s: string) {
    forall i :: 0 <= i < |s| ==> IsDigit(s[i])
  }

  /** `digits`, `digits.digits`, `digits.` or `.digits`: a decimal as the
      JavaScript string-to-number grammar spells it. */
  predicate IsDecimalLiteral(b: string) {
    || (b != [] && AllDigits(b))
    || (|b| >= 2 && exists k :: 0 <= k < |b| && b[k] == '.' && AllDigits(b[..k]) && AllDigits(b[k + 1..]))
  }

  /** The literal denotes zero: no digit besides `0`. */
  predicate DenotesZero(b: string) {
    forall i :: 0 <= i < |b| ==> b[i] == '0' || b[i] == '.'
  }

  /** The sign of `Number(s)` for an optional `+` or `-` and a decimal literal;
      the empty string is 0, and any other string is NaN. */
  function SignOf(s: string): (r: NumberSign)
    ensures s == [] ==> r == NonNegative
    ensures r == Negative ==> s[0] == '-'
  {
    if s == [] then NonNegative
    else
      var body := if s[0] == '-' || s[0] == '+' then s[1..] else s;
      if !IsDecimalLiteral(body) then NaNValue
      else if s[0] == '-' && !DenotesZero(body) then Negative
      else NonNegative
  }

  /** The `custom` check of `verifyCertificateByQueryValidator` on the query
      string `tokenId`: `value < 0` converts it, so only a string that reads
      as a negative number throws, and NaN passes. */
  function TokenIdCheck(value: string): (r: Result<bool, AppError>)
    ensures r.Success? <==> SignOf(value) != Negative
    ensures r.Success? ==> r.value
    ensures r.Failure? ==> r.error == BadRequestError("Token ID must be an integer")
  {
    if SignOf(value) == Negative then Failure(BadRequestError("Token ID must be an integer")) else Success(true)
  }

  /** A digit string whose value is not zero has a digit other than `0`. */
  lemma {:induction false} NonzeroHasNonzeroDigit(s: string)
    requires AllDigits(s) && DecimalValue(s) > 0
    ensures !DenotesZero(s)
    decreases |s|
  {
    var last := s[|s| - 1];
    if last == '0' {
      assert DecimalValue(s[..|s| - 1]) > 0;
      NonzeroHasNonzeroDigit(s[..|s| - 1]);
      var i :| 0 <= i < |s| - 1 && s[..|s| - 1][i] != '0' && s[..|s| - 1][i] != '.';
      assert s[i] == s[..|s| - 1][i];
    }
  }

  /** Every `toString()` of a non-negative id passes; its negation is refused. */
  lemma IntegerTokenIds(n: nat)
    ensures TokenIdCheck(DecimalString(n)).Success?
    ensures n > 0 ==> TokenIdCheck("-" + DecimalString(n)).Failure?
  {
    var d := DecimalString(n);
    assert IsDecimalLiteral(d);
    if n > 0 {
      var s := "-" + d;
      assert s[1..] == d;
      DecimalRoundTrip(n);
      NonzeroHasNonzeroDigit(d);
    }
  }

  /** The check converts rather than tests for an integer: a non-number
      passes, a negative fraction is refused, and negative zero passes. */
  lemma CoercionCases()
    ensures TokenIdCheck("abc").Success?
    ensures TokenIdCheck("-0.5").Failure?
    ensures TokenIdCheck("-0").Success?
  {
    assert !IsDecimalLiteral("abc") by {
      assert !IsDigit("abc"[0]);
      forall k | 0 <= k < 3 ensures "abc"[k] != '.' {}
    }
    var b := "0.5";
    assert "-0.5"[1..] == b;
    assert b[1] == '.' && AllDigits(b[..1]) && AllDigits(b[2..]);
    assert b[2] != '0' && b[2] != '.';
    assert "-0"[1..] == "0";
    assert IsDecimalLiteral("0") && DenotesZero("0");
  }
}
