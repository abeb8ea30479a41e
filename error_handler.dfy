/** The Express error handler of src/middlewares/error.middlewares.ts: an
    ordered classifier from whatever was thrown to one JSON error response.
    The timestamp in the body is a clock reading and is left out. */
module ErrorMiddleware {
  import opened Text
  import opened CustomErrors

  /** Which `jsonwebtoken` class an error is an instance of. `TokenExpiredError`
      extends `JsonWebTokenError`, so an expired-token error is an instance of
      both. */
  datatype JwtClass = NotJwt | JsonWebTokenClass | TokenExpiredClass

  /** One entry of a Mongoose `ValidationError.errors`: its key, the field
      error's `message` and `value`. */
  datatype FieldError = FieldError(field: string, message: string, value: JsValue)

  /** The facets of a thrown value that the handler looks at, each as the
      handler reads it. */
  datatype Thrown = Thrown(
    custom: Option<AppError>,                  // the value is a `BaseError`
    code: JsValue,                             // `err.code`
    keyPattern: Option<seq<string>>,           // `Object.keys(err.keyPattern)`, None when undefined
    keyValue: Option<map<string, JsValue>>,    // `err.keyValue`
    jwtClass: JwtClass,
    name: JsValue,                             // `err.name`
    validationErrors: Option<seq<FieldError>>, // a Mongoose `ValidationError`, its errors in key order
    status: JsValue,                           // `err.status`
    message: JsValue                           // `err.message`
  )

  /** One entry of the response's `details` list. */
  datatype Detail = Detail(field: string, message: string, value: JsValue)

  /** The `ApiError` body; `details` is None where the handler omits the argument. */
  datatype ApiError = ApiError(code: ErrorCode, message: string, status: int, details: Option<seq<Detail>>)

  /** `res.status(httpStatus).json(body)` */
  datatype Response = Response(httpStatus: int, body: ApiError)

  /** The branch of the handler that answers. */
  datatype Branch = DomainBranch | DuplicateKeyBranch | TokenExpiredBranch | InvalidTokenBranch | ValidationBranch | DefaultBranch

  predicate IsDuplicateKey(err: Thrown) { err.code == Num(11000) }

  predicate IsTokenExpired(err: Thrown) {
    err.jwtClass == TokenExpiredClass || err.name == Str("TokenExpiredError")
  }

  predicate IsJsonWebToken(err: Thrown) {
    err.jwtClass != NotJwt || err.name == Str("JsonWebTokenError")
  }

  /** The tests in the order the handler makes them: the first that holds wins. */
  function Classify(err: Thrown): (b: Branch)
    ensures b == DomainBranch <==> err.custom.Some?
    ensures b == DuplicateKeyBranch <==> err.custom.None? && IsDuplicateKey(err)
    ensures b == TokenExpiredBranch <==> err.custom.None? && !IsDuplicateKey(err) && IsTokenExpired(err)
    ensures b == InvalidTokenBranch <==>
      err.custom.None? && !IsDuplicateKey(err) && !IsTokenExpired(err) && IsJsonWebToken(err)
    ensures b == ValidationBranch <==>
      && err.custom.None? && !IsDuplicateKey(err) && !IsTokenExpired(err) && !IsJsonWebToken(err)
      && err.validationErrors.Some?
  {
    if err.custom.Some? then DomainBranch
    else if IsDuplicateKey(err) then DuplicateKeyBranch
    else if IsTokenExpired(err) then TokenExpiredBranch
    else if IsJsonWebToken(err) then InvalidTokenBranch
    else if err.validationErrors.Some? then ValidationBranch
    else DefaultBranch
  }

  /** `${field}` of the first key, which is "undefined" when there is none. */
  function FirstField(keys: seq<string>): string {
    if keys == [] then "undefined" else keys[0]
  }

  /** `keyValue?.[field]` */
  function KeyValueOf(keyValue: Option<map<string, JsValue>>, field: string): JsValue {
    if keyValue.Some? && field in keyValue.value then keyValue.value[field] else Undefined
  }

  /** One detail per duplicated key, in key order. */
  function DuplicateDetails(keys: seq<string>, keyValue: Option<map<string, JsValue>>): (ds: seq<Detail>)
    ensures |ds| == |keys|
    ensures forall i :: 0 <= i < |keys| ==>
      ds[i] == Detail(keys[i], keys[i] + " already exists", KeyValueOf(keyValue, keys[i]))
  {
    seq(|keys|, i requires 0 <= i < |keys| => Detail(keys[i], keys[i] + " already exists", KeyValueOf(keyValue, keys[i])))
  }

  /** One detail per validation error, with the field error's own message. */
  function ValidationDetails(errs: seq<FieldError>): (ds: seq<Detail>)
    ensures |ds| == |errs|
    ensures forall i :: 0 <= i < |errs| ==> ds[i] == Detail(errs[i].field, errs[i].message, errs[i].value)
  {
    seq(|errs|, i requires 0 <= i < |errs| => Detail(errs[i].field, errs[i].message, errs[i].value))
  }

  /** The status of the fallback branch: `err.status` when it is a number. */
  function DefaultStatus(err: Thrown): int {
    if err.status.Num? then err.status.n else INTERNAL_SERVER_ERROR
  }

  /** The message of the fallback branch: `err.message` when it is a non-empty string. */
  function DefaultMessageOf(err: Thrown): string {
    if err.message.Str? && err.message.s != "" then err.message.s else "Internal server error"
  }

  /** An HTTP status code Node accepts when the response is written: three digits. */
  predicate ValidStatusCode(s: int) { 100 <= s <= 999 }

  /** The handler with `Object.keys(err.keyPattern ?? {})` in the duplicate-key
      detail list, as the headline at line 20 already reads it. Each branch
      passes its status to `res.status` and, separately, to the `ApiError`. */
  function ErrorHandler(err: Thrown): (r: Response)
    ensures r.httpStatus == r.body.status
    ensures Classify(err) == DomainBranch ==>
      var e := err.custom.value;
      r.body == ApiError(Code(e.kind), e.message, StatusCode(e.kind), Some([]))
    ensures Classify(err) == DuplicateKeyBranch ==>
      var keys := if err.keyPattern.Some? then err.keyPattern.value else [];
      && r.httpStatus == CONFLICT && r.body.code == ConflictCode
      && r.body.message == FirstField(keys) + " already exists"
      && r.body.details == Some(DuplicateDetails(keys, err.keyValue))
    ensures Classify(err) == TokenExpiredBranch ==>
      r.body == ApiError(AuthenticationCode, "Token expired", UNAUTHORIZED, Some([]))
    ensures Classify(err) == InvalidTokenBranch ==>
      r.body == ApiError(AuthenticationCode, "Invalid access token", UNAUTHORIZED, None)
    ensures Classify(err) == ValidationBranch ==>
      && r.body.code == ValidationCode && r.body.message == "Validation error"
      && r.httpStatus == UNPROCESSABLE_ENTITY
      && r.body.details == Some(ValidationDetails(err.validationErrors.value))
    ensures Classify(err) == DefaultBranch ==>
      && r.body.code == InternalCode && r.body.details == Some([])
      && r.httpStatus == (if err.status.Num? then err.status.n else INTERNAL_SERVER_ERROR)
      && r.body.message == (if err.message.Str? && err.message.s != "" then err.message.s else "Internal server error")
  {
    match Classify(err)
    case DomainBranch =>
      var e := err.custom.value;
      Response(StatusCode(e.kind), ApiError(Code(e.kind), e.message, StatusCode(e.kind), Some([])))
    case DuplicateKeyBranch =>
      var keys := if err.keyPattern.Some? then err.keyPattern.value else [];
      Response(CONFLICT,
        ApiError(ConflictCode, FirstField(keys) + " already exists", CONFLICT, Some(DuplicateDetails(keys, err.keyValue))))
    case TokenExpiredBranch =>
      Response(UNAUTHORIZED, ApiError(AuthenticationCode, "Token expired", UNAUTHORIZED, Some([])))
    case InvalidTokenBranch =>
      Response(UNAUTHORIZED, ApiError(AuthenticationCode, "Invalid access token", UNAUTHORIZED, None))
    case ValidationBranch =>
      Response(UNPROCESSABLE_ENTITY,
        ApiError(ValidationCode, "Validation error", UNPROCESSABLE_ENTITY, Some(ValidationDetails(err.validationErrors.value))))
    case DefaultBranch =>
      var status := DefaultStatus(err);
      Response(status, ApiError(InternalCode, DefaultMessageOf(err), status, Some([])))
  }

  /** Every branch but the fallback sends a fixed, valid status; the fallback
      sends an invalid one exactly when `err.status` is a number outside
      100-999, and writing that response then throws in Node. */
  lemma InvalidStatusOnlyFromDefault(err: Thrown)
    ensures !ValidStatusCode(ErrorHandler(err).httpStatus) <==>
      Classify(err) == DefaultBranch && err.status.Num? && !ValidStatusCode(err.status.n)
  {
  }

  /** The handler as written: line 22 calls `Object.keys` on `err.keyPattern`
      without the `?? {}` of line 20, so a duplicate-key error without a key
      pattern makes the handler itself throw (None). */
  function ErrorHandlerAsWritten(err: Thrown): (r: Option<Response>)
    ensures r.None? <==> Classify(err) == DuplicateKeyBranch && err.keyPattern.None?
    ensures r.Some? ==> r.value == ErrorHandler(err)
  {
    if Classify(err) == DuplicateKeyBranch && err.keyPattern.None? then None
    else Some(ErrorHandler(err))
  }

  /** A thrown value with no facet set: what a thrown string or a bare object looks like. */
  const Plain := Thrown(None, Undefined, None, None, NotJwt, Undefined, None, Undefined, Undefined)

  /** `{ code: 11000 }` without `keyPattern` crashes the handler as written,
      while the corrected handler answers 409 with no details. */
  lemma DuplicateKeyWithoutPatternCrashes()
    ensures ErrorHandlerAsWritten(Plain.(code := Num(11000))) == None
    ensures ErrorHandler(Plain.(code := Num(11000))) ==
      Response(CONFLICT, ApiError(ConflictCode, "undefined already exists", CONFLICT, Some([])))
  {
    var err := Plain.(code := Num(11000));
    assert Classify(err) == DuplicateKeyBranch;
    assert FirstField([]) + " already exists" == "undefined already exists";
    assert DuplicateDetails([], err.keyValue) == [];
  }

  /** A domain error is answered from its own class whatever else it carries. */
  lemma DomainErrorFirst(err: Thrown, e: AppError)
    requires err.custom == Some(e)
    ensures ErrorHandler(err).httpStatus == StatusCode(e.kind)
    ensures ErrorHandler(err).body.code == Code(e.kind)
    ensures ErrorHandler(err).body.message == e.message
  {
  }

  /** An expired-token error is also a `JsonWebTokenError`; the earlier test wins. */
  lemma ExpiredBeforeInvalid(err: Thrown)
    requires err.custom.None? && !IsDuplicateKey(err) && err.jwtClass == TokenExpiredClass
    ensures IsJsonWebToken(err)
    ensures ErrorHandler(err).body.message == "Token expired"
  {
  }

  /** The headline of a duplicate-key answer names the first duplicated field. */
  lemma DuplicateKeyNamesFirstField(err: Thrown, keys: seq<string>)
    requires err.custom.None? && IsDuplicateKey(err) && err.keyPattern == Some(keys) && keys != []
    ensures ErrorHandler(err).body.message == keys[0] + " already exists"
    ensures ErrorHandler(err).body.details.value[0].message == ErrorHandler(err).body.message
  {
  }

  /** A bad-request domain error always reaches the client as 400 with the
      bad-request code and its own message. */
  lemma BadRequestAnswers(message: string)
    ensures ErrorHandler(Plain.(custom := Some(BadRequestError(message)))) ==
      Response(BAD_REQUEST, ApiError(BadRequestCode, message, BAD_REQUEST, Some([])))
  {
  }
}
