/**
 * The request fingerprint: the bytes fed to SHA-256 for a request, in the
 * shared helper and in the idempotency service's private copy, and the
 * comparison that rejects a reused key whose payload changed. SHA-256 and its
 * hex rendering are a parameter `hash`; only the bytes given to it are modelled.
 */
module RequestFingerprint {
  import opened Wrappers
  import opened Http
  import opened Utf8
  import opened IdempotencyRecords
  import opened Separators

  /**
   * The parts of an Express request the fingerprint reads. None stands for
   * undefined; `rawBody` is None when the raw body is missing or not a Buffer.
   */
  datatype Request = Request(
    httpMethod: Option<string>,
    path: Option<string>,
    url: Option<string>,
    rawBody: Option<seq<byte>>)

  /** ASCII upper-casing, what `toUpperCase` does on HTTP method tokens. */
  function UpperChar(c: char): char {
    if 'a' <= c <= 'z' then (c as int - 32) as char else c
  }

  function UpperCase(s: string): (r: string)
    ensures |r| == |s|
    ensures forall i :: 0 <= i < |s| ==> r[i] == UpperChar(s[i])
  {
    if s == [] then [] else [UpperChar(s[0])] + UpperCase(s[1..])
  }

  /** `(request.method || 'POST').toUpperCase()` */
  function MethodName(r: Request): string {
    UpperCase(if r.httpMethod.None? || r.httpMethod.value == "" then "POST" else r.httpMethod.value)
  }

  /** `request.path || ''` */
  function PathName(r: Request): string {
    if r.path.None? then "" else r.path.value
  }

  /** The raw body if it is a Buffer, else the empty string the code hashes instead. */
  function BodyBytes(r: Request): seq<byte> {
    if r.rawBody.None? then [] else r.rawBody.value
  }

  /** How JavaScript's `+` renders an optional string operand. */
  function JsString(s: Option<string>): string {
    if s.None? then "undefined" else s.value
  }

  /** The bytes `computeRequestFingerprint` in utils/requestHash.ts hashes: method, NUL, path, NUL, body. */
  function FingerprintInput(r: Request): seq<byte> {
    Encode(MethodName(r)) + [0] + Encode(PathName(r)) + [0] + BodyBytes(r)
  }

  /**
   * The bytes the idempotency service's private fingerprint hashes: method,
   * NUL, the raw method and path concatenated, path, NUL, body.
   */
  function ServiceFingerprintInput(r: Request): seq<byte> {
    Encode(MethodName(r)) + [0] + Encode(JsString(r.httpMethod) + JsString(r.path)) + Encode(PathName(r)) + [0] + BodyBytes(r)
  }

  function Fingerprint(hash: seq<byte> -> string, r: Request): string {
    hash(FingerprintInput(r))
  }

  function ServiceFingerprint(hash: seq<byte> -> string, r: Request): string {
    hash(ServiceFingerprintInput(r))
  }

  /** A hash without collisions, the idealisation SHA-256 is trusted for. */
  ghost predicate CollisionFree(hash: seq<byte> -> string) {
    forall a, b :: hash(a) == hash(b) ==> a == b
  }

  lemma {:induction false} UpperCaseIdempotent(s: string)
    ensures UpperCase(UpperCase(s)) == UpperCase(s)
  {
    if s != [] {
      UpperCaseIdempotent(s[1..]);
    }
  }

  /**
   * The fingerprint reads only the normalised method, the path with
   * undefined as empty, and the body with a non-Buffer as empty: a missing
   * method is 'POST', methods differing only in ASCII case agree, a missing
   * path is the empty path, and a missing body is the empty body.
   */
  lemma FingerprintNormalises(hash: seq<byte> -> string, r: Request)
    ensures Fingerprint(hash, r.(httpMethod := None)) == Fingerprint(hash, r.(httpMethod := Some("POST")))
    ensures r.httpMethod.Some? ==>
      Fingerprint(hash, r.(httpMethod := Some(UpperCase(r.httpMethod.value)))) == Fingerprint(hash, r)
    ensures Fingerprint(hash, r.(path := None)) == Fingerprint(hash, r.(path := Some("")))
    ensures Fingerprint(hash, r.(rawBody := None)) == Fingerprint(hash, r.(rawBody := Some([])))
    ensures Fingerprint(hash, r) == Fingerprint(hash, r.(url := None))
  {
    assert UpperCase("POST") == "POST";
    if r.httpMethod.Some? {
      UpperCaseIdempotent(r.httpMethod.value);
    }
  }

  /** Two NUL-separated layouts with NUL-free first fields agree field by field. */
  lemma SplitLayout(m1: seq<byte>, p1: seq<byte>, b1: seq<byte>, m2: seq<byte>, p2: seq<byte>, b2: seq<byte>)
    requires 0 !in m1 && 0 !in p1 && 0 !in m2 && 0 !in p2
    requires m1 + [0] + p1 + [0] + b1 == m2 + [0] + p2 + [0] + b2
    ensures m1 == m2 && p1 == p2 && b1 == b2
  {
    assert m1 + [0] + p1 + [0] + b1 == m1 + [0] + (p1 + [0] + b1);
    assert m2 + [0] + p2 + [0] + b2 == m2 + [0] + (p2 + [0] + b2);
    SplitAtFirst(0 as byte, m1, p1 + [0] + b1, m2, p2 + [0] + b2);
    SplitAtFirst(0 as byte, p1, b1, p2, b2);
  }

  /**
   * The layout is unambiguous: as long as method and path hold no NUL
   * character, two requests give the same bytes exactly when they agree on
   * the normalised method, the path and the body.
   */
  lemma FingerprintInputInjective(r1: Request, r2: Request)
    requires '\0' !in MethodName(r1) && '\0' !in PathName(r1)
    requires '\0' !in MethodName(r2) && '\0' !in PathName(r2)
    ensures FingerprintInput(r1) == FingerprintInput(r2) <==>
      MethodName(r1) == MethodName(r2) && PathName(r1) == PathName(r2) && BodyBytes(r1) == BodyBytes(r2)
  {
    if FingerprintInput(r1) == FingerprintInput(r2) {
      ZeroByteIsNul(MethodName(r1));
      ZeroByteIsNul(MethodName(r2));
      ZeroByteIsNul(PathName(r1));
      ZeroByteIsNul(PathName(r2));
      SplitLayout(Encode(MethodName(r1)), Encode(PathName(r1)), BodyBytes(r1),
                  Encode(MethodName(r2)), Encode(PathName(r2)), BodyBytes(r2));
      Injective(MethodName(r1), MethodName(r2));
      Injective(PathName(r1), PathName(r2));
    }
  }

  /**
   * The service's private fingerprint feeds the same bytes as the shared
   * helper only when the raw method and path concatenate to the empty
   * string; for every request that carries a method, the two differ.
   */
  lemma ServiceInputDiffers(r: Request)
    ensures ServiceFingerprintInput(r) == FingerprintInput(r) <==> JsString(r.httpMethod) + JsString(r.path) == ""
  {
    var raw := JsString(r.httpMethod) + JsString(r.path);
    EmptyEncoding(raw);
    if ServiceFingerprintInput(r) == FingerprintInput(r) {
      // the two differ in length by exactly the inserted segment
      assert |Encode(raw)| == 0;
    }
  }

  const PAYLOAD_MISMATCH := "Bad Request: Idempotency-Key reused with different payload"

  /** `compareHash`: throws 422 when the stored hash differs from the request's fingerprint. */
  function CompareHash(hash: seq<byte> -> string, r: Request, existing: IdempotencyKey): (res: Result<(), HttpException>)
    ensures res.Err? <==> existing.requestHash != Fingerprint(hash, r)
    ensures res.Err? ==> res.error == HttpException(Text(PAYLOAD_MISMATCH), HTTP_UNPROCESSABLE_ENTITY)
  {
    if existing.requestHash != Fingerprint(hash, r) then
      Err(HttpException(Text(PAYLOAD_MISMATCH), HTTP_UNPROCESSABLE_ENTITY))
    else Ok(())
  }

  /**
   * With a collision-free hash, a row fingerprinted by the shared helper
   * passes the comparison exactly when the new request agrees with the old
   * one on normalised method, path and body.
   */
  lemma CompareHashDetectsDrift(hash: seq<byte> -> string, first: Request, r: Request, existing: IdempotencyKey)
    requires CollisionFree(hash)
    requires existing.requestHash == Fingerprint(hash, first)
    requires '\0' !in MethodName(first) && '\0' !in PathName(first)
    requires '\0' !in MethodName(r) && '\0' !in PathName(r)
    ensures CompareHash(hash, r, existing).Ok? <==>
      MethodName(first) == MethodName(r) && PathName(first) == PathName(r) && BodyBytes(first) == BodyBytes(r)
  {
    FingerprintInputInjective(first, r);
  }

  /**
   * A row fingerprinted by the idempotency service never passes the shared
   * comparison for a retry of the very same request once that request has a
   * method, given a collision-free hash.
   */
  lemma ServiceRowFailsComparison(hash: seq<byte> -> string, r: Request, existing: IdempotencyKey)
    requires CollisionFree(hash)
    requires existing.requestHash == ServiceFingerprint(hash, r)
    requires r.httpMethod.Some? && r.httpMethod.value != ""
    ensures CompareHash(hash, r, existing) == Err(HttpException(Text(PAYLOAD_MISMATCH), HTTP_UNPROCESSABLE_ENTITY))
  {
    ServiceInputDiffers(r);
    assert JsString(r.httpMethod) + JsString(r.path) != "" by {
      assert |JsString(r.httpMethod) + JsString(r.path)| >= |r.httpMethod.value| > 0;
    }
  }
}
