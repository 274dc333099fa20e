/** The shared-key signature of the Log Analytics Data Collector API: an
    HMAC-SHA256 over a canonical string built from the request, keyed with
    the base64-decoded workspace key, sent as `SharedKey {id}:{digest}`. */
module Signer {
  import opened Wrappers
  import opened Text
  import opened Foreign

  const DateHeaderPrefix: string := "x-ms-date:"
  const SchemePrefix: string := "SharedKey "

  /** The request attributes that the signature covers. */
  datatype SignedFields = SignedFields(
    httpMethod: string, contentLength: nat, contentType: string, date: string, resource: string)

  /** No attribute holds a line break, so the canonical string has five lines. */
  predicate SingleLine(f: SignedFields) {
    '\n' !in f.httpMethod && '\n' !in f.contentType && '\n' !in f.date && '\n' !in f.resource
  }

  /** `f"{method}\n{content_length}\n{content_type}\nx-ms-date:{date}\n{resource}"`. */
  function CanonicalString(f: SignedFields): string {
    f.httpMethod + "\n" + Decimal(f.contentLength) + "\n" + f.contentType + "\n"
      + DateHeaderPrefix + f.date + "\n" + f.resource
  }

  /** The canonical string is the five lines joined with line breaks. */
  lemma CanonicalIsJoin(f: SignedFields)
    ensures CanonicalString(f)
      == Join([f.httpMethod, Decimal(f.contentLength), f.contentType, DateHeaderPrefix + f.date, f.resource], '\n')
  {
    var p := [f.httpMethod, Decimal(f.contentLength), f.contentType, DateHeaderPrefix + f.date, f.resource];
    var d := DateHeaderPrefix + f.date;
    assert p[1..][1..][1..][1..] == [f.resource];
    assert p[1..][1..][1..] == [d, f.resource];
    assert p[1..][1..] == [f.contentType, d, f.resource];
    assert Join(p[1..][1..][1..], '\n') == d + "\n" + f.resource;
    assert Join(p[1..][1..], '\n') == f.contentType + "\n" + d + "\n" + f.resource;
    assert Join(p[1..], '\n') == Decimal(f.contentLength) + "\n" + f.contentType + "\n" + d + "\n" + f.resource;
  }

  /** Reads the attributes back out of a canonical string. */
  function ParseCanonical(s: string): Option<SignedFields> {
    var lines := Split(s, '\n');
    if |lines| == 5 && (forall i :: 0 <= i < |lines[1]| ==> IsDigit(lines[1][i]))
      && DateHeaderPrefix <= lines[3]
    then Some(SignedFields(lines[0], DecimalValue(lines[1]), lines[2], lines[3][|DateHeaderPrefix|..], lines[4]))
    else None
  }

  /** The canonical string determines every signed attribute. */
  lemma CanonicalRoundTrip(f: SignedFields)
    requires SingleLine(f)
    ensures ParseCanonical(CanonicalString(f)) == Some(f)
  {
    var digits, dated := Decimal(f.contentLength), DateHeaderPrefix + f.date;
    var p := [f.httpMethod, digits, f.contentType, dated, f.resource];
    CanonicalIsJoin(f);
    assert '\n' !in dated;
    assert '\n' !in digits by {
      forall i | 0 <= i < |digits| ensures digits[i] != '\n' {
        assert IsDigit(digits[i]);
      }
    }
    SplitJoin(p, '\n');
    var lines := Split(CanonicalString(f), '\n');
    assert lines == p;
    DecimalRoundTrip(f.contentLength);
    assert dated[|DateHeaderPrefix|..] == f.date;
  }

  /** Requests that differ in any signed attribute have different canonical strings. */
  lemma CanonicalInjective(f: SignedFields, g: SignedFields)
    requires SingleLine(f) && SingleLine(g)
    requires f != g
    ensures CanonicalString(f) != CanonicalString(g)
  {
    CanonicalRoundTrip(f);
    CanonicalRoundTrip(g);
  }

  /** The HMAC-SHA256 of the canonical string's UTF-8 bytes, base64-encoded. */
  function Digest(codec: Codec, key: seq<Byte>, canonical: string): string {
    codec.b64Encode(codec.hmacSha256(key, codec.utf8Encode(canonical)))
  }

  /** `build_signature`: `None` when `base64.b64decode` raises on the key,
      an exception the function does not catch. */
  function BuildSignature(codec: Codec, customerId: string, sharedKey: string, f: SignedFields)
    : (r: Option<string>)
    ensures r.None? <==> codec.b64Decode(sharedKey).None?
    ensures r.Some? ==> SchemePrefix <= r.value
  {
    match codec.b64Decode(sharedKey)
    case None => None
    case Some(key) => Some(SchemePrefix + customerId + ":" + Digest(codec, key, CanonicalString(f)))
  }

  /** Splits an `Authorization` value into the workspace id and the digest. */
  function ParseAuthorization(h: string): Option<(string, string)> {
    if SchemePrefix <= h && ':' in h[|SchemePrefix|..] then
      var rest := h[|SchemePrefix|..];
      var i := FirstIndex(rest, ':');
      Some((rest[..i], rest[i + 1..]))
    else None
  }

  /** The header is `SharedKey {id}:{digest}`: for a workspace id without a
      colon, it splits back into exactly that id and that digest. */
  lemma AuthorizationLayout(codec: Codec, customerId: string, sharedKey: string, f: SignedFields)
    requires ':' !in customerId
    requires codec.b64Decode(sharedKey).Some?
    ensures ParseAuthorization(BuildSignature(codec, customerId, sharedKey, f).value)
      == Some((customerId, Digest(codec, codec.b64Decode(sharedKey).value, CanonicalString(f))))
  {
    var d := Digest(codec, codec.b64Decode(sharedKey).value, CanonicalString(f));
    var h := SchemePrefix + customerId + ":" + d;
    var rest := h[|SchemePrefix|..];
    assert rest == customerId + ":" + d;
    assert rest[|customerId|] == ':';
    var i := FirstIndex(rest, ':');
    assert rest[..|customerId|] == customerId;
    assert i == |customerId|;
  }

  /** Two requests that differ in any signed attribute get different
      headers, unless the digest collides on their canonical strings. */
  lemma SignatureSeparatesRequests(codec: Codec, customerId: string, sharedKey: string,
                                   f: SignedFields, g: SignedFields)
    requires ':' !in customerId
    requires SingleLine(f) && SingleLine(g) && f != g
    requires codec.b64Decode(sharedKey).Some?
    requires var key := codec.b64Decode(sharedKey).value;
      (Digest(codec, key, CanonicalString(f)) == Digest(codec, key, CanonicalString(g))
       ==> CanonicalString(f) == CanonicalString(g))
    ensures BuildSignature(codec, customerId, sharedKey, f) != BuildSignature(codec, customerId, sharedKey, g)
  {
    CanonicalInjective(f, g);
    AuthorizationLayout(codec, customerId, sharedKey, f);
    AuthorizationLayout(codec, customerId, sharedKey, g);
  }
}
