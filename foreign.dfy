/** The library calls the pipeline makes but does not implement: UTF-8
    decoding and encoding, the JSON decoder and encoder, base64 and
    HMAC-SHA256. Each is a function value supplied by the caller, so every
    property proved here holds whatever those libraries compute. A call
    that can raise returns an `Option`, `None` standing for the exception. */
module Foreign {
  import opened Wrappers
  import opened JsonValue

  type Byte = bv8

  datatype Codec = Codec(
    /** `body.decode('utf-8')`; `None` when the bytes are not UTF-8 */
    utf8Decode: seq<Byte> -> Option<string>,
    /** `bytes(s, encoding="utf-8")` */
    utf8Encode: string -> seq<Byte>,
    /** `json.loads`; `None` for a `JSONDecodeError` */
    loads: string -> Option<Json>,
    /** `json.dumps` of a list of records */
    dumps: seq<Json> -> string,
    /** `base64.b64decode`; `None` when it raises on a malformed key */
    b64Decode: string -> Option<seq<Byte>>,
    /** `base64.b64encode(...).decode()` */
    b64Encode: seq<Byte> -> string,
    /** `hmac.new(key, msg, digestmod=hashlib.sha256).digest()` */
    hmacSha256: (seq<Byte>, seq<Byte>) -> seq<Byte>)
}
