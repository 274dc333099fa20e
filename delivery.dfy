/** `post_data_to_log_analytics`: the configuration gate, the signed request
    and the rule that decides success. */
module Delivery {
  import opened Wrappers
  import opened Foreign
  import opened Signer

  /** The process-wide settings read once from the environment. */
  datatype Config = Config(workspaceId: string, workspaceKey: string, tenantName: string)

  /** `WORKSPACE_ID` and `WORKSPACE_KEY` are both non-empty. */
  predicate Configured(cfg: Config) {
    cfg.workspaceId != "" && cfg.workspaceKey != ""
  }

  const PostMethod: string := "POST"
  const JsonContentType: string := "application/json"
  const LogsResource: string := "/api/logs"
  const ApiVersion: string := "2016-04-01"
  const TimeGeneratedField: string := "TimeGenerated"

  /** What `requests.post` does: answer with a status code, or raise (a
      timeout, a refused connection, ...). */
  datatype HttpOutcome = Responded(status: int) | Raised

  datatype Request = Request(uri: string, headers: seq<(string, string)>, body: string)

  /** What one call does: return without a request, raise while signing, or
      send the request and meet the given outcome. */
  datatype PostResult =
    | NotConfigured
    | KeyRejected
    | Sent(request: Request, outcome: HttpOutcome)

  function IngestionUri(workspaceId: string): string {
    "https://" + workspaceId + ".ods.opinsights.azure.com" + LogsResource + "?api-version=" + ApiVersion
  }

  /** The attributes signed for a body: the body's length is `len(body)`,
      a count of characters. */
  function SignedFor(body: string, date: string): SignedFields {
    SignedFields(PostMethod, |body|, JsonContentType, date, LogsResource)
  }

  /** `post_data_to_log_analytics(body, log_type)`, with the RFC 1123 date
      of the clock reading and the outcome of the HTTP call as inputs. */
  function PostData(cfg: Config, codec: Codec, body: string, logType: string, date: string, outcome: HttpOutcome)
    : PostResult
  {
    if !Configured(cfg) then NotConfigured
    else
      match BuildSignature(codec, cfg.workspaceId, cfg.workspaceKey, SignedFor(body, date))
      case None => KeyRejected
      case Some(signature) =>
        var headers := [
          ("content-type", JsonContentType),
          ("Authorization", signature),
          ("Log-Type", logType),
          ("x-ms-date", date),
          ("time-generated-field", TimeGeneratedField)
        ];
        Sent(Request(IngestionUri(cfg.workspaceId), headers, body), outcome)
  }

  /** The call raises: it is configured, and `base64.b64decode` rejects the key. */
  predicate KeyRaises(cfg: Config, codec: Codec) {
    Configured(cfg) && codec.b64Decode(cfg.workspaceKey).None?
  }

  /** The value the call returns; `None` when it raises instead. */
  function Returned(r: PostResult): Option<bool> {
    match r
    case NotConfigured => Some(false)
    case KeyRejected => None
    case Sent(_, Responded(status)) => Some(200 <= status <= 299)
    case Sent(_, Raised) => Some(false)
  }

  /** The value of header `name`, as a dictionary lookup finds it. */
  function Header(headers: seq<(string, string)>, name: string): Option<string> {
    if headers == [] then None
    else if headers[0].0 == name then Some(headers[0].1)
    else Header(headers[1..], name)
  }

  /** The delivery decision: without a workspace id or key the call returns
      false and sends nothing; with both, it raises exactly when the key is
      not valid base64, and otherwise returns true exactly when the service
      answers with a status from 200 to 299 — a raised HTTP call is caught
      and reported as false. */
  lemma DeliveryDecision(cfg: Config, codec: Codec, body: string, logType: string, date: string, outcome: HttpOutcome)
    ensures var r := PostData(cfg, codec, body, logType, date, outcome);
      && (!Configured(cfg) ==> r == NotConfigured && Returned(r) == Some(false))
      && (Returned(r).None? <==> KeyRaises(cfg, codec))
      && (r.KeyRejected? <==> KeyRaises(cfg, codec))
      && (Returned(r) == Some(true) <==>
            Configured(cfg) && codec.b64Decode(cfg.workspaceKey).Some?
            && outcome.Responded? && 200 <= outcome.status <= 299)
      && (r.Sent? <==> Returned(r).Some? && Configured(cfg))
  {
  }

  /** The request sent carries the body unchanged, goes to the workspace's
      ingestion endpoint, and its `Authorization` header signs exactly the
      `x-ms-date` it sends, the body's length, `POST`, `application/json`
      and `/api/logs`. */
  lemma RequestLayout(cfg: Config, codec: Codec, body: string, logType: string, date: string, outcome: HttpOutcome)
    requires PostData(cfg, codec, body, logType, date, outcome).Sent?
    ensures var req := PostData(cfg, codec, body, logType, date, outcome).request;
      && req.body == body
      && req.uri == IngestionUri(cfg.workspaceId)
      && Header(req.headers, "Log-Type") == Some(logType)
      && Header(req.headers, "x-ms-date") == Some(date)
      && Header(req.headers, "content-type") == Some(JsonContentType)
      && Header(req.headers, "time-generated-field") == Some(TimeGeneratedField)
      && Header(req.headers, "Authorization")
         == BuildSignature(codec, cfg.workspaceId, cfg.workspaceKey, SignedFields(PostMethod, |body|, JsonContentType, date, LogsResource))
  {
    var h := PostData(cfg, codec, body, logType, date, outcome).request.headers;
    var h2 := h[1..][1..];
    assert Header(h2[1..][1..], "time-generated-field") == Some(TimeGeneratedField);
    assert Header(h2, "time-generated-field") == Some(TimeGeneratedField);
    assert Header(h2[1..], "x-ms-date") == Some(date);
    assert Header(h2, "x-ms-date") == Some(date);
    assert Header(h2, "Log-Type") == Some(logType);
  }

  /** When the date has no line break, the signed content can be read back
      from the canonical string: the date and length the server checks are
      the ones sent. */
  lemma SignedContentMatchesRequest(body: string, date: string)
    requires '\n' !in date
    ensures ParseCanonical(CanonicalString(SignedFor(body, date)))
      == Some(SignedFields(PostMethod, |body|, JsonContentType, date, LogsResource))
  {
    CanonicalRoundTrip(SignedFor(body, date));
  }
}
