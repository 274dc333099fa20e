/** `parse_event_hub_message` and the `extend` that follows it in `main`:
    how one decoded Event Hub message becomes records. */
module Parser {
  import opened Wrappers
  import opened JsonValue
  import opened Text

  const RecordsKey: string := "records"

  /** The `TypeError`s that can escape `parse_event_hub_message` or `extend`. */
  datatype TypeError =
    | NotAContainer   // `'records' in data` on a number, a boolean or null
    | IndexedByString // `data['records']` on a list or a string
    | NotIterable     // `extend` on a number, a boolean or null

  /** `'records' in data`, with Python's meaning for each kind of value:
      a key test on an object, a membership test on a list, a substring test
      on a string; any other value raises. */
  function MentionsRecords(data: Json): Result<bool, TypeError> {
    match data
    case JObj(f) => Ok(HasKey(f, RecordsKey))
    case JArr(items) => Ok(JStr(RecordsKey) in items)
    case JStr(s) => Ok(Contains(s, RecordsKey))
    case _ => Err(NotAContainer)
  }

  /** `parse_event_hub_message`, given what `json.loads` produced (`None`
      for a `JSONDecodeError`, which the function catches). */
  function ParseMessage(decoded: Option<Json>): (r: Result<Json, TypeError>)
    ensures decoded.None? ==> r == Ok(JArr([]))
    ensures decoded.Some? && decoded.value.JObj? ==>
      r == Ok(Get(decoded.value.fields, RecordsKey).GetOr(JArr([decoded.value])))
    ensures decoded.Some? && decoded.value.JArr? ==>
      r == if JStr(RecordsKey) in decoded.value.items then Err(IndexedByString) else Ok(decoded.value)
    ensures decoded.Some? && decoded.value.JStr? ==>
      r == if Contains(decoded.value.s, RecordsKey) then Err(IndexedByString) else Ok(JArr([decoded.value]))
    ensures decoded.Some? && (decoded.value.JNum? || decoded.value.JBool? || decoded.value.JNull?) ==>
      r == Err(NotAContainer)
  {
    match decoded
    case None => Ok(JArr([]))
    case Some(data) =>
      match MentionsRecords(data)
      case Err(e) => Err(e)
      case Ok(true) =>
        (match data
         case JObj(f) => Ok(Get(f, RecordsKey).value)
         case _ => Err(IndexedByString))
      case Ok(false) =>
        if data.JArr? then Ok(data) else Ok(JArr([data]))
  }

  /** The elements `list.extend` takes from a value: a list's items, a
      string's characters, an object's keys; any other value raises. */
  function Elements(v: Json): (r: Result<seq<Json>, TypeError>)
    ensures v.JArr? ==> r == Ok(v.items)
    ensures v.JStr? ==> (r.Ok? && |r.value| == |v.s|
      && forall i :: 0 <= i < |v.s| ==> r.value[i] == JStr([v.s[i]]))
    ensures v.JObj? ==> (r.Ok? && |r.value| == |v.fields|
      && forall i :: 0 <= i < |v.fields| ==> r.value[i] == JStr(v.fields[i].0))
    ensures r.Err? <==> v.JNum? || v.JBool? || v.JNull?
  {
    match v
    case JArr(items) => Ok(items)
    case JStr(s) => Ok(seq(|s|, i requires 0 <= i < |s| => JStr([s[i]])))
    case JObj(f) => Ok(seq(|f|, i requires 0 <= i < |f| => JStr(f[i].0)))
    case _ => Err(NotIterable)
  }

  /** The records one decoded message adds to `all_records`; `Err` when the
      message is skipped because parsing or `extend` raised. */
  function MessageRecords(decoded: Option<Json>): Result<seq<Json>, TypeError> {
    match ParseMessage(decoded)
    case Err(e) => Err(e)
    case Ok(v) => Elements(v)
  }

  /** The diagnostic-settings envelope `{"records": [...]}`. */
  function Envelope(records: seq<Json>): Json {
    JObj([(RecordsKey, JArr(records))])
  }

  /** A message in the diagnostic-settings envelope yields exactly the
      records it wraps. */
  lemma EnvelopeRoundTrip(records: seq<Json>)
    ensures ParseMessage(Some(Envelope(records))) == Ok(JArr(records))
    ensures MessageRecords(Some(Envelope(records))) == Ok(records)
  {
  }

  /** A bare list of objects yields its elements, and a bare object without
      a `records` key yields itself. */
  lemma BareMessages(records: seq<Json>, record: Fields)
    requires forall i :: 0 <= i < |records| ==> records[i].JObj?
    requires !HasKey(record, RecordsKey)
    ensures MessageRecords(Some(JArr(records))) == Ok(records)
    ensures MessageRecords(Some(JObj(record))) == Ok([JObj(record)])
  {
  }

  /** A message that is not JSON contributes no records and is not an error;
      a number, a boolean or null is an error, and so is a list that has the
      string "records" among its items. */
  lemma ScalarsAndMisnamedListsRaise(decoded: Json)
    requires decoded.JNum? || decoded.JBool? || decoded.JNull?
      || (decoded.JArr? && JStr(RecordsKey) in decoded.items)
    ensures MessageRecords(None) == Ok([])
    ensures MessageRecords(Some(decoded)).Err?
  {
  }
}
