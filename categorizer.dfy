/** `categorize_logs`: one pass over the records that stamps the tenant,
    fills `TimeGenerated` and groups the records by `category` into an
    insertion-ordered dictionary. */
module Categorizer {
  import opened Wrappers
  import opened JsonValue
  import opened Grouping

  const CategoryKey: string := "category"
  const TenantKey: string := "SourceTenantName"
  const TimeGeneratedKey: string := "TimeGenerated"
  const TimeKey: string := "time"
  const UnknownCategory: Json := JStr("Unknown")

  /** `record.get('category', 'Unknown')`: the default applies only when the
      key is absent; a `null` category is kept as it is. */
  function CategoryOf(f: Fields): (c: Json)
    ensures HasKey(f, CategoryKey) ==> Some(c) == Get(f, CategoryKey)
    ensures !HasKey(f, CategoryKey) ==> c == UnknownCategory
  {
    Get(f, CategoryKey).GetOr(UnknownCategory)
  }

  /** Whether a value can be a dictionary key: lists and objects cannot. */
  predicate Hashable(v: Json) {
    !v.JArr? && !v.JObj?
  }

  /** A record the pass can handle: an object whose category is hashable. */
  predicate Categorizable(r: Json) {
    r.JObj? && Hashable(CategoryOf(r.fields))
  }

  predicate AllObjects(records: seq<Json>) {
    forall i :: 0 <= i < |records| ==> records[i].JObj?
  }

  predicate AllCategorizable(records: seq<Json>) {
    forall i :: 0 <= i < |records| ==> Categorizable(records[i])
  }

  /** The two ways the pass raises, with the index of the record at fault. */
  datatype Fault =
    | NotAnObject(index: nat)        // `record.get` on a list, string, number, boolean or null
    | UnhashableCategory(index: nat) // `category not in categorized` with a list or object category

  /** `e` is the exception the pass raises: at the first record it cannot
      handle, and of the kind that record calls for. */
  predicate IsFirstFault(records: seq<Json>, e: Fault) {
    && e.index < |records|
    && !Categorizable(records[e.index])
    && (forall j :: 0 <= j < e.index ==> Categorizable(records[j]))
    && (e.NotAnObject? <==> !records[e.index].JObj?)
  }

  /** The enrichment applied to one record: stamp the tenant, then fill
      `TimeGenerated` from `time` or, failing that, from the clock. */
  function Enrich(f: Fields, tenant: string, now: string): Fields {
    var stamped := Set(f, TenantKey, JStr(tenant));
    if HasKey(stamped, TimeGeneratedKey) then stamped
    else if HasKey(stamped, TimeKey) then Set(stamped, TimeGeneratedKey, Get(stamped, TimeKey).value)
    else Set(stamped, TimeGeneratedKey, JStr(now + "Z"))
  }

  /** What enrichment does to a record, key by key: the tenant is
      overwritten, an existing `TimeGenerated` is kept, a missing one is
      copied from `time` or else set to the clock reading with a `Z`, and no
      other key changes. */
  lemma EnrichContract(f: Fields, tenant: string, now: string)
    ensures var e := Enrich(f, tenant, now);
      && Get(e, TenantKey) == Some(JStr(tenant))
      && (HasKey(f, TimeGeneratedKey) ==> Get(e, TimeGeneratedKey) == Get(f, TimeGeneratedKey))
      && (!HasKey(f, TimeGeneratedKey) && HasKey(f, TimeKey) ==> Get(e, TimeGeneratedKey) == Get(f, TimeKey))
      && (!HasKey(f, TimeGeneratedKey) && !HasKey(f, TimeKey) ==>
            Get(e, TimeGeneratedKey) == Some(JStr(now + "Z")))
      && (forall k :: k != TenantKey && k != TimeGeneratedKey ==> Get(e, k) == Get(f, k))
      && (UniqueKeys(f) ==> UniqueKeys(e))
  {
    var stamped := Set(f, TenantKey, JStr(tenant));
    var e := Enrich(f, tenant, now);
    GetSetSame(f, TenantKey, JStr(tenant));
    forall k | k != TenantKey ensures Get(stamped, k) == Get(f, k) {
      GetSetOther(f, TenantKey, JStr(tenant), k);
    }
    if UniqueKeys(f) {
      SetKeepsUniqueKeys(f, TenantKey, JStr(tenant));
    }
    if !HasKey(stamped, TimeGeneratedKey) {
      var time := if HasKey(stamped, TimeKey) then Get(stamped, TimeKey).value else JStr(now + "Z");
      assert e == Set(stamped, TimeGeneratedKey, time);
      GetSetSame(stamped, TimeGeneratedKey, time);
      GetSetOther(stamped, TimeGeneratedKey, time, TenantKey);
      forall k | k != TimeGeneratedKey ensures Get(e, k) == Get(stamped, k) {
        GetSetOther(stamped, TimeGeneratedKey, time, k);
      }
      if UniqueKeys(f) {
        SetKeepsUniqueKeys(stamped, TimeGeneratedKey, time);
      }
    }
  }

  /** Assigning a key the value it already has changes nothing. */
  lemma {:induction false} SetUnchanged(f: Fields, k: string, v: Json)
    requires Get(f, k) == Some(v)
    ensures Set(f, k, v) == f
  {
    if f[0].0 != k {
      SetUnchanged(f[1..], k, v);
    }
  }

  /** Enriching twice is enriching once: the tenant is already stamped and
      `TimeGenerated` is already present. */
  lemma EnrichIdempotent(f: Fields, tenant: string, now: string, later: string)
    ensures Enrich(Enrich(f, tenant, now), tenant, later) == Enrich(f, tenant, now)
  {
    var e := Enrich(f, tenant, now);
    EnrichContract(f, tenant, now);
    SetUnchanged(e, TenantKey, JStr(tenant));
  }

  /** Enrichment never writes `category`, so grouping before enriching and
      grouping after enriching put every record in the same group. */
  lemma EnrichKeepsCategory(f: Fields, tenant: string, now: string)
    ensures CategoryOf(Enrich(f, tenant, now)) == CategoryOf(f)
  {
    EnrichContract(f, tenant, now);
    assert Get(Enrich(f, tenant, now), CategoryKey) == Get(f, CategoryKey);
  }

  /** The group key of every record, read before enrichment. */
  function CategoryKeys(records: seq<Json>): (ks: seq<Json>)
    requires AllObjects(records)
    ensures |ks| == |records|
    ensures forall i :: 0 <= i < |records| ==> ks[i] == CategoryOf(records[i].fields)
  {
    seq(|records|, i requires 0 <= i < |records| => CategoryOf(records[i].fields))
  }

  /** The `i`-th record after the pass, its clock read taken as `clock(i)`. */
  function EnrichedAt(records: seq<Json>, i: nat, tenant: string, clock: nat -> string): Json
    requires i < |records| && records[i].JObj?
  {
    JObj(Enrich(records[i].fields, tenant, clock(i)))
  }

  /** Every record after the pass, in input order. */
  function EnrichedAll(records: seq<Json>, tenant: string, clock: nat -> string): (es: seq<Json>)
    requires AllObjects(records)
    ensures |es| == |records|
    ensures forall i :: 0 <= i < |records| ==> es[i] == EnrichedAt(records, i, tenant, clock)
  {
    seq(|records|, i requires 0 <= i < |records| => EnrichedAt(records, i, tenant, clock))
  }

  /** The returned dictionary: each category with its enriched records. */
  type Categorized = Dict<Json, Json>

  /** The dictionary the loop of `categorize_logs` has built after the given
      records: each enriched record inserted under its category, in turn. */
  function Grouped(records: seq<Json>, tenant: string, clock: nat -> string): Categorized
    requires AllObjects(records)
  {
    GroupPairs(CategoryKeys(records), EnrichedAll(records, tenant, clock))
  }

  /** One turn of the loop of `categorize_logs`. */
  lemma GroupedStep(records: seq<Json>, i: nat, tenant: string, clock: nat -> string)
    requires i < |records| && AllObjects(records[..i]) && records[i].JObj?
    ensures AllObjects(records[..i + 1])
    ensures Grouped(records[..i + 1], tenant, clock)
      == Insert(Grouped(records[..i], tenant, clock), CategoryOf(records[i].fields), EnrichedAt(records, i, tenant, clock))
  {
    var pre := records[..i];
    var k, e := CategoryOf(records[i].fields), EnrichedAt(records, i, tenant, clock);
    PrefixStep(records, i, tenant, clock);
    GroupPairsSnoc(CategoryKeys(pre), EnrichedAll(pre, tenant, clock), k, e);
  }

  /** The keys and the enriched records of one more record. */
  lemma PrefixStep(records: seq<Json>, i: nat, tenant: string, clock: nat -> string)
    requires i < |records| && AllObjects(records[..i]) && records[i].JObj?
    ensures AllObjects(records[..i + 1])
    ensures CategoryKeys(records[..i + 1]) == CategoryKeys(records[..i]) + [CategoryOf(records[i].fields)]
    ensures EnrichedAll(records[..i + 1], tenant, clock)
      == EnrichedAll(records[..i], tenant, clock) + [EnrichedAt(records, i, tenant, clock)]
  {
    var pre, cur := records[..i], records[..i + 1];
    assert forall j :: 0 <= j < i ==> cur[j] == pre[j];
  }

  /** The dictionary is a partition of the records: its lists hold
      `len(records)` records in all, the keys are the categories that occur,
      each once, in first-seen order, and record `i` lies in the list of its
      own category and of no other, at the place its input order gives. */
  lemma CategorizeIsStablePartition(records: seq<Json>, tenant: string, clock: nat -> string)
    requires AllObjects(records)
    ensures var c, ks := Grouped(records, tenant, clock), CategoryKeys(records);
      && Total(c, c.order) == |records|
      && (forall k :: k in c.members <==> k in c.order)
      && (forall k :: k in c.order <==> k in ks)
      && (forall a, b :: 0 <= a < b < |c.order| ==> c.order[a] != c.order[b] && SeenBefore(ks, c.order[a], c.order[b]))
      && (forall k :: k in c.members ==>
            |c.members[k]| == |Positions(ks, k)|
            && forall m :: 0 <= m < |c.members[k]| ==> c.members[k][m] == EnrichedAt(records, Positions(ks, k)[m], tenant, clock))
      && (forall k, i :: k in c.members && 0 <= i < |records| ==> (i in Positions(ks, k) <==> ks[i] == k))
  {
    var c, ks := Grouped(records, tenant, clock), CategoryKeys(records);
    GroupPairsGroups(ks, EnrichedAll(records, tenant, clock));
    FirstSeenOrder(ks);
    GroupSizesSum(ks);
    TotalCountsPositions(c, c.order, ks);
    forall k, i | k in c.members && 0 <= i < |records| && ks[i] == k ensures i in Positions(ks, k) {
      PositionsComplete(ks, k, i);
    }
  }

  /** The record at `i` is the first one the pass cannot handle, so the
      pass raises there, with the exception that record calls for. */
  lemma FaultAt(records: seq<Json>, i: nat)
    requires i < |records| && !Categorizable(records[i]) && AllCategorizable(records[..i])
    ensures var e := if records[i].JObj? then UnhashableCategory(i) else NotAnObject(i);
      IsFirstFault(records, e) && !AllCategorizable(records)
  {
    assert forall j :: 0 <= j < i ==> records[..i][j] == records[j];
  }

  /** One more record the pass can handle. */
  lemma CategorizableSnoc(records: seq<Json>, i: nat)
    requires i < |records| && Categorizable(records[i]) && AllCategorizable(records[..i])
    ensures AllCategorizable(records[..i + 1])
  {
    assert forall j :: 0 <= j < i ==> records[..i + 1][j] == records[..i][j];
  }

  /** `categorize_logs`: the loop over the records. */
  method CategorizeLogs(records: seq<Json>, tenant: string, clock: nat -> string)
    returns (r: Result<Categorized, Fault>)
    ensures r.Ok? <==> AllCategorizable(records)
    ensures r.Ok? ==> r.value == Grouped(records, tenant, clock)
    ensures r.Err? ==> IsFirstFault(records, r.error)
  {
    var order: seq<Json> := [];
    var members: map<Json, seq<Json>> := map[];
    var i := 0;
    while i < |records|
      invariant 0 <= i <= |records|
      invariant AllCategorizable(records[..i]) && AllObjects(records[..i])
      invariant Dict(order, members) == Grouped(records[..i], tenant, clock)
    {
      var record := records[i];
      if !record.JObj? {
        FaultAt(records, i);
        return Err(NotAnObject(i));
      }
      var category := CategoryOf(record.fields);
      var enriched := JObj(Enrich(record.fields, tenant, clock(i)));
      if !Hashable(category) {
        FaultAt(records, i);
        return Err(UnhashableCategory(i));
      }
      GroupedStep(records, i, tenant, clock);
      if category !in members {
        order := order + [category];
        members := members[category := []];
      }
      members := members[category := members[category] + [enriched]];
      CategorizableSnoc(records, i);
      i := i + 1;
    }
    assert records[..i] == records;
    return Ok(Dict(order, members));
  }
}
