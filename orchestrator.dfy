/** `main`: parse every Event Hub message, categorize the records once, and
    deliver each category to its table, one after the other. */
module Orchestrator {
  import opened Wrappers
  import opened JsonValue
  import opened Foreign
  import opened Parser
  import opened Categorizer
  import opened Grouping
  import opened Router
  import opened Delivery

  /** The outside world as the invocation meets it: the ISO clock reading
      taken for record `i`, the RFC 1123 clock reading taken for delivery
      `i`, and the outcome of the `i`-th HTTP call. */
  datatype Env = Env(isoNow: nat -> string, rfc1123Now: nat -> string, respond: nat -> HttpOutcome)

  /** One call of `post_data_to_log_analytics` that returned. */
  datatype Attempt = Attempt(category: Json, logType: string, count: nat, result: PostResult)

  /** How the invocation ends: an early return on no records, a normal end,
      or an exception out of `categorize_logs` or out of the signing. */
  datatype Outcome =
    | NothingToProcess
    | Completed
    | CategorizeRaised(fault: Fault)
    | KeyDecodeRaised

  /** `all_records`, the calls that returned, and how the invocation ended. */
  datatype Run = Run(records: seq<Json>, attempts: seq<Attempt>, outcome: Outcome)

  /** The records one event adds to `all_records`: none when decoding,
      parsing or `extend` raises, since `main` catches that and moves on. */
  function Contribution(codec: Codec, body: seq<Byte>): seq<Json> {
    match codec.utf8Decode(body)
    case None => []
    case Some(text) =>
      match MessageRecords(codec.loads(text))
      case Err(_) => []
      case Ok(records) => records
  }

  /** `all_records` after the given events. */
  function Collect(codec: Codec, events: seq<seq<Byte>>): seq<Json> {
    if events == [] then []
    else Collect(codec, events[..|events| - 1]) + Contribution(codec, events[|events| - 1])
  }

  /** Records accumulate in event order: the records of a batch are those of
      its first part followed by those of the rest. */
  lemma {:induction false} CollectAppend(codec: Codec, a: seq<seq<Byte>>, b: seq<seq<Byte>>)
    ensures Collect(codec, a + b) == Collect(codec, a) + Collect(codec, b)
  {
    if b != [] {
      var n := |b| - 1;
      assert (a + b)[..|a + b| - 1] == a + b[..n];
      CollectAppend(codec, a, b[..n]);
    } else {
      assert a + b == a;
    }
  }

  /** A message that cannot be decoded or parsed takes nothing away from the
      messages around it. */
  lemma SkippedEventContributesNothing(codec: Codec, before: seq<seq<Byte>>, bad: seq<Byte>, after: seq<seq<Byte>>)
    requires Contribution(codec, bad) == []
    ensures Collect(codec, before + [bad] + after) == Collect(codec, before) + Collect(codec, after)
  {
    calc {
      Collect(codec, before + [bad] + after);
      { CollectAppend(codec, before + [bad], after); }
      Collect(codec, before + [bad]) + Collect(codec, after);
      { CollectAppend(codec, before, [bad]); CollectOne(codec, bad); }
      Collect(codec, before) + Collect(codec, after);
    }
  }

  lemma CollectOne(codec: Codec, body: seq<Byte>)
    ensures Collect(codec, [body]) == Contribution(codec, body)
  {
    assert [body][..0] == [];
  }

  /** A dictionary whose lists are exactly those of its keys. */
  ghost predicate WellFormed(c: Categorized) {
    forall k :: k in c.members <==> k in c.order
  }

  /** The call for the `i`-th category: its table, its serialized records,
      the `i`-th clock reading and the `i`-th HTTP outcome. */
  function AttemptFor(cfg: Config, codec: Codec, env: Env, c: Categorized, i: nat): Attempt
    requires WellFormed(c) && i < |c.order|
  {
    var category := c.order[i];
    var group := c.members[category];
    var logType := LogType(cfg.tenantName, category);
    Attempt(category, logType, |group|,
            PostData(cfg, codec, codec.dumps(group), logType, env.rfc1123Now(i), env.respond(i)))
  }

  /** One call per category, in the dictionary's order. */
  function Deliveries(cfg: Config, codec: Codec, env: Env, c: Categorized): seq<Attempt>
    requires WellFormed(c)
  {
    seq(|c.order|, i requires 0 <= i < |c.order| => AttemptFor(cfg, codec, env, c, i))
  }

  /** The grouping of a non-empty batch has at least one category, and each
      key has its list. */
  lemma GroupedShape(records: seq<Json>, tenant: string, clock: nat -> string)
    requires AllObjects(records)
    ensures WellFormed(Grouped(records, tenant, clock))
    ensures records != [] ==> |Grouped(records, tenant, clock).order| > 0
  {
    GroupPairsGroups(CategoryKeys(records), EnrichedAll(records, tenant, clock));
    if records != [] {
      assert CategoryKeys(records)[0] in FirstSeen(CategoryKeys(records));
    }
  }

  lemma DeliveriesStep(cfg: Config, codec: Codec, env: Env, c: Categorized, i: nat)
    requires WellFormed(c) && i < |c.order|
    ensures Deliveries(cfg, codec, env, c)[..i + 1] == Deliveries(cfg, codec, env, c)[..i] + [AttemptFor(cfg, codec, env, c, i)]
  {
    var d := Deliveries(cfg, codec, env, c);
    assert d[i] == AttemptFor(cfg, codec, env, c, i);
    SliceSnoc(d, i);
  }

  lemma SliceSnoc<T>(s: seq<T>, i: nat)
    requires i < |s|
    ensures s[..i + 1] == s[..i] + [s[i]]
  {
  }

  /** The first loop of `main`: decode and parse each event, extend
      `all_records` with what it yields, and skip the event on an exception. */
  method CollectEvents(codec: Codec, events: seq<seq<Byte>>) returns (allRecords: seq<Json>)
    ensures allRecords == Collect(codec, events)
  {
    allRecords := [];
    for n := 0 to |events|
      invariant allRecords == Collect(codec, events[..n])
    {
      assert events[..n + 1][..n] == events[..n];
      var text := codec.utf8Decode(events[n]);
      if text.None? {
        continue;
      }
      var parsed := MessageRecords(codec.loads(text.value));
      if parsed.Err? {
        continue;
      }
      allRecords := allRecords + parsed.value;
    }
    assert events[..|events|] == events;
  }

  /** The second loop of `main`: one call of `post_data_to_log_analytics` per
      category, in the dictionary's order, whatever the earlier calls
      returned; a malformed key raises out of the first call. */
  method SendCategories(cfg: Config, codec: Codec, env: Env, c: Categorized) returns (attempts: seq<Attempt>, raised: bool)
    requires WellFormed(c) && |c.order| > 0
    ensures raised <==> KeyRaises(cfg, codec)
    ensures raised ==> attempts == []
    ensures !raised ==> attempts == Deliveries(cfg, codec, env, c)
  {
    attempts := [];
    for i := 0 to |c.order|
      invariant attempts == Deliveries(cfg, codec, env, c)[..i]
      invariant i > 0 ==> !KeyRaises(cfg, codec)
    {
      var category := c.order[i];
      var records := c.members[category];
      var logType := LogType(cfg.tenantName, category);
      var body := codec.dumps(records);
      var result := PostData(cfg, codec, body, logType, env.rfc1123Now(i), env.respond(i));
      DeliveryDecision(cfg, codec, body, logType, env.rfc1123Now(i), env.respond(i));
      if result.KeyRejected? {
        return attempts, true;
      }
      DeliveriesStep(cfg, codec, env, c, i);
      attempts := attempts + [Attempt(category, logType, |records|, result)];
    }
    return attempts, false;
  }

  /** `main(events)`. */
  method ProcessEvents(cfg: Config, codec: Codec, env: Env, events: seq<seq<Byte>>) returns (run: Run)
    ensures run.records == Collect(codec, events)
    ensures run.records == [] ==> run.attempts == [] && run.outcome == NothingToProcess
    ensures run.records != [] && !AllCategorizable(run.records) ==>
      run.attempts == [] && run.outcome.CategorizeRaised? && IsFirstFault(run.records, run.outcome.fault)
    ensures run.records != [] && AllCategorizable(run.records) && KeyRaises(cfg, codec) ==>
      run.attempts == [] && run.outcome == KeyDecodeRaised
    ensures run.records != [] && AllCategorizable(run.records) && !KeyRaises(cfg, codec) ==>
      var c := Grouped(run.records, cfg.tenantName, env.isoNow);
      WellFormed(c) && run.attempts == Deliveries(cfg, codec, env, c) && run.outcome == Completed
  {
    var allRecords := CollectEvents(codec, events);
    if allRecords == [] {
      return Run(allRecords, [], NothingToProcess);
    }
    var categorized := CategorizeLogs(allRecords, cfg.tenantName, env.isoNow);
    if categorized.Err? {
      return Run(allRecords, [], CategorizeRaised(categorized.error));
    }
    GroupedShape(allRecords, cfg.tenantName, env.isoNow);
    var attempts, raised := SendCategories(cfg, codec, env, categorized.value);
    if raised {
      return Run(allRecords, attempts, KeyDecodeRaised);
    }
    return Run(allRecords, attempts, Completed);
  }

  /** The calls made for the categories do not depend on how earlier calls
      went: two invocations that meet different HTTP outcomes make the same
      calls, category for category, with the same requests. This holds by
      the construction of `Deliveries`, which no outcome feeds into; that
      the loop goes on after a call returns false is what `SendCategories`
      promises, with `attempts == Deliveries(...)` whenever it does not raise. */
  lemma FailureIsolation(cfg: Config, codec: Codec, env: Env, respond': nat -> HttpOutcome, c: Categorized)
    requires WellFormed(c)
    ensures var env' := Env(env.isoNow, env.rfc1123Now, respond');
      var d, d' := Deliveries(cfg, codec, env, c), Deliveries(cfg, codec, env', c);
      && |d| == |d'| == |c.order|
      && forall i :: 0 <= i < |d| ==>
           && d[i].category == d'[i].category == c.order[i]
           && d[i].logType == d'[i].logType
           && d[i].count == d'[i].count == |c.members[c.order[i]]|
           && d[i].result.Sent? == d'[i].result.Sent?
           && (d[i].result.Sent? ==> d[i].result.request == d'[i].result.request)
  {
  }
}
