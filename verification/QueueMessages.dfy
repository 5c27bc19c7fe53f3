/** Messages of the upstream usage queue: the envelope a message must have, the event it stands for, and the
    replay-safe projection that is stored instead of it (internal/cpa/usage_accounting.go,
    internal/service/redis_usage.go, redis_usage_accounting.go). */
module QueueMessages {
  import opened Accounting
  import opened ExactlyOnce
  import opened InboxPipeline
  import opened InboxRuns
  import opened Trimming
  import opened UsageEvents

  datatype TokenInput = TokenInput(
    total: Option<int64>, uncached: Option<int64>, cacheRead: Option<int64>, cacheWrite: Option<int64>)

  datatype TokenOutput = TokenOutput(total: Option<int64>, nonReasoning: Option<int64>, reasoning: Option<int64>)

  datatype TokenBreakdown = TokenBreakdown(
    schemaVersion: Option<int64>, quality: Option<TokenQuality>, total: Option<int64>,
    input: Option<TokenInput>, output: Option<TokenOutput>, unclassified: Option<int64>)

  datatype AccountingFields = AccountingFields(
    version: Option<int64>, breakdown: Option<TokenBreakdown>, generate: Option<bool>, stream: Option<bool>)

  /** A parsed message. */
  datatype QueuedUsage = QueuedUsage(
    accounting: AccountingFields,
    timestamp: Option<int>,
    latencyMs: int64,
    ttftMs: Option<int64>,
    source: string,
    authIndex: string,
    failed: bool,
    provider: string,
    model: string,
    endpoint: string,
    authType: string,
    apiKey: string)

  /** The libraries the messages go through: JSON both ways, the digest put in place of an unusable message,
      and lower-casing. */
  datatype Codec = Codec(
    parse: string -> Option<QueuedUsage>,
    render: QueuedUsage -> Option<string>,
    redact: string -> string,
    lower: string -> string)

  /** The compacted form of a parsed message is read back as it was rendered. */
  predicate RendersBack(c: Codec, q: QueuedUsage) {
    c.render(Compact(q)).Some? ==> c.parse(c.render(Compact(q)).value) == Some(Compact(q))
  }

  /** This holds of whatever parsing returns, and no digest is a message. */
  ghost predicate Faithful(c: Codec) {
    && (forall message :: c.parse(message).Some? ==> RendersBack(c, c.parse(message).value))
    && forall message :: c.parse(c.redact(message)).None?
  }

  /** Go's zero time: midnight of January 1 in the year 1. */
  const ZERO_TIME: int := -62_135_596_800_000_000_000

  // Validation

  predicate Complete(a: AccountingFields) {
    && a.generate.Some? && a.stream.Some? && a.breakdown.Some?
    && a.breakdown.value.input.Some? && a.breakdown.value.output.Some?
  }

  predicate VersionTwo(a: AccountingFields)
    requires Complete(a)
  {
    a.version == Some(2) && a.breakdown.value.schemaVersion == Some(2)
  }

  /** `queuedAccountingFacts`. */
  function FactsOf(a: AccountingFields): UsageAccounting
    requires Complete(a)
  {
    var b := a.breakdown.value;
    var i, o := b.input.value, b.output.value;
    UsageAccounting(b.quality, b.total, i.total, i.uncached, i.cacheRead, i.cacheWrite,
                    o.total, o.nonReasoning, o.reasoning, b.unclassified)
  }

  predicate Acceptable(a: AccountingFields) { Complete(a) && VersionTwo(a) && WellFormed(FactsOf(a)) }

  datatype EnvelopeError = EnvelopeIncomplete | WrongVersion | InvalidFacts

  method ValidateQueuedAccounting(a: AccountingFields) returns (err: Option<EnvelopeError>)
    ensures err.None? <==> Acceptable(a)
    ensures err == Some(EnvelopeIncomplete) <==> !Complete(a)
    ensures err == Some(WrongVersion) <==> Complete(a) && !VersionTwo(a)
  {
    if a.generate.None? || a.stream.None? || a.breakdown.None?
      || a.breakdown.value.input.None? || a.breakdown.value.output.None?
    {
      return Some(EnvelopeIncomplete);
    }
    if a.version != Some(2) || a.breakdown.value.schemaVersion != Some(2) {
      return Some(WrongVersion);
    }
    var invalid := ValidateUsageAccounting(FactsOf(a));
    return if invalid.Some? then Some(InvalidFacts) else None;
  }

  // The event of a message

  /** The first value with something left after trimming, trimmed. */
  function FirstNonEmpty(values: seq<string>): string {
    if values == [] then "" else if TrimSpace(values[0]) != "" then TrimSpace(values[0]) else FirstNonEmpty(values[1..])
  }

  function AuthTypeOf(c: Codec, value: string): string {
    var lowered := c.lower(TrimSpace(value));
    var name := if lowered == "api_key" then "apikey" else lowered;
    match TrimSpace(name)
    case "oauth" => "oauth"
    case "apikey" => "apikey"
    case _ => name
  }

  /** `toUsageEvent`; the key is the inbox row's and the accounting state is set at insertion. */
  function EventFrom(c: Codec, q: QueuedUsage, poppedAt: int): UsageEvent
    requires Complete(q.accounting)
  {
    UsageEvent(
      0, "",
      FirstNonEmpty([q.apiKey, q.provider, q.endpoint, "unknown"]),
      TrimSpace(q.provider),
      AuthTypeOf(c, q.authType),
      FirstNonEmpty([q.model, "unknown"]),
      if q.timestamp.Some? && q.timestamp.value != ZERO_TIME then q.timestamp.value else poppedAt,
      TrimSpace(q.source),
      TrimSpace(q.authIndex),
      q.failed,
      if q.latencyMs < 0 then 0 else q.latencyMs,
      q.ttftMs,
      Absent,
      FactsOf(q.accounting),
      q.accounting.generate,
      q.accounting.stream)
  }

  // What becomes of each field

  /** The envelope carries each bucket of the facts under the bucket's own field, in both versions 2. */
  predicate Carries(a: AccountingFields, f: UsageAccounting, generate: bool, stream: bool) {
    && a.version == Some(2) && a.generate == Some(generate) && a.stream == Some(stream)
    && a.breakdown.Some? && a.breakdown.value.schemaVersion == Some(2)
    && a.breakdown.value.quality == f.quality
    && a.breakdown.value.total == f.total && a.breakdown.value.unclassified == f.unclassified
    && a.breakdown.value.input == Some(TokenInput(
         total := f.input, uncached := f.uncached, cacheRead := f.cacheRead, cacheWrite := f.cacheWrite))
    && a.breakdown.value.output == Some(TokenOutput(
         total := f.output, nonReasoning := f.nonReasoning, reasoning := f.reasoning))
  }

  /** The other fields are taken over, trimmed or plain; blank names fall back, negative latencies to zero, a missing
      time to that of the pop. */
  predicate TakesOver(c: Codec, q: QueuedUsage, poppedAt: int, e: UsageEvent) {
    && e.failed == q.failed && e.ttftMs == q.ttftMs
    && e.generate == q.accounting.generate && e.stream == q.accounting.stream
    && e.source == TrimSpace(q.source) && e.authIndex == TrimSpace(q.authIndex) && e.provider == TrimSpace(q.provider)
    && (q.latencyMs > 0 ==> e.latencyMs == q.latencyMs) && (q.latencyMs <= 0 ==> e.latencyMs == 0)
    && (q.timestamp.None? || q.timestamp.value == -62_135_596_800_000_000_000 ==> e.timestamp == poppedAt)
    && (q.timestamp.Some? && q.timestamp.value != -62_135_596_800_000_000_000 ==> e.timestamp == q.timestamp.value)
  }

  predicate NamesGroup(q: QueuedUsage, group: string) {
    && (TrimSpace(q.apiKey) != "" ==> group == TrimSpace(q.apiKey))
    && (TrimSpace(q.apiKey) == "" && TrimSpace(q.provider) != "" ==> group == TrimSpace(q.provider))
    && (TrimSpace(q.apiKey) == TrimSpace(q.provider) == "" && TrimSpace(q.endpoint) != "" ==>
       group == TrimSpace(q.endpoint))
    && (TrimSpace(q.apiKey) == TrimSpace(q.provider) == TrimSpace(q.endpoint) == "" ==> group == "unknown")
  }

  predicate NamesModel(q: QueuedUsage, model: string) {
    && (TrimSpace(q.model) != "" ==> model == TrimSpace(q.model))
    && (TrimSpace(q.model) == "" ==> model == "unknown")
  }

  /** The two known authentication types by their canonical names, any other as it came, in lower case. */
  predicate NamesAuthType(c: Codec, q: QueuedUsage, authType: string) {
    var lowered := c.lower(TrimSpace(q.authType));
    && (lowered == "api_key" || TrimSpace(lowered) == "apikey" ==> authType == "apikey")
    && (TrimSpace(lowered) == "oauth" ==> authType == "oauth")
    && (lowered != "api_key" && TrimSpace(lowered) !in {"apikey", "oauth"} ==> authType == lowered)
  }

  /** The event is this message's: facts, flags, times and names. */
  predicate IsEventOf(c: Codec, q: QueuedUsage, poppedAt: int, e: UsageEvent) {
    && e.generate.Some? && e.stream.Some? && Carries(q.accounting, e.facts, e.generate.value, e.stream.value)
    && TakesOver(c, q, poppedAt, e)
    && NamesGroup(q, e.apiGroupKey) && NamesModel(q, e.model) && NamesAuthType(c, q, e.authType)
  }

  /** The trimmed value, or else another text. */
  function Or(value: string, other: string): string { if TrimSpace(value) != "" then TrimSpace(value) else other }

  lemma FirstOrRest(value: string, rest: seq<string>)
    ensures FirstNonEmpty([value] + rest) == Or(value, FirstNonEmpty(rest))
  {
    assert ([value] + rest)[1..] == rest;
  }

  lemma FirstOfTwo(a: string, b: string)
    ensures FirstNonEmpty([a, b]) == Or(a, Or(b, FirstNonEmpty([])))
  {
    FirstOrRest(a, [b]);
    FirstOrRest(b, []);
    assert [a, b] == [a] + [b];
  }

  lemma FirstOfFour(a: string, b: string, c: string, d: string)
    ensures FirstNonEmpty([a, b, c, d]) == Or(a, Or(b, Or(c, Or(d, FirstNonEmpty([])))))
  {
    FirstOrRest(a, [b, c, d]);
    FirstOrRest(b, [c, d]);
    FirstOfTwo(c, d);
    assert [a, b, c, d] == [a] + [b, c, d] && [b, c, d] == [b] + [c, d];
  }

  lemma GroupNamed(q: QueuedUsage, unknown: string)
    requires TrimSpace(unknown) == unknown == "unknown"
    ensures NamesGroup(q, FirstNonEmpty([q.apiKey, q.provider, q.endpoint, unknown]))
    ensures NamesModel(q, FirstNonEmpty([q.model, unknown]))
  {
    FirstOfFour(q.apiKey, q.provider, q.endpoint, unknown);
    FirstOfTwo(q.model, unknown);
  }

  lemma AuthTypeNamed(c: Codec, q: QueuedUsage)
    ensures NamesAuthType(c, q, AuthTypeOf(c, q.authType))
  {
    NoEdgeIsTrimmed("apikey", IsSpace);
    NoEdgeIsTrimmed("api_key", IsSpace);
    assert TrimSpace("apikey") == "apikey" && TrimSpace("api_key") == "api_key";
    assert "oauth"[0] != "apikey"[0] && "oauth"[0] != "api_key"[0] && |"apikey"| != |"api_key"|;
  }

  lemma FieldsTakenOver(c: Codec, q: QueuedUsage, poppedAt: int)
    requires Complete(q.accounting)
    ensures TakesOver(c, q, poppedAt, EventFrom(c, q, poppedAt))
  {
  }

  lemma EventIsOfMessage(c: Codec, q: QueuedUsage, poppedAt: int)
    requires Acceptable(q.accounting)
    ensures IsEventOf(c, q, poppedAt, EventFrom(c, q, poppedAt))
  {
    FieldsTakenOver(c, q, poppedAt);
    NoEdgeIsTrimmed("unknown", IsSpace);
    GroupNamed(q, "unknown");
    AuthTypeNamed(c, q);
  }

  /** The event a message stands for, if it has one. */
  function Meaning(c: Codec, message: string, poppedAt: int): Option<UsageEvent> {
    match c.parse(message)
    case None => None
    case Some(q) => if Acceptable(q.accounting) then Some(EventFrom(c, q, poppedAt)) else None
  }

  datatype DecodeError = NotParsed | Refused(error: EnvelopeError)

  datatype DecodeResult = Decoded(event: UsageEvent) | Undecoded(error: DecodeError)

  /** `DecodeRedisUsageMessage`. */
  method DecodeMessage(c: Codec, message: string, poppedAt: int) returns (r: DecodeResult)
    ensures r.Decoded? <==> Meaning(c, message, poppedAt).Some?
    ensures r.Decoded? ==> Some(r.event) == Meaning(c, message, poppedAt)
    ensures r.Decoded? ==> IsEventOf(c, c.parse(message).value, poppedAt, r.event)
    ensures r == Undecoded(NotParsed) <==> c.parse(message).None?
    ensures r == Undecoded(Refused(EnvelopeIncomplete)) ==> !Complete(c.parse(message).value.accounting)
  {
    var parsed := c.parse(message);
    if parsed.None? {
      return Undecoded(NotParsed);
    }
    var err := ValidateQueuedAccounting(parsed.value.accounting);
    if err.Some? {
      return Undecoded(Refused(err.value));
    }
    EventIsOfMessage(c, parsed.value, poppedAt);
    return Decoded(EventFrom(c, parsed.value, poppedAt));
  }

  /** A message decodes to these facts and flags exactly when its envelope carries them, each bucket under its own
      field, and they are a valid breakdown. */
  lemma DecodedIffCarried(c: Codec, message: string, poppedAt: int, f: UsageAccounting, generate: bool, stream: bool)
    ensures var m := Meaning(c, message, poppedAt);
      m.Some? && m.value.facts == f && m.value.generate == Some(generate) && m.value.stream == Some(stream)
      <==> c.parse(message).Some? && Carries(c.parse(message).value.accounting, f, generate, stream) && WellFormed(f)
  {
    if c.parse(message).Some? {
      var q := c.parse(message).value;
      if Acceptable(q.accounting) {
        EventIsOfMessage(c, q, poppedAt);
      }
    }
  }

  /** Every field of the event is the message's own. */
  lemma DecodedIsOfMessage(c: Codec, message: string, poppedAt: int)
    requires Meaning(c, message, poppedAt).Some?
    ensures IsEventOf(c, c.parse(message).value, poppedAt, Meaning(c, message, poppedAt).value)
  {
    EventIsOfMessage(c, c.parse(message).value, poppedAt);
  }

  /** The envelope that carries some facts. */
  function Envelope(f: UsageAccounting, generate: bool, stream: bool): (a: AccountingFields)
    ensures Carries(a, f, generate, stream)
  {
    AccountingFields(Some(2), Some(TokenBreakdown(Some(2), f.quality, f.total,
                                                  Some(TokenInput(f.input, f.uncached, f.cacheRead, f.cacheWrite)),
                                                  Some(TokenOutput(f.output, f.nonReasoning, f.reasoning)),
                                                  f.unclassified)), Some(generate), Some(stream))
  }

  /** Round trip: every valid breakdown put into an envelope is read back from the message as it was. */
  lemma EnvelopeRoundTrip(c: Codec, message: string, poppedAt: int, f: UsageAccounting, generate: bool, stream: bool)
    requires WellFormed(f) && c.parse(message).Some?
    requires c.parse(message).value.accounting == Envelope(f, generate, stream)
    ensures var m := Meaning(c, message, poppedAt);
      m.Some? && m.value.facts == f && m.value.generate == Some(generate) && m.value.stream == Some(stream)
  {
    DecodedIffCarried(c, message, poppedAt, f, generate, stream);
  }

  lemma {:induction false} FirstNonEmptyIsTrimmed(values: seq<string>)
    requires "unknown" in values
    ensures var r := FirstNonEmpty(values); r != "" && TrimSpace(r) == r
  {
    NoEdgeIsTrimmed("unknown", IsSpace);
    TrimIdempotent(values[0]);
    if TrimSpace(values[0]) == "" {
      assert values == [values[0]] + values[1..];
      FirstNonEmptyIsTrimmed(values[1..]);
    }
  }

  /** What decoding guarantees of an event: validated accounting facts and trimmed dimensions, with a group and
      a model that are never blank. */
  predicate Projected(e: UsageEvent) {
    && WellFormed(e.facts) && e.generate.Some? && e.stream.Some? && 0 <= e.latencyMs
    && TrimSpace(e.provider) == e.provider && TrimSpace(e.source) == e.source && TrimSpace(e.authIndex) == e.authIndex
    && TrimSpace(e.model) == e.model != "" && TrimSpace(e.apiGroupKey) == e.apiGroupKey != ""
  }

  lemma MeaningIsProjected(c: Codec, message: string, poppedAt: int)
    requires Meaning(c, message, poppedAt).Some?
    ensures Projected(Meaning(c, message, poppedAt).value)
  {
    var q := c.parse(message).value;
    TrimIdempotent(q.provider);
    TrimIdempotent(q.source);
    TrimIdempotent(q.authIndex);
    FirstNonEmptyIsTrimmed([q.apiKey, q.provider, q.endpoint, "unknown"]);
    FirstNonEmptyIsTrimmed([q.model, "unknown"]);
  }

  // The replay-safe projection

  /** `compactQueuedUsageDetail`. */
  function Compact(q: QueuedUsage): QueuedUsage {
    q.(timestamp := if q.timestamp == Some(ZERO_TIME) then None else q.timestamp,
       source := TrimSpace(q.source), authIndex := TrimSpace(q.authIndex), provider := TrimSpace(q.provider),
       model := TrimSpace(q.model), endpoint := TrimSpace(q.endpoint), authType := TrimSpace(q.authType),
       apiKey := TrimSpace(q.apiKey))
  }

  /** `replaySafeRedisUsageMessage`; `None` when the projection cannot be rendered. */
  function ReplaySafe(c: Codec, message: string): Option<string> {
    match c.parse(message)
    case None => Some(c.redact(message))
    case Some(q) => if Acceptable(q.accounting) then c.render(Compact(q)) else Some(c.redact(message))
  }

  predicate SameTexts(k: QueuedUsage, q: QueuedUsage) {
    && TrimSpace(k.source) == TrimSpace(q.source) && TrimSpace(k.authIndex) == TrimSpace(q.authIndex)
    && TrimSpace(k.provider) == TrimSpace(q.provider) && TrimSpace(k.model) == TrimSpace(q.model)
    && TrimSpace(k.endpoint) == TrimSpace(q.endpoint) && TrimSpace(k.authType) == TrimSpace(q.authType)
    && TrimSpace(k.apiKey) == TrimSpace(q.apiKey)
  }

  lemma CompactKeepsTexts(q: QueuedUsage)
    ensures SameTexts(Compact(q), q)
  {
    TrimIdempotent(q.source);
    TrimIdempotent(q.authIndex);
    TrimIdempotent(q.provider);
    TrimIdempotent(q.model);
    TrimIdempotent(q.endpoint);
    TrimIdempotent(q.authType);
    TrimIdempotent(q.apiKey);
  }

  lemma SameTextsSameNames(k: QueuedUsage, q: QueuedUsage, unknown: string)
    requires SameTexts(k, q)
    ensures FirstNonEmpty([k.apiKey, k.provider, k.endpoint, unknown])
      == FirstNonEmpty([q.apiKey, q.provider, q.endpoint, unknown])
    ensures FirstNonEmpty([k.model, unknown]) == FirstNonEmpty([q.model, unknown])
  {
    FirstOfFour(k.apiKey, k.provider, k.endpoint, unknown);
    FirstOfFour(q.apiKey, q.provider, q.endpoint, unknown);
    FirstOfTwo(k.model, unknown);
    FirstOfTwo(q.model, unknown);
  }

  lemma CompactKeepsEvent(c: Codec, q: QueuedUsage, poppedAt: int)
    requires Complete(q.accounting)
    ensures EventFrom(c, Compact(q), poppedAt) == EventFrom(c, q, poppedAt)
  {
    CompactKeepsTexts(q);
    SameTextsSameNames(Compact(q), q, "unknown");
    SameAuthType(c, Compact(q).authType, q.authType);
  }

  lemma SameAuthType(c: Codec, a: string, b: string)
    requires TrimSpace(a) == TrimSpace(b)
    ensures AuthTypeOf(c, a) == AuthTypeOf(c, b)
  {
  }

  /** What is stored decodes exactly as what was popped, and is undecodable exactly when that was. */
  lemma ReplayIsFaithful(c: Codec, message: string, poppedAt: int)
    requires Faithful(c) && ReplaySafe(c, message).Some?
    ensures Meaning(c, ReplaySafe(c, message).value, poppedAt) == Meaning(c, message, poppedAt)
  {
    match c.parse(message)
    case None =>
    case Some(q) =>
      if Acceptable(q.accounting) {
        CompactKeepsEvent(c, q, poppedAt);
      }
  }

  /** Nothing of a message is stored but its fields: a message that stands for no event is replaced by its digest, and
      two
      messages with the same fields are stored alike. */
  lemma OnlyFieldsAreStored(c: Codec, a: string, b: string, poppedAt: int)
    ensures Meaning(c, a, poppedAt).None? ==> ReplaySafe(c, a) == Some(c.redact(a))
    ensures Meaning(c, a, poppedAt).Some? && c.parse(a) == c.parse(b) ==> ReplaySafe(c, a) == ReplaySafe(c, b)
  {
  }

  /** The texts are stored trimmed, a zero time as none; everything else as it was. */
  predicate StoredAs(k: QueuedUsage, q: QueuedUsage) {
    && k.accounting == q.accounting && k.latencyMs == q.latencyMs && k.ttftMs == q.ttftMs && k.failed == q.failed
    && k.source == TrimSpace(q.source) && k.authIndex == TrimSpace(q.authIndex) && k.provider == TrimSpace(q.provider)
    && k.model == TrimSpace(q.model) && k.endpoint == TrimSpace(q.endpoint) && k.authType == TrimSpace(q.authType)
    && k.apiKey == TrimSpace(q.apiKey)
    && k.timestamp == if q.timestamp == Some(-62_135_596_800_000_000_000) then None else q.timestamp
  }

  lemma CompactIsStored(q: QueuedUsage)
    ensures StoredAs(Compact(q), q)
  {
  }

  lemma StoredFields(c: Codec, message: string, poppedAt: int)
    requires Faithful(c) && Meaning(c, message, poppedAt).Some? && ReplaySafe(c, message).Some?
    ensures var stored := c.parse(ReplaySafe(c, message).value);
      stored.Some? && StoredAs(stored.value, c.parse(message).value)
  {
    CompactIsStored(c.parse(message).value);
  }

  /** Projecting a stored message once more leaves it decoding to the same event. */
  lemma CompactIdempotent(q: QueuedUsage)
    ensures Compact(Compact(q)) == Compact(q)
  {
    TrimIdempotent(q.source);
    TrimIdempotent(q.authIndex);
    TrimIdempotent(q.provider);
    TrimIdempotent(q.model);
    TrimIdempotent(q.endpoint);
    TrimIdempotent(q.authType);
    TrimIdempotent(q.apiKey);
  }

  lemma ReplayIsStable(c: Codec, message: string)
    requires Faithful(c) && c.parse(message).Some? && Acceptable(c.parse(message).value.accounting)
    requires ReplaySafe(c, message).Some?
    ensures ReplaySafe(c, ReplaySafe(c, message).value) == ReplaySafe(c, message)
  {
    CompactIdempotent(c.parse(message).value);
  }

  // The decoding of the intake

  function IntakeDecoding(c: Codec): Decoding {
    Decoding(
      (message: string) => ReplaySafe(c, message),
      (message: string, poppedAt: int) => Meaning(c, message, poppedAt),
      InboxKey)
  }

  lemma IntakeKeysAreDistinct(c: Codec)
    ensures DistinctKeys(IntakeDecoding(c))
  {
    InboxKeysAreDistinct(IntakeDecoding(c));
  }

  /** A pulled message is decoded as it was queued, although only its projection is stored. */
  lemma PulledRowDecodesAsQueued(c: Codec, p: Intake, messages: seq<string>, now: int, k: nat)
    requires Faithful(c) && k < |messages| && AllSafe(IntakeDecoding(c), messages)
    ensures var d, rows := IntakeDecoding(c), Pulled(IntakeDecoding(c), p, messages, now, true).rows;
      |rows| == |p.rows| + |messages|
        && DecodeRow(d, rows[|p.rows| + k]) == EventOf(d, p.nextId + k, messages[k], Some(now))
  {
    assert messages[k] in messages;
    ReplayIsFaithful(c, messages[k], now);
  }
}
