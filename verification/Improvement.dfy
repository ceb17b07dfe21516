/** Correction metadata carried by a D-Mail (internal/domain/improvement.go): the
    reader, the writer, the history syntax and the inbox filters. */
module Improvement {
  import opened Text

  const SCHEMA_VERSION := "1"

  /** The twenty keys that carry correction metadata. */
  datatype Field =
    | SchemaVersionKey | FailureTypeKey | SeverityKey | SecondaryTypeKey | TargetAgentKey
    | RoutingModeKey | RoutingHistoryKey | OwnerHistoryKey | RecurrenceCountKey
    | CorrectiveActionKey | RetryAllowedKey | EscalationReasonKey | CorrelationIDKey
    | TraceIDKey | ProviderStateKey | ProviderReasonKey | ProviderRetryBudgetKey
    | ProviderResumeAtKey | ProviderResumeWhenKey | OutcomeKey

  /** A metadata key: one of those, or any other name. */
  datatype MetaKey = Known(field: Field) | Other(name: string)

  type Meta = map<MetaKey, string>

  datatype CorrectionMetadata = CorrectionMetadata(
    schemaVersion: string,
    failureType: string,
    severity: string,
    secondaryType: string,
    targetAgent: string,
    routingMode: string,
    routingHistory: seq<string>,
    ownerHistory: seq<string>,
    recurrenceCount: int,
    correctiveAction: string,
    retryAllowed: Option<bool>,
    escalationReason: string,
    correlationID: string,
    traceID: string,
    providerState: string,
    providerReason: string,
    providerRetryBudget: int,
    providerResumeAt: string,
    providerResumeWhen: string,
    outcome: string)

  // ---------------------------------------------------------------- vocabulary

  /** The shape shared by the four normalisers: a known word in any case becomes its
      lower-case form, everything else is kept. */
  function NormalizeWord(s: string, known: seq<string>): string {
    if Lower(s) in known then Lower(s) else s
  }

  function NormalizeSeverity(s: string): string {
    NormalizeWord(s, ["low", "medium", "high"])
  }

  function NormalizeRoutingMode(s: string): string {
    NormalizeWord(s, ["retry", "reroute", "escalate"])
  }

  function NormalizeOutcome(s: string): string {
    NormalizeWord(s, ["pending", "resolved", "escalated", "failed_again", "ignored"])
  }

  function NormalizeProviderState(s: string): string {
    NormalizeWord(s, ["active", "waiting", "degraded", "paused"])
  }

  lemma NormalizeWordIdempotent(s: string, known: seq<string>)
    ensures NormalizeWord(NormalizeWord(s, known), known) == NormalizeWord(s, known)
  {
    LowerIdempotent(s);
  }

  // ------------------------------------------------------------------ histories

  function AppendHistory(history: seq<string>, value: string): seq<string> {
    var v := TrimSpace(value);
    if v == "" then history
    else if |history| > 0 && history[|history| - 1] == v then history
    else history + [v]
  }

  function NormalizeHistory(values: seq<string>): (out: seq<string>)
    ensures Normalized(out)
  {
    if values == [] then []
    else AppendHistory(NormalizeHistory(values[..|values| - 1]), values[|values| - 1])
  }

  /** Every entry trimmed and non-empty, no entry repeated next to itself. */
  predicate Normalized(h: seq<string>) {
    && (forall i :: 0 <= i < |h| ==> h[i] != "" && Trimmed(h[i]))
    && (forall i :: 0 < i < |h| ==> h[i - 1] != h[i])
  }

  function FormatHistory(values: seq<string>): string {
    if values == [] then "" else Join(NormalizeHistory(values), '>')
  }

  function Delimiter(raw: string): char {
    if '>' !in raw && ',' in raw then ',' else '>'
  }

  function ParseHistory(raw: string): seq<string> {
    var t := TrimSpace(raw);
    if t == "" then [] else NormalizeHistory(Split(t, Delimiter(t)))
  }

  /** The loop of normalizeImprovementHistory. */
  method NormalizeImprovementHistory(values: seq<string>) returns (out: seq<string>)
    ensures out == NormalizeHistory(values)
  {
    out := [];
    for i := 0 to |values|
      invariant out == NormalizeHistory(values[..i])
    {
      assert values[..i + 1][..i] == values[..i];
      out := AppendHistory(out, values[i]);
    }
    assert values[..|values|] == values;
  }

  lemma TrimIsIdentity(s: string)
    requires Trimmed(s)
    ensures TrimSpace(s) == s
  {
  }

  /** The loop of parseImprovementHistory, which trims each part and skips the blank ones. */
  method ParseImprovementHistory(raw0: string) returns (out: seq<string>)
    ensures out == ParseHistory(raw0)
  {
    var raw := TrimSpace(raw0);
    if raw == "" { return []; }
    var delimiter := '>';
    if '>' !in raw && ',' in raw { delimiter := ','; }
    var parts := Split(raw, delimiter);
    out := [];
    for i := 0 to |parts|
      invariant out == NormalizeHistory(parts[..i])
    {
      assert parts[..i + 1][..i] == parts[..i];
      var part := TrimSpace(parts[i]);
      TrimIsIdentity(part);
      if part != "" {
        out := AppendHistory(out, part);
      }
    }
    assert parts[..|parts|] == parts;
  }

  lemma {:induction false} NormalizeKeepsNormalized(h: seq<string>)
    requires Normalized(h)
    ensures NormalizeHistory(h) == h
  {
    if h != [] {
      var front, last := h[..|h| - 1], h[|h| - 1];
      NormalizeKeepsNormalized(front);
      TrimIsIdentity(last);
      assert h == front + [last];
    }
  }

  /** The trimmed entries that are not blank. */
  function NonBlank(values: seq<string>): seq<string> {
    if values == [] then []
    else (if Blank(values[0]) then [] else [TrimSpace(values[0])]) + NonBlank(values[1..])
  }

  /** One entry for each run of equal neighbours. */
  function Squeeze(values: seq<string>): seq<string> {
    if |values| <= 1 then values
    else (if values[0] == values[1] then [] else [values[0]]) + Squeeze(values[1..])
  }

  lemma {:induction false} NonBlankNext(values: seq<string>, value: string)
    ensures NonBlank(values + [value]) == NonBlank(values) + if Blank(value) then [] else [TrimSpace(value)]
  {
    if values == [] {
      assert values + [value] == [value];
    } else {
      assert (values + [value])[1..] == values[1..] + [value];
      NonBlankNext(values[1..], value);
    }
  }

  lemma {:induction false} SqueezeNext(values: seq<string>, value: string)
    ensures Squeeze(values + [value]) ==
            if values != [] && values[|values| - 1] == value then Squeeze(values) else Squeeze(values) + [value]
    ensures values != [] ==> Squeeze(values) != [] && Squeeze(values)[|Squeeze(values)| - 1] == values[|values| - 1]
  {
    var all := values + [value];
    if |values| == 1 {
      assert all[1..] == [value];
    } else if |values| > 1 {
      assert all[1..] == values[1..] + [value];
      SqueezeNext(values[1..], value);
    }
  }

  lemma AppendIs(history: seq<string>, value: string)
    ensures AppendHistory(history, value) ==
            if Blank(value) || (history != [] && history[|history| - 1] == TrimSpace(value)) then history
            else history + [TrimSpace(value)]
  {
    TrimExact(value);
    hide TrimSpace, Blank;
  }

  /** Normalising trims every entry, drops the blank ones and then keeps one entry of each
      run of equal neighbours. */
  lemma {:induction false} NormalizeExact(values: seq<string>)
    ensures NormalizeHistory(values) == Squeeze(NonBlank(values))
  {
    if values != [] {
      var front, last := values[..|values| - 1], values[|values| - 1];
      NormalizeExact(front);
      assert values == front + [last];
      NormalizeStep(NonBlank(front), last);
      NonBlankNext(front, last);
    }
  }

  lemma NormalizeStep(kept: seq<string>, last: string)
    ensures AppendHistory(Squeeze(kept), last) == Squeeze(kept + if Blank(last) then [] else [TrimSpace(last)])
  {
    AppendIs(Squeeze(kept), last);
    SqueezeNext(kept, TrimSpace(last));
    hide AppendHistory, TrimSpace, Blank;
    if Blank(last) { assert kept + [] == kept; }
  }

  /** Normalising never introduces a character. */
  lemma {:induction false} NormalizeAvoids(values: seq<string>, c: char)
    requires forall i :: 0 <= i < |values| ==> c !in values[i]
    ensures forall i :: 0 <= i < |NormalizeHistory(values)| ==> c !in NormalizeHistory(values)[i]
  {
    if values != [] {
      NormalizeAvoids(values[..|values| - 1], c);
    }
  }

  /** A history survives the text form exactly when, once normalised, no entry holds
      the delimiter and a lone entry holds no comma (the legacy delimiter). */
  predicate HistoryReadable(values: seq<string>) {
    var n := NormalizeHistory(values);
    && (forall i :: 0 <= i < |n| ==> '>' !in n[i])
    && (|n| == 1 ==> ',' !in n[0])
  }

  lemma HistoryRoundTrip(values: seq<string>)
    ensures ParseHistory(FormatHistory(values)) == NormalizeHistory(values) <==> HistoryReadable(values)
  {
    var n := NormalizeHistory(values);
    if n != [] {
      var raw := Join(n, '>');
      JoinShape(n, '>');
      TrimIsIdentity(raw);
      if HistoryReadable(values) {
        SplitJoin(n, '>');
        if |n| == 1 {
          assert raw == n[0];
        }
        NormalizeKeepsNormalized(n);
      } else {
        NormalizeAvoids(Split(raw, Delimiter(raw)), Delimiter(raw));
        if i :| 0 <= i < |n| && '>' in n[i] {
          JoinHolds(n, '>', i);
        }
      }
    }
  }

  lemma {:induction false} JoinHolds(parts: seq<string>, sep: char, i: nat)
    requires i < |parts|
    ensures forall c :: c in parts[i] ==> c in Join(parts, sep)
  {
    if |parts| > 1 {
      if i > 0 {
        JoinHolds(parts[1..], sep, i - 1);
        assert parts[1..][i - 1] == parts[i];
      }
    }
  }

  // ------------------------------------------------------------ reader and writer

  function Get(meta: Meta, f: Field): string {
    if Known(f) in meta then meta[Known(f)] else ""
  }

  function ReadInt(raw: string): int {
    match Atoi(raw) case Some(v) => v case None => 0
  }

  const EMPTY := CorrectionMetadata("", "", "", "", "", "", [], [], 0, "", None, "", "", "", "", "", 0, "", "", "")

  function FromMap(meta: Meta): CorrectionMetadata {
    if |meta| == 0 then EMPTY
    else
      CorrectionMetadata(
        Get(meta, SchemaVersionKey),
        Get(meta, FailureTypeKey),
        NormalizeSeverity(Get(meta, SeverityKey)),
        Get(meta, SecondaryTypeKey),
        Get(meta, TargetAgentKey),
        NormalizeRoutingMode(Get(meta, RoutingModeKey)),
        ParseHistory(Get(meta, RoutingHistoryKey)),
        ParseHistory(Get(meta, OwnerHistoryKey)),
        ReadInt(Get(meta, RecurrenceCountKey)),
        Get(meta, CorrectiveActionKey),
        ParseBool(Get(meta, RetryAllowedKey)),
        Get(meta, EscalationReasonKey),
        Get(meta, CorrelationIDKey),
        Get(meta, TraceIDKey),
        NormalizeProviderState(Get(meta, ProviderStateKey)),
        Get(meta, ProviderReasonKey),
        ReadInt(Get(meta, ProviderRetryBudgetKey)),
        Get(meta, ProviderResumeAtKey),
        Get(meta, ProviderResumeWhenKey),
        NormalizeOutcome(Get(meta, OutcomeKey)))
  }

  function NonEmpty(s: string): Option<string> {
    if s != "" then Some(s) else None
  }

  predicate HasProvider(m: CorrectionMetadata) {
    || m.providerState != "" || m.providerReason != "" || m.providerRetryBudget != 0
    || m.providerResumeAt != "" || m.providerResumeWhen != ""
  }

  /** What the writer puts under an improvement key, if anything. */
  function Rendered(m: CorrectionMetadata, k: Field): Option<string> {
    match k
    case SchemaVersionKey => Some(if m.schemaVersion == "" then SCHEMA_VERSION else m.schemaVersion)
    case FailureTypeKey => NonEmpty(m.failureType)
    case SeverityKey => if m.severity != "" then Some(NormalizeSeverity(m.severity)) else None
    case SecondaryTypeKey => NonEmpty(m.secondaryType)
    case TargetAgentKey => NonEmpty(m.targetAgent)
    case RoutingModeKey => if m.routingMode != "" then Some(NormalizeRoutingMode(m.routingMode)) else None
    case RoutingHistoryKey => if |m.routingHistory| > 0 then Some(FormatHistory(m.routingHistory)) else None
    case OwnerHistoryKey => if |m.ownerHistory| > 0 then Some(FormatHistory(m.ownerHistory)) else None
    case RecurrenceCountKey => if m.recurrenceCount > 0 then Some(Itoa(m.recurrenceCount)) else None
    case CorrectiveActionKey => NonEmpty(m.correctiveAction)
    case RetryAllowedKey => (match m.retryAllowed case Some(b) => Some(FormatBool(b)) case None => None)
    case EscalationReasonKey => NonEmpty(m.escalationReason)
    case CorrelationIDKey => NonEmpty(m.correlationID)
    case TraceIDKey => NonEmpty(m.traceID)
    case ProviderStateKey => if m.providerState != "" then Some(NormalizeProviderState(m.providerState)) else None
    case ProviderReasonKey => NonEmpty(m.providerReason)
    case ProviderRetryBudgetKey => if HasProvider(m) then Some(Itoa(m.providerRetryBudget)) else None
    case ProviderResumeAtKey => NonEmpty(m.providerResumeAt)
    case ProviderResumeWhenKey => NonEmpty(m.providerResumeWhen)
    case OutcomeKey => NonEmpty(m.outcome)
  }

  /** Apply: a copy of the map with every set field written under its key. */
  function Applied(m: CorrectionMetadata, meta: Meta): Meta {
    meta + map f: Field | Rendered(m, f).Some? :: Known(f) := Rendered(m, f).value
  }

  // ------------------------------------------------------- which key is which field

  datatype FieldValue = Word(word: string) | Words(words: seq<string>) | Count(count: int) | Flag(flag: Option<bool>)

  /** The field of a record that belongs to a key. */
  function ValueOf(m: CorrectionMetadata, f: Field): FieldValue {
    match f
    case SchemaVersionKey => Word(m.schemaVersion)
    case FailureTypeKey => Word(m.failureType)
    case SeverityKey => Word(m.severity)
    case SecondaryTypeKey => Word(m.secondaryType)
    case TargetAgentKey => Word(m.targetAgent)
    case RoutingModeKey => Word(m.routingMode)
    case RoutingHistoryKey => Words(m.routingHistory)
    case OwnerHistoryKey => Words(m.ownerHistory)
    case RecurrenceCountKey => Count(m.recurrenceCount)
    case CorrectiveActionKey => Word(m.correctiveAction)
    case RetryAllowedKey => Flag(m.retryAllowed)
    case EscalationReasonKey => Word(m.escalationReason)
    case CorrelationIDKey => Word(m.correlationID)
    case TraceIDKey => Word(m.traceID)
    case ProviderStateKey => Word(m.providerState)
    case ProviderReasonKey => Word(m.providerReason)
    case ProviderRetryBudgetKey => Count(m.providerRetryBudget)
    case ProviderResumeAtKey => Word(m.providerResumeAt)
    case ProviderResumeWhenKey => Word(m.providerResumeWhen)
    case OutcomeKey => Word(m.outcome)
  }

  /** The words a key reads in any case. */
  function Vocabulary(f: Field): set<string> {
    match f
    case SeverityKey => {"low", "medium", "high"}
    case RoutingModeKey => {"retry", "reroute", "escalate"}
    case ProviderStateKey => {"active", "waiting", "degraded", "paused"}
    case OutcomeKey => {"pending", "resolved", "escalated", "failed_again", "ignored"}
    case _ => {}
  }

  function InVocabulary(f: Field, word: string): string {
    if Lower(word) in Vocabulary(f) then Lower(word) else word
  }

  /** What a text means under a key; the missing key reads as the empty text. */
  function Meaning(f: Field, text: string): FieldValue {
    match f
    case RoutingHistoryKey => Words(PathMeaning(text))
    case OwnerHistoryKey => Words(PathMeaning(text))
    case RecurrenceCountKey => Count(if Atoi(text).Some? then Atoi(text).value else 0)
    case ProviderRetryBudgetKey => Count(if Atoi(text).Some? then Atoi(text).value else 0)
    case RetryAllowedKey => Flag(ParseBool(text))
    case _ => Word(InVocabulary(f, text))
  }

  function PathMeaning(text: string): seq<string> {
    Squeeze(NonBlank(Split(TrimSpace(text), if '>' !in text && ',' in text then ',' else '>')))
  }

  lemma ParseMeaning(text: string)
    ensures ParseHistory(text) == PathMeaning(text)
  {
    var t := TrimSpace(text);
    TrimKeepsMarks(text, '>');
    TrimKeepsMarks(text, ',');
    NormalizeExact(Split(t, Delimiter(t)));
    if t == "" {
      assert Split(t, Delimiter(t)) == [""];
      assert Blank("") && NonBlank([""]) == [];
    }
  }

  lemma TrimKeepsMarks(text: string, c: char)
    requires !IsSpace(c)
    ensures c in TrimSpace(text) <==> c in text
  {
    TrimExact(text);
    var a, b :| text == a + TrimSpace(text) + b && Blank(a) && Blank(b);
    assert c !in a && c !in b;
  }

  /** Each field is read from its own key, and a map without entries reads like one with
      other keys only. */
  lemma ReadsOwnKey(meta: Meta, f: Field)
    ensures ValueOf(FromMap(meta), f) == Meaning(f, if Known(f) in meta then meta[Known(f)] else "")
  {
    hide ParseHistory, PathMeaning, ParseBool, Atoi, FromMap, InVocabulary, Meaning, ValueOf;
    if |meta| == 0 { NothingRead(f); } else { ReadsKey(meta, f); }
  }

  lemma NothingRead(f: Field)
    ensures ValueOf(EMPTY, f) == Meaning(f, "") && FromMap(map[]) == EMPTY
  {
    hide ParseHistory, PathMeaning, ParseBool, Lower, Atoi;
    MissingMeaning();
    ParseMeaning("");
  }

  lemma ReadsKey(meta: Meta, f: Field)
    requires |meta| > 0
    ensures ValueOf(FromMap(meta), f) == Meaning(f, Get(meta, f))
  {
    hide ParseHistory, PathMeaning, ParseBool, Lower, Atoi;
    ParseMeaning(Get(meta, f));
  }

  lemma MissingMeaning()
    ensures ParseHistory("") == [] && ParseBool("") == None && Atoi("") == None && Lower("") == ""
  {
  }

  /** Fields that Apply writes: the version always, the retry budget with any provider field,
      the others when they are set. */
  predicate Written(m: CorrectionMetadata, f: Field) {
    match f
    case SchemaVersionKey => true
    case ProviderRetryBudgetKey => exists g :: g in PROVIDER_KEYS && IsSet(ValueOf(m, g))
    case _ => IsSet(ValueOf(m, f))
  }

  const PROVIDER_KEYS := {ProviderStateKey, ProviderReasonKey, ProviderRetryBudgetKey, ProviderResumeAtKey,
                          ProviderResumeWhenKey}

  predicate IsSet(v: FieldValue) {
    match v
    case Word(w) => w != ""
    case Words(ws) => ws != []
    case Count(n) => n != 0
    case Flag(b) => b.Some?
  }

  /** The text of a field under its key: words of the vocabulary in lower case, except that
      the outcome is written as it is. */
  function TextOf(f: Field, v: FieldValue): string {
    match v
    case Word(w) =>
      if f == SchemaVersionKey && w == "" then "1" else if f == OutcomeKey then w else InVocabulary(f, w)
    case Words(ws) => Join(NormalizeHistory(ws), '>')
    case Count(n) => Itoa(n)
    case Flag(b) => if b == Some(true) then "true" else if b == Some(false) then "false" else ""
  }

  /** Written, save that a count that is not positive is left out under the recurrence key. */
  predicate Rendering(m: CorrectionMetadata, f: Field) {
    Written(m, f) && (f == RecurrenceCountKey ==> m.recurrenceCount > 0)
  }

  lemma RenderedExact(m: CorrectionMetadata, f: Field)
    ensures Rendered(m, f).Some? <==> Rendering(m, f)
    ensures Rendering(m, f) ==> Rendered(m, f).value == TextOf(f, ValueOf(m, f))
  {
    hide NormalizeHistory, Join, Itoa, Lower;
    if f == ProviderRetryBudgetKey { BudgetWritten(m); }
  }

  lemma BudgetWritten(m: CorrectionMetadata)
    ensures Written(m, ProviderRetryBudgetKey) <==> HasProvider(m)
  {
    if HasProvider(m) {
      var keys := [ProviderStateKey, ProviderReasonKey, ProviderRetryBudgetKey, ProviderResumeAtKey,
                   ProviderResumeWhenKey];
      assert exists i :: 0 <= i < |keys| && keys[i] in PROVIDER_KEYS && IsSet(ValueOf(m, keys[i])) by {
        assert IsSet(ValueOf(m, keys[0])) || IsSet(ValueOf(m, keys[1])) || IsSet(ValueOf(m, keys[2]))
            || IsSet(ValueOf(m, keys[3])) || IsSet(ValueOf(m, keys[4]));
      }
    }
  }

  /** Apply writes each set field under its own key, in its own text form, and leaves every
      other entry of the map alone. */
  lemma WritesOwnKey(m: CorrectionMetadata, meta: Meta, k: MetaKey)
    ensures var r := Applied(m, meta);
            var written := k.Known? && Rendering(m, k.field);
            && (k in r <==> k in meta || written)
            && (k in r && !written ==> r[k] == meta[k])
            && (written ==> r[k] == TextOf(k.field, ValueOf(m, k.field)))
  {
    hide Rendered, TextOf, Rendering, ValueOf;
    if k.Known? { RenderedExact(m, k.field); }
  }

  predicate Plain(meta: Meta) {
    forall f: Field :: Known(f) !in meta
  }

  /** The normal form of a record: default version, known words in lower case,
      histories normalised. */
  function Normal(m: CorrectionMetadata): CorrectionMetadata {
    m.(schemaVersion := if m.schemaVersion == "" then SCHEMA_VERSION else m.schemaVersion,
       severity := NormalizeSeverity(m.severity),
       routingMode := NormalizeRoutingMode(m.routingMode),
       routingHistory := NormalizeHistory(m.routingHistory),
       ownerHistory := NormalizeHistory(m.ownerHistory),
       providerState := NormalizeProviderState(m.providerState),
       outcome := NormalizeOutcome(m.outcome))
  }

  predicate Readable(m: CorrectionMetadata) {
    m.recurrenceCount >= 0 && HistoryReadable(m.routingHistory) && HistoryReadable(m.ownerHistory)
  }

  function OrEmpty(o: Option<string>): string {
    match o case Some(v) => v case None => ""
  }

  lemma GetApplied(m: CorrectionMetadata, meta: Meta, k: Field)
    requires Plain(meta)
    ensures Get(Applied(m, meta), k) == OrEmpty(Rendered(m, k))
  {
  }

  /** The record the reader builds from what Apply rendered. */
  function ReadBack(m: CorrectionMetadata): CorrectionMetadata {
    CorrectionMetadata(
      OrEmpty(Rendered(m, SchemaVersionKey)),
      OrEmpty(Rendered(m, FailureTypeKey)),
      NormalizeSeverity(OrEmpty(Rendered(m, SeverityKey))),
      OrEmpty(Rendered(m, SecondaryTypeKey)),
      OrEmpty(Rendered(m, TargetAgentKey)),
      NormalizeRoutingMode(OrEmpty(Rendered(m, RoutingModeKey))),
      ParseHistory(OrEmpty(Rendered(m, RoutingHistoryKey))),
      ParseHistory(OrEmpty(Rendered(m, OwnerHistoryKey))),
      ReadInt(OrEmpty(Rendered(m, RecurrenceCountKey))),
      OrEmpty(Rendered(m, CorrectiveActionKey)),
      ParseBool(OrEmpty(Rendered(m, RetryAllowedKey))),
      OrEmpty(Rendered(m, EscalationReasonKey)),
      OrEmpty(Rendered(m, CorrelationIDKey)),
      OrEmpty(Rendered(m, TraceIDKey)),
      NormalizeProviderState(OrEmpty(Rendered(m, ProviderStateKey))),
      OrEmpty(Rendered(m, ProviderReasonKey)),
      ReadInt(OrEmpty(Rendered(m, ProviderRetryBudgetKey))),
      OrEmpty(Rendered(m, ProviderResumeAtKey)),
      OrEmpty(Rendered(m, ProviderResumeWhenKey)),
      NormalizeOutcome(OrEmpty(Rendered(m, OutcomeKey))))
  }

  lemma FromApplied(m: CorrectionMetadata, meta: Meta)
    requires Plain(meta)
    ensures FromMap(Applied(m, meta)) == ReadBack(m)
  {
    var cp := Applied(m, meta);
    assert Rendered(m, SchemaVersionKey).Some?;
    assert Known(SchemaVersionKey) in cp;
    forall k: Field
      ensures Get(cp, k) == OrEmpty(Rendered(m, k))
    {
      GetApplied(m, meta, k);
    }
  }

  /** Reading back what Apply wrote gives the normal form of the record, and it does so
      exactly for the readable records. */
  lemma MetadataRoundTrip(m: CorrectionMetadata, meta: Meta)
    requires Plain(meta)
    ensures FromMap(Applied(m, meta)) == Normal(m) <==> Readable(m)
  {
    hide FormatHistory, ParseHistory, NormalizeHistory, HistoryReadable, Applied, FromMap, ReadBack, Normal;
    FromApplied(m, meta);
    ReadBackIs(m);
    HistoryReadBack(m.routingHistory);
    HistoryReadBack(m.ownerHistory);
    NormalFields(m);
  }

  lemma NormalFields(m: CorrectionMetadata)
    ensures var n := Normal(m);
            && n.routingHistory == NormalizeHistory(m.routingHistory)
            && n.ownerHistory == NormalizeHistory(m.ownerHistory)
            && n.recurrenceCount == m.recurrenceCount
  {
  }

  /** The text of a history, if it is written at all. */
  function HistoryText(h: seq<string>): string { if |h| > 0 then FormatHistory(h) else "" }

  /** Only histories and negative counts can come back different from the normal form. */
  lemma ReadBackIs(m: CorrectionMetadata)
    ensures ReadBack(m) == Normal(m).(
              routingHistory := ParseHistory(HistoryText(m.routingHistory)),
              ownerHistory := ParseHistory(HistoryText(m.ownerHistory)),
              recurrenceCount := if m.recurrenceCount > 0 then m.recurrenceCount else 0)
  {
    hide FormatHistory, NormalizeWord, Itoa, FormatBool, ParseHistory, NormalizeHistory, ParseBool, ReadInt;
    WordsReadBack(m);
    CountsReadBack(m);
    FlagReadBack(m);
  }

  lemma FlagReadBack(m: CorrectionMetadata)
    ensures ParseBool(OrEmpty(Rendered(m, RetryAllowedKey))) == m.retryAllowed
  {
  }

  lemma WordsReadBack(m: CorrectionMetadata)
    ensures NormalizeSeverity(OrEmpty(Rendered(m, SeverityKey))) == NormalizeSeverity(m.severity)
    ensures NormalizeRoutingMode(OrEmpty(Rendered(m, RoutingModeKey))) == NormalizeRoutingMode(m.routingMode)
    ensures NormalizeProviderState(OrEmpty(Rendered(m, ProviderStateKey))) == NormalizeProviderState(m.providerState)
    ensures NormalizeOutcome(OrEmpty(Rendered(m, OutcomeKey))) == NormalizeOutcome(m.outcome)
  {
    NormalizeWordIdempotent(m.severity, ["low", "medium", "high"]);
    NormalizeWordIdempotent(m.routingMode, ["retry", "reroute", "escalate"]);
    NormalizeWordIdempotent(m.providerState, ["active", "waiting", "degraded", "paused"]);
  }

  lemma CountsReadBack(m: CorrectionMetadata)
    ensures ReadInt(OrEmpty(Rendered(m, RecurrenceCountKey))) == if m.recurrenceCount > 0 then m.recurrenceCount else 0
    ensures ReadInt(OrEmpty(Rendered(m, ProviderRetryBudgetKey))) == m.providerRetryBudget
  {
    AtoiItoa(m.recurrenceCount);
    AtoiItoa(m.providerRetryBudget);
  }

  lemma HistoryReadBack(h: seq<string>)
    ensures ParseHistory(HistoryText(h)) == NormalizeHistory(h) <==> HistoryReadable(h)
  {
    HistoryRoundTrip(h);
  }

  /** Applying the same record twice is applying it once. */
  lemma ApplyIdempotent(m: CorrectionMetadata, meta: Meta)
    ensures Applied(m, Applied(m, meta)) == Applied(m, meta)
  {
  }

  // ------------------------------------------------------- reading and writing back

  /** A text survives being parsed and formatted again: its parts are all blank, so that
      nothing is written, or the comma is not used as delimiter and the parts are already
      trimmed, non-empty and without repetition. */
  predicate TextStable(text: string) {
    var parts := Split(text, Delimiter(text));
    || (forall i :: 0 <= i < |parts| ==> TrimSpace(parts[i]) == "")
    || (Delimiter(text) == '>' && Normalized(parts))
  }

  lemma {:induction false} BlankIffNothing(values: seq<string>)
    ensures NormalizeHistory(values) == [] <==> forall i :: 0 <= i < |values| ==> TrimSpace(values[i]) == ""
  {
    if values != [] { BlankIffNothing(values[..|values| - 1]); }
  }

  lemma TextStableIff(text: string)
    requires Trimmed(text)
    ensures TextStable(text) <==> ParseHistory(text) == [] || FormatHistory(ParseHistory(text)) == text
  {
    var sep := Delimiter(text);
    var parts := Split(text, sep);
    TrimIsIdentity(text);
    BlankIffNothing(parts);
    hide TrimSpace, Normalized;
    if text == "" {
      assert parts == [""] && TrimSpace("") == "" by { TrimIsIdentity(""); }
    } else if NormalizeHistory(parts) != [] {
      FormatReturnsIff(text);
    }
  }

  lemma FormatReturnsIff(text: string)
    requires var parts := Split(text, Delimiter(text)); NormalizeHistory(parts) != []
    ensures var parts := Split(text, Delimiter(text));
            FormatHistory(NormalizeHistory(parts)) == text <==> Delimiter(text) == '>' && Normalized(parts)
  {
    hide Normalized;
    var sep := Delimiter(text);
    var parts := Split(text, sep);
    var n := NormalizeHistory(parts);
    NormalizeKeepsItself(parts);
    NormalizeAvoids(parts, sep);
    assert FormatHistory(n) == Join(n, '>');
    if sep == '>' {
      JoinSplit(text, '>');
      SplitJoin(n, '>');
    } else {
      NormalizedNonEmpty(n);
      CommaNeverReturns(text, n);
    }
  }

  lemma NormalizedNonEmpty(n: seq<string>)
    requires Normalized(n)
    ensures forall i :: 0 <= i < |n| ==> n[i] != ""
  {
  }

  lemma NormalizeKeepsItself(h: seq<string>)
    ensures Normalized(h) <==> NormalizeHistory(h) == h
    ensures NormalizeHistory(NormalizeHistory(h)) == NormalizeHistory(h)
  {
    if Normalized(h) { NormalizeKeepsNormalized(h); }
    NormalizeKeepsNormalized(NormalizeHistory(h));
  }

  /** A text split at commas is never formatted as it was. */
  lemma CommaNeverReturns(text: string, n: seq<string>)
    requires ',' in text && '>' !in text && n != []
    requires forall i :: 0 <= i < |n| ==> ',' !in n[i] && n[i] != ""
    ensures Join(n, '>') != text
  {
    JoinShape(n, '>');
  }

  /** The formatted history, when there is one, survives a rewrite. */
  predicate HistoryStable(h: seq<string>) { TextStable(FormatHistory(h)) }

  lemma HistoryRewrite(h: seq<string>)
    ensures var back := ParseHistory(HistoryText(h));
            HistoryStable(h) <==> back == [] || (|h| > 0 && FormatHistory(back) == FormatHistory(h))
  {
    hide TextStable, ParseHistory;
    var text := FormatHistory(h);
    var n := NormalizeHistory(h);
    if n != [] { JoinShape(n, '>'); }
    TextStableIff(text);
    NothingParsed();
  }

  lemma NothingParsed()
    ensures ParseHistory("") == []
  {
  }

  /** Every field but the histories and the outcome is written back as it was read. */
  lemma OtherFieldsStable(m: CorrectionMetadata, k: Field)
    requires k != OutcomeKey && k != RoutingHistoryKey && k != OwnerHistoryKey
    ensures Rendered(ReadBack(m), k).None? || Rendered(ReadBack(m), k) == Rendered(m, k)
  {
    hide NormalizeWord, Itoa, FormatBool, FormatHistory, ParseHistory, ReadBack;
    ReadBackIs(m);
    NormalizeWordIdempotent(m.severity, ["low", "medium", "high"]);
    NormalizeWordIdempotent(m.routingMode, ["retry", "reroute", "escalate"]);
    NormalizeWordIdempotent(m.providerState, ["active", "waiting", "degraded", "paused"]);
    NormalizeKeepsEmptiness(m);
  }

  lemma RewriteIffRendered(m: CorrectionMetadata, meta: Meta)
    requires Plain(meta)
    ensures Applied(ReadBack(m), Applied(m, meta)) == Applied(m, meta) <==>
            forall k: Field :: Rendered(ReadBack(m), k).None? || Rendered(ReadBack(m), k) == Rendered(m, k)
  {
    hide Rendered, ReadBack;
    var r, cp := ReadBack(m), Applied(m, meta);
    if Applied(r, cp) == cp {
      forall k: Field ensures Rendered(r, k).None? || Rendered(r, k) == Rendered(m, k) {
        if Rendered(r, k).Some? { assert Known(k) in cp && cp[Known(k)] == Rendered(r, k).value; }
      }
    }
  }

  /** Reading a record back and writing it again leaves the map alone exactly when the
      outcome was in normal form, which Apply does not see to, and both histories survive
      being parsed and formatted again. */
  lemma RewriteStable(m: CorrectionMetadata, meta: Meta)
    requires Plain(meta)
    ensures Applied(FromMap(Applied(m, meta)), Applied(m, meta)) == Applied(m, meta) <==>
            && NormalizeOutcome(m.outcome) == m.outcome
            && HistoryStable(m.routingHistory) && HistoryStable(m.ownerHistory)
  {
    hide Applied, FromMap, HistoryStable, Rendered, ReadBack, NormalizeOutcome;
    FromApplied(m, meta);
    RewriteIffRendered(m, meta);
    forall k: Field | k != OutcomeKey && k != RoutingHistoryKey && k != OwnerHistoryKey
      ensures Rendered(ReadBack(m), k).None? || Rendered(ReadBack(m), k) == Rendered(m, k)
    {
      OtherFieldsStable(m, k);
    }
    HistoryFieldsStable(m);
    OutcomeStable(m);
  }

  lemma HistoryFieldsStable(m: CorrectionMetadata)
    ensures var r := ReadBack(m);
            && (HistoryStable(m.routingHistory) <==>
                  || Rendered(r, RoutingHistoryKey).None?
                  || Rendered(r, RoutingHistoryKey) == Rendered(m, RoutingHistoryKey))
            && (HistoryStable(m.ownerHistory) <==>
                  Rendered(r, OwnerHistoryKey).None? || Rendered(r, OwnerHistoryKey) == Rendered(m, OwnerHistoryKey))
  {
    hide HistoryStable, FormatHistory, ParseHistory, ReadBack;
    ReadBackIs(m);
    HistoryRewrite(m.routingHistory);
    HistoryRewrite(m.ownerHistory);
  }

  lemma OutcomeStable(m: CorrectionMetadata)
    ensures var r := ReadBack(m);
            NormalizeOutcome(m.outcome) == m.outcome <==>
            Rendered(r, OutcomeKey).None? || Rendered(r, OutcomeKey) == Rendered(m, OutcomeKey)
  {
    hide FormatHistory, ParseHistory, ReadBack, NormalizeWord;
    ReadBackIs(m);
    NormalizeKeepsEmptiness(m);
  }

  /** The normal form is blank in exactly the word fields that were blank. */
  lemma NormalizeKeepsEmptiness(m: CorrectionMetadata)
    ensures Normal(m).severity == "" <==> m.severity == ""
    ensures Normal(m).routingMode == "" <==> m.routingMode == ""
    ensures Normal(m).providerState == "" <==> m.providerState == ""
    ensures Normal(m).outcome == "" <==> m.outcome == ""
  {
  }

  // ---------------------------------------------------- preferred owner and filters

  predicate IsImprovement(m: CorrectionMetadata) {
    || m.schemaVersion != "" || m.failureType != "" || m.severity != "" || m.secondaryType != ""
    || m.targetAgent != "" || m.routingMode != "" || |m.routingHistory| > 0 || |m.ownerHistory| > 0
    || m.recurrenceCount > 0 || m.correctiveAction != "" || m.retryAllowed.Some?
    || m.escalationReason != "" || m.correlationID != "" || m.traceID != "" || m.outcome != ""
  }

  /** A record is an improvement when a field other than the provider's is set, a negative
      count aside. */
  lemma ImprovementIff(m: CorrectionMetadata)
    ensures IsImprovement(m) <==>
            exists f :: f !in PROVIDER_KEYS && IsSet(ValueOf(m, f))
                        && (f == RecurrenceCountKey ==> m.recurrenceCount > 0)
  {
    if IsImprovement(m) {
      var f := SetField(m);
      assert IsSet(ValueOf(m, f));
    }
  }

  function SetField(m: CorrectionMetadata): Field {
    if m.schemaVersion != "" then SchemaVersionKey
    else if m.failureType != "" then FailureTypeKey
    else if m.severity != "" then SeverityKey
    else if m.secondaryType != "" then SecondaryTypeKey
    else if m.targetAgent != "" then TargetAgentKey
    else if m.routingMode != "" then RoutingModeKey
    else if m.routingHistory != [] then RoutingHistoryKey
    else if m.ownerHistory != [] then OwnerHistoryKey
    else if m.recurrenceCount > 0 then RecurrenceCountKey
    else if m.correctiveAction != "" then CorrectiveActionKey
    else if m.retryAllowed.Some? then RetryAllowedKey
    else if m.escalationReason != "" then EscalationReasonKey
    else if m.correlationID != "" then CorrelationIDKey
    else if m.traceID != "" then TraceIDKey
    else OutcomeKey
  }

  function DefaultTargetAgent(kind: string): string {
    if kind == "design-feedback" then "sightjack"
    else if kind == "implementation-feedback" then "paintress"
    else ""
  }

  function PreferredTargetAgent(kind: string, m: CorrectionMetadata): string {
    if m.targetAgent != "" then m.targetAgent
    else if !IsImprovement(m) || m.outcome == "escalated" || m.retryAllowed == Some(false) then ""
    else if NormalizeRoutingMode(m.routingMode) in ["", "retry"] then DefaultTargetAgent(kind)
    else ""
  }

  /** inboxMatchesTargetAgent on an already clean path. */
  predicate InboxMatches(inbox: string, agent: string) {
    agent in Split(inbox, '/')
  }

  /** The agent is one of the elements of the path, as a whole. */
  lemma MatchesElement(inbox: string, agent: string)
    ensures InboxMatches(inbox, agent) <==> exists above, below :: Segment(inbox, agent, '/', above, below)
  {
    PartIff(inbox, '/', agent);
  }

  predicate MatchesAny(inbox: string, targets: seq<string>) {
    exists t :: t in targets && InboxMatches(inbox, t)
  }

  /** The inboxes kept by a predicate, in order. */
  function Keep(inboxes: seq<string>, keep: string -> bool): (r: seq<string>)
    ensures forall i :: i in r <==> i in inboxes && keep(i)
  {
    if inboxes == [] then []
    else (if keep(inboxes[0]) then [inboxes[0]] else []) + Keep(inboxes[1..], keep)
  }

  function ByTargets(inboxes: seq<string>, targets: seq<string>): seq<string> {
    if targets == [] then [] else Keep(inboxes, i => MatchesAny(i, targets))
  }

  function ByTargetAgent(inboxes: seq<string>, agent: string): seq<string> {
    if agent == "" then [] else Keep(inboxes, i => InboxMatches(i, agent))
  }
}
