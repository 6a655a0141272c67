/** How an event's attributes are sanitized and bounded, and the privacy label they get. */
module EventPrivacy {
  import opened Options

  // An attribute value; what it is made of does not matter here.
  datatype Value = Value(text: string)

  type Attributes = map<string, Value>

  const CONTENT_FIELDS: set<string> :=
    {"text", "value", "arguments", "result", "command", "stdout", "stderr", "output", "reason"}

  predicate HasContent(a: Attributes) {
    exists k :: k in a && k in CONTENT_FIELDS
  }

  function Metadata(a: Attributes): Attributes {
    a - CONTENT_FIELDS
  }

  function Content(a: Attributes): Attributes {
    map k | k in a && k in CONTENT_FIELDS :: a[k]
  }

  datatype Kind = ToolCall | ToolResult | OtherKind

  // The field that holds a tool event's content.
  function ToolField(kind: Kind): Option<string> {
    match kind
    case ToolCall => Some("arguments")
    case ToolResult => Some("result")
    case OtherKind => None
  }

  datatype Privacy = Metadata | Redacted | Omitted

  datatype Reason = RedactionLimit | EventLimit | InvalidShape | CaptureDisabled

  datatype Event = Event(kind: Kind, attributes: Attributes, privacy: Privacy, reason: Option<Reason>)

  // Whether attributes of this kind are well formed; if not, whether the error speaks of a bound.
  datatype Shape = Fine | OverBound | Malformed

  // What the event depends on besides its attributes. sanitize is None where the sanitizer raises;
  // fieldsValid stands for the checks of the fields that are not attributes.
  datatype Environment = Environment(
    captureContent: bool,
    sanitize: (Kind, Attributes) -> Option<Attributes>,
    bound: Value -> Value,
    shape: (Kind, Attributes) -> Shape,
    fieldsValid: bool)

  function Bounded(env: Environment, a: Attributes): Attributes {
    map k | k in a :: env.bound(a[k])
  }

  // ---- Sanitizing ----

  datatype Safe = Safe(attributes: Attributes, reason: Option<Reason>)

  function Permitted(env: Environment, a: Attributes): Attributes {
    if env.captureContent then a else Metadata(a)
  }

  function SafeTool(env: Environment, kind: Kind, a: Attributes): Safe
    requires ToolField(kind).Some?
  {
    var field := ToolField(kind).value;
    var permitted := Permitted(env, a);
    var bounded := Bounded(env, permitted - {field});
    if field !in permitted then Safe(bounded, None)
    else
      var answer := env.sanitize(kind, map[field := permitted[field]]);
      var sanitized := if answer.Some? then answer.value else map[];
      if field in sanitized then Safe(bounded[field := env.bound(sanitized[field])], None)
      else Safe(bounded, Some(RedactionLimit))
  }

  // The outcome is None where the sanitizer raises a second time.
  function SafeOther(env: Environment, kind: Kind, a: Attributes): Option<Safe> {
    var permitted := Permitted(env, a);
    var expected := HasContent(a) && env.captureContent;
    var answer := env.sanitize(kind, permitted);
    var first := if answer.Some? then answer.value else permitted;
    var dropped := expected && !HasContent(first);
    var second := if dropped then env.sanitize(kind, Metadata(permitted)) else Some(first);
    if second.None? then None
    else
      var last := env.sanitize(kind, Bounded(env, second.value));
      if last.None? then None
      else Some(Safe(last.value, if dropped || (expected && !HasContent(last.value)) then Some(RedactionLimit)
          else None))
  }

  function SafeAttributes(env: Environment, kind: Kind, a: Attributes): Option<Safe> {
    if ToolField(kind).Some? then Some(SafeTool(env, kind, a)) else SafeOther(env, kind, a)
  }

  // ---- Labelling and construction ----

  // The checks an event makes of itself.
  datatype Verdict = Accepted | Rejected(overBound: bool)

  function Check(env: Environment, e: Event): Verdict {
    if !env.fieldsValid then Rejected(false)
    else if env.shape(e.kind, e.attributes) != Fine then Rejected(env.shape(e.kind, e.attributes) == OverBound)
    else if e.privacy == Privacy.Metadata && HasContent(e.attributes) then Rejected(false)
    else if e.privacy == Omitted && (e.reason.None? || HasContent(e.attributes)) then Rejected(false)
    else if e.privacy != Omitted && e.reason.Some? then Rejected(false)
    else Accepted
  }

  function Label(env: Environment, kind: Kind, a: Attributes, safe: Safe): Event {
    var content := HasContent(a);
    Event(
      kind, safe.attributes,
      if safe.reason.Some? then Omitted
      else if content && env.captureContent then Redacted
      else if content then Omitted
      else Privacy.Metadata,
      if content && !env.captureContent then Some(CaptureDisabled) else safe.reason)
  }

  // The event without its content, for when the content is what the checks reject.
  function Stripped(e: Event, overBound: bool): Event {
    Event(e.kind, Metadata(e.attributes), Omitted, Some(if overBound then EventLimit else InvalidShape))
  }

  function NewEvent(env: Environment, kind: Kind, a: Attributes): Option<Event> {
    var safe := SafeAttributes(env, kind, a);
    if safe.None? then None
    else
      var e := Label(env, kind, a, safe.value);
      var verdict := Check(env, e);
      if verdict.Accepted? then Some(e)
      else if !HasContent(e.attributes) then None
      else
        var stripped := Stripped(e, verdict.overBound);
        if Check(env, stripped).Accepted? then Some(stripped) else None
  }

  // ---- Theorems ----

  ghost predicate Consistent(e: Event) {
    && (e.privacy == Omitted <==> e.reason.Some?)
    && (e.privacy == Redacted <==> HasContent(e.attributes))
    && (e.privacy == Privacy.Metadata ==> !HasContent(e.attributes) && e.reason.None?)
  }

  // A redacted label is only ever given to attributes with content left in them.
  lemma RedactedHasContent(env: Environment, kind: Kind, a: Attributes, safe: Safe)
    requires SafeAttributes(env, kind, a) == Some(safe) && safe.reason.None? && HasContent(a) && env.captureContent
    ensures HasContent(safe.attributes)
  {
    if ToolField(kind).Some? {
      var field := ToolField(kind).value;
      var k :| k in a && k in CONTENT_FIELDS;
      assert k in safe.attributes;
    }
  }

  /** Whatever the sanitizer does (drop, rename, add, raise), label, reason and attributes of every
      event agree: it is omitted iff a reason is given, and redacted iff some content is in it. */
  lemma LabelsAreConsistent(env: Environment, kind: Kind, a: Attributes)
    ensures var e := NewEvent(env, kind, a); e.Some? ==> Consistent(e.value)
  {
    var safe := SafeAttributes(env, kind, a);
    if safe.Some? && safe.value.reason.None? && HasContent(a) && env.captureContent {
      RedactedHasContent(env, kind, a, safe.value);
    }
  }

  /** With content capture off no event carries content. */
  lemma NoContentWithoutCapture(env: Environment, kind: Kind, a: Attributes)
    requires !env.captureContent
    ensures var e := NewEvent(env, kind, a); e.Some? ==> !HasContent(e.value.attributes) && e.value.privacy != Redacted
    ensures var e := NewEvent(env, kind, a);
            e.Some? ==> forall k :: k in e.value.attributes ==>
              k !in {"text", "value", "arguments", "result", "command", "stdout", "stderr", "output", "reason"}
  {
    LabelsAreConsistent(env, kind, a);
  }

  // A sanitizer that keeps to the keys it is given.
  ghost predicate OnlyRemoves(env: Environment) {
    forall k, a :: env.sanitize(k, a).Some? ==> env.sanitize(k, a).value.Keys <= a.Keys
  }

  lemma SafeKeys(env: Environment, kind: Kind, a: Attributes)
    requires OnlyRemoves(env)
    ensures var s := SafeAttributes(env, kind, a);
            s.Some? ==>
                  s.value.attributes.Keys <= a.Keys
                  && (!HasContent(a) || !env.captureContent ==> s.value.reason.None? && !HasContent(s.value.attributes))
  {
    var permitted := Permitted(env, a);
    assert permitted.Keys <= a.Keys;
    assert !HasContent(a) || !env.captureContent ==> !HasContent(permitted);
    assert ToolField(kind).Some? && ToolField(kind).value in permitted ==> HasContent(permitted);
    if ToolField(kind).None? && SafeOther(env, kind, a).Some? {
      var answer := env.sanitize(kind, permitted);
      var first := if answer.Some? then answer.value else permitted;
      assert first.Keys <= permitted.Keys;
      var second := if HasContent(a) && env.captureContent && !HasContent(first)
          then env.sanitize(kind, Metadata(permitted)).value else first;
      assert second.Keys <= permitted.Keys;
      assert Bounded(env, second).Keys == second.Keys;
      var last := SafeOther(env, kind, a).value.attributes;
      assert last.Keys <= permitted.Keys;
      assert HasContent(last) ==> HasContent(permitted);
    }
  }

  /** If the sanitizer only removes keys, content is never lost in silence: the label tells exactly
      what became of it. */
  lemma LabelsTellWhatHappened(env: Environment, kind: Kind, a: Attributes)
    requires OnlyRemoves(env) && NewEvent(env, kind, a).Some?
    ensures var e := NewEvent(env, kind, a).value;
            && e.attributes.Keys <= a.Keys
            && (e.privacy == Privacy.Metadata <==> !HasContent(a))
            && (e.reason == Some(CaptureDisabled) <==> HasContent(a) && !env.captureContent)
            && (HasContent(a) && env.captureContent ==>
                  if HasContent(e.attributes) then e.privacy == Redacted && e.reason.None?
                  else e.privacy == Omitted && e.reason.Some?)
  {
    SafeKeys(env, kind, a);
    LabelsAreConsistent(env, kind, a);
  }

  /** A tool event is never lost for its content: it is recorded as long as its metadata alone would
      be, and its metadata is then what it was given, bounded. */
  lemma ToolMetadataSurvives(env: Environment, kind: Kind, a: Attributes)
    requires ToolField(kind).Some?
    ensures var e := NewEvent(env, kind, a);
            && (e.Some? ==> Metadata(e.value.attributes) == Bounded(env, Metadata(a)))
            && (env.fieldsValid && env.shape(kind, Bounded(env, Metadata(a))) == Fine ==> e.Some?)
  {
    var safe := SafeTool(env, kind, a);
    SafeToolMetadata(env, kind, a);
    hide SafeTool, HasContent, Metadata, Bounded;
    MetadataOnly(safe.attributes);
    if HasContent(a) && env.captureContent && safe.reason.None? {
      RedactedHasContent(env, kind, a, safe);
    }
  }

  lemma SafeToolMetadata(env: Environment, kind: Kind, a: Attributes)
    requires ToolField(kind).Some?
    ensures var safe := SafeTool(env, kind, a);
            && Metadata(safe.attributes) == Bounded(env, Metadata(a))
            && (!env.captureContent || !HasContent(a) ==> !HasContent(safe.attributes))
  {
  }

  lemma MetadataOnly(a: Attributes)
    ensures !HasContent(a) ==> a == Metadata(a)
    ensures Metadata(Metadata(a)) == Metadata(a) && !HasContent(Metadata(a))
  {
  }

  // ---- What the values are ----

  // The attributes with each value bounded.
  ghost predicate EachBounded(env: Environment, a: Attributes, b: Attributes) {
    b.Keys == a.Keys && forall k :: k in a ==> b[k] == env.bound(a[k])
  }

  // A tool event with its content: what the sanitizer answered for its one field, bounded, beside the
  // other permitted attributes, bounded.
  ghost predicate SanitizedTool(env: Environment, kind: Kind, a: Attributes, field: string, b: Attributes) {
    && env.captureContent && field in a
    && var answer := env.sanitize(kind, map[field := a[field]]);
       && answer.Some? && field in answer.value
       && b.Keys == a.Keys && b[field] == env.bound(answer.value[field])
       && forall k :: k in a && k != field ==> b[k] == env.bound(a[k])
  }

  predicate IsToolField(kind: Kind, field: string) {
    (kind == ToolCall && field == "arguments") || (kind == ToolResult && field == "result")
  }

  /** A tool event holds its content only as the sanitizer answered for it, bounded; every other value is
      the given one, bounded; and content is called over the redaction limit only where the sanitizer does
      not answer for it. */
  lemma ToolContentIsSanitized(env: Environment, kind: Kind, a: Attributes, field: string)
    requires IsToolField(kind, field) && NewEvent(env, kind, a).Some?
    ensures var e := NewEvent(env, kind, a).value;
            && e.kind == kind && env.fieldsValid && env.shape(kind, e.attributes) == Fine
            && (field in e.attributes ==> SanitizedTool(env, kind, a, field, e.attributes))
            && (forall k :: k in e.attributes && k != field ==> k in a && e.attributes[k] == env.bound(a[k]))
            && (e.reason == Some(RedactionLimit) ==>
                  && env.captureContent && field in a
                  && var answer := env.sanitize(kind, map[field := a[field]]);
                     answer.None? || field !in answer.value)
  {
    assert ToolField(kind) == Some(field);
    var safe := SafeTool(env, kind, a);
    SafeToolIs(env, kind, a, field);
    hide SafeTool, HasContent;
    var e := Label(env, kind, a, safe);
    var kept := NewEvent(env, kind, a).value.attributes;
    assert kept == safe.attributes || kept == Metadata(safe.attributes);
    assert field in CONTENT_FIELDS;
  }

  lemma SafeToolIs(env: Environment, kind: Kind, a: Attributes, field: string)
    requires ToolField(kind) == Some(field) && field in CONTENT_FIELDS
    ensures var safe := SafeTool(env, kind, a);
            && (field in safe.attributes ==> SanitizedTool(env, kind, a, field, safe.attributes))
            && (forall k :: k in safe.attributes && k != field ==> k in a && safe.attributes[k] == env.bound(a[k]))
            && (safe.reason != None ==>
                  && safe.reason == Some(RedactionLimit) && env.captureContent && field in a
                  && var answer := env.sanitize(kind, map[field := a[field]]);
                     answer.None? || field !in answer.value)
            && (forall b :: SanitizedTool(env, kind, a, field, b) ==> safe == Safe(b, None))
  {
    forall b | SanitizedTool(env, kind, a, field, b) ensures SafeTool(env, kind, a) == Safe(b, None) {
      assert SafeTool(env, kind, a).attributes == b;
    }
  }

  /** Content that the sanitizer answered for is recorded, redacted, unless the checks reject the event with
      it; and then the reason tells whether a bound was exceeded. */
  lemma ToolContentIsKept(env: Environment, kind: Kind, a: Attributes, field: string, b: Attributes)
    requires IsToolField(kind, field) && SanitizedTool(env, kind, a, field, b)
    ensures var e := NewEvent(env, kind, a);
            && (env.fieldsValid && env.shape(kind, b) == Fine ==> e == Some(Event(kind, b, Redacted, None)))
            && (e.Some? && env.shape(kind, b) != Fine ==>
                  e.value.reason == Some(if env.shape(kind, b) == OverBound then EventLimit else InvalidShape))
  {
    assert field in CONTENT_FIELDS;
    SafeToolIs(env, kind, a, field);
    assert HasContent(a) && HasContent(b);
    hide SafeTool, HasContent;
  }

  predicate Contentless(a: Attributes) {
    forall k :: k in a ==> k !in CONTENT_FIELDS
  }

  // What is bounded of another event: the sanitizer's answer for the permitted attributes, or these
  // themselves where it raised; but if all content is lost by that, its answer for the metadata alone.
  ghost predicate Chosen(env: Environment, a: Attributes, permitted: Attributes, chosen: Attributes, lost: bool) {
    && permitted.Keys == (set k | k in a && (env.captureContent || k !in CONTENT_FIELDS))
    && (forall k :: k in permitted ==> permitted[k] == a[k])
    && var answer := env.sanitize(OtherKind, permitted);
       var first := if answer.Some? then answer.value else permitted;
       && (lost <==> env.captureContent && !Contentless(a) && Contentless(first))
       && if lost then env.sanitize(OtherKind, map k | k in a && k !in CONTENT_FIELDS :: a[k]) == Some(chosen)
          else chosen == first
  }

  /** Any other event holds nothing but what the last call of the sanitizer returned, which was given
      bounded values alone. It is redacted with all of that if there was content and the checks let it
      pass; without content left it says so; and what the checks reject it for is the reason given. Content
      that comes up only after the given content was lost is not kept. */
  lemma OtherContentIsSanitized(env: Environment, a: Attributes)
      returns (permitted: Attributes, chosen: Attributes, given: Attributes, last: Attributes, lost: bool)
    requires NewEvent(env, OtherKind, a).Some?
    ensures Chosen(env, a, permitted, chosen, lost)
    ensures EachBounded(env, chosen, given) && env.sanitize(OtherKind, given) == Some(last)
    ensures var e := NewEvent(env, OtherKind, a).value;
            && e.kind == OtherKind && env.fieldsValid && env.shape(OtherKind, e.attributes) == Fine
            && (forall k :: k in e.attributes ==> k in last && e.attributes[k] == last[k])
            && (forall k :: k in last && k !in CONTENT_FIELDS ==> k in e.attributes)
            && (!Contentless(e.attributes) ==> e.attributes == last)
            && (e.reason == Some(RedactionLimit) <==>
                 env.captureContent && !Contentless(a) && Contentless(last))
            && (env.captureContent && !Contentless(a) && !Contentless(last) && !lost ==>
                 match env.shape(OtherKind, last)
                 case Fine => e == Event(OtherKind, last, Redacted, None)
                 case OverBound => e.reason == Some(EventLimit)
                 case Malformed => e.reason == Some(InvalidShape))
            && (env.captureContent && !Contentless(a) && !Contentless(last) && lost ==>
                 && e.privacy == Omitted && Contentless(e.attributes)
                 && e.reason == Some(if env.shape(OtherKind, last) == OverBound then EventLimit else InvalidShape))
  {
    permitted := Permitted(env, a);
    var answer := env.sanitize(OtherKind, permitted);
    var first := if answer.Some? then answer.value else permitted;
    lost := env.captureContent && HasContent(a) && !HasContent(first);
    chosen := if lost then env.sanitize(OtherKind, Metadata(permitted)).value else first;
    given := Bounded(env, chosen);
    last := SafeOther(env, OtherKind, a).value.attributes;
    assert lost ==> Metadata(permitted) == map k | k in a && k !in CONTENT_FIELDS :: a[k];
    assert HasContent(a) <==> !Contentless(a);
    assert HasContent(last) <==> !Contentless(last);
    assert HasContent(first) <==> !Contentless(first);
  }

  lemma SafeOtherIs(env: Environment, a: Attributes, permitted: Attributes, chosen: Attributes, given: Attributes,
      last: Attributes, lost: bool)
    requires Chosen(env, a, permitted, chosen, lost) && EachBounded(env, chosen, given)
    requires env.sanitize(OtherKind, given) == Some(last)
    ensures var safe := SafeOther(env, OtherKind, a); safe.Some? && safe.value.attributes == last
  {
    assert permitted == Permitted(env, a);
    assert HasContent(a) <==> !Contentless(a);
    var answer := env.sanitize(OtherKind, permitted);
    var first := if answer.Some? then answer.value else permitted;
    assert HasContent(first) <==> !Contentless(first);
    assert Metadata(permitted) == map k | k in a && k !in CONTENT_FIELDS :: a[k];
    assert given == Bounded(env, chosen);
  }

  /** Any other event is recorded as long as the sanitizer answers and the metadata of its last answer alone
      would be. */
  lemma OtherMetadataSurvives(env: Environment, a: Attributes, permitted: Attributes, chosen: Attributes,
      given: Attributes, last: Attributes, lost: bool)
    requires Chosen(env, a, permitted, chosen, lost) && EachBounded(env, chosen, given)
    requires env.sanitize(OtherKind, given) == Some(last) && env.fieldsValid
    requires env.shape(OtherKind, map k | k in last && k !in CONTENT_FIELDS :: last[k]) == Fine
    ensures NewEvent(env, OtherKind, a).Some?
  {
    SafeOtherIs(env, a, permitted, chosen, given, last, lost);
    assert Metadata(last) == map k | k in last && k !in CONTENT_FIELDS :: last[k];
    MetadataOnly(last);
    hide SafeOther, Chosen, EachBounded, HasContent, Metadata;
  }
}
