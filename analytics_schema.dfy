/** The analytics event schema (models/Analytics.js): which candidate payloads are
    valid events, and the default it fills in. Mongoose validates every path and
    reports all the paths that failed, so a rejection carries the set of them. */
module AnalyticsSchema {
  import opened Wrappers
  import opened Text

  datatype EventType = Pageview | SessionEnd | Engagement

  function TypeName(t: EventType): string {
    match t
    case Pageview => "pageview"
    case SessionEnd => "session_end"
    case Engagement => "engagement"
  }

  /** The enum validator on `type`: only the three exact names are accepted. */
  function ParseType(s: string): (r: Option<EventType>)
    ensures r.Some? <==> s in {"pageview", "session_end", "engagement"}
    ensures r.Some? ==> TypeName(r.value) == s
  {
    if s == "pageview" then Some(Pageview)
    else if s == "session_end" then Some(SessionEnd)
    else if s == "engagement" then Some(Engagement)
    else None
  }

  lemma ParseTypeName(t: EventType)
    ensures ParseType(TypeName(t)) == Some(t)
  {
  }

  /** A Date path in the request body: absent, an instant (milliseconds since the
      epoch), or a value that does not cast to a Date. */
  datatype DateInput = NoDate | Instant(ms: int) | Unparseable

  function OptionalDate(d: DateInput): Option<int> {
    if d.Instant? then Some(d.ms) else None
  }

  /** A scalar JSON value as it arrives in the body, or as a path stores it. */
  datatype JsonValue = JString(s: string) | JNumber(n: int) | JBool(b: bool) | JNull

  /** The schema type of a descriptive path. */
  datatype Kind = StringKind | NumberKind | BooleanKind

  /** The navigation, device, classification, connection, privacy, performance and
      geolocation paths the schema declares. The Date path geolocation.timestamp is
      carried apart, as a DateInput. */
  datatype Detail =
    | Url | Path | Query | Hash | Referrer
    | UserAgent | Language | Languages | ScreenResolution | Viewport
    | ColorDepth | Timezone | DeviceMemory | HardwareConcurrency
    | DeviceType | Browser | BrowserVersion | Os
    | EffectiveType | Downlink | Rtt | SaveData
    | CookiesEnabled | DoNotTrack
    | LoadTime | DomReady | RedirectCount
    | Latitude | Longitude | Accuracy | GeoMethod

  /** The declared type of each descriptive path. */
  function KindOf(d: Detail): Kind {
    match d
    case ColorDepth | DeviceMemory | HardwareConcurrency | Downlink | Rtt
      | LoadTime | DomReady | RedirectCount | Latitude | Longitude | Accuracy => NumberKind
    case SaveData | CookiesEnabled => BooleanKind
    case _ => StringKind
  }

  /** The dotted path name a validation error reports. */
  function DetailName(d: Detail): string {
    match d
    case Url => "url"
    case Path => "path"
    case Query => "query"
    case Hash => "hash"
    case Referrer => "referrer"
    case UserAgent => "userAgent"
    case Language => "language"
    case Languages => "languages"
    case ScreenResolution => "screenResolution"
    case Viewport => "viewport"
    case ColorDepth => "colorDepth"
    case Timezone => "timezone"
    case DeviceMemory => "deviceMemory"
    case HardwareConcurrency => "hardwareConcurrency"
    case DeviceType => "deviceType"
    case Browser => "browser"
    case BrowserVersion => "browserVersion"
    case Os => "os"
    case EffectiveType => "connection.effectiveType"
    case Downlink => "connection.downlink"
    case Rtt => "connection.rtt"
    case SaveData => "connection.saveData"
    case CookiesEnabled => "cookiesEnabled"
    case DoNotTrack => "doNotTrack"
    case LoadTime => "performance.loadTime"
    case DomReady => "performance.domReady"
    case RedirectCount => "performance.redirectCount"
    case Latitude => "geolocation.latitude"
    case Longitude => "geolocation.longitude"
    case Accuracy => "geolocation.accuracy"
    case GeoMethod => "geolocation.method"
  }

  /** A schema path that validation can report as failing. */
  datatype SchemaPath =
    | VisitorIdPath | SessionIdPath | TypePath | TimestampPath | SessionStartPath
    | GeoTimestampPath | DetailPath(detail: Detail)

  function PathName(p: SchemaPath): string {
    match p
    case VisitorIdPath => "visitorId"
    case SessionIdPath => "sessionId"
    case TypePath => "type"
    case TimestampPath => "timestamp"
    case SessionStartPath => "sessionStart"
    case GeoTimestampPath => "geolocation.timestamp"
    case DetailPath(d) => DetailName(d)
  }

  /** The values Mongoose's Boolean cast reads as true, and as false. */
  const TrueValues: set<JsonValue> := {JBool(true), JString("true"), JNumber(1), JString("1"), JString("yes")}
  const FalseValues: set<JsonValue> := {JBool(false), JString("false"), JNumber(0), JString("0"), JString("no")}

  /** Casting a body value to a path's type: the stored value, or None when the cast
      fails. null always passes; a String path takes any scalar as its text; a
      Number path takes numbers, booleans as 1 and 0, the empty string as null and
      other strings through Number(); a Boolean path takes only the listed values. */
  function Cast(k: Kind, v: JsonValue): (r: Option<JsonValue>)
    ensures v.JNull? ==> r == Some(JNull)
    ensures k == StringKind ==> r.Some?
    ensures k == BooleanKind ==> (r.Some? <==> v in TrueValues || v in FalseValues || v.JNull?)
    ensures k == NumberKind && !v.JString? ==> r.Some?
    ensures r.Some? && !r.value.JNull? ==>
      match k
      case StringKind => r.value.JString?
      case NumberKind => r.value.JNumber?
      case BooleanKind => r.value.JBool?
  {
    match k
    case StringKind => Some(CastString(v))
    case NumberKind => CastNumber(v)
    case BooleanKind =>
      if v in TrueValues then Some(JBool(true))
      else if v in FalseValues then Some(JBool(false))
      else if v.JNull? then Some(JNull)
      else None
  }

  function CastString(v: JsonValue): JsonValue {
    match v
    case JString(_) => v
    case JNumber(n) => JString(NumberText(n))
    case JBool(b) => JString(if b then "true" else "false")
    case JNull => JNull
  }

  function CastNumber(v: JsonValue): Option<JsonValue> {
    match v
    case JNull => Some(JNull)
    case JNumber(_) => Some(v)
    case JBool(b) => Some(JNumber(if b then 1 else 0))
    case JString(s) =>
      if s == "" then Some(JNull)
      else if NumberOf(s).Num? then Some(JNumber(NumberOf(s).value))
      else None
  }

  /** A value a cast produced casts to itself again: stored values are fixed points. */
  lemma CastCanonical(k: Kind, v: JsonValue)
    requires Cast(k, v).Some?
    ensures Cast(k, Cast(k, v).value) == Cast(k, v)
  {
  }

  /** Every descriptive value present in the body casts to its declared type. */
  predicate DetailsCast(d: map<Detail, JsonValue>) {
    forall k :: k in d ==> Cast(KindOf(k), d[k]).Some?
  }

  /** The descriptive paths as stored: each holding its cast value. */
  function StoredDetails(d: map<Detail, JsonValue>): (r: map<Detail, JsonValue>)
    requires DetailsCast(d)
    ensures r.Keys == d.Keys
    ensures forall k :: k in r ==> Some(r[k]) == Cast(KindOf(k), d[k])
  {
    map k | k in d :: Cast(KindOf(k), d[k]).value
  }

  /** Descriptive paths as a stored event holds them: already cast. */
  predicate CanonicalDetails(d: map<Detail, JsonValue>) {
    forall k :: k in d ==> Cast(KindOf(k), d[k]) == Some(d[k])
  }

  /** The request body of POST /, after strict mode has dropped the paths the schema
      does not declare. The descriptive paths map to the value sent there. */
  datatype Payload = Payload(
    visitorId: Option<string>,
    sessionId: Option<string>,
    isNewVisitor: Option<bool>,
    kind: Option<string>,
    timestamp: DateInput,
    sessionStart: DateInput,
    localTime: Option<string>,
    details: map<Detail, JsonValue>,
    geoTimestamp: DateInput)

  /** A stored analytics event. */
  datatype Event = Event(
    visitorId: string,
    sessionId: string,
    isNewVisitor: bool,
    kind: EventType,
    timestamp: int,
    sessionStart: Option<int>,
    localTime: Option<string>,
    details: map<Detail, JsonValue>,
    geoTimestamp: Option<int>)

  /** What the schema guarantees of every stored event: a `required` String path
      rejects both a missing value and the empty string, and the descriptive paths
      hold cast values only. */
  predicate WellFormed(e: Event) {
    e.visitorId != "" && e.sessionId != "" && CanonicalDetails(e.details)
  }

  datatype Validated = Valid(event: Event) | Rejected(violations: set<SchemaPath>)

  /** The identification and timestamp paths whose validators (required, enum, Date
      cast) fail. */
  function CoreViolations(p: Payload): (v: set<SchemaPath>)
    ensures VisitorIdPath in v <==> !Truthy(p.visitorId)
    ensures SessionIdPath in v <==> !Truthy(p.sessionId)
    ensures TypePath in v <==> !(p.kind.Some? && p.kind.value in {"pageview", "session_end", "engagement"})
    ensures TimestampPath in v <==> !p.timestamp.Instant?
    ensures SessionStartPath in v <==> p.sessionStart.Unparseable?
    ensures GeoTimestampPath in v <==> p.geoTimestamp.Unparseable?
    ensures forall q :: q in v ==> !q.DetailPath?
  {
    (if Truthy(p.visitorId) then {} else {VisitorIdPath})
    + (if Truthy(p.sessionId) then {} else {SessionIdPath})
    + (if p.kind.Some? && ParseType(p.kind.value).Some? then {} else {TypePath})
    + (if p.timestamp.Instant? then {} else {TimestampPath})
    + (if p.sessionStart.Unparseable? then {SessionStartPath} else {})
    + (if p.geoTimestamp.Unparseable? then {GeoTimestampPath} else {})
  }

  /** The descriptive paths whose cast fails. */
  function DetailViolations(d: map<Detail, JsonValue>): (v: set<SchemaPath>)
    ensures forall k :: DetailPath(k) in v <==> k in d && Cast(KindOf(k), d[k]).None?
    ensures forall q :: q in v ==> q.DetailPath?
    ensures v == {} <==> DetailsCast(d)
  {
    var v := set k | k in d && Cast(KindOf(k), d[k]).None? :: DetailPath(k);
    assert forall k :: DetailPath(k) in v ==> k in d && Cast(KindOf(k), d[k]).None?;
    v
  }

  /** Every path whose validator (required, enum) or cast (Date, Number, Boolean)
      fails; Mongoose reports them all together. */
  function Violations(p: Payload): (v: set<SchemaPath>)
    ensures VisitorIdPath in v <==> !Truthy(p.visitorId)
    ensures SessionIdPath in v <==> !Truthy(p.sessionId)
    ensures TypePath in v <==> !(p.kind.Some? && p.kind.value in {"pageview", "session_end", "engagement"})
    ensures TimestampPath in v <==> !p.timestamp.Instant?
    ensures SessionStartPath in v <==> p.sessionStart.Unparseable?
    ensures GeoTimestampPath in v <==> p.geoTimestamp.Unparseable?
    ensures forall d :: DetailPath(d) in v <==> d in p.details && Cast(KindOf(d), p.details[d]).None?
  {
    CoreViolations(p) + DetailViolations(p.details)
  }

  /** Building an event from the body and validating it: the event, with `isNewVisitor`
      defaulted to false and the descriptive paths cast, or the failing paths. */
  function Validate(p: Payload): (r: Validated)
    ensures r.Valid? <==>
      && Truthy(p.visitorId) && Truthy(p.sessionId)
      && p.kind.Some? && p.kind.value in {"pageview", "session_end", "engagement"}
      && p.timestamp.Instant? && !p.sessionStart.Unparseable? && !p.geoTimestamp.Unparseable?
      && DetailsCast(p.details)
    ensures r.Valid? ==> WellFormed(r.event)
    ensures r.Rejected? ==> r.violations == Violations(p) && r.violations != {}
  {
    var v := Violations(p);
    if v == {} then
      assert DetailViolations(p.details) == {};
      var d := StoredDetails(p.details);
      assert CanonicalDetails(d) by {
        forall k | k in d ensures Cast(KindOf(k), d[k]) == Some(d[k]) {
          CastCanonical(KindOf(k), p.details[k]);
        }
      }
      Valid(Event(
        p.visitorId.value, p.sessionId.value, p.isNewVisitor.GetOr(false),
        ParseType(p.kind.value).value, p.timestamp.ms, OptionalDate(p.sessionStart),
        p.localTime, d, OptionalDate(p.geoTimestamp)))
    else
      assert !DetailsCast(p.details) ==> DetailViolations(p.details) != {};
      assert !Truthy(p.visitorId) ==> VisitorIdPath in v;
      Rejected(v)
  }

  function DateOf(d: Option<int>): DateInput {
    if d.Some? then Instant(d.value) else NoDate
  }

  /** The body a client would send to store e. */
  function ToPayload(e: Event): Payload {
    Payload(
      Some(e.visitorId), Some(e.sessionId), Some(e.isNewVisitor), Some(TypeName(e.kind)),
      Instant(e.timestamp), DateOf(e.sessionStart), e.localTime, e.details, DateOf(e.geoTimestamp))
  }

  /** Every well-formed event is accepted unchanged when submitted. */
  lemma ValidateToPayload(e: Event)
    requires WellFormed(e)
    ensures Validate(ToPayload(e)) == Valid(e)
  {
    ParseTypeName(e.kind);
    var p := ToPayload(e);
    assert DetailsCast(p.details);
    assert StoredDetails(p.details) == e.details;
  }

  /** An accepted payload is stored field for field, with the default filled in and
      the descriptive paths cast: fetching the stored event back yields every other
      submitted field. */
  lemma ValidateKeepsFields(p: Payload)
    requires Validate(p).Valid?
    ensures ToPayload(Validate(p).event) ==
      p.(isNewVisitor := Some(p.isNewVisitor.GetOr(false)), details := StoredDetails(p.details))
    ensures p.isNewVisitor.None? ==> !Validate(p).event.isNewVisitor
  {
    var e := Validate(p).event;
    assert TypeName(e.kind) == p.kind.value;
    if p.sessionStart.NoDate? {
      assert ToPayload(e).sessionStart == NoDate;
    }
    if p.geoTimestamp.NoDate? {
      assert ToPayload(e).geoTimestamp == NoDate;
    }
  }

  /** A String descriptive path stores the text it was sent, unchanged. */
  lemma StringDetailsVerbatim(d: map<Detail, JsonValue>, k: Detail)
    requires DetailsCast(d) && k in d && KindOf(k) == StringKind && d[k].JString?
    ensures StoredDetails(d)[k] == d[k]
  {
  }

  /** A Number path sent the text of a number stores that number, and a String path
      sent a number stores its text: the two casts are inverse on numbers. */
  lemma CastNumberText(n: int)
    ensures Cast(NumberKind, Cast(StringKind, JNumber(n)).value) == Some(JNumber(n))
  {
    NumberOfText(n);
  }

  /** Text that Number() reads as NaN fails the Number cast. */
  lemma WordIsNotANumber()
    ensures CastNumber(JString("deep")) == None
  {
    NumberOfWord("deep");
  }

  /** Text that a Number path cannot cast rejects the whole event, naming that path. */
  lemma ColorDepthRejected(p: Payload)
    requires p.details == map[ColorDepth := JString("deep")]
    ensures Validate(p).Rejected? && DetailPath(ColorDepth) in Validate(p).violations
  {
    WordIsNotANumber();
    assert Cast(KindOf(ColorDepth), p.details[ColorDepth]).None?;
  }

  /** Descriptive values that cast never decide validity: swapping them for others
      that cast leaves the verdict alone. */
  lemma DetailsDoNotMatter(p: Payload, d: map<Detail, JsonValue>)
    requires DetailsCast(p.details) && DetailsCast(d)
    ensures Violations(p.(details := d)) == Violations(p)
  {
  }
}
