/**
 * The shared contract vocabulary of cloud_runtimes/types/common.py: the
 * integer-coded enums for state options and operations, the string-coded
 * HTTP verb, content type and status tables, and the records State,
 * StateOptions, Response and ETag.
 */
module Common {
  import opened Wrappers
  import opened Exceptions

  /** Metadata = Dict[str, str]. */
  type Metadata = map<string, string>

  /** Response[T]: a payload with optional metadata and an optional error. */
  datatype Response<T> = Response(
    data: T,
    metadata: Option<Metadata> := None,
    error: Option<CloudRuntimesException> := None)

  /** State[T]: a key-value item with an optional etag and optional metadata. */
  datatype State<T> = State(
    key: string,
    value: T,
    etag: Option<string> := None,
    metadata: Option<Metadata> := None)

  /** An entity tag for optimistic concurrency control. */
  datatype ETag = ETag(value: string)

  /** Two independent optional axes, both absent by default. */
  datatype StateOptions = StateOptions(
    concurrency: Option<StateConcurrency> := None,
    consistency: Option<StateConsistency> := None)

  /** Omitting the optional fields of State and Response leaves them absent. */
  lemma RecordDefaults<T>(key: string, value: T, data: T)
    ensures State(key, value).etag == None && State(key, value).metadata == None
    ensures State(key, value) == State(key, value, None, None)
    ensures Response(data).metadata == None && Response(data).error == None
  {
  }

  /** Every pair of optional axes is a StateOptions value, and each axis reads back unchanged. */
  lemma StateOptionsAxesIndependent(concurrency: Option<StateConcurrency>, consistency: Option<StateConsistency>)
    ensures StateOptions(concurrency, consistency).concurrency == concurrency
    ensures StateOptions(concurrency, consistency).consistency == consistency
    ensures StateOptions().concurrency == None && StateOptions().consistency == None
  {
  }

  // ---------------------------------------------------------------------------
  // Integer-coded enums (IntEnum). Encoding is the member's value; decoding is
  // the enum call StateConsistency(n), which raises ValueError outside 0..2.

  datatype StateConsistency = ConsistencyUndefined | Eventual | Strong

  function ConsistencyValue(c: StateConsistency): int {
    match c
    case ConsistencyUndefined => 0
    case Eventual => 1
    case Strong => 2
  }

  function ConsistencyOf(n: int): Option<StateConsistency> {
    if n == 0 then Some(ConsistencyUndefined)
    else if n == 1 then Some(Eventual)
    else if n == 2 then Some(Strong)
    else None
  }

  /** Decoding is defined exactly on 0..2, and it inverts the encoding in both directions. */
  lemma ConsistencyRoundTrip(c: StateConsistency, n: int)
    ensures ConsistencyOf(ConsistencyValue(c)) == Some(c)
    ensures ConsistencyOf(n).Some? <==> 0 <= n <= 2
    ensures ConsistencyOf(n) == Some(c) <==> ConsistencyValue(c) == n
  {
  }

  datatype StateConcurrency = ConcurrencyUndefined | FirstWrite | LastWrite

  function ConcurrencyValue(c: StateConcurrency): int {
    match c
    case ConcurrencyUndefined => 0
    case FirstWrite => 1
    case LastWrite => 2
  }

  function ConcurrencyOf(n: int): Option<StateConcurrency> {
    if n == 0 then Some(ConcurrencyUndefined)
    else if n == 1 then Some(FirstWrite)
    else if n == 2 then Some(LastWrite)
    else None
  }

  /** Decoding is defined exactly on 0..2, and it inverts the encoding in both directions. */
  lemma ConcurrencyRoundTrip(c: StateConcurrency, n: int)
    ensures ConcurrencyOf(ConcurrencyValue(c)) == Some(c)
    ensures ConcurrencyOf(n).Some? <==> 0 <= n <= 2
    ensures ConcurrencyOf(n) == Some(c) <==> ConcurrencyValue(c) == n
  {
  }

  datatype OperationType = OperationUndefined | Upsert | Delete

  function OperationValue(t: OperationType): int {
    match t
    case OperationUndefined => 0
    case Upsert => 1
    case Delete => 2
  }

  function OperationOf(n: int): Option<OperationType> {
    if n == 0 then Some(OperationUndefined)
    else if n == 1 then Some(Upsert)
    else if n == 2 then Some(Delete)
    else None
  }

  /** Decoding is defined exactly on 0..2, and it inverts the encoding in both directions. */
  lemma OperationRoundTrip(t: OperationType, n: int)
    ensures OperationOf(OperationValue(t)) == Some(t)
    ensures OperationOf(n).Some? <==> 0 <= n <= 2
    ensures OperationOf(n) == Some(t) <==> OperationValue(t) == n
  {
  }

  // ---------------------------------------------------------------------------
  // String-coded enums (str, Enum). Decoding is the enum call HTTPVerb(s),
  // which raises ValueError for a string that is no member's value.

  /** The seven HTTP verbs; each member's value is its own upper-case name. */
  datatype HTTPVerb = GET | POST | PUT | DELETE | PATCH | HEAD | OPTIONS

  function VerbValue(v: HTTPVerb): string {
    match v
    case GET => "GET"
    case POST => "POST"
    case PUT => "PUT"
    case DELETE => "DELETE"
    case PATCH => "PATCH"
    case HEAD => "HEAD"
    case OPTIONS => "OPTIONS"
  }

  function VerbOf(s: string): Option<HTTPVerb> {
    if s == "GET" then Some(GET)
    else if s == "POST" then Some(POST)
    else if s == "PUT" then Some(PUT)
    else if s == "DELETE" then Some(DELETE)
    else if s == "PATCH" then Some(PATCH)
    else if s == "HEAD" then Some(HEAD)
    else if s == "OPTIONS" then Some(OPTIONS)
    else None
  }

  /** Looking a verb up by its value gives it back, and nothing else decodes to it. */
  lemma VerbRoundTrip(v: HTTPVerb, s: string)
    ensures VerbOf(VerbValue(v)) == Some(v)
    ensures VerbOf(s) == Some(v) <==> VerbValue(v) == s
  {
  }

  /** The seven verb strings are pairwise distinct. */
  lemma VerbValueInjective(v: HTTPVerb, w: HTTPVerb)
    requires VerbValue(v) == VerbValue(w)
    ensures v == w
  {
  }

  /** The eight content types. */
  datatype ContentType = JSON | TEXT | BINARY | XML | PROTOBUF | YAML | FORM | MULTIPART

  function ContentTypeValue(t: ContentType): string {
    match t
    case JSON => "application/json"
    case TEXT => "text/plain"
    case BINARY => "application/octet-stream"
    case XML => "application/xml"
    case PROTOBUF => "application/x-protobuf"
    case YAML => "application/x-yaml"
    case FORM => "application/x-www-form-urlencoded"
    case MULTIPART => "multipart/form-data"
  }

  function ContentTypeOf(s: string): Option<ContentType> {
    if s == "application/json" then Some(JSON)
    else if s == "text/plain" then Some(TEXT)
    else if s == "application/octet-stream" then Some(BINARY)
    else if s == "application/xml" then Some(XML)
    else if s == "application/x-protobuf" then Some(PROTOBUF)
    else if s == "application/x-yaml" then Some(YAML)
    else if s == "application/x-www-form-urlencoded" then Some(FORM)
    else if s == "multipart/form-data" then Some(MULTIPART)
    else None
  }

  /** Looking a content type up by its value gives it back, and nothing else decodes to it. */
  lemma ContentTypeRoundTrip(t: ContentType, s: string)
    ensures ContentTypeOf(ContentTypeValue(t)) == Some(t)
    ensures ContentTypeOf(s) == Some(t) <==> ContentTypeValue(t) == s
  {
  }

  /** The eight content type strings are pairwise distinct. */
  lemma ContentTypeValueInjective(t: ContentType, u: ContentType)
    requires ContentTypeValue(t) == ContentTypeValue(u)
    ensures t == u
  {
  }

  /** The six common status values. */
  datatype Status = PENDING | ACTIVE | INACTIVE | COMPLETED | FAILED | CANCELLED

  function StatusValue(s: Status): string {
    match s
    case PENDING => "pending"
    case ACTIVE => "active"
    case INACTIVE => "inactive"
    case COMPLETED => "completed"
    case FAILED => "failed"
    case CANCELLED => "cancelled"
  }

  function StatusOf(s: string): Option<Status> {
    if s == "pending" then Some(PENDING)
    else if s == "active" then Some(ACTIVE)
    else if s == "inactive" then Some(INACTIVE)
    else if s == "completed" then Some(COMPLETED)
    else if s == "failed" then Some(FAILED)
    else if s == "cancelled" then Some(CANCELLED)
    else None
  }

  /** Looking a status up by its value gives it back, and nothing else decodes to it. */
  lemma StatusRoundTrip(st: Status, s: string)
    ensures StatusOf(StatusValue(st)) == Some(st)
    ensures StatusOf(s) == Some(st) <==> StatusValue(st) == s
  {
  }

  /** The six status strings are pairwise distinct. */
  lemma StatusValueInjective(s: Status, t: Status)
    requires StatusValue(s) == StatusValue(t)
    ensures s == t
  {
  }
}
