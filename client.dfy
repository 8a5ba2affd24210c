/**
 * The capability facade of cloud_runtimes/client.py. A client holds its
 * connection settings and sixteen capability slots, all unbound at
 * construction. Each accessor reads exactly one slot: it returns the bound
 * provider, or fails with NotImplementedError naming the capability.
 */
module Client {
  import opened Wrappers
  import opened Values
  import opened Exceptions
  import StateRuntime
  import ConfigurationRuntime
  import InvocationRuntime
  import PubSubRuntime

  // Providers of the capabilities whose interfaces are not part of this
  // model: the facade only stores and returns them.
  type SecretsRuntimes
  type BindingRuntimes
  type DatabaseRuntimes
  type FileRuntimes
  type LockRuntimes
  type TelemetryRuntimes
  type RedisRuntimes
  type SqlRuntimes
  type S3Runtimes
  type EmailRuntimes
  type SMSRuntimes
  type EncryptionRuntimes

  /** The sixteen capabilities the client exposes, in declaration order. */
  datatype Capability =
    | Invocation | State | Configuration | PubSub | Secrets | Binding
    | Database | File | Lock | Telemetry
    | Redis | Sql | S3
    | Email | Sms | Encryption

  /** The capability's name as its accessor's NotImplementedError message spells it. */
  function CapabilityName(c: Capability): string {
    match c
    case Invocation => "Invocation"
    case State => "State"
    case Configuration => "Configuration"
    case PubSub => "PubSub"
    case Secrets => "Secrets"
    case Binding => "Binding"
    case Database => "Database"
    case File => "File"
    case Lock => "Lock"
    case Telemetry => "Telemetry"
    case Redis => "Redis"
    case Sql => "SQL"
    case S3 => "S3"
    case Email => "Email"
    case Sms => "SMS"
    case Encryption => "Encryption"
  }

  /** The capability a name belongs to: the inverse of CapabilityName. */
  function CapabilityOfName(s: string): Option<Capability> {
    if s == "Invocation" then Some(Invocation)
    else if s == "State" then Some(State)
    else if s == "Configuration" then Some(Configuration)
    else if s == "PubSub" then Some(PubSub)
    else if s == "Secrets" then Some(Secrets)
    else if s == "Binding" then Some(Binding)
    else if s == "Database" then Some(Database)
    else if s == "File" then Some(File)
    else if s == "Lock" then Some(Lock)
    else if s == "Telemetry" then Some(Telemetry)
    else if s == "Redis" then Some(Redis)
    else if s == "SQL" then Some(Sql)
    else if s == "S3" then Some(S3)
    else if s == "Email" then Some(Email)
    else if s == "SMS" then Some(Sms)
    else if s == "Encryption" then Some(Encryption)
    else None
  }

  lemma CapabilityNameRoundTrip(c: Capability)
    ensures CapabilityOfName(CapabilityName(c)) == Some(c)
  {
  }

  /** The failure an accessor raises when its slot is unbound. */
  function UnboundFailure(c: Capability): (f: Failure)
    ensures f.Unbound? && f.Kind() == None
    ensures f.Message() == CapabilityName(c) + " runtime not implemented"
  {
    Unbound(CapabilityName(c))
  }

  /** Different capabilities fail with different messages, so the message names the capability. */
  lemma UnboundMessageIdentifiesCapability(a: Capability, b: Capability)
    requires UnboundFailure(a).Message() == UnboundFailure(b).Message()
    ensures a == b
  {
    var suffix := " runtime not implemented";
    var na, nb := CapabilityName(a), CapabilityName(b);
    var ma, mb := na + suffix, nb + suffix;
    assert |na| == |nb|;
    assert na == ma[..|na|];
    assert nb == mb[..|nb|];
    CapabilityNameRoundTrip(a);
    CapabilityNameRoundTrip(b);
  }

  /** No unbound failure reads like a taxonomy exception: their texts never coincide. */
  lemma UnboundTextIsNoExceptionText(c: Capability, e: CloudRuntimesException)
    ensures UnboundFailure(c).Message() != Text(e)
  {
    var t := Text(e);
    var m := UnboundFailure(c).Message();
    assert t[0] == 'C' && t[1] == 'l';
    assert m[0] == CapabilityName(c)[0] && m[1] == CapabilityName(c)[1];
  }

  /** The default endpoint when none (or an empty one) is given. */
  const DEFAULT_ENDPOINT: string := "http://localhost:3500"

  /** The default timeout in seconds when none (or zero) is given. */
  const DEFAULT_TIMEOUT: real := 30.0

  /** `endpoint or "http://localhost:3500"`: None and "" are falsy. */
  function EndpointOrDefault(endpoint: Option<string>): (r: string)
    ensures endpoint.None? || endpoint.value == "" ==> r == DEFAULT_ENDPOINT
    ensures endpoint.Some? && endpoint.value != "" ==> r == endpoint.value
    ensures r != ""
  {
    if endpoint.None? || endpoint.value == "" then DEFAULT_ENDPOINT else endpoint.value
  }

  /** `timeout or 30.0`: None and 0.0 are falsy. */
  function TimeoutOrDefault(timeout: Option<real>): (r: real)
    ensures timeout.None? || timeout.value == 0.0 ==> r == DEFAULT_TIMEOUT
    ensures timeout.Some? && timeout.value != 0.0 ==> r == timeout.value
    ensures r != 0.0
  {
    if timeout.None? || timeout.value == 0.0 then DEFAULT_TIMEOUT else timeout.value
  }

  /** Feeding a resolved setting back in changes nothing: the fallback applies at most once. */
  lemma SettingsFallbackIdempotent(endpoint: Option<string>, timeout: Option<real>)
    ensures EndpointOrDefault(Some(EndpointOrDefault(endpoint))) == EndpointOrDefault(endpoint)
    ensures TimeoutOrDefault(Some(TimeoutOrDefault(timeout))) == TimeoutOrDefault(timeout)
  {
  }

  /** The failure a call raised, if it raised one. */
  function ErrorOf<T>(r: Result<T, Failure>): Option<Failure> {
    if r.Err? then Some(r.error) else None
  }

  class CloudRuntimesClient {
    var endpoint: string
    var timeout: real
    /** The extra keyword options, stored as given. */
    var config: map<string, Value>

    // The capability slots. The source has no bind operation; a slot is bound
    // by assigning it.
    var invocation: Option<InvocationRuntime.InvocationRuntimes>
    var state: Option<StateRuntime.StateRuntimes>
    var configuration: Option<ConfigurationRuntime.ConfigurationRuntimes>
    var pubsub: Option<PubSubRuntime.PubSubRuntimes>
    var secrets: Option<SecretsRuntimes>
    var binding: Option<BindingRuntimes>
    var database: Option<DatabaseRuntimes>
    var file: Option<FileRuntimes>
    var lock: Option<LockRuntimes>
    var telemetry: Option<TelemetryRuntimes>
    var redis: Option<RedisRuntimes>
    var sql: Option<SqlRuntimes>
    var s3: Option<S3Runtimes>
    var email: Option<EmailRuntimes>
    var sms: Option<SMSRuntimes>
    var encryption: Option<EncryptionRuntimes>

    /** Whether capability c's slot holds a provider. */
    predicate IsBound(c: Capability)
      reads this
    {
      match c
      case Invocation => invocation.Some?
      case State => state.Some?
      case Configuration => configuration.Some?
      case PubSub => pubsub.Some?
      case Secrets => secrets.Some?
      case Binding => binding.Some?
      case Database => database.Some?
      case File => file.Some?
      case Lock => lock.Some?
      case Telemetry => telemetry.Some?
      case Redis => redis.Some?
      case Sql => sql.Some?
      case S3 => s3.Some?
      case Email => email.Some?
      case Sms => sms.Some?
      case Encryption => encryption.Some?
    }

    ghost predicate AllUnbound()
      reads this
    {
      forall c :: !IsBound(c)
    }

    /**
     * `CloudRuntimesClient(endpoint, timeout, **kwargs)`. Python binds the
     * names endpoint and timeout to the parameters, so they never occur
     * among the extra options.
     */
    constructor (endpoint: Option<string> := None, timeout: Option<real> := None,
                 kwargs: map<string, Value> := map[])
      requires "endpoint" !in kwargs && "timeout" !in kwargs
      ensures this.endpoint == EndpointOrDefault(endpoint)
      ensures this.timeout == TimeoutOrDefault(timeout)
      ensures config == kwargs
      ensures AllUnbound()
    {
      this.endpoint := EndpointOrDefault(endpoint);
      this.timeout := TimeoutOrDefault(timeout);
      config := kwargs;
      invocation, state, configuration, pubsub, secrets, binding := None, None, None, None, None, None;
      database, file, lock, telemetry := None, None, None, None;
      redis, sql, s3 := None, None, None;
      email, sms, encryption := None, None, None;
    }

    // The sixteen read-only accessors. Each reads its own slot and nothing else.

    function Invocation(): (r: Result<InvocationRuntime.InvocationRuntimes, Failure>)
      reads this`invocation
      ensures r.Ok? <==> invocation.Some?
      ensures r.Ok? ==> r.value == invocation.value
      ensures r.Err? ==> r.error == UnboundFailure(Capability.Invocation)
    {
      if invocation.None? then Err(Unbound("Invocation")) else Ok(invocation.value)
    }

    function State(): (r: Result<StateRuntime.StateRuntimes, Failure>)
      reads this`state
      ensures r.Ok? <==> state.Some?
      ensures r.Ok? ==> r.value == state.value
      ensures r.Err? ==> r.error == UnboundFailure(Capability.State)
    {
      if state.None? then Err(Unbound("State")) else Ok(state.value)
    }

    function Configuration(): (r: Result<ConfigurationRuntime.ConfigurationRuntimes, Failure>)
      reads this`configuration
      ensures r.Ok? <==> configuration.Some?
      ensures r.Ok? ==> r.value == configuration.value
      ensures r.Err? ==> r.error == UnboundFailure(Capability.Configuration)
    {
      if configuration.None? then Err(Unbound("Configuration")) else Ok(configuration.value)
    }

    function PubSub(): (r: Result<PubSubRuntime.PubSubRuntimes, Failure>)
      reads this`pubsub
      ensures r.Ok? <==> pubsub.Some?
      ensures r.Ok? ==> r.value == pubsub.value
      ensures r.Err? ==> r.error == UnboundFailure(Capability.PubSub)
    {
      if pubsub.None? then Err(Unbound("PubSub")) else Ok(pubsub.value)
    }

    function Secrets(): (r: Result<SecretsRuntimes, Failure>)
      reads this`secrets
      ensures r.Ok? <==> secrets.Some?
      ensures r.Ok? ==> r.value == secrets.value
      ensures r.Err? ==> r.error == UnboundFailure(Capability.Secrets)
    {
      if secrets.None? then Err(Unbound("Secrets")) else Ok(secrets.value)
    }

    function Binding(): (r: Result<BindingRuntimes, Failure>)
      reads this`binding
      ensures r.Ok? <==> binding.Some?
      ensures r.Ok? ==> r.value == binding.value
      ensures r.Err? ==> r.error == UnboundFailure(Capability.Binding)
    {
      if binding.None? then Err(Unbound("Binding")) else Ok(binding.value)
    }

    function Database(): (r: Result<DatabaseRuntimes, Failure>)
      reads this`database
      ensures r.Ok? <==> database.Some?
      ensures r.Ok? ==> r.value == database.value
      ensures r.Err? ==> r.error == UnboundFailure(Capability.Database)
    {
      if database.None? then Err(Unbound("Database")) else Ok(database.value)
    }

    function File(): (r: Result<FileRuntimes, Failure>)
      reads this`file
      ensures r.Ok? <==> file.Some?
      ensures r.Ok? ==> r.value == file.value
      ensures r.Err? ==> r.error == UnboundFailure(Capability.File)
    {
      if file.None? then Err(Unbound("File")) else Ok(file.value)
    }

    function Lock(): (r: Result<LockRuntimes, Failure>)
      reads this`lock
      ensures r.Ok? <==> lock.Some?
      ensures r.Ok? ==> r.value == lock.value
      ensures r.Err? ==> r.error == UnboundFailure(Capability.Lock)
    {
      if lock.None? then Err(Unbound("Lock")) else Ok(lock.value)
    }

    function Telemetry(): (r: Result<TelemetryRuntimes, Failure>)
      reads this`telemetry
      ensures r.Ok? <==> telemetry.Some?
      ensures r.Ok? ==> r.value == telemetry.value
      ensures r.Err? ==> r.error == UnboundFailure(Capability.Telemetry)
    {
      if telemetry.None? then Err(Unbound("Telemetry")) else Ok(telemetry.value)
    }

    function Redis(): (r: Result<RedisRuntimes, Failure>)
      reads this`redis
      ensures r.Ok? <==> redis.Some?
      ensures r.Ok? ==> r.value == redis.value
      ensures r.Err? ==> r.error == UnboundFailure(Capability.Redis)
    {
      if redis.None? then Err(Unbound("Redis")) else Ok(redis.value)
    }

    function Sql(): (r: Result<SqlRuntimes, Failure>)
      reads this`sql
      ensures r.Ok? <==> sql.Some?
      ensures r.Ok? ==> r.value == sql.value
      ensures r.Err? ==> r.error == UnboundFailure(Capability.Sql)
    {
      if sql.None? then Err(Unbound("SQL")) else Ok(sql.value)
    }

    function S3(): (r: Result<S3Runtimes, Failure>)
      reads this`s3
      ensures r.Ok? <==> s3.Some?
      ensures r.Ok? ==> r.value == s3.value
      ensures r.Err? ==> r.error == UnboundFailure(Capability.S3)
    {
      if s3.None? then Err(Unbound("S3")) else Ok(s3.value)
    }

    function Email(): (r: Result<EmailRuntimes, Failure>)
      reads this`email
      ensures r.Ok? <==> email.Some?
      ensures r.Ok? ==> r.value == email.value
      ensures r.Err? ==> r.error == UnboundFailure(Capability.Email)
    {
      if email.None? then Err(Unbound("Email")) else Ok(email.value)
    }

    function Sms(): (r: Result<SMSRuntimes, Failure>)
      reads this`sms
      ensures r.Ok? <==> sms.Some?
      ensures r.Ok? ==> r.value == sms.value
      ensures r.Err? ==> r.error == UnboundFailure(Capability.Sms)
    {
      if sms.None? then Err(Unbound("SMS")) else Ok(sms.value)
    }

    function Encryption(): (r: Result<EncryptionRuntimes, Failure>)
      reads this`encryption
      ensures r.Ok? <==> encryption.Some?
      ensures r.Ok? ==> r.value == encryption.value
      ensures r.Err? ==> r.error == UnboundFailure(Capability.Encryption)
    {
      if encryption.None? then Err(Unbound("Encryption")) else Ok(encryption.value)
    }

    /** What reading capability c's accessor raises, if anything: all sixteen accessors, viewed uniformly. */
    function AccessFailure(c: Capability): Option<Failure>
      reads this
    {
      match c
      case Invocation => ErrorOf(Invocation())
      case State => ErrorOf(State())
      case Configuration => ErrorOf(Configuration())
      case PubSub => ErrorOf(PubSub())
      case Secrets => ErrorOf(Secrets())
      case Binding => ErrorOf(Binding())
      case Database => ErrorOf(Database())
      case File => ErrorOf(File())
      case Lock => ErrorOf(Lock())
      case Telemetry => ErrorOf(Telemetry())
      case Redis => ErrorOf(Redis())
      case Sql => ErrorOf(Sql())
      case S3 => ErrorOf(S3())
      case Email => ErrorOf(Email())
      case Sms => ErrorOf(Sms())
      case Encryption => ErrorOf(Encryption())
    }

    /** close(): nothing to release; it changes nothing and can be called any number of times. */
    method Close()
      ensures unchanged(this)
    {
    }

    /** __aenter__: the client itself. */
    method AEnter() returns (c: CloudRuntimesClient)
      ensures c == this
    {
      c := this;
    }

    /**
     * __aexit__: calls close and returns None, which Python reads as
     * "do not suppress" the exception in flight, if any.
     */
    method AExit(excType: Option<Value>, excValue: Option<Value>, traceback: Option<Value>) returns (suppress: bool)
      ensures !suppress
      ensures unchanged(this)
    {
      Close();
      suppress := false;
    }
  }

  /** Every accessor fails exactly when its slot is unbound, and then with the failure naming its capability. */
  lemma AccessFailsExactlyWhenUnbound(client: CloudRuntimesClient, c: Capability)
    ensures client.AccessFailure(c) == if client.IsBound(c) then None else Some(UnboundFailure(c))
  {
  }

  /** On a client nobody has bound a provider into, all sixteen accessors raise NotImplementedError. */
  lemma FreshClientAccessorsAllFail(client: CloudRuntimesClient)
    requires client.AllUnbound()
    ensures forall c :: client.AccessFailure(c) == Some(UnboundFailure(c))
  {
    forall c
      ensures client.AccessFailure(c) == Some(UnboundFailure(c))
    {
      AccessFailsExactlyWhenUnbound(client, c);
    }
  }
}
