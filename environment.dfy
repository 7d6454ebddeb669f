/**
 * `NewEnvironment` of service/servicecfg/environment.go: choose the
 * service-discovery backend from decoded configuration, by a fixed priority.
 *
 * The configuration decoder, the Zookeeper and Consul environment factories
 * and `service.NewEnvironment` are library code: the decoder's outcome is a
 * parameter, and the result says which constructor is called with which
 * arguments.  The defaults that `Options.vnodeCount()` and
 * `Options.defaultScheme()` apply to their fields are passed in as functions.
 */
module ServiceCfg {
  import opened Results

  /** A go-kit logger; `DefaultLogger` is `logging.DefaultLogger()`. */
  datatype Logger = DefaultLogger | NamedLogger(name: string)

  /** The Zookeeper and Consul settings, handed to their factories unread. */
  datatype ZookeeperSettings = ZookeeperSettings(servers: seq<string>, path: string)
  datatype ConsulSettings = ConsulSettings(address: string, datacenter: string)

  /** The decoded service-discovery configuration. */
  datatype Options = Options(
    vnodeCount: int,
    defaultScheme: string,
    fixed: seq<string>,
    zookeeper: Option<ZookeeperSettings>,
    consul: Option<ConsulSettings>)

  /** The environment options handed on; `Caller` stands for an option the caller supplied. */
  datatype EnvironmentOption =
    | WithAccessorFactory(vnodeCount: int)
    | WithDefaultScheme(scheme: string)
    | WithFixedInstancers(instances: seq<string>)
    | Caller(tag: nat)

  /** The environment constructed, as the call that constructs it. */
  datatype Environment =
    | FixedEnvironment(options: seq<EnvironmentOption>)
    | ZookeeperEnvironment(logger: Logger, zookeeper: ZookeeperSettings, options: seq<EnvironmentOption>)
    | ConsulEnvironment(logger: Logger, scheme: string, consul: ConsulSettings, options: seq<EnvironmentOption>)

  /** A decoding error, or `errNoServiceDiscovery`. */
  datatype Error = UnmarshalError(text: string) | NoServiceDiscovery {
    /** The text `Error()` returns. */
    function Message(): string
    {
      match this
      case UnmarshalError(text) => text
      case NoServiceDiscovery => "No service discovery configured"
    }
  }

  /** The logger handed to the Zookeeper and Consul factories: the caller's, or the default for nil. */
  function LoggerOrDefault(l: Option<Logger>): (r: Logger)
    ensures l.Some? ==> r == l.value
    ensures l.None? ==> r == DefaultLogger
  {
    if l.None? then DefaultLogger else l.value
  }

  /** The two options every environment starts with, before the caller's. */
  function BaseOptions(o: Options, vnodeCountOf: int -> int, defaultSchemeOf: string -> string): seq<EnvironmentOption>
  {
    [WithAccessorFactory(vnodeCountOf(o.vnodeCount)), WithDefaultScheme(defaultSchemeOf(o.defaultScheme))]
  }

  /**
   * A fixed instance list wins over everything; then Zookeeper; then Consul;
   * with none of them configured the result is `NoServiceDiscovery`.  A
   * decoding error is returned before any backend is looked at.
   */
  function NewEnvironment(
    l: Option<Logger>,
    decoded: Result<Options, string>,
    options: seq<EnvironmentOption>,
    vnodeCountOf: int -> int,
    defaultSchemeOf: string -> string): (r: Result<Environment, Error>)
    ensures decoded.Failure? ==> r == Failure(UnmarshalError(decoded.error))
    ensures decoded.Success? && decoded.value.fixed != [] ==>
              r == Success(FixedEnvironment(
                     BaseOptions(decoded.value, vnodeCountOf, defaultSchemeOf) + options
                     + [WithFixedInstancers(decoded.value.fixed)]))
    ensures decoded.Success? && decoded.value.fixed == [] && decoded.value.zookeeper.Some? ==>
              r == Success(ZookeeperEnvironment(
                     LoggerOrDefault(l), decoded.value.zookeeper.value,
                     BaseOptions(decoded.value, vnodeCountOf, defaultSchemeOf) + options))
    ensures decoded.Success? && decoded.value.fixed == [] && decoded.value.zookeeper.None? && decoded.value.consul.Some? ==>
              r == Success(ConsulEnvironment(
                     LoggerOrDefault(l), decoded.value.defaultScheme, decoded.value.consul.value,
                     BaseOptions(decoded.value, vnodeCountOf, defaultSchemeOf) + options))
    ensures r.Success? && r.value.ZookeeperEnvironment? <==>
              decoded.Success? && decoded.value.fixed == [] && decoded.value.zookeeper.Some?
    ensures r.Success? && r.value.ConsulEnvironment? <==>
              decoded.Success? && decoded.value.fixed == [] && decoded.value.zookeeper.None? && decoded.value.consul.Some?
    ensures r == Failure(NoServiceDiscovery) <==>
              decoded.Success? && decoded.value.fixed == [] && decoded.value.zookeeper.None? && decoded.value.consul.None?
    ensures r.Success? ==>
              && |r.value.options| >= 2 + |options|
              && r.value.options[..2] == BaseOptions(decoded.value, vnodeCountOf, defaultSchemeOf)
              && r.value.options[2..2 + |options|] == options
    ensures r.Failure? ==> r.error.Message() == (if decoded.Failure? then decoded.error else "No service discovery configured")
  {
    var logger := LoggerOrDefault(l);
    match decoded
    case Failure(e) => Failure(UnmarshalError(e))
    case Success(o) =>
      var eo := BaseOptions(o, vnodeCountOf, defaultSchemeOf) + options;
      if |o.fixed| > 0 then
        Success(FixedEnvironment(eo + [WithFixedInstancers(o.fixed)]))
      else if o.zookeeper.Some? then
        Success(ZookeeperEnvironment(logger, o.zookeeper.value, eo))
      else if o.consul.Some? then
        Success(ConsulEnvironment(logger, o.defaultScheme, o.consul.value, eo))
      else
        Failure(NoServiceDiscovery)
  }

  /** Changing the Zookeeper or Consul settings never changes the choice of a fixed instance list. */
  lemma FixedIgnoresOtherBackends(
    l: Option<Logger>, o1: Options, o2: Options, options: seq<EnvironmentOption>,
    vnodeCountOf: int -> int, defaultSchemeOf: string -> string)
    requires o1.fixed == o2.fixed != []
    requires o1.(zookeeper := o2.zookeeper, consul := o2.consul) == o2
    ensures NewEnvironment(l, Success(o1), options, vnodeCountOf, defaultSchemeOf)
         == NewEnvironment(l, Success(o2), options, vnodeCountOf, defaultSchemeOf)
  {
  }

  /** With no fixed list, Zookeeper settings win over Consul settings, whatever they are. */
  lemma ZookeeperBeforeConsul(
    l: Option<Logger>, o: Options, options: seq<EnvironmentOption>,
    vnodeCountOf: int -> int, defaultSchemeOf: string -> string)
    requires o.fixed == [] && o.zookeeper.Some?
    ensures forall c :: NewEnvironment(l, Success(o.(consul := c)), options, vnodeCountOf, defaultSchemeOf)
                     == NewEnvironment(l, Success(o), options, vnodeCountOf, defaultSchemeOf)
  {
  }
}
