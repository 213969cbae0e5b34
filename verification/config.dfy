/** The configuration data model: the bootstrap entry, the decoded application
    configuration and the `Configer` that wraps it. */
module Config {
  import opened Wrappers
  import opened Text

  /** Go's fixed-width integers, kept as bounded mathematical integers. */
  type Int64 = n: int | -0x8000_0000_0000_0000 <= n < 0x8000_0000_0000_0000
  type Uint16 = n: int | 0 <= n < 0x1_0000
  type Uint32 = n: int | 0 <= n < 0x1_0000_0000
  type Uint64 = n: int | 0 <= n < 0x1_0000_0000_0000_0000

  /** Go's `float64`: only ever compared, never computed with. */
  type Float64 = real

  /** Go's `time.Duration`, a signed nanosecond count. */
  type Duration = Int64

  /** The bootstrap descriptor read once at start-up. `configFormat` is
      documented as json/toml/yaml and `engineType` as etcd/file. */
  datatype Entry = Entry(
    configPath: string,
    configFormat: string,
    engineType: string,
    endPoints: seq<string>,
    userName: string,
    password: string,
    ext: map<string, string>)

  /** Logging sub-configuration; the only compared record without an enable flag. */
  datatype LogConf = LogConf(
    log: string,
    level: string,
    format: string,
    rotationTime: string,
    logDir: string,
    disableReportCaller: bool)

  datatype Redis = Redis(
    host: string,
    sentinelHost: string,
    sentinelMastername: string,
    pwd: string,
    poolSize: Int64,
    enable: bool)

  datatype MongoDB = MongoDB(
    name: string,
    host: string,
    user: string,
    pwd: string,
    maxPoolSize: Uint16,
    maxConnIdleTime: Uint32,
    enable: bool)

  datatype Mysql = Mysql(
    host: string,
    user: string,
    pwd: string,
    dataSourceName: string,
    charSet: string,
    parseTime: bool,
    connMaxLifetime: Duration,
    maxIdleConns: Int64,
    maxOpenConns: Int64,
    enable: bool)

  datatype Trace = Trace(
    serviceName: string,
    traceUrl: string,
    rate: Float64,
    sampler: string,
    mod: Uint64,
    onlyLogErr: bool,
    enable: bool)

  /** Free-form JSON values (`interface{}` fields) are kept as their opaque text. */
  type Opaque = string

  datatype EBus = EBus(
    hosts: seq<string>,
    services: map<string, Opaque>,
    paasId: string,
    paasToken: string,
    spId: string,
    pathMap: map<string, string>)

  datatype Obs = Obs(endpoint: string, ak: string, sk: string, bucketName: string, location: string)

  datatype TopicInfo = TopicInfo(category: string, source: string, queue: string, topic: string, handler: string)

  datatype Broker = Broker(
    hosts: seq<string>,
    kind: string,
    exchangeName: string,
    exchangeDurable: bool,
    exchangeKind: string,
    needAuth: bool,
    externalAuth: bool,
    user: string,
    pwd: string,
    topicPrefix: string,
    subscribeTopics: seq<Option<TopicInfo>>,
    enablePub: bool,
    enableSub: bool)

  datatype GoMicro = GoMicro(
    serviceName: string,
    serverPort: Uint32,
    advertise: string,
    registryPluginType: string,
    registryAddrs: seq<string>,
    registryAuthUser: string,
    registryAuthPwd: string)

  /** The decoded application configuration. */
  datatype AppConf = AppConf(
    logConf: LogConf,
    redis: Redis,
    mongoDB: MongoDB,
    mongoDBSource: map<string, MongoDB>,
    mysql: Mysql,
    redisSource: map<string, Redis>,
    brokerSource: map<string, Broker>,
    eBus: EBus,
    ext: map<string, Opaque>,
    trace: Trace,
    obs: Obs,
    broker: Broker,
    currentBusIdSpIdMap: map<string, string>,
    goMicro: GoMicro)

  /** The JSON decoder is outside the model: it maps raw bytes to a
      configuration, or fails. */
  type Decoder = Bytes -> Option<AppConf>

  /** The `Configer` contract: built by decoding raw bytes (which may fail),
      then `Get` hands out the decoded configuration. The only implementation
      is the JSON one. */
  datatype Configer = Jsoner(conf: AppConf) {
    function Get(): AppConf {
      conf
    }
  }

  /** `Jsoner.Init`: a configer exists exactly when the decoder accepts the bytes. */
  function JsonerInit(decode: Decoder, raw: Bytes): (r: Option<Configer>)
    ensures r.Some? <==> decode(raw).Some?
    ensures r.Some? ==> r.value.Get() == decode(raw).value
  {
    match decode(raw)
    case Some(conf) => Some(Jsoner(conf))
    case None => None
  }

  // Go zero values, the content of a freshly allocated struct.

  const ZeroLogConf := LogConf("", "", "", "", "", false)
  const ZeroRedis := Redis("", "", "", "", 0, false)
  const ZeroMongoDB := MongoDB("", "", "", "", 0, 0, false)
  const ZeroMysql := Mysql("", "", "", "", "", false, 0, 0, 0, false)
  const ZeroTrace := Trace("", "", 0.0, "", 0, false, false)
  const ZeroEBus := EBus([], map[], "", "", "", map[])
  const ZeroObs := Obs("", "", "", "", "")
  const ZeroBroker := Broker([], "", "", false, "", false, false, "", "", "", [], false, false)
  const ZeroGoMicro := GoMicro("", 0, "", "", [], "", "")
  const ZeroAppConf := AppConf(ZeroLogConf, ZeroRedis, ZeroMongoDB, map[], ZeroMysql, map[], map[],
                               ZeroEBus, map[], ZeroTrace, ZeroObs, ZeroBroker, map[], ZeroGoMicro)
}
