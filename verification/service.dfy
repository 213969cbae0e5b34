/** The service bootstrap's decisions: option folding, the entry-path default,
    engine selection, the log override merge, change processing and the
    server port/name precedence. */
module Service {
  import opened Wrappers
  import opened Text
  import opened Config
  import opened Channel
  import Container

  /** The programmatic options that take part in the modelled decisions. */
  datatype Options = Options(
    confEntryPath: string,
    log: string,
    logFormat: string,
    logLevel: string,
    port: Int64,
    serviceName: string,
    apiInterface: string,
    apiPort: Int64,
    swaggerJSONFileName: string)

  const ZeroOptions := Options("", "", "", "", 0, "", "", 0, "")

  /** A functional option (`func(*Options)`), or nil. */
  type OptionFn = Option<Options -> Options>

  // ----- NewService -----

  /** Apply the options in order, skipping nil ones. */
  function FoldOptions(o: Options, opts: seq<OptionFn>): Options
    decreases |opts|
  {
    if |opts| == 0 then o
    else FoldOptions(if opts[0].Some? then opts[0].value(o) else o, opts[1..])
  }

  /** Folding a concatenation is folding one list after the other. */
  lemma {:induction false} FoldOptionsAppend(o: Options, a: seq<OptionFn>, b: seq<OptionFn>)
    ensures FoldOptions(o, a + b) == FoldOptions(FoldOptions(o, a), b)
    decreases |a|
  {
    if |a| > 0 {
      assert (a + b)[1..] == a[1..] + b;
      FoldOptionsAppend(if a[0].Some? then a[0].value(o) else o, a[1..], b);
    } else {
      assert a + b == b;
    }
  }

  /** Nil options are skipped: folding them changes nothing. */
  lemma {:induction false} FoldNilOptions(o: Options, opts: seq<OptionFn>)
    requires forall i | 0 <= i < |opts| :: opts[i].None?
    ensures FoldOptions(o, opts) == o
    decreases |opts|
  {
    if |opts| > 0 {
      FoldNilOptions(o, opts[1..]);
    }
  }

  /** The option-folding loop of `NewService`. */
  method ApplyOptions(options: Options, opts: seq<OptionFn>) returns (o: Options)
    ensures o == FoldOptions(options, opts)
  {
    o := options;
    var i := 0;
    while i < |opts|
      invariant 0 <= i <= |opts|
      invariant FoldOptions(options, opts) == FoldOptions(o, opts[i..])
      decreases |opts| - i
    {
      assert opts[i..][1..] == opts[i + 1..];
      if opts[i].Some? {
        o := opts[i].value(o);
      }
      i := i + 1;
    }
  }

  /** The entry-file path used before any option sets one: by operating system. */
  function DefaultEntryPath(goos: string): (p: string)
    ensures goos in {"linux", "darwin"} ==> p == "/etc/broccoli/broccoli.json"
    ensures goos !in {"linux", "darwin"} ==> p == "C:\\broccoli\\broccoli.json"
  {
    if goos == "linux" || goos == "darwin" then "/etc/broccoli/broccoli.json"
    else "C:\\broccoli\\broccoli.json"
  }

  /** What `NewService` produces: the service's folded options, and the
      entry-file path the bootstrap will read. */
  datatype NewServiceResult = NewServiceResult(options: Options, confEntryPath: string)

  /** `NewService` as written: the options are folded, but the entry path is
      taken from the options as passed in, before folding. */
  function NewServiceAsWritten(options: Options, opts: seq<OptionFn>, entryPath: string): (s: NewServiceResult)
    ensures s.options == FoldOptions(options, opts)
    ensures s.confEntryPath == (if IsEmptyString(options.confEntryPath) then entryPath else options.confEntryPath)
  {
    var o := FoldOptions(options, opts);
    NewServiceResult(o, if !IsEmptyString(options.confEntryPath) then options.confEntryPath else entryPath)
  }

  /** An option that sets the entry path is stored in the service's options
      and yet ignored when choosing the file to read. */
  lemma EntryPathOptionIgnored()
    ensures var opt: OptionFn := Some((o: Options) => o.(confEntryPath := "/srv/app/broccoli.json"));
      var s := NewServiceAsWritten(ZeroOptions, [opt], DefaultEntryPath("linux"));
      && s.options.confEntryPath == "/srv/app/broccoli.json"
      && s.confEntryPath == "/etc/broccoli/broccoli.json"
  {
  }

  /** `NewService` reading the entry path from the folded options: the path
      the service reads is always the one its own options name, falling back
      to the current default only when they name none. */
  function NewService(options: Options, opts: seq<OptionFn>, entryPath: string): (s: NewServiceResult)
    ensures s.options == FoldOptions(options, opts)
    ensures !IsEmptyString(s.options.confEntryPath) ==> s.confEntryPath == s.options.confEntryPath
    ensures IsEmptyString(s.options.confEntryPath) ==> s.confEntryPath == entryPath
  {
    var o := FoldOptions(options, opts);
    NewServiceResult(o, if !IsEmptyString(o.confEntryPath) then o.confEntryPath else entryPath)
  }

  /** When no option function is given, the corrected and the as-written
      `NewService` agree. */
  lemma NewServiceAgreesWithoutOptionFns(options: Options, entryPath: string)
    ensures NewService(options, [], entryPath) == NewServiceAsWritten(options, [], entryPath)
  {
  }

  // ----- engine selection -----

  datatype EngineKind = Etcd | File

  /** The engine-type string each engine is registered under. */
  function EngineName(k: EngineKind): string {
    match k
    case Etcd => "etcd"
    case File => "file"
  }

  /** Engine selection: "etcd" and "file" select their constructors; any
      other type is an error naming it. */
  function SelectEngine(engineType: string): (r: Result<EngineKind, string>)
    ensures r.Success? <==> engineType in {"etcd", "file"}
    ensures r.Success? ==> EngineName(r.value) == engineType
    ensures r.Failure? ==> r.error == "no newEnginFn providor for engineType: " + engineType
  {
    if engineType == "etcd" then Success(Etcd)
    else if engineType == "file" then Success(File)
    else Failure("no newEnginFn providor for engineType: " + engineType)
  }

  /** Selection inverts naming. */
  lemma SelectEngineName(k: EngineKind)
    ensures SelectEngine(EngineName(k)) == Success(k)
  {
  }

  // ----- the override merge -----

  /** The log overrides applied to a configer's configuration before the
      container sees it, at start-up and on every change: each non-empty
      option replaces its `LogConf` field; nothing else changes. */
  function MergeOverrides(conf: AppConf, o: Options): (r: AppConf)
    ensures !IsEmptyString(o.log) ==> r.logConf.log == o.log
    ensures IsEmptyString(o.log) ==> r.logConf.log == conf.logConf.log
    ensures !IsEmptyString(o.logFormat) ==> r.logConf.format == o.logFormat
    ensures IsEmptyString(o.logFormat) ==> r.logConf.format == conf.logConf.format
    ensures !IsEmptyString(o.logLevel) ==> r.logConf.level == o.logLevel
    ensures IsEmptyString(o.logLevel) ==> r.logConf.level == conf.logConf.level
    ensures r.logConf.rotationTime == conf.logConf.rotationTime && r.logConf.logDir == conf.logConf.logDir
    ensures r.logConf.disableReportCaller == conf.logConf.disableReportCaller
    ensures r.(logConf := conf.logConf) == conf
  {
    var c1 := if !IsEmptyString(o.log) then conf.(logConf := conf.logConf.(log := o.log)) else conf;
    var c2 := if !IsEmptyString(o.logFormat) then c1.(logConf := c1.logConf.(format := o.logFormat)) else c1;
    if !IsEmptyString(o.logLevel) then c2.(logConf := c2.logConf.(level := o.logLevel)) else c2
  }

  /** Merging twice is merging once. */
  lemma MergeIdempotent(conf: AppConf, o: Options)
    ensures MergeOverrides(MergeOverrides(conf, o), o) == MergeOverrides(conf, o)
  {
  }

  /** With no log overrides the merge is the identity. */
  lemma MergeWithoutOverrides(conf: AppConf, o: Options)
    requires IsEmptyString(o.log) && IsEmptyString(o.logFormat) && IsEmptyString(o.logLevel)
    ensures MergeOverrides(conf, o) == conf
  {
  }

  /** Overrides win: two configurations that differ only in their log
      settings merge to the same configuration when all three overrides are set. */
  lemma OverridesWin(a: AppConf, b: AppConf, o: Options)
    requires !IsEmptyString(o.log) && !IsEmptyString(o.logFormat) && !IsEmptyString(o.logLevel)
    requires a.logConf.(log := "", format := "", level := "") == b.logConf.(log := "", format := "", level := "")
    requires a.(logConf := b.logConf) == b
    ensures MergeOverrides(a, o) == MergeOverrides(b, o)
  {
  }

  // ----- processChange -----

  /** `processChange`: a configer event reloads the container once, with the
      merged configuration; every other event (nil included) only logs
      "unsupported". The error returned is always nil. */
  function ProcessChange(reg: Container.Registry, o: Options, ev: Event, env: Container.Env): (r: (Container.Registry, Option<string>))
    ensures r.1.None?
    ensures ev.Change? ==> r.0 == Container.Reload(reg, MergeOverrides(ev.configer.Get(), o), env)
    ensures ev.Change? ==> r.0.appcfg == MergeOverrides(ev.configer.Get(), o)
    ensures !ev.Change? ==> r.0 == reg
  {
    match ev
    case Change(c) => (Container.Reload(reg, MergeOverrides(c.Get(), o), env), None)
    case _ => (reg, None)
  }

  /** Start-up and change processing merge the same way: when the
      configuration that the container was initialised from arrives again as
      a change, no component is touched. */
  lemma StartupConfigRepublishedIsNoop(reg: Container.Registry, c: Configer, o: Options, env: Container.Env)
    ensures var started := Container.Init(reg, MergeOverrides(c.Get(), o), env);
      ProcessChange(started, o, Change(c), env).0 == started
  {
    Container.ReloadAfterInitIsNoop(reg, MergeOverrides(c.Get(), o), env);
  }

  // ----- initServer precedence -----

  /** Go's `uint32(x)` conversion of an `int`. */
  function ToUint32(x: Int64): Uint32 {
    x % 0x1_0000_0000
  }

  /** The port and service-name precedence of `initServer`: a positive option
      port (cut to 32 bits) overrides the configured one, otherwise the
      configured port stays (0 meaning a random port); an empty configured
      service name falls back to the option's. Nothing else changes. */
  function ResolveServer(micro: GoMicro, o: Options): (r: GoMicro)
    ensures o.port > 0 ==> r.serverPort == ToUint32(o.port)
    ensures o.port > 0 && o.port < 0x1_0000_0000 ==> r.serverPort == o.port
    ensures o.port <= 0 ==> r.serverPort == micro.serverPort
    ensures IsEmptyString(micro.serviceName) ==> r.serviceName == o.serviceName
    ensures !IsEmptyString(micro.serviceName) ==> r.serviceName == micro.serviceName
    ensures r.(serverPort := micro.serverPort, serviceName := micro.serviceName) == micro
  {
    var port := if o.port > 0 then ToUint32(o.port) else micro.serverPort;
    var name := if IsEmptyString(micro.serviceName) then o.serviceName else micro.serviceName;
    micro.(serverPort := port, serviceName := name)
  }

  /** Resolving is idempotent. */
  lemma ResolveServerIdempotent(micro: GoMicro, o: Options)
    ensures ResolveServer(ResolveServer(micro, o), o) == ResolveServer(micro, o)
  {
  }

  /** The 32-bit cut: an option port of exactly 2^32 is positive yet resolves
      to port 0, a random port. */
  lemma PortWrapsToRandom(micro: GoMicro)
    ensures ResolveServer(micro, ZeroOptions.(port := 0x1_0000_0000)).serverPort == 0
  {
  }
}
