/** The component container: one slot per stateful component kind, built at
    `Init` from the enabled sub-configurations and selectively rebuilt at
    `Reload` by diffing each sub-configuration against the last one applied. */
module Container {
  import opened Wrappers
  import opened Config

  /** An opaque live component (a Redis, MySQL or Mongo client, a logger, a
      tracer): an identity handed out by the container, and the
      sub-configuration the component is currently bound to. */
  datatype Client<C> = Client(id: nat, conf: C)

  datatype Kind = RedisKind | LoggerKind | TracerKind | MongoKind | MysqlKind

  /** Calls the container makes into component packages, in order. */
  datatype Effect =
    | Construct(kind: Kind)            // a constructor (`InitClient`, `log.New`, `InitTracer`, `InitDefalut`)
    | ReloadInPlace(kind: Kind, id: nat) // `Reload` on a live client, or mongo's `ReloadDefault`
    | Release(kind: Kind)              // mongo's `DefaultClientRelease`

  /** The component constructors, outside the model: for each
      sub-configuration, whether construction yields a live component (true)
      or fails / yields nil (false). For mongo this is whether
      `DefaultClient` succeeds after the default client was (re)configured. */
  datatype Env = Env(
    redisUp: Redis -> bool,
    loggerUp: LogConf -> bool,
    tracerUp: Trace -> bool,
    mongoUp: MongoDB -> bool,
    mysqlUp: Mysql -> bool)

  /** The container: the configuration last applied (the diff reference), one
      nil-able slot per kind, the next unused identity, and the log of calls
      made into component packages. */
  datatype Registry = Registry(
    appcfg: AppConf,
    redis: Option<Client<Redis>>,
    logger: Option<Client<LogConf>>,
    tracer: Option<Client<Trace>>,
    mongo: Option<Client<MongoDB>>,
    mysql: Option<Client<Mysql>>,
    nextId: nat,
    effects: seq<Effect>)

  /** `NewContainer`: zero configuration, every slot nil. */
  function NewContainer(): (reg: Registry)
    ensures reg.redis.None? && reg.logger.None? && reg.tracer.None? && reg.mongo.None? && reg.mysql.None?
    ensures reg.effects == [] && reg.appcfg == ZeroAppConf
  {
    Registry(ZeroAppConf, None, None, None, None, None, 0, [])
  }

  // ----- invariants and specification predicates -----

  predicate Below<C>(o: Option<Client<C>>, n: nat) {
    o.Some? ==> o.value.id < n
  }

  predicate Apart<A, B>(a: Option<Client<A>>, b: Option<Client<B>>) {
    a.None? || b.None? || a.value.id != b.value.id
  }

  /** Every live component has an identity issued before `nextId`, and no two
      slots share an identity. */
  predicate WellFormed(reg: Registry) {
    && Below(reg.redis, reg.nextId) && Below(reg.logger, reg.nextId) && Below(reg.tracer, reg.nextId)
    && Below(reg.mongo, reg.nextId) && Below(reg.mysql, reg.nextId)
    && Apart(reg.redis, reg.logger) && Apart(reg.redis, reg.tracer) && Apart(reg.redis, reg.mongo)
    && Apart(reg.redis, reg.mysql) && Apart(reg.logger, reg.tracer) && Apart(reg.logger, reg.mongo)
    && Apart(reg.logger, reg.mysql) && Apart(reg.tracer, reg.mongo) && Apart(reg.tracer, reg.mysql)
    && Apart(reg.mongo, reg.mysql)
  }

  /** A component created after the counter stood at `lo`, bound to `cfg`. */
  predicate FreshFor<C(==)>(o: Option<Client<C>>, cfg: C, lo: nat) {
    o.Some? && o.value.conf == cfg && o.value.id >= lo
  }

  /** Everything but the slot of `k` is as before; the calls made only grow. */
  predicate OnlySlot(before: Registry, after: Registry, k: Kind) {
    && after.appcfg == before.appcfg
    && (k != RedisKind ==> after.redis == before.redis)
    && (k != LoggerKind ==> after.logger == before.logger)
    && (k != TracerKind ==> after.tracer == before.tracer)
    && (k != MongoKind ==> after.mongo == before.mongo)
    && (k != MysqlKind ==> after.mysql == before.mysql)
    && after.nextId >= before.nextId
    && before.effects <= after.effects
  }

  /** The reload table for Redis and MySQL: enabled and live means reloaded in
      place (same identity, new configuration); enabled and nil means built
      fresh; disabled means the slot ends nil. */
  predicate ClientReloaded<C(==)>(before: Option<Client<C>>, after: Option<Client<C>>, cfg: C, enable: bool, up: bool, lo: nat) {
    && (enable && before.Some? ==> after == Some(Client(before.value.id, cfg)))
    && (enable && before.None? ==> (after.Some? <==> up) && (up ==> FreshFor(after, cfg, lo)))
    && (!enable ==> after.None?)
  }

  /** The reload table for Mongo: like Redis, except that after reconfiguring
      the default client it is fetched again, and that fetch may fail. */
  predicate MongoReloaded(before: Option<Client<MongoDB>>, after: Option<Client<MongoDB>>, cfg: MongoDB, up: bool, lo: nat) {
    && (cfg.enable && before.Some? ==> after == (if up then Some(Client(before.value.id, cfg)) else None))
    && (cfg.enable && before.None? ==> (after.Some? <==> up) && (up ==> FreshFor(after, cfg, lo)))
    && (!cfg.enable ==> after.None?)
  }

  /** Logger and tracer: a successful construction replaces the component, a
      failed one keeps the previous component. */
  predicate Rebuilt<C(==)>(before: Option<Client<C>>, after: Option<Client<C>>, cfg: C, up: bool, lo: nat) {
    && (up ==> FreshFor(after, cfg, lo))
    && (!up ==> after == before)
  }

  // ----- per-kind construction and reload -----

  /** `initRedis`: construct only when enabled. */
  function InitRedis(reg: Registry, cfg: Redis, env: Env): (r: Registry)
    ensures OnlySlot(reg, r, RedisKind)
    ensures !cfg.enable ==> r == reg
    ensures cfg.enable ==> (r.redis.Some? <==> env.redisUp(cfg)) && (env.redisUp(cfg) ==> FreshFor(r.redis, cfg, reg.nextId))
    ensures cfg.enable ==> r.effects == reg.effects + [Construct(RedisKind)]
    ensures WellFormed(reg) ==> WellFormed(r)
  {
    if cfg.enable then
      reg.(redis := if env.redisUp(cfg) then Some(Client(reg.nextId, cfg)) else None,
           nextId := reg.nextId + 1, effects := reg.effects + [Construct(RedisKind)])
    else reg
  }

  /** `reloadRedis`: in-place reload, fresh build, or drop without a release call. */
  function ReloadRedis(reg: Registry, cfg: Redis, env: Env): (r: Registry)
    ensures OnlySlot(reg, r, RedisKind)
    ensures ClientReloaded(reg.redis, r.redis, cfg, cfg.enable, env.redisUp(cfg), reg.nextId)
    ensures cfg.enable && reg.redis.Some? ==> r.effects == reg.effects + [ReloadInPlace(RedisKind, reg.redis.value.id)]
    ensures !cfg.enable ==> r.effects == reg.effects
    ensures !cfg.enable && reg.redis.None? ==> r == reg
    ensures WellFormed(reg) ==> WellFormed(r)
  {
    if cfg.enable then
      if reg.redis.Some? then
        reg.(redis := Some(reg.redis.value.(conf := cfg)),
             effects := reg.effects + [ReloadInPlace(RedisKind, reg.redis.value.id)])
      else InitRedis(reg, cfg, env)
    else if reg.redis.Some? then reg.(redis := None)
    else reg
  }

  /** `initMysql`: construct only when enabled. */
  function InitMysql(reg: Registry, cfg: Mysql, env: Env): (r: Registry)
    ensures OnlySlot(reg, r, MysqlKind)
    ensures !cfg.enable ==> r == reg
    ensures cfg.enable ==> (r.mysql.Some? <==> env.mysqlUp(cfg)) && (env.mysqlUp(cfg) ==> FreshFor(r.mysql, cfg, reg.nextId))
    ensures cfg.enable ==> r.effects == reg.effects + [Construct(MysqlKind)]
    ensures WellFormed(reg) ==> WellFormed(r)
  {
    if cfg.enable then
      reg.(mysql := if env.mysqlUp(cfg) then Some(Client(reg.nextId, cfg)) else None,
           nextId := reg.nextId + 1, effects := reg.effects + [Construct(MysqlKind)])
    else reg
  }

  /** `reloadMysql`: the same table as Redis. */
  function ReloadMysql(reg: Registry, cfg: Mysql, env: Env): (r: Registry)
    ensures OnlySlot(reg, r, MysqlKind)
    ensures ClientReloaded(reg.mysql, r.mysql, cfg, cfg.enable, env.mysqlUp(cfg), reg.nextId)
    ensures cfg.enable && reg.mysql.Some? ==> r.effects == reg.effects + [ReloadInPlace(MysqlKind, reg.mysql.value.id)]
    ensures !cfg.enable ==> r.effects == reg.effects
    ensures !cfg.enable && reg.mysql.None? ==> r == reg
    ensures WellFormed(reg) ==> WellFormed(r)
  {
    if cfg.enable then
      if reg.mysql.Some? then
        reg.(mysql := Some(reg.mysql.value.(conf := cfg)),
             effects := reg.effects + [ReloadInPlace(MysqlKind, reg.mysql.value.id)])
      else InitMysql(reg, cfg, env)
    else if reg.mysql.Some? then reg.(mysql := None)
    else reg
  }

  /** `initMongo`: when enabled, configure the default client and fetch it;
      a failed fetch leaves the slot nil. */
  function InitMongo(reg: Registry, cfg: MongoDB, env: Env): (r: Registry)
    ensures OnlySlot(reg, r, MongoKind)
    ensures !cfg.enable ==> r == reg
    ensures cfg.enable ==> (r.mongo.Some? <==> env.mongoUp(cfg)) && (env.mongoUp(cfg) ==> FreshFor(r.mongo, cfg, reg.nextId))
    ensures cfg.enable ==> r.effects == reg.effects + [Construct(MongoKind)]
    ensures WellFormed(reg) ==> WellFormed(r)
  {
    if cfg.enable then
      reg.(mongo := if env.mongoUp(cfg) then Some(Client(reg.nextId, cfg)) else None,
           nextId := reg.nextId + 1, effects := reg.effects + [Construct(MongoKind)])
    else reg
  }

  /** `reloadMongo`: reconfigure-and-refetch, fresh init, or release and drop. */
  function ReloadMongo(reg: Registry, cfg: MongoDB, env: Env): (r: Registry)
    ensures OnlySlot(reg, r, MongoKind)
    ensures MongoReloaded(reg.mongo, r.mongo, cfg, env.mongoUp(cfg), reg.nextId)
    ensures cfg.enable && reg.mongo.Some? ==> r.effects == reg.effects + [ReloadInPlace(MongoKind, reg.mongo.value.id)]
    ensures !cfg.enable && reg.mongo.Some? ==> r.effects == reg.effects + [Release(MongoKind)]
    ensures !cfg.enable && reg.mongo.None? ==> r == reg
    ensures WellFormed(reg) ==> WellFormed(r)
  {
    if cfg.enable then
      if reg.mongo.Some? then
        reg.(mongo := if env.mongoUp(cfg) then Some(reg.mongo.value.(conf := cfg)) else None,
             effects := reg.effects + [ReloadInPlace(MongoKind, reg.mongo.value.id)])
      else InitMongo(reg, cfg, env)
    else if reg.mongo.Some? then reg.(mongo := None, effects := reg.effects + [Release(MongoKind)])
    else reg
  }

  /** `initLogger` (and `reloadLogger`, which only calls it): always attempted,
      whatever the configuration; a failure keeps the previous logger. */
  function InitLogger(reg: Registry, cfg: LogConf, env: Env): (r: Registry)
    ensures OnlySlot(reg, r, LoggerKind)
    ensures Rebuilt(reg.logger, r.logger, cfg, env.loggerUp(cfg), reg.nextId)
    ensures r.effects == reg.effects + [Construct(LoggerKind)]
    ensures WellFormed(reg) ==> WellFormed(r)
  {
    reg.(logger := if env.loggerUp(cfg) then Some(Client(reg.nextId, cfg)) else reg.logger,
         nextId := reg.nextId + 1, effects := reg.effects + [Construct(LoggerKind)])
  }

  /** `initTracer` (and `reloadTracer`): always attempted; a failure keeps the
      previous tracer. */
  function InitTracer(reg: Registry, cfg: Trace, env: Env): (r: Registry)
    ensures OnlySlot(reg, r, TracerKind)
    ensures Rebuilt(reg.tracer, r.tracer, cfg, env.tracerUp(cfg), reg.nextId)
    ensures r.effects == reg.effects + [Construct(TracerKind)]
    ensures WellFormed(reg) ==> WellFormed(r)
  {
    reg.(tracer := if env.tracerUp(cfg) then Some(Client(reg.nextId, cfg)) else reg.tracer,
         nextId := reg.nextId + 1, effects := reg.effects + [Construct(TracerKind)])
  }

  // ----- the container operations -----

  /** `Container.Init`: build every kind in the order redis, logger, tracer,
      mongo, mysql (the first, fourth and fifth only when enabled), then store
      `cfg` as the diff reference. */
  function Init(reg: Registry, cfg: AppConf, env: Env): (r: Registry)
    ensures r.appcfg == cfg
    ensures !cfg.redis.enable ==> r.redis == reg.redis
    ensures cfg.redis.enable ==> (r.redis.Some? <==> env.redisUp(cfg.redis))
    ensures cfg.redis.enable && env.redisUp(cfg.redis) ==> FreshFor(r.redis, cfg.redis, reg.nextId)
    ensures !cfg.mysql.enable ==> r.mysql == reg.mysql
    ensures cfg.mysql.enable ==> (r.mysql.Some? <==> env.mysqlUp(cfg.mysql))
    ensures cfg.mysql.enable && env.mysqlUp(cfg.mysql) ==> FreshFor(r.mysql, cfg.mysql, reg.nextId)
    ensures !cfg.mongoDB.enable ==> r.mongo == reg.mongo
    ensures cfg.mongoDB.enable ==> (r.mongo.Some? <==> env.mongoUp(cfg.mongoDB))
    ensures cfg.mongoDB.enable && env.mongoUp(cfg.mongoDB) ==> FreshFor(r.mongo, cfg.mongoDB, reg.nextId)
    ensures Rebuilt(reg.logger, r.logger, cfg.logConf, env.loggerUp(cfg.logConf), reg.nextId)
    ensures Rebuilt(reg.tracer, r.tracer, cfg.trace, env.tracerUp(cfg.trace), reg.nextId)
    ensures WellFormed(reg) ==> WellFormed(r)
  {
    var r1 := InitRedis(reg, cfg.redis, env);
    var r2 := InitLogger(r1, cfg.logConf, env);
    var r3 := InitTracer(r2, cfg.trace, env);
    var r4 := InitMongo(r3, cfg.mongoDB, env);
    var r5 := InitMysql(r4, cfg.mysql, env);
    r5.(appcfg := cfg)
  }

  // One diff-and-reload step of `Container.Reload` per kind, each comparing
  // against the stored reference `reg.appcfg`.

  function DiffRedis(reg: Registry, cfg: AppConf, env: Env): (r: Registry)
    ensures OnlySlot(reg, r, RedisKind)
    ensures reg.appcfg.redis == cfg.redis ==> r == reg
    ensures reg.appcfg.redis != cfg.redis ==>
      ClientReloaded(reg.redis, r.redis, cfg.redis, cfg.redis.enable, env.redisUp(cfg.redis), reg.nextId)
    ensures WellFormed(reg) ==> WellFormed(r)
  {
    if reg.appcfg.redis != cfg.redis then ReloadRedis(reg, cfg.redis, env) else reg
  }

  function DiffLogger(reg: Registry, cfg: AppConf, env: Env): (r: Registry)
    ensures OnlySlot(reg, r, LoggerKind)
    ensures reg.appcfg.logConf == cfg.logConf ==> r == reg
    ensures reg.appcfg.logConf != cfg.logConf ==>
      Rebuilt(reg.logger, r.logger, cfg.logConf, env.loggerUp(cfg.logConf), reg.nextId)
    ensures WellFormed(reg) ==> WellFormed(r)
  {
    if reg.appcfg.logConf != cfg.logConf then InitLogger(reg, cfg.logConf, env) else reg
  }

  function DiffTracer(reg: Registry, cfg: AppConf, env: Env): (r: Registry)
    ensures OnlySlot(reg, r, TracerKind)
    ensures reg.appcfg.trace == cfg.trace ==> r == reg
    ensures reg.appcfg.trace != cfg.trace ==>
      Rebuilt(reg.tracer, r.tracer, cfg.trace, env.tracerUp(cfg.trace), reg.nextId)
    ensures WellFormed(reg) ==> WellFormed(r)
  {
    if reg.appcfg.trace != cfg.trace then InitTracer(reg, cfg.trace, env) else reg
  }

  function DiffMongo(reg: Registry, cfg: AppConf, env: Env): (r: Registry)
    ensures OnlySlot(reg, r, MongoKind)
    ensures reg.appcfg.mongoDB == cfg.mongoDB ==> r == reg
    ensures reg.appcfg.mongoDB != cfg.mongoDB ==>
      MongoReloaded(reg.mongo, r.mongo, cfg.mongoDB, env.mongoUp(cfg.mongoDB), reg.nextId)
    ensures WellFormed(reg) ==> WellFormed(r)
  {
    if reg.appcfg.mongoDB != cfg.mongoDB then ReloadMongo(reg, cfg.mongoDB, env) else reg
  }

  function DiffMysql(reg: Registry, cfg: AppConf, env: Env): (r: Registry)
    ensures OnlySlot(reg, r, MysqlKind)
    ensures reg.appcfg.mysql == cfg.mysql ==> r == reg
    ensures reg.appcfg.mysql != cfg.mysql ==>
      ClientReloaded(reg.mysql, r.mysql, cfg.mysql, cfg.mysql.enable, env.mysqlUp(cfg.mysql), reg.nextId)
    ensures WellFormed(reg) ==> WellFormed(r)
  {
    if reg.appcfg.mysql != cfg.mysql then ReloadMysql(reg, cfg.mysql, env) else reg
  }

  /** `Container.Reload`: for each kind whose sub-configuration differs from
      the stored reference, run that kind's reload; leave the others alone;
      then store `cfg` as the new reference. */
  function Reload(reg: Registry, cfg: AppConf, env: Env): (r: Registry)
    ensures r.appcfg == cfg
    ensures reg.appcfg.redis == cfg.redis ==> r.redis == reg.redis
    ensures reg.appcfg.logConf == cfg.logConf ==> r.logger == reg.logger
    ensures reg.appcfg.trace == cfg.trace ==> r.tracer == reg.tracer
    ensures reg.appcfg.mongoDB == cfg.mongoDB ==> r.mongo == reg.mongo
    ensures reg.appcfg.mysql == cfg.mysql ==> r.mysql == reg.mysql
    ensures reg.appcfg.redis != cfg.redis ==>
      ClientReloaded(reg.redis, r.redis, cfg.redis, cfg.redis.enable, env.redisUp(cfg.redis), reg.nextId)
    ensures reg.appcfg.logConf != cfg.logConf ==>
      Rebuilt(reg.logger, r.logger, cfg.logConf, env.loggerUp(cfg.logConf), reg.nextId)
    ensures reg.appcfg.trace != cfg.trace ==>
      Rebuilt(reg.tracer, r.tracer, cfg.trace, env.tracerUp(cfg.trace), reg.nextId)
    ensures reg.appcfg.mongoDB != cfg.mongoDB ==>
      MongoReloaded(reg.mongo, r.mongo, cfg.mongoDB, env.mongoUp(cfg.mongoDB), reg.nextId)
    ensures reg.appcfg.mysql != cfg.mysql ==>
      ClientReloaded(reg.mysql, r.mysql, cfg.mysql, cfg.mysql.enable, env.mysqlUp(cfg.mysql), reg.nextId)
    ensures reg.appcfg == cfg ==> r == reg
    ensures WellFormed(reg) ==> WellFormed(r)
  {
    var r1 := DiffRedis(reg, cfg, env);
    var r2 := DiffLogger(r1, cfg, env);
    var r3 := DiffTracer(r2, cfg, env);
    var r4 := DiffMongo(r3, cfg, env);
    var r5 := DiffMysql(r4, cfg, env);
    r5.(appcfg := cfg)
  }

  // ----- properties relating several calls -----

  /** Init from a fresh container: a client slot is live exactly when its
      sub-configuration is enabled and construction succeeded; disabled slots
      stay nil. */
  lemma InitFreshContainer(cfg: AppConf, env: Env)
    ensures var r := Init(NewContainer(), cfg, env);
      && (r.redis.Some? <==> cfg.redis.enable && env.redisUp(cfg.redis))
      && (r.mysql.Some? <==> cfg.mysql.enable && env.mysqlUp(cfg.mysql))
      && (r.mongo.Some? <==> cfg.mongoDB.enable && env.mongoUp(cfg.mongoDB))
      && (r.logger.Some? <==> env.loggerUp(cfg.logConf))
      && (r.tracer.Some? <==> env.tracerUp(cfg.trace))
      && WellFormed(r)
  {
  }

  /** Reloading with the configuration just applied touches no component and
      calls nothing: Reload is idempotent. */
  lemma ReloadTwiceIsReloadOnce(reg: Registry, cfg: AppConf, env: Env)
    ensures Reload(Reload(reg, cfg, env), cfg, env) == Reload(reg, cfg, env)
  {
  }

  /** After Init, reloading with the same configuration changes nothing. */
  lemma ReloadAfterInitIsNoop(reg: Registry, cfg: AppConf, env: Env)
    ensures var i := Init(reg, cfg, env); Reload(i, cfg, env) == i
  {
  }

  /** Disabling a live Redis or MySQL client drops it without any call into
      the client package; disabling a live Mongo client releases the default
      client first. */
  lemma DisableDropsWithoutRelease(reg: Registry, cfg: AppConf, env: Env)
    requires reg.appcfg.redis != cfg.redis && !cfg.redis.enable
    requires reg.appcfg.mysql != cfg.mysql && !cfg.mysql.enable
    requires reg.appcfg.mongoDB != cfg.mongoDB && !cfg.mongoDB.enable && reg.mongo.Some?
    requires reg.appcfg.logConf == cfg.logConf && reg.appcfg.trace == cfg.trace
    ensures var r := Reload(reg, cfg, env);
      r.redis.None? && r.mysql.None? && r.mongo.None? && r.effects == reg.effects + [Release(MongoKind)]
  {
  }

  /** The selective-reload scenario: after Init with Redis and tracing enabled,
      a configuration that differs only in the Redis host reloads the same
      Redis client in place (its identity is kept and it is now bound to the
      new host) and leaves the tracer, logger and every other slot as they were. */
  lemma SelectiveReload(a: AppConf, host2: string, env: Env)
    requires a.redis.enable && a.trace.enable && a.redis.host != host2
    requires env.redisUp(a.redis) && env.tracerUp(a.trace)
    ensures var i := Init(NewContainer(), a, env);
      var b := a.(redis := a.redis.(host := host2));
      var r := Reload(i, b, env);
      && i.redis.Some? && i.tracer.Some?
      && r.redis == Some(Client(i.redis.value.id, b.redis))
      && r.redis.value.conf.host == host2
      && r.tracer == i.tracer && r.logger == i.logger && r.mongo == i.mongo && r.mysql == i.mysql
      && r.effects == i.effects + [ReloadInPlace(RedisKind, i.redis.value.id)]
  {
  }
}
