/** Carrying the MySQL client and the engine in a request context: the
    put/extract pairs and their error cases. */
module Ctx {
  import opened Wrappers
  import opened Config
  import Container

  /** A MySQL client as the container hands it out. */
  type MysqlCli = Container.Client<Mysql>

  /** An engine reference (the `engine.Engine` interface value). */
  datatype EngineRef = EngineRef(id: nat)

  /** Context keys: the two private marker keys, and anyone else's. */
  datatype Key = MysqlKey | EngineKey | UserKey(name: string)

  /** Stored values: the boxes the put functions allocate (whose inner
      reference may be nil), and anyone else's values. */
  datatype Value = MysqlBox(cli: Option<MysqlCli>) | EngineBox(ng: Option<EngineRef>) | UserValue(text: string)

  /** A context: the root, or a parent extended with one key/value pair. */
  datatype Context = Background | WithValue(parent: Context, key: Key, val: Value)

  /** `ctx.Value(key)`: the nearest binding of the key, walking towards the root. */
  function Lookup(ctx: Context, k: Key): Option<Value> {
    match ctx
    case Background => None
    case WithValue(parent, key, val) => if key == k then Some(val) else Lookup(parent, k)
  }

  const MysqlNotSet := "ctxMysql was not set or nil"
  const MysqlCliNotSet := "ctxMysql.cli was not set or nil"
  const EngineNotSet := "ctxEngine was not set or nil"

  /** `MysqlToContext`: a new child context binding the MySQL key; the input
      context is its parent, and every other key reads as before. */
  function MysqlToContext(ctx: Context, c: Option<MysqlCli>): (r: Context)
    ensures r.WithValue? && r.parent == ctx
    ensures Lookup(r, MysqlKey) == Some(MysqlBox(c))
    ensures forall k | k != MysqlKey :: Lookup(r, k) == Lookup(ctx, k)
  {
    WithValue(ctx, MysqlKey, MysqlBox(c))
  }

  /** `ExtractMysql`: fails with "not set" when the key is unbound (or bound
      to something that is not a MySQL box), with "cli not set" when the box
      holds nil, and otherwise yields the client. */
  function ExtractMysql(ctx: Context): (r: Result<MysqlCli, string>)
    ensures r.Success? <==> exists c :: Lookup(ctx, MysqlKey) == Some(MysqlBox(Some(c)))
    ensures r.Success? ==> Lookup(ctx, MysqlKey) == Some(MysqlBox(Some(r.value)))
    ensures (Lookup(ctx, MysqlKey).None? || !Lookup(ctx, MysqlKey).value.MysqlBox?) ==> r == Failure(MysqlNotSet)
    ensures Lookup(ctx, MysqlKey) == Some(MysqlBox(None)) ==> r == Failure(MysqlCliNotSet)
  {
    match Lookup(ctx, MysqlKey)
    case Some(MysqlBox(cli)) =>
      (match cli
       case None => Failure(MysqlCliNotSet)
       case Some(c) => Success(c))
    case _ => Failure(MysqlNotSet)
  }

  /** `EngineToContext`: a new child context binding the engine key. */
  function EngineToContext(ctx: Context, ng: Option<EngineRef>): (r: Context)
    ensures r.WithValue? && r.parent == ctx
    ensures Lookup(r, EngineKey) == Some(EngineBox(ng))
    ensures forall k | k != EngineKey :: Lookup(r, k) == Lookup(ctx, k)
  {
    WithValue(ctx, EngineKey, EngineBox(ng))
  }

  /** `ExtractEngine`: fails only when no engine box is bound; a bound nil
      engine comes back as nil without an error. */
  function ExtractEngine(ctx: Context): (r: Result<Option<EngineRef>, string>)
    ensures r.Success? <==> Lookup(ctx, EngineKey).Some? && Lookup(ctx, EngineKey).value.EngineBox?
    ensures r.Success? ==> Lookup(ctx, EngineKey) == Some(EngineBox(r.value))
    ensures r.Failure? ==> r.error == EngineNotSet
  {
    match Lookup(ctx, EngineKey)
    case Some(EngineBox(ng)) => Success(ng)
    case _ => Failure(EngineNotSet)
  }

  /** Put then extract gives the client back. */
  lemma MysqlRoundTrip(ctx: Context, c: MysqlCli)
    ensures ExtractMysql(MysqlToContext(ctx, Some(c))) == Success(c)
  {
  }

  /** Storing a nil client makes extraction fail with the "cli" error. */
  lemma NilMysqlNotExtracted(ctx: Context)
    ensures ExtractMysql(MysqlToContext(ctx, None)) == Failure(MysqlCliNotSet)
  {
  }

  /** Put then extract gives the engine back, nil included. */
  lemma EngineRoundTrip(ctx: Context, ng: Option<EngineRef>)
    ensures ExtractEngine(EngineToContext(ctx, ng)) == Success(ng)
  {
  }

  /** A context that never had either put applied yields both errors. */
  lemma NothingStored(ctx: Context)
    requires forall k | Lookup(ctx, k).Some? :: k.UserKey?
    ensures ExtractMysql(ctx) == Failure(MysqlNotSet)
    ensures ExtractEngine(ctx) == Failure(EngineNotSet)
  {
    assert Lookup(ctx, MysqlKey).None?;
    assert Lookup(ctx, EngineKey).None?;
  }

  /** The two carriers do not interfere, and the most recent put wins. */
  lemma PutsIndependent(ctx: Context, c: Option<MysqlCli>, ng: Option<EngineRef>, d: MysqlCli)
    ensures ExtractMysql(EngineToContext(ctx, ng)) == ExtractMysql(ctx)
    ensures ExtractEngine(MysqlToContext(ctx, c)) == ExtractEngine(ctx)
    ensures ExtractMysql(MysqlToContext(MysqlToContext(ctx, c), Some(d))) == Success(d)
  {
  }
}
