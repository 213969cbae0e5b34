/** The file-polling configuration engine: format dispatch, decode-and-commit,
    start-up load, and one iteration of the watch loop. */
module FileEngine {
  import opened Wrappers
  import opened Text
  import opened Config
  import opened Channel

  /** The engine's state: its entry, the configer last decoded successfully
      (nil before the first success) and the raw bytes that produced it. */
  datatype Engine = Engine(entry: Entry, configer: Option<Configer>, prevRawConfigContent: Bytes)

  /** `file.New`: nothing is read yet. */
  function New(entry: Entry): (ng: Engine)
    ensures ng.entry == entry && ng.configer.None? && ng.prevRawConfigContent == []
  {
    Engine(entry, None, [])
  }

  /** The declared configuration formats after dispatch. */
  datatype Format = Json | Toml | Unsupported(name: string)

  /** Format dispatch: an empty declared format means json; "toml" has its
      own rejection; every other name (yaml included) is unsupported. */
  function FormatOf(configFormat: string): (f: Format)
    ensures f == Json <==> (IsEmptyString(configFormat) || configFormat == "json")
    ensures f == Toml <==> configFormat == "toml"
    ensures f.Unsupported? ==> f.name == configFormat
  {
    if IsEmptyString(configFormat) || configFormat == "json" then Json
    else if configFormat == "toml" then Toml
    else Unsupported(configFormat)
  }

  /** Name under which a format is declared. */
  function FormatName(f: Format): string {
    match f
    case Json => "json"
    case Toml => "toml"
    case Unsupported(name) => name
  }

  /** Dispatch recognises every format from its declared name. */
  lemma FormatOfName(f: Format)
    requires f.Unsupported? ==> f.name !in {"", "json", "toml"}
    ensures FormatOf(FormatName(f)) == f
  {
  }

  /** The errors the engine reports (each one is also logged). */
  datatype EngineError =
    | ReadFailed(path: string)
    | DecodeFailed(path: string)
    | TomlUnsupported(path: string)
    | FormatUnsupported(format: string, path: string)

  /** An engine after an operation that may fail. */
  datatype Refresh = Refresh(ng: Engine, err: Option<EngineError>)

  /** `refreshConfig`: decode `content` in the declared format; commit the new
      configer and the raw-byte cache together, and only on success. */
  function RefreshConfig(ng: Engine, content: Bytes, decode: Decoder): (r: Refresh)
    ensures r.err.None? <==> FormatOf(ng.entry.configFormat) == Json && decode(content).Some?
    ensures r.err.None? ==>
      && r.ng.entry == ng.entry
      && r.ng.configer == Some(Jsoner(decode(content).value))
      && r.ng.prevRawConfigContent == content
    ensures r.err.Some? ==> r.ng == ng
    ensures FormatOf(ng.entry.configFormat) == Toml ==> r.err == Some(TomlUnsupported(ng.entry.configPath))
    ensures FormatOf(ng.entry.configFormat).Unsupported? ==>
      r.err == Some(FormatUnsupported(ng.entry.configFormat, ng.entry.configPath))
    ensures FormatOf(ng.entry.configFormat) == Json && decode(content).None? ==>
      r.err == Some(DecodeFailed(ng.entry.configPath))
  {
    match FormatOf(ng.entry.configFormat)
    case Json =>
      (match JsonerInit(decode, content)
       case None => Refresh(ng, Some(DecodeFailed(ng.entry.configPath)))
       case Some(configer) =>
         Refresh(ng.(configer := Some(configer), prevRawConfigContent := content), None))
    case Toml => Refresh(ng, Some(TomlUnsupported(ng.entry.configPath)))
    case Unsupported(name) => Refresh(ng, Some(FormatUnsupported(name, ng.entry.configPath)))
  }

  /** What reading the configuration file produced. */
  datatype ReadResult = Read(data: Bytes) | ReadError(msg: string)

  /** `Init`: read the file once and refresh from it; a read error or a
      refresh error is handed back to the caller. */
  function Init(ng: Engine, read: ReadResult, decode: Decoder): (r: Refresh)
    ensures read.ReadError? ==> r == Refresh(ng, Some(ReadFailed(ng.entry.configPath)))
    ensures read.Read? ==> r == RefreshConfig(ng, read.data, decode)
    ensures r.err.None? ==> r.ng.configer.Some? && r.ng.prevRawConfigContent == read.data
  {
    match read
    case ReadError(_) => Refresh(ng, Some(ReadFailed(ng.entry.configPath)))
    case Read(data) => RefreshConfig(ng, data, decode)
  }

  /** `GetConfiger`: the configer last committed; never an error. */
  function GetConfiger(ng: Engine): Option<Configer> {
    ng.configer
  }

  /** After a successful load the engine hands out the configer decoded from
      the file; after a failed load it still hands out the one it had. */
  lemma GetConfigerAfterInit(ng: Engine, read: ReadResult, decode: Decoder)
    ensures Init(ng, read, decode).err.None? ==>
      read.Read? && GetConfiger(Init(ng, read, decode).ng) == Some(Jsoner(decode(read.data).value))
    ensures Init(ng, read, decode).err.Some? ==> GetConfiger(Init(ng, read, decode).ng) == GetConfiger(ng)
  {
  }

  /** The environment of one loop iteration: the file read, whether a
      cancellation sender is waiting, and, when the `select` finds both the
      send and the cancel arm ready, which one the runtime picks. */
  datatype TickInput = TickInput(read: ReadResult, cancelWaiting: bool, cancelWins: bool)

  /** How one loop iteration ended. `Cancelled` is the only one after which
      `Subscribe` returns (with a nil error). */
  datatype TickOutcome = ReadFailedTick | Unchanged | Rejected(err: EngineError) | Published | Dropped | Cancelled

  datatype Tick = Tick(ng: Engine, changes: Queue<Event>, outcome: TickOutcome)

  /** True when the content read needs no refresh: empty, or byte-identical
      to the cached raw content. */
  predicate IsUnchanged(ng: Engine, data: Bytes) {
    |data| == 0 || data == ng.prevRawConfigContent
  }

  /** One iteration of `Subscribe` after the poll sleep: read, skip unchanged
      content, refresh, then offer the configer to a non-blocking `select`
      over the send, the cancellation and a dropping default. */
  function SubscribeTick(ng: Engine, changes: Queue<Event>, input: TickInput, decode: Decoder): (t: Tick)
    ensures t.changes.cap == changes.cap
    ensures t.outcome == ReadFailedTick <==> input.read.ReadError?
    ensures t.outcome == Unchanged <==> input.read.Read? && IsUnchanged(ng, input.read.data)
    ensures t.outcome in {ReadFailedTick, Unchanged} || t.outcome.Rejected? ==> t.ng == ng && t.changes == changes
    ensures t.outcome.Rejected? <==>
      input.read.Read? && !IsUnchanged(ng, input.read.data) && RefreshConfig(ng, input.read.data, decode).err.Some?
    ensures t.outcome.Rejected? ==> t.outcome.err == RefreshConfig(ng, input.read.data, decode).err.value
    ensures t.outcome in {Published, Dropped, Cancelled} ==>
      && input.read.Read? && !IsUnchanged(ng, input.read.data)
      && RefreshConfig(ng, input.read.data, decode).err.None?
      && t.ng == RefreshConfig(ng, input.read.data, decode).ng
      && t.ng.prevRawConfigContent == input.read.data
    ensures t.outcome == Published <==>
      input.read.Read? && !IsUnchanged(ng, input.read.data) && RefreshConfig(ng, input.read.data, decode).err.None?
      && changes.HasRoom() && !(input.cancelWaiting && input.cancelWins)
    ensures t.outcome == Published ==> t.changes.items == changes.items + [Change(t.ng.configer.value)]
    ensures t.outcome == Dropped <==>
      input.read.Read? && !IsUnchanged(ng, input.read.data) && RefreshConfig(ng, input.read.data, decode).err.None?
      && !changes.HasRoom() && !input.cancelWaiting
    ensures t.outcome == Cancelled <==>
      input.read.Read? && !IsUnchanged(ng, input.read.data) && RefreshConfig(ng, input.read.data, decode).err.None?
      && input.cancelWaiting && (!changes.HasRoom() || input.cancelWins)
    ensures t.outcome in {Dropped, Cancelled} ==> t.changes == changes
    ensures |changes.items| <= changes.cap ==> |t.changes.items| <= t.changes.cap
  {
    match input.read
    case ReadError(_) => Tick(ng, changes, ReadFailedTick)
    case Read(data) =>
      if IsUnchanged(ng, data) then Tick(ng, changes, Unchanged)
      else
        var rf := RefreshConfig(ng, data, decode);
        if rf.err.Some? then Tick(ng, changes, Rejected(rf.err.value))
        else
          var n := rf.ng;
          // when both arms are ready and the runtime picks the cancellation,
          // the send is not attempted
          var sent := if input.cancelWaiting && input.cancelWins then None
                      else TrySend(changes, Change(n.configer.value));
          if sent.Some? then Tick(n, sent.value, Published)
          else if input.cancelWaiting then Tick(n, changes, Cancelled)
          else Tick(n, changes, Dropped)
  }

  /** Ticks until one cancels or the inputs run out: the watch loop. */
  function RunTicks(ng: Engine, changes: Queue<Event>, inputs: seq<TickInput>, decode: Decoder): (t: Tick)
    decreases |inputs|
  {
    if |inputs| == 0 then Tick(ng, changes, Unchanged)
    else
      var t1 := SubscribeTick(ng, changes, inputs[0], decode);
      if t1.outcome == Cancelled then t1
      else RunTicks(t1.ng, t1.changes, inputs[1..], decode)
  }

  /** Every input reads exactly the given bytes; a cancellation may or may
      not be waiting. */
  predicate AllRead(inputs: seq<TickInput>, data: Bytes) {
    forall i | 0 <= i < |inputs| :: inputs[i].read == Read(data)
  }

  /** Once content has been committed to the raw cache (whether its event was
      published or dropped), polling the same content again never refreshes
      and never publishes: the engine and the queue stay as they are. A
      pending cancellation makes no difference, because unchanged content
      skips the `select` altogether. */
  lemma {:induction false} SameContentNeverRepublished(ng: Engine, changes: Queue<Event>, inputs: seq<TickInput>, decode: Decoder)
    requires AllRead(inputs, ng.prevRawConfigContent)
    ensures RunTicks(ng, changes, inputs, decode).ng == ng
    ensures RunTicks(ng, changes, inputs, decode).changes == changes
    decreases |inputs|
  {
    if |inputs| > 0 {
      var t1 := SubscribeTick(ng, changes, inputs[0], decode);
      assert t1.outcome == Unchanged;
      assert AllRead(inputs[1..], ng.prevRawConfigContent);
      SameContentNeverRepublished(ng, changes, inputs[1..], decode);
    }
  }

  /** The watch loop over a finite run of poll results. It returns early, with
      `cancelled` set, when cancellation wins a publish `select`; the queue
      only ever grows at the back and never beyond its capacity. */
  method Subscribe(ng0: Engine, changes0: Queue<Event>, inputs: seq<TickInput>, decode: Decoder)
    returns (ng: Engine, changes: Queue<Event>, cancelled: bool)
    requires |changes0.items| <= changes0.cap
    ensures ng == RunTicks(ng0, changes0, inputs, decode).ng
    ensures changes == RunTicks(ng0, changes0, inputs, decode).changes
    ensures changes.cap == changes0.cap && |changes.items| <= changes.cap
    ensures changes0.items <= changes.items
    ensures cancelled <==> RunTicks(ng0, changes0, inputs, decode).outcome == Cancelled
    ensures cancelled ==> exists i | 0 <= i < |inputs| :: inputs[i].cancelWaiting
  {
    ng, changes, cancelled := ng0, changes0, false;
    var i := 0;
    while i < |inputs|
      invariant 0 <= i <= |inputs|
      invariant changes.cap == changes0.cap && |changes.items| <= changes.cap
      invariant changes0.items <= changes.items
      invariant RunTicks(ng0, changes0, inputs, decode) == RunTicks(ng, changes, inputs[i..], decode)
      invariant !cancelled
      decreases |inputs| - i
    {
      var t := SubscribeTick(ng, changes, inputs[i], decode);
      assert inputs[i..][1..] == inputs[i + 1..];
      if t.outcome == Cancelled {
        assert inputs[i].cancelWaiting;
        ng, changes, cancelled := t.ng, t.changes, true;
        return;
      }
      ng, changes := t.ng, t.changes;
      i := i + 1;
    }
  }
}
