/** Start-up and the change-propagation pipeline, flattened: the producer
    (the file engine's watch loop) and the consumer (the change processor)
    advance one step at a time over a shared bounded queue. */
module Pipeline {
  import opened Wrappers
  import opened Text
  import opened Config
  import opened Channel
  import opened FileEngine
  import Container
  import Service

  /** The running system: the engine, the change queue and whether the
      producer closed it, the container, the service options, and whether
      each side has finished. */
  datatype System = System(
    ng: Engine,
    changes: Queue<Event>,
    closed: bool,
    reg: Container.Registry,
    options: Service.Options,
    producerDone: bool,
    consumerDone: bool)

  /** Why start-up stopped before the watch loop. */
  datatype StartError =
    | NoEngineProvider(msg: string)  // the entry names an unknown engine type
    | EtcdEngine                     // the etcd engine was selected; it is not part of this model
    | EngineInitFailed(err: EngineError)

  /** Start-up with the file engine, up to the two pipeline tasks: select the
      engine, load it (a read or refresh error aborts), initialise the
      container with the merged configuration, and create the change queue. */
  function Start(entry: Entry, options: Service.Options, cnt: Container.Registry, read: ReadResult,
                 decode: Decoder, env: Container.Env): (r: Result<System, StartError>)
    ensures Service.SelectEngine(entry.engineType).Failure? ==>
      r == Failure(NoEngineProvider(Service.SelectEngine(entry.engineType).error))
    ensures entry.engineType == "file" && Init(New(entry), read, decode).err.Some? ==>
      r == Failure(EngineInitFailed(Init(New(entry), read, decode).err.value))
    ensures entry.engineType == "file" && Init(New(entry), read, decode).err.None? ==> r.Success?
    ensures r.Success? ==>
      && entry.engineType == "file"
      && r.value.options == options
      && read.Read? && r.value.ng == RefreshConfig(New(entry), read.data, decode).ng
      && r.value.ng.configer.Some?
      && r.value.reg == Container.Init(cnt, Service.MergeOverrides(r.value.ng.configer.value.Get(), options), env)
      && r.value.changes == Empty(ChangesBufferSize)
      && !r.value.closed && !r.value.producerDone && !r.value.consumerDone
  {
    match Service.SelectEngine(entry.engineType)
    case Failure(msg) => Failure(NoEngineProvider(msg))
    case Success(Etcd) => Failure(EtcdEngine)
    case Success(File) =>
      var loaded := Init(New(entry), read, decode);
      if loaded.err.Some? then Failure(EngineInitFailed(loaded.err.value))
      else
        var conf := Service.MergeOverrides(GetConfiger(loaded.ng).value.Get(), options);
        Success(System(loaded.ng, Empty(ChangesBufferSize), false, Container.Init(cnt, conf, env),
                       options, false, false))
  }

  /** One producer step: a watch-loop iteration; when it observes the
      cancellation, the producer finishes and closes the change queue. A
      finished producer does nothing more. */
  function ProducerStep(sys: System, input: TickInput, decode: Decoder): (r: System)
    ensures sys.producerDone ==> r == sys
    ensures r.reg == sys.reg && r.options == sys.options && r.consumerDone == sys.consumerDone
    ensures r.changes.cap == sys.changes.cap
    ensures sys.changes.items <= r.changes.items
    ensures r.closed <==> sys.closed || (!sys.producerDone && SubscribeTick(sys.ng, sys.changes, input, decode).outcome == Cancelled)
    ensures r.closed ==> r.producerDone || sys.closed
    ensures !sys.producerDone ==> r.ng == SubscribeTick(sys.ng, sys.changes, input, decode).ng
    ensures !sys.producerDone && SubscribeTick(sys.ng, sys.changes, input, decode).outcome != Cancelled ==>
      r.changes == SubscribeTick(sys.ng, sys.changes, input, decode).changes && r.producerDone == sys.producerDone
    ensures !sys.producerDone && SubscribeTick(sys.ng, sys.changes, input, decode).outcome == Cancelled ==>
      r.changes == sys.changes && r.producerDone
  {
    if sys.producerDone then sys
    else
      var t := SubscribeTick(sys.ng, sys.changes, input, decode);
      if t.outcome == Cancelled then sys.(ng := t.ng, producerDone := true, closed := true)
      else sys.(ng := t.ng, changes := t.changes)
  }

  /** What one consumer step did. */
  datatype ConsumerOutcome = Consumed(ev: Event) | Blocked | Finished

  /** One consumer step, with the receive checking for a closed queue: take
      the oldest event and process it; on a closed, drained queue, stop; on
      an open, empty one, wait. */
  function ConsumerStep(sys: System, env: Container.Env): (r: (System, ConsumerOutcome))
    ensures |sys.changes.items| > 0 ==>
      && r.1 == Consumed(sys.changes.items[0])
      && r.0.changes.items == sys.changes.items[1..]
      && r.0.reg == Service.ProcessChange(sys.reg, sys.options, sys.changes.items[0], env).0
    ensures |sys.changes.items| == 0 && sys.closed ==> r.1 == Finished && r.0 == sys.(consumerDone := true)
    ensures |sys.changes.items| == 0 && !sys.closed ==> r.1 == Blocked && r.0 == sys
    ensures r.0.ng == sys.ng && r.0.closed == sys.closed && r.0.producerDone == sys.producerDone
    ensures r.0.options == sys.options && r.0.changes.cap == sys.changes.cap
    ensures |sys.changes.items| > 0 ==> r.0.consumerDone == sys.consumerDone
  {
    if |sys.changes.items| > 0 then
      var (ev, rest) := Receive(sys.changes);
      (sys.(changes := rest, reg := Service.ProcessChange(sys.reg, sys.options, ev, env).0), Consumed(ev))
    else if sys.closed then (sys.(consumerDone := true), Finished)
    else (sys, Blocked)
  }

  /** The consumer loop as written: a receive on a closed, drained queue
      yields a nil event, which is processed as an unsupported event, and
      the loop goes round again. */
  function ConsumerStepAsWritten(sys: System, env: Container.Env): (r: (System, ConsumerOutcome))
    ensures |sys.changes.items| > 0 ==> r == ConsumerStep(sys, env)
    ensures |sys.changes.items| == 0 && sys.closed ==> r == (sys, Consumed(NilEvent))
    ensures |sys.changes.items| == 0 && !sys.closed ==> r == (sys, Blocked)
  {
    if |sys.changes.items| > 0 then ConsumerStep(sys, env)
    else if sys.closed then (sys.(reg := Service.ProcessChange(sys.reg, sys.options, NilEvent, env).0), Consumed(NilEvent))
    else (sys, Blocked)
  }

  /** `n` consumer steps of the loop as written. */
  function RunAsWritten(sys: System, env: Container.Env, n: nat): (r: (System, seq<ConsumerOutcome>))
    decreases n
  {
    if n == 0 then (sys, [])
    else
      var (s1, o1) := ConsumerStepAsWritten(sys, env);
      var (s2, os) := RunAsWritten(s1, env, n - 1);
      (s2, [o1] + os)
  }

  /** Once the producer has closed the queue and it is drained, the consumer
      as written never finishes: every step, however many, receives a nil
      event and changes nothing. */
  lemma {:induction false} ClosedQueueSpins(sys: System, env: Container.Env, n: nat)
    requires sys.closed && |sys.changes.items| == 0
    ensures RunAsWritten(sys, env, n).0 == sys
    ensures |RunAsWritten(sys, env, n).1| == n
    ensures forall i | 0 <= i < n :: RunAsWritten(sys, env, n).1[i] == Consumed(NilEvent)
    decreases n
  {
    if n > 0 {
      ClosedQueueSpins(sys, env, n - 1);
    }
  }

  /** The registry after processing `evs` in order. */
  function ApplyAll(reg: Container.Registry, o: Service.Options, evs: seq<Event>, env: Container.Env): Container.Registry
    decreases |evs|
  {
    if |evs| == 0 then reg
    else ApplyAll(Service.ProcessChange(reg, o, evs[0], env).0, o, evs[1..], env)
  }

  /** `n` consumer steps of the checked loop. */
  function Run(sys: System, env: Container.Env, n: nat): (r: (System, seq<ConsumerOutcome>))
    decreases n
  {
    if n == 0 then (sys, [])
    else
      var (s1, o1) := ConsumerStep(sys, env);
      var (s2, os) := Run(s1, env, n - 1);
      (s2, [o1] + os)
  }

  /** Draining the queue leaves the container as applying the queued events
      in order gives, with the queue empty and the rest of the state kept. */
  lemma {:induction false} DrainState(sys: System, env: Container.Env)
    ensures var s := Run(sys, env, |sys.changes.items|).0;
      && s.reg == ApplyAll(sys.reg, sys.options, sys.changes.items, env)
      && s.changes.items == [] && s.closed == sys.closed && s.options == sys.options
    decreases |sys.changes.items|
  {
    var items := sys.changes.items;
    if |items| > 0 {
      var s1 := ConsumerStep(sys, env).0;
      assert s1.changes.items == items[1..] && s1.options == sys.options;
      DrainState(s1, env);
      assert Run(sys, env, |items|).0 == Run(s1, env, |s1.changes.items|).0;
      assert ApplyAll(sys.reg, sys.options, items, env) == ApplyAll(s1.reg, sys.options, items[1..], env);
    }
  }

  /** One `Consumed` per event, in order. */
  function ConsumedAll(items: seq<Event>): (r: seq<ConsumerOutcome>)
    ensures |r| == |items|
    decreases |items|
  {
    if |items| == 0 then [] else [Consumed(items[0])] + ConsumedAll(items[1..])
  }

  /** The `i`-th report of `ConsumedAll` names the `i`-th event. */
  lemma {:induction false} ConsumedAllAt(items: seq<Event>, i: nat)
    requires i < |items|
    ensures ConsumedAll(items)[i] == Consumed(items[i])
    decreases |items|
  {
    if i > 0 {
      ConsumedAllAt(items[1..], i - 1);
    }
  }

  /** Draining the queue reports one `Consumed` per queued event, in order. */
  lemma {:induction false} DrainOutcomes(sys: System, env: Container.Env)
    ensures Run(sys, env, |sys.changes.items|).1 == ConsumedAll(sys.changes.items)
    decreases |sys.changes.items|
  {
    var items := sys.changes.items;
    if |items| > 0 {
      var s1 := ConsumerStep(sys, env).0;
      assert s1.changes.items == items[1..];
      DrainOutcomes(s1, env);
    }
  }

  /** Events are applied exactly once each and in queue order: after as many
      steps as there are queued events, the container is what applying them
      in order gives, the queue is empty, and the outcomes name them in order. */
  lemma DrainInOrder(sys: System, env: Container.Env)
    ensures var (s, outs) := Run(sys, env, |sys.changes.items|);
      && s.reg == ApplyAll(sys.reg, sys.options, sys.changes.items, env)
      && s.changes.items == [] && s.closed == sys.closed && s.options == sys.options
      && |outs| == |sys.changes.items|
      && forall i | 0 <= i < |outs| :: outs[i] == Consumed(sys.changes.items[i])
  {
    DrainState(sys, env);
    DrainOutcomes(sys, env);
    forall i | 0 <= i < |sys.changes.items| {
      ConsumedAllAt(sys.changes.items, i);
    }
  }

  /** The checked consumer stops: on a closed queue, one step after draining
      it reports `Finished`. */
  lemma ClosedQueueFinishes(sys: System, env: Container.Env)
    requires sys.closed
    ensures var (s, _) := Run(sys, env, |sys.changes.items|);
      ConsumerStep(s, env).1 == Finished
  {
    DrainState(sys, env);
  }

  // ----- properties of the producer side -----

  /** Idempotence: polling content identical to the cached raw bytes (or empty
      content) changes nothing anywhere — no decode, no event, no reload. */
  lemma IdenticalContentIsNoop(sys: System, data: Bytes, cancelWaiting: bool, cancelWins: bool, decode: Decoder)
    requires |data| == 0 || data == sys.ng.prevRawConfigContent
    ensures ProducerStep(sys, TickInput(Read(data), cancelWaiting, cancelWins), decode) == sys
  {
  }

  /** Fail-safe retention: content that does not decode (or a non-json
      format, or a read error) leaves the whole system as it was; in
      particular no event reaches the container. */
  lemma RejectedContentIsRetained(sys: System, input: TickInput, decode: Decoder)
    requires input.read.ReadError? || RefreshConfig(sys.ng, input.read.data, decode).err.Some?
    ensures ProducerStep(sys, input, decode) == sys
  {
  }

  /** Cancellation is single-shot: once the producer finished and closed the
      queue, further producer steps do nothing. */
  lemma CancelledIsTerminal(sys: System, input: TickInput, decode: Decoder)
    requires !sys.producerDone
    requires SubscribeTick(sys.ng, sys.changes, input, decode).outcome == Cancelled
    ensures var s1 := ProducerStep(sys, input, decode);
      && s1.producerDone && s1.closed && s1.changes == sys.changes
      && forall next: TickInput :: ProducerStep(s1, next, decode) == s1
  {
  }

  /** Backpressure: with a queue of depth 2 and no consumer step, three
      successive changed contents are all committed, the first two are
      delivered in order and the third is dropped without error. */
  lemma ThreeChangesDepthTwo(ng: Engine, d1: Bytes, d2: Bytes, d3: Bytes, decode: Decoder)
    requires FormatOf(ng.entry.configFormat) == Json
    requires |d1| > 0 && |d2| > 0 && |d3| > 0
    requires d1 != ng.prevRawConfigContent && d2 != d1 && d3 != d2
    requires decode(d1).Some? && decode(d2).Some? && decode(d3).Some?
    ensures var q0: Queue<Event> := Empty(2);
      var t1 := SubscribeTick(ng, q0, TickInput(Read(d1), false, false), decode);
      var t2 := SubscribeTick(t1.ng, t1.changes, TickInput(Read(d2), false, false), decode);
      var t3 := SubscribeTick(t2.ng, t2.changes, TickInput(Read(d3), false, false), decode);
      && t1.outcome == Published && t2.outcome == Published && t3.outcome == Dropped
      && t3.changes.items == [Change(Jsoner(decode(d1).value)), Change(Jsoner(decode(d2).value))]
      && t3.ng.prevRawConfigContent == d3
  {
  }

  /** Start-up and change processing apply the same merge: once the system
      has started, the start-up configer arriving as a change and consumed
      touches no component. */
  lemma StartThenRepublishIsNoop(entry: Entry, options: Service.Options, cnt: Container.Registry, read: ReadResult,
                                 decode: Decoder, env: Container.Env)
    requires Start(entry, options, cnt, read, decode, env).Success?
    ensures var s0 := Start(entry, options, cnt, read, decode, env).value;
      var s1 := s0.(changes := TrySend(s0.changes, Change(GetConfiger(s0.ng).value)).value);
      && ConsumerStep(s1, env).1 == Consumed(Change(GetConfiger(s0.ng).value))
      && ConsumerStep(s1, env).0.reg == s0.reg
  {
    var s0 := Start(entry, options, cnt, read, decode, env).value;
    Service.StartupConfigRepublishedIsNoop(cnt, GetConfiger(s0.ng).value, options, env);
  }

  // ----- when a cancellation is noticed -----

  /** The watch loop over a run of polls, until the producer finishes. */
  function RunProducer(sys: System, inputs: seq<TickInput>, decode: Decoder): System
    decreases |inputs|
  {
    if |inputs| == 0 || sys.producerDone then sys
    else RunProducer(ProducerStep(sys, inputs[0], decode), inputs[1..], decode)
  }

  /** The loop as written only looks at the cancellation inside the publish
      `select`: while the file keeps failing to read, keeps its content, or
      keeps failing to refresh, a waiting cancellation sender is never
      served, however many polls go by, and nothing changes. */
  lemma {:induction false} CancelWaitsForChange(sys: System, inputs: seq<TickInput>, decode: Decoder)
    requires forall i | 0 <= i < |inputs| ::
      && inputs[i].cancelWaiting
      && (|| inputs[i].read.ReadError?
          || IsUnchanged(sys.ng, inputs[i].read.data)
          || RefreshConfig(sys.ng, inputs[i].read.data, decode).err.Some?)
    ensures RunProducer(sys, inputs, decode) == sys
    decreases |inputs|
  {
    if |inputs| > 0 && !sys.producerDone {
      assert ProducerStep(sys, inputs[0], decode) == sys;
      assert forall i | 0 <= i < |inputs[1..]| :: inputs[1..][i] == inputs[i + 1];
      CancelWaitsForChange(sys, inputs[1..], decode);
    }
  }

  /** A producer step that looks at the cancellation first, on every
      iteration, whatever the file holds. */
  function ProducerStepChecked(sys: System, input: TickInput, decode: Decoder): (r: System)
    ensures sys.producerDone ==> r == sys
    ensures !sys.producerDone && input.cancelWaiting ==>
      r.producerDone && r.closed && r.ng == sys.ng && r.changes == sys.changes && r.reg == sys.reg
    ensures !input.cancelWaiting ==> r == ProducerStep(sys, input, decode)
  {
    if sys.producerDone then sys
    else if input.cancelWaiting then sys.(producerDone := true, closed := true)
    else ProducerStep(sys, input, decode)
  }

  /** The checked watch loop over a run of polls, until the producer finishes. */
  function RunProducerChecked(sys: System, inputs: seq<TickInput>, decode: Decoder): System
    decreases |inputs|
  {
    if |inputs| == 0 || sys.producerDone then sys
    else RunProducerChecked(ProducerStepChecked(sys, inputs[0], decode), inputs[1..], decode)
  }

  /** With the check, a cancellation sent during any poll of the run stops
      the producer and closes the queue, whatever the file held. */
  lemma {:induction false} CheckedCancelStops(sys: System, inputs: seq<TickInput>, decode: Decoder)
    requires !sys.producerDone
    requires exists i | 0 <= i < |inputs| :: inputs[i].cancelWaiting
    ensures RunProducerChecked(sys, inputs, decode).producerDone
    ensures RunProducerChecked(sys, inputs, decode).closed
    decreases |inputs|
  {
    var s1 := ProducerStepChecked(sys, inputs[0], decode);
    if !inputs[0].cancelWaiting {
      assert !s1.producerDone;
      var i :| 0 <= i < |inputs| && inputs[i].cancelWaiting;
      assert inputs[1..][i - 1] == inputs[i];
      CheckedCancelStops(s1, inputs[1..], decode);
    }
  }

  // ----- end to end -----

  /** Start-up on content with Redis at host h1, a change to host h2 picked up
      by one poll and applied by one consumer step (the Redis client is
      reloaded in place and now bound to h2), then malformed content that
      reaches nobody: the h2-bound client stays live. */
  lemma EndToEnd(entry: Entry, options: Service.Options, d1: Bytes, d2: Bytes, bad: Bytes,
                 a1: AppConf, decode: Decoder, env: Container.Env)
    requires entry.engineType == "file" && FormatOf(entry.configFormat) == Json
    requires |d2| > 0 && |bad| > 0 && d1 != d2 && bad != d2
    requires a1.redis.enable && a1.redis.host == "h1" && env.redisUp(a1.redis)
    requires decode(d1) == Some(a1)
    requires decode(d2) == Some(a1.(redis := a1.redis.(host := "h2")))
    requires decode(bad).None?
    ensures var started := Start(entry, options, Container.NewContainer(), Read(d1), decode, env);
      && started.Success?
      && var s0 := started.value;
      && s0.reg.redis.Some? && s0.reg.redis.value.conf.host == "h1"
      && var s1 := ProducerStep(s0, TickInput(Read(d2), false, false), decode);
      && |s1.changes.items| == 1
      && var (s2, _) := ConsumerStep(s1, env);
      && s2.reg.redis == Some(s0.reg.redis.value.(conf := a1.redis.(host := "h2")))
      && var s3 := ProducerStep(s2, TickInput(Read(bad), false, false), decode);
      && s3 == s2
      && ConsumerStep(s3, env) == (s2, Blocked)
  {
    var started := Start(entry, options, Container.NewContainer(), Read(d1), decode, env);
    var s0 := started.value;
    var c1 := Service.MergeOverrides(a1, options);
    assert s0.reg == Container.Init(Container.NewContainer(), c1, env);
    var s1 := ProducerStep(s0, TickInput(Read(d2), false, false), decode);
    var a2 := a1.(redis := a1.redis.(host := "h2"));
    assert s1.changes.items == [Change(Jsoner(a2))];
    var c2 := Service.MergeOverrides(a2, options);
    assert c2.redis != c1.redis;
  }
}
