/**
 One endpoint as a step system: datagrams arrive and are cached, entries are swept, and any number
 of NACKs are processed at once, each moving through the tiers, the lookup, the group tier and the
 retransmit in steps that interleave in any order. Everything that happens under one lock is one
 step. A limiter reads the clock before its lock, up to `lag` before the step that uses it.
 */
module Endpoint {
  import opened Bytes
  import opened Options
  import opened Keys
  import W = SlidingWindow
  import M = MemoryCache
  import I = Ingress
  import N = Nack
  import D = Dedup
  import R = Retransmit

  datatype Config = Config(
    codec: I.Codec,
    groupIndex: ByteString -> nat,
    hasEngine: bool,                // without a shard engine the group tier is skipped
    seqPolicy: W.Policy,
    chainPolicy: W.Policy,
    lag: nat,
    ttl: int,
    maxKeys: int,
    suppressACK: bool,
    suppressMISS: bool,
    redis: bool,                    // whether a retransmit goes through the shared claim store
    sockets: set<string>,           // egress interfaces
    shared: bool)                   // the cache is the store redis-backed endpoints share: peers file frames in it too

  datatype Stage =
    | Fresh | PassedIP | PassedSeq | PassedChain | Found | Cleared
    | Invalid | Range | DropIP | DropSeq | DropChain | LookupFailed | Missed
    | Throttled | Sent | Suppressed | SendFailed

  /** What a lookup found, when, and how many cache operations preceded it. */
  datatype Look = Look(at: int, ops: nat, raw: Option<ByteString>)

  /** One NACK; the indices name its entries in the tier logs once it has them. */
  datatype Task = Task(
    nack: ByteString, src: Option<string>, stage: Stage,
    seqIx: nat, chainIx: nat, grantIx: nat, look: Look)

  datatype Grant = Grant(task: nat, key: string, verdict: bool)

  datatype Reply = Reply(task: nat, bytes: ByteString)

  /** A datagram that left an egress socket, with the NACK it was sent for. */
  datatype Egress = Egress(task: nat, sending: R.Sending)

  datatype Metrics = Metrics(
    requests: nat, ipDrops: nat, seqDrops: nat, chainDrops: nat, groupDrops: nat,
    cacheErrors: nat, misses: nat, hits: nat, retransmits: nat, dedups: nat)

  /** The sliding-window tiers: every call in lock order, and the lists stored. */
  datatype Windows = Windows(
    seqLog: seq<W.Call<Uint64>>, seqs: map<Uint64, seq<int>>,
    chainLog: seq<W.Call<string>>, chains: map<string, seq<int>>)

  /** The cache: every operation in lock order, and the entries held. */
  datatype Cache = Cache(ops: seq<M.Op>, data: M.Data)

  /** What has left the endpoint: responses, and retransmitted frames per socket. */
  datatype Out = Out(replies: seq<Reply>, egress: seq<Egress>)

  datatype State = State(
    clock: int, win: Windows, cache: Cache, grants: seq<Grant>, tasks: seq<Task>, out: Out, m: Metrics)

  /** One Retransmit call: what the claim store said, and the sockets written before the call returned. */
  datatype Attempt = Attempt(reply: R.ClaimReply, written: seq<string>, ok: bool)

  datatype Step =
    | Tick(dt: nat)
    | Frame(raw: ByteString, ttl: int, victims: set<ByteString>)
    | Sweep
    | Arrive(nack: ByteString, src: Option<string>)
    | AskIP(t: nat, verdict: bool)
    | AskSeq(t: nat, reading: int)
    | AskChain(t: nat, reading: int)
    | Lookup(t: nat)
    | LookupError(t: nat)
    | AskGroup(t: nat, verdict: bool)
    | Retransmit(t: nat, a: Attempt)

  const START := State(0, Windows([], map[], [], map[]), Cache([], map[]), [], [], Out([], []),
                       Metrics(0, 0, 0, 0, 0, 0, 0, 0, 0, 0))

  /** The text of a NACK's source; without a source address, the unspecified address. */
  function SourceText(src: Option<string>): (text: string)
  {
    match src case None => "::" case Some(a) => a
  }

  function Source(task: Task): (src: string)
  {
    SourceText(task.src)
  }

  /** The frame a NACK asks for. */
  predicate Asks(task: Task) { N.Parse(task.nack).Single? }

  function HashKey(task: Task): (h: Uint64)
    requires Asks(task)
  {
    N.Parse(task.nack).hashKey
  }

  function SeqNum(task: Task): (s: Uint64)
    requires Asks(task)
  {
    N.Parse(task.nack).seqNum
  }

  function Key(task: Task): (key: ByteString)
    requires Asks(task)
  {
    CacheKey(HashKey(task), SeqNum(task))
  }

  /** The TxID of a frame: bytes 8 to 39, or zeros when it is too short. */
  function TxID(raw: ByteString): (id: ByteString)
    ensures |id| == 32
  {
    if |raw| >= 40 then raw[8..40] else seq(32, _ => 0)
  }

  /** A byte string is a frame's TxID: its byte i is byte 8 + i of the frame, or zero if the frame ends before 40. */
  ghost predicate IsTxID(raw: ByteString, id: ByteString) {
    |id| == 32 && forall i :: 0 <= i < 32 ==> id[i] == if |raw| >= 40 then raw[8 + i] else 0
  }

  lemma TxIDByPosition(raw: ByteString, id: ByteString)
    ensures IsTxID(raw, id) <==> id == TxID(raw)
  {
  }

  function DestOf(c: Config, raw: ByteString): (d: D.Dest)
  {
    D.EgressDest(c.groupIndex, raw, TxID(raw))
  }

  /** Where the bytes of a frame send it: by its version byte, and to a shard by the TxID at bytes 8 to 39. */
  ghost predicate Routed(c: Config, raw: ByteString, dest: D.Dest) {
    exists id :: IsTxID(raw, id) && D.Addressed(c.groupIndex, raw, id, dest)
  }

  lemma RoutedExactly(c: Config, raw: ByteString, dest: D.Dest)
    ensures Routed(c, raw, dest) <==> dest == DestOf(c, raw)
  {
    hide TxID, IsTxID;
    TxIDByPosition(raw, TxID(raw));
    D.AddressedExactly(c.groupIndex, raw, TxID(raw), dest);
    if Routed(c, raw, dest) {
      var id :| IsTxID(raw, id) && D.Addressed(c.groupIndex, raw, id, dest);
      TxIDByPosition(raw, id);
    }
  }

  /** The bucket charged for retransmitting a frame to a source. */
  function BucketOf(c: Config, task: Task, raw: ByteString): (key: string)
  {
    GroupKey(Source(task), c.groupIndex(TxID(raw)))
  }

  predicate Distinct(names: seq<string>) {
    forall i, j :: 0 <= i < j < |names| ==> names[i] != names[j]
  }

  /**
   What a Retransmit call can do: write nothing unless the frame enters the write loop; in the loop,
   write sockets once each in some order, all of them exactly when no write fails.
   */
  predicate Plausible(c: Config, raw: ByteString, a: Attempt) {
    if R.Enters(c.redis, raw, a.reply) then
      && Distinct(a.written) && (forall i :: 0 <= i < |a.written| ==> a.written[i] in c.sockets)
      && (a.ok <==> forall name :: name in c.sockets ==> name in a.written)
    else a.written == [] && a.ok
  }

  /** How a Retransmit call ends its NACK. */
  function Ending(c: Config, raw: ByteString, a: Attempt): (stage: Stage)
  {
    if !R.Enters(c.redis, raw, a.reply) then Suppressed
    else if a.ok then Sent else SendFailed
  }

  function Writes(t: nat, raw: ByteString, dest: D.Dest, written: seq<string>): (es: seq<Egress>)
    ensures |es| == |written|
    ensures forall i :: 0 <= i < |es| ==> es[i] == Egress(t, R.Sending(written[i], raw, dest))
  {
    seq(|written|, i requires 0 <= i < |written| => Egress(t, R.Sending(written[i], raw, dest)))
  }

  // ----- the steps -----

  predicate At(s: State, t: nat, stage: Stage) {
    t < |s.tasks| && s.tasks[t].stage == stage && Asks(s.tasks[t])
  }

  /** The operation a received frame makes on the cache, if any. */
  function StoreOf(c: Config, s: State, raw: ByteString, ttl: int, victims: set<ByteString>): (op: Option<M.Op>)
  {
    if raw == [] then None
    else
      match I.Classify(c.codec, raw)
      case Cacheable(key) => Some(M.Store(key, raw, ttl, s.clock, victims))
      case _ => None
  }

  predicate Enabled(c: Config, s: State, step: Step) {
    match step
    case Tick(_) => true
    case Frame(raw, ttl, victims) =>
      && (ttl == c.ttl || c.shared)
      && (StoreOf(c, s, raw, ttl, victims).Some? ==> M.VictimsOk(s.cache.data, c.maxKeys, victims))
    case Sweep => true
    case Arrive(_, _) => true
    case AskIP(t, _) => At(s, t, Fresh)
    case AskSeq(t, reading) => At(s, t, PassedIP) && s.clock - c.lag <= reading <= s.clock
    case AskChain(t, reading) => At(s, t, PassedSeq) && s.clock - c.lag <= reading <= s.clock
    case Lookup(t) => At(s, t, PassedChain)
    case LookupError(t) => At(s, t, PassedChain)
    case AskGroup(t, _) => At(s, t, Found) && s.tasks[t].look.raw.Some?
    case Retransmit(t, a) =>
      At(s, t, Cleared) && s.tasks[t].look.raw.Some? && Plausible(c, s.tasks[t].look.raw.value, a)
  }

  function Put(s: State, t: nat, task: Task): (s': State)
    requires t < |s.tasks|
  {
    s.(tasks := s.tasks[t := task])
  }

  function ReplyTo(s: State, t: nat, bytes: ByteString, suppress: bool): (s': State)
    requires t < |s.tasks|
  {
    if suppress || s.tasks[t].src.None? then s
    else s.(out := s.out.(replies := s.out.replies + [Reply(t, bytes)]))
  }

  function Emit(s: State, es: seq<Egress>): (s': State)
  {
    s.(out := s.out.(egress := s.out.egress + es))
  }

  function DoOp(s: State, op: M.Op): (s': State)
  {
    s.(cache := Cache(s.cache.ops + [op], M.Apply(s.cache.data, op)))
  }

  function DoFrame(c: Config, s: State, raw: ByteString, ttl: int, victims: set<ByteString>): (s': State)
  {
    match StoreOf(c, s, raw, ttl, victims)
    case None => s
    case Some(op) => DoOp(s, op)
  }

  function DoArrive(s: State, nack: ByteString, src: Option<string>): (s': State)
  {
    var stage := match N.Parse(nack) case Invalid => Invalid case Range => Range case Single(_, _) => Fresh;
    s.(tasks := s.tasks + [Task(nack, src, stage, 0, 0, 0, Look(0, 0, None))],
       m := s.m.(requests := s.m.requests + 1))
  }

  function DoIP(s: State, t: nat, verdict: bool): (s': State)
    requires At(s, t, Fresh)
  {
    if verdict then Put(s, t, s.tasks[t].(stage := PassedIP))
    else Put(s, t, s.tasks[t].(stage := DropIP)).(m := s.m.(ipDrops := s.m.ipDrops + 1))
  }

  function DoSeq(c: Config, s: State, t: nat, reading: int): (s': State)
    requires At(s, t, PassedIP)
  {
    var key := SeqNum(s.tasks[t]);
    var ok := W.Admits(c.seqPolicy, W.Entry(s.win.seqs, key), reading);
    var s1 := s.(win := s.win.(seqLog := s.win.seqLog + [W.Call(key, reading, t)],
                               seqs := W.Allow(c.seqPolicy, s.win.seqs, key, reading)));
    if ok then Put(s1, t, s.tasks[t].(stage := PassedSeq, seqIx := |s.win.seqLog|))
    else Put(s1, t, s.tasks[t].(stage := DropSeq)).(m := s.m.(seqDrops := s.m.seqDrops + 1))
  }

  function DoChain(c: Config, s: State, t: nat, reading: int): (s': State)
    requires At(s, t, PassedSeq)
  {
    if HashKey(s.tasks[t]) == 0 then Put(s, t, s.tasks[t].(stage := PassedChain))
    else
      var key := ChainKey(Source(s.tasks[t]), HashKey(s.tasks[t]));
      var ok := W.Admits(c.chainPolicy, W.Entry(s.win.chains, key), reading);
      var s1 := s.(win := s.win.(chainLog := s.win.chainLog + [W.Call(key, reading, t)],
                                 chains := W.Allow(c.chainPolicy, s.win.chains, key, reading)));
      if ok then Put(s1, t, s.tasks[t].(stage := PassedChain, chainIx := |s.win.chainLog|))
      else Put(s1, t, s.tasks[t].(stage := DropChain)).(m := s.m.(chainDrops := s.m.chainDrops + 1))
  }

  function DoLookup(c: Config, s: State, t: nat): (s': State)
    requires At(s, t, PassedChain)
  {
    var raw := M.Lookup(s.cache.data, Key(s.tasks[t]), s.clock);
    var look := Look(s.clock, |s.cache.ops|, raw);
    if raw.None? then
      ReplyTo(Put(s, t, s.tasks[t].(stage := Missed, look := look)), t, N.MISS, c.suppressMISS).(
        m := s.m.(misses := s.m.misses + 1))
    else
      Put(s, t, s.tasks[t].(stage := Found, look := look)).(m := s.m.(hits := s.m.hits + 1))
  }

  function DoLookupError(s: State, t: nat): (s': State)
    requires At(s, t, PassedChain)
  {
    Put(s, t, s.tasks[t].(stage := LookupFailed, look := Look(s.clock, |s.cache.ops|, None)))
      .(m := s.m.(cacheErrors := s.m.cacheErrors + 1))
  }

  function DoGroup(c: Config, s: State, t: nat, verdict: bool): (s': State)
    requires At(s, t, Found) && s.tasks[t].look.raw.Some?
  {
    if !c.hasEngine then Put(s, t, s.tasks[t].(stage := Cleared))
    else
      var key := BucketOf(c, s.tasks[t], s.tasks[t].look.raw.value);
      var s1 := s.(grants := s.grants + [Grant(t, key, verdict)]);
      if verdict then Put(s1, t, s.tasks[t].(stage := Cleared, grantIx := |s.grants|))
      else
        ReplyTo(Put(s1, t, s.tasks[t].(stage := Throttled)), t, N.Ack(SeqNum(s.tasks[t])), c.suppressACK).(
          m := s.m.(groupDrops := s.m.groupDrops + 1))
  }

  function DoRetransmit(c: Config, s: State, t: nat, a: Attempt): (s': State)
    requires At(s, t, Cleared) && s.tasks[t].look.raw.Some?
  {
    var task, raw := s.tasks[t], s.tasks[t].look.raw.value;
    var ack, stage := N.Ack(SeqNum(task)), Ending(c, raw, a);
    var s1 := Emit(Put(s, t, task.(stage := stage)), Writes(t, raw, DestOf(c, raw), a.written));
    if stage == SendFailed then s1.(m := s.m.(cacheErrors := s.m.cacheErrors + 1))
    else
      ReplyTo(s1, t, ack, c.suppressACK).(
        m := s.m.(retransmits := s.m.retransmits + 1,
                  dedups := s.m.dedups + if stage == Suppressed then 1 else 0))
  }

  function Do(c: Config, s: State, step: Step): (s': State)
    requires Enabled(c, s, step)
  {
    match step
    case Tick(dt) => s.(clock := s.clock + dt)
    case Frame(raw, ttl, victims) => DoFrame(c, s, raw, ttl, victims)
    case Sweep => DoOp(s, M.Sweep(s.clock))
    case Arrive(nack, src) => DoArrive(s, nack, src)
    case AskIP(t, verdict) => DoIP(s, t, verdict)
    case AskSeq(t, reading) => DoSeq(c, s, t, reading)
    case AskChain(t, reading) => DoChain(c, s, t, reading)
    case Lookup(t) => DoLookup(c, s, t)
    case LookupError(t) => DoLookupError(s, t)
    case AskGroup(t, verdict) => DoGroup(c, s, t, verdict)
    case Retransmit(t, a) => DoRetransmit(c, s, t, a)
  }

  // ----- runs -----

  ghost predicate CanRun(c: Config, steps: seq<Step>)
    decreases |steps|, 0
  {
    steps == [] ||
    (var before := steps[..|steps| - 1];
     CanRun(c, before) && Enabled(c, Run(c, before), steps[|steps| - 1]))
  }

  /** The state after a run from the start. */
  ghost function Run(c: Config, steps: seq<Step>): (s: State)
    requires CanRun(c, steps)
    decreases |steps|, 1
  {
    if steps == [] then START
    else Do(c, Run(c, steps[..|steps| - 1]), steps[|steps| - 1])
  }
}
