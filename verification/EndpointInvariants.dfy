/** What every step of the endpoint keeps. */
module EndpointInvariants {
  import opened Options
  import opened Keys
  import B = Bytes
  import W = SlidingWindow
  import M = MemoryCache
  import I = Ingress
  import N = Nack
  import D = Dedup
  import R = Retransmit
  import WL = WindowLimiter
  import opened Endpoint

  // ----- the invariants -----

  ghost predicate ReadBy<K>(log: seq<W.Call<K>>, clock: int) {
    forall i :: 0 <= i < |log| ==> log[i].now <= clock
  }

  /** The stored windows are those of the logged calls, and no reading is more than lag behind. */
  ghost predicate LimitInv(c: Config, s: State) {
    && s.win.seqs == W.Entries(c.seqPolicy, s.win.seqLog) && s.win.chains == W.Entries(c.chainPolicy, s.win.chainLog)
    && ReadBy(s.win.seqLog, s.clock) && ReadBy(s.win.chainLog, s.clock)
    && W.RunLag(s.win.seqLog, c.lag) && W.RunLag(s.win.chainLog, c.lag)
  }

  /** A store of a frame under the key of its own stamp; only peers may use another time to live. */
  predicate StoreOk(c: Config, op: M.Op) {
    op.Store? ==> (op.ttl == c.ttl || c.shared) && I.KeyMatches(c.codec, op.key, op.value)
  }

  ghost predicate CacheInv(c: Config, s: State) {
    && s.cache.data == M.Run(s.cache.ops) && M.ValidRun(s.cache.ops, c.maxKeys) && M.ReadBy(s.cache.ops, s.clock)
    && (forall i :: 0 <= i < |s.cache.ops| ==> StoreOk(c, s.cache.ops[i]) && !s.cache.ops[i].Delete?)
  }

  predicate PastSeq(stage: Stage) {
    stage in {PassedSeq, PassedChain, Found, Cleared, DropChain, LookupFailed, Missed, Throttled, Sent, Suppressed,
      SendFailed}
  }

  /** The stages of a NACK whose lookup was made. */
  predicate LookedUp(stage: Stage) {
    stage in {Found, Cleared, LookupFailed, Missed, Throttled, Sent, Suppressed, SendFailed}
  }

  predicate PastChain(stage: Stage) {
    stage == PassedChain || LookedUp(stage)
  }

  predicate Hit(stage: Stage) {
    stage in {Found, Cleared, Throttled, Sent, Suppressed, SendFailed}
  }

  predicate PastGroup(stage: Stage) {
    stage in {Cleared, Sent, Suppressed, SendFailed}
  }

  predicate Acked(stage: Stage) {
    stage in {Throttled, Sent, Suppressed}
  }

  ghost predicate SeqOk(c: Config, s: State, t: nat, task: Task) {
    && Asks(task) && task.seqIx < |s.win.seqLog|
    && s.win.seqLog[task.seqIx].who == t && s.win.seqLog[task.seqIx].key == SeqNum(task)
    && W.AdmittedAt(c.seqPolicy, s.win.seqLog, task.seqIx)
  }

  ghost predicate ChainOk(c: Config, s: State, t: nat, task: Task) {
    && Asks(task)
    && (HashKey(task) != 0 ==>
          && task.chainIx < |s.win.chainLog|
          && s.win.chainLog[task.chainIx].who == t
          && s.win.chainLog[task.chainIx].key == ChainKey(Source(task), HashKey(task))
          && W.AdmittedAt(c.chainPolicy, s.win.chainLog, task.chainIx))
  }

  /** A lookup saw what the cache held after the operations that preceded it. */
  ghost predicate LookOk(s: State, task: Task) {
    && Asks(task) && task.look.ops <= |s.cache.ops|
    && M.ReadBy(s.cache.ops[..task.look.ops], task.look.at)
    && task.look.raw == M.Lookup(M.Run(s.cache.ops[..task.look.ops]), Key(task), task.look.at)
  }

  ghost predicate GrantOk(c: Config, s: State, t: nat, task: Task) {
    c.hasEngine && task.look.raw.Some? ==>
      task.grantIx < |s.grants| && s.grants[task.grantIx] == Grant(t, BucketOf(c, task, task.look.raw.value), true)
  }

  ghost predicate TaskOk(c: Config, s: State, t: nat, task: Task) {
    && (task.stage == Endpoint.Invalid <==> N.Parse(task.nack).Invalid?)
    && (task.stage == Endpoint.Range <==> N.Parse(task.nack).Range?)
    && (PastSeq(task.stage) ==> SeqOk(c, s, t, task))
    && (PastChain(task.stage) ==> ChainOk(c, s, t, task))
    && (Hit(task.stage) || task.stage == Missed ==> LookOk(s, task))
    && (Hit(task.stage) ==> task.look.raw.Some?)
    && (task.stage == Missed ==> task.look.raw.None?)
    && (PastGroup(task.stage) ==> GrantOk(c, s, t, task))
  }

  ghost predicate TaskInv(c: Config, s: State) {
    forall t :: 0 <= t < |s.tasks| ==> TaskOk(c, s, t, s.tasks[t])
  }

  /** Whether a NACK is to be answered: it has a source and an outcome whose response is not suppressed. */
  predicate Due(c: Config, task: Task) {
    task.src.Some? && ((Acked(task.stage) && !c.suppressACK) || (task.stage == Missed && !c.suppressMISS))
  }

  /** A response is an ACK carrying the number asked for, or a MISS, by how its NACK ended. */
  ghost predicate ReplyOk(c: Config, s: State, r: Reply) {
    && r.task < |s.tasks| && Asks(s.tasks[r.task]) && Due(c, s.tasks[r.task])
    && (Acked(s.tasks[r.task].stage) ==> r.bytes == N.Ack(SeqNum(s.tasks[r.task])))
    && (s.tasks[r.task].stage == Missed ==> r.bytes == N.MISS)
  }

  ghost predicate Answered(s: State, t: nat) {
    exists i :: 0 <= i < |s.out.replies| && s.out.replies[i].task == t
  }

  /** Every NACK that is due a response has exactly one, and no other NACK has any. */
  ghost predicate ReplyInv(c: Config, s: State) {
    && (forall i :: 0 <= i < |s.out.replies| ==> ReplyOk(c, s, s.out.replies[i]))
    && (forall i, j :: 0 <= i < j < |s.out.replies| ==> s.out.replies[i].task != s.out.replies[j].task)
    && (forall t :: 0 <= t < |s.tasks| && Due(c, s.tasks[t]) ==> Answered(s, t))
  }

  /** A datagram that left: the frame its NACK found, to the group the frame calls for. */
  ghost predicate EgressOk(c: Config, s: State, e: Egress) {
    && e.task < |s.tasks| && (s.tasks[e.task].stage == Sent || s.tasks[e.task].stage == SendFailed)
    && s.tasks[e.task].look.raw == Some(e.sending.raw)
    && e.sending.dest == DestOf(c, e.sending.raw)
    && e.sending.iface in c.sockets
  }

  /** Whether some of the datagrams is a NACK's on an interface. */
  ghost predicate Wrote(es: seq<Egress>, t: nat, name: string) {
    exists i :: 0 <= i < |es| && es[i].task == t && es[i].sending.iface == name
  }

  ghost predicate WroteAll(c: Config, es: seq<Egress>, t: nat) {
    forall name :: name in c.sockets ==> Wrote(es, t, name)
  }

  ghost predicate OncePerSocket(es: seq<Egress>) {
    forall i, j :: 0 <= i < j < |es| ==> es[i].task != es[j].task || es[i].sending.iface != es[j].sending.iface
  }

  /** A sent NACK has its frame on every socket, one whose send failed not on every socket. */
  ghost predicate LoopOk(c: Config, s: State, t: nat)
    requires t < |s.tasks|
  {
    && (s.tasks[t].stage == Sent ==> WroteAll(c, s.out.egress, t))
    && (s.tasks[t].stage == SendFailed ==> !WroteAll(c, s.out.egress, t))
  }

  ghost predicate EgressInv(c: Config, s: State) {
    && (forall i :: 0 <= i < |s.out.egress| ==> EgressOk(c, s, s.out.egress[i]))
    && OncePerSocket(s.out.egress)
    && (forall t :: 0 <= t < |s.tasks| ==> LoopOk(c, s, t))
  }

  /** No call that a lookup's NACK was admitted after, or with, was read after the lookup. */
  ghost predicate TimeOk(s: State, task: Task) {
    LookedUp(task.stage) ==>
      && Asks(task) && task.seqIx < |s.win.seqLog|
      && (forall i :: 0 <= i <= task.seqIx ==> s.win.seqLog[i].now <= task.look.at)
      && (HashKey(task) != 0 ==>
            && task.chainIx < |s.win.chainLog|
            && (forall i :: 0 <= i <= task.chainIx ==> s.win.chainLog[i].now <= task.look.at))
  }

  ghost predicate TimeInv(s: State) {
    forall t :: 0 <= t < |s.tasks| ==> TimeOk(s, s.tasks[t])
  }

  /** What a NACK at a stage has added to the counters. */
  function Mark(stage: Stage): (m: Metrics)
  {
    match stage
    case DropIP => Metrics(1, 1, 0, 0, 0, 0, 0, 0, 0, 0)
    case DropSeq => Metrics(1, 0, 1, 0, 0, 0, 0, 0, 0, 0)
    case DropChain => Metrics(1, 0, 0, 1, 0, 0, 0, 0, 0, 0)
    case LookupFailed => Metrics(1, 0, 0, 0, 0, 1, 0, 0, 0, 0)
    case Missed => Metrics(1, 0, 0, 0, 0, 0, 1, 0, 0, 0)
    case Found => Metrics(1, 0, 0, 0, 0, 0, 0, 1, 0, 0)
    case Cleared => Metrics(1, 0, 0, 0, 0, 0, 0, 1, 0, 0)
    case Throttled => Metrics(1, 0, 0, 0, 1, 0, 0, 1, 0, 0)
    case Sent => Metrics(1, 0, 0, 0, 0, 0, 0, 1, 1, 0)
    case Suppressed => Metrics(1, 0, 0, 0, 0, 0, 0, 1, 1, 1)
    case SendFailed => Metrics(1, 0, 0, 0, 0, 1, 0, 1, 0, 0)
    case _ => Metrics(1, 0, 0, 0, 0, 0, 0, 0, 0, 0)
  }

  function Plus(a: Metrics, b: Metrics): (m: Metrics)
  {
    Metrics(a.requests + b.requests, a.ipDrops + b.ipDrops, a.seqDrops + b.seqDrops,
            a.chainDrops + b.chainDrops, a.groupDrops + b.groupDrops, a.cacheErrors + b.cacheErrors,
            a.misses + b.misses, a.hits + b.hits, a.retransmits + b.retransmits, a.dedups + b.dedups)
  }

  function Total(tasks: seq<Task>): (m: Metrics)
  {
    if tasks == [] then Metrics(0, 0, 0, 0, 0, 0, 0, 0, 0, 0)
    else Plus(Total(tasks[..|tasks| - 1]), Mark(tasks[|tasks| - 1].stage))
  }

  /** The counters are what all NACKs so far have added. */
  ghost predicate MetricsInv(s: State) {
    s.m == Total(s.tasks)
  }

  ghost predicate Inv(c: Config, s: State) {
    && LimitInv(c, s) && CacheInv(c, s) && TaskInv(c, s) && TimeInv(s)
    && ReplyInv(c, s) && EgressInv(c, s) && MetricsInv(s)
  }

  // ----- logs -----

  lemma LogGrows<K>(p: W.Policy, log: seq<W.Call<K>>, entries: map<K, seq<int>>, call: W.Call<K>, clock: int, lag: nat)
    requires entries == W.Entries(p, log) && ReadBy(log, clock) && W.RunLag(log, lag)
    requires clock - lag <= call.now <= clock
    ensures W.Allow(p, entries, call.key, call.now) == W.Entries(p, log + [call])
    ensures ReadBy(log + [call], clock) && W.RunLag(log + [call], lag)
  {
    hide W.Entries, W.Stored;
    WL.EntriesStep(p, log, call);
  }

  lemma OpsGrow(ops: seq<M.Op>, op: M.Op, maxKeys: int, clock: int)
    requires M.ValidRun(ops, maxKeys) && M.Enabled(M.Run(ops), maxKeys, op)
    requires M.ReadBy(ops, clock) && (op.Delete? || op.now <= clock)
    ensures M.ValidRun(ops + [op], maxKeys) && M.ReadBy(ops + [op], clock)
    ensures M.Run(ops + [op]) == M.Apply(M.Run(ops), op)
  {
    M.RunStep(ops, op);
    hide M.Run;
    var all := ops + [op];
    forall i | 0 <= i < |all| ensures M.Enabled(M.Run(all[..i]), maxKeys, all[i]) {
      assert all[..i] == ops[..i];
      if i < |ops| {
        assert M.Enabled(M.Run(ops[..i]), maxKeys, ops[i]);
      } else {
        assert ops[..i] == ops;
      }
    }
  }

  // ----- what a step may touch -----

  /** Logs only grow. */
  ghost predicate Grows(s: State, s': State) {
    s.win.seqLog <= s'.win.seqLog && s.win.chainLog <= s'.win.chainLog && s.cache.ops <= s'.cache.ops
      && s.grants <= s'.grants
  }

  lemma AdmittedKept<K>(p: W.Policy, log: seq<W.Call<K>>, log': seq<W.Call<K>>, i: nat)
    requires log <= log' && i < |log|
    ensures W.AdmittedAt(p, log', i) == W.AdmittedAt(p, log, i) && log'[i] == log[i]
  {
    assert log'[..i] == log[..i];
  }

  lemma TaskKept(c: Config, s: State, s': State, t: nat, task: Task)
    requires TaskOk(c, s, t, task) && Grows(s, s')
    ensures TaskOk(c, s', t, task)
  {
    hide W.AdmittedAt, M.Run, M.Lookup, N.Parse, ChainKey, BucketOf;
    if PastSeq(task.stage) { AdmittedKept(c.seqPolicy, s.win.seqLog, s'.win.seqLog, task.seqIx); }
    if PastChain(task.stage) && HashKey(task) != 0 {
      AdmittedKept(c.chainPolicy, s.win.chainLog, s'.win.chainLog, task.chainIx);
    }
    if Hit(task.stage) || task.stage == Missed {
      assert s'.cache.ops[..task.look.ops] == s.cache.ops[..task.look.ops];
    }
  }

  ghost predicate SameLimits(s: State, s': State) {
    s'.win == s.win && s.clock <= s'.clock
  }

  ghost predicate SameCache(s: State, s': State) {
    s'.cache == s.cache && s.clock <= s'.clock
  }

  /** Only the acting NACK changes; a new response or egress is its own and rightly made. */
  ghost predicate Acts(c: Config, s: State, s': State, t: int) {
    && Grows(s, s')
    && |s.tasks| <= |s'.tasks|
    && (forall u :: 0 <= u < |s'.tasks| && u != t ==> u < |s.tasks| && s'.tasks[u] == s.tasks[u])
    && (s'.out.replies == s.out.replies
        || (exists r :: s'.out.replies == s.out.replies + [r] && r.task == t && ReplyOk(c, s', r)))
    && (0 <= t < |s'.tasks| && Due(c, s'.tasks[t]) ==> s'.out.replies != s.out.replies)
    && Sends(c, s, s', t)
  }

  /** What the acting NACK adds to the egress. */
  ghost predicate Sends(c: Config, s: State, s': State, t: int) {
    && s.out.egress <= s'.out.egress
    && var es := s'.out.egress[|s.out.egress|..];
       && OncePerSocket(es)
       && (forall i :: 0 <= i < |es| ==> es[i].task == t && EgressOk(c, s', es[i]))
       && (0 <= t < |s'.tasks| && s'.tasks[t].stage == Sent ==> WroteAll(c, es, t))
       && (0 <= t < |s'.tasks| && s'.tasks[t].stage == SendFailed ==> !WroteAll(c, es, t))
  }

  lemma ActsIP(c: Config, s: State, t: nat, verdict: bool)
    requires At(s, t, Fresh)
    ensures var s' := DoIP(s, t, verdict);
            Acts(c, s, s', t) && SameLimits(s, s') && SameCache(s, s')
  {
    hide N.Parse;
  }

  lemma ActsSeq(c: Config, s: State, t: nat, reading: int)
    requires At(s, t, PassedIP)
    ensures var s' := DoSeq(c, s, t, reading);
            Acts(c, s, s', t) && SameCache(s, s')
  {
    hide N.Parse, W.Allow, W.Admits;
  }

  lemma ActsChain(c: Config, s: State, t: nat, reading: int)
    requires At(s, t, PassedSeq)
    ensures var s' := DoChain(c, s, t, reading);
            Acts(c, s, s', t) && SameCache(s, s')
  {
    hide N.Parse, W.Allow, W.Admits, ChainKey;
  }

  lemma ActsLookup(c: Config, s: State, t: nat)
    requires At(s, t, PassedChain)
    ensures var s' := DoLookup(c, s, t);
            Acts(c, s, s', t) && SameLimits(s, s') && SameCache(s, s')
  {
    hide N.Parse, M.Lookup, N.Response;
    var s' := DoLookup(c, s, t);
    if s'.out.replies != s.out.replies { assert ReplyOk(c, s', Reply(t, N.MISS)); }
  }

  lemma ActsLookupError(c: Config, s: State, t: nat)
    requires At(s, t, PassedChain)
    ensures var s' := DoLookupError(s, t);
            Acts(c, s, s', t) && SameLimits(s, s') && SameCache(s, s')
  {
    hide N.Parse;
  }

  lemma ActsGroup(c: Config, s: State, t: nat, verdict: bool)
    requires At(s, t, Found) && s.tasks[t].look.raw.Some?
    ensures var s' := DoGroup(c, s, t, verdict);
            Acts(c, s, s', t) && SameLimits(s, s') && SameCache(s, s')
  {
    hide N.Parse, N.Ack, BucketOf;
    var s' := DoGroup(c, s, t, verdict);
    if s'.out.replies != s.out.replies { assert ReplyOk(c, s', Reply(t, N.Ack(SeqNum(s.tasks[t])))); }
  }

  lemma WritesCover(c: Config, t: nat, raw: B.ByteString, dest: D.Dest, written: seq<string>)
    ensures WroteAll(c, Writes(t, raw, dest, written), t) <==> forall name :: name in c.sockets ==> name in written
  {
    var es := Writes(t, raw, dest, written);
    forall name ensures Wrote(es, t, name) <==> name in written {
      if name in written {
        var i :| 0 <= i < |written| && written[i] == name;
        assert es[i].task == t && es[i].sending.iface == name;
      }
    }
  }

  lemma SendsAttempt(c: Config, s: State, t: nat, a: Attempt)
    requires Enabled(c, s, Retransmit(t, a))
    ensures Sends(c, s, DoRetransmit(c, s, t, a), t)
  {
    hide N.Parse, N.Ack, DestOf, R.Enters, WroteAll;
    var raw := s.tasks[t].look.raw.value;
    var es := Writes(t, raw, DestOf(c, raw), a.written);
    var s' := DoRetransmit(c, s, t, a);
    assert s'.out.egress[|s.out.egress|..] == es;
    WritesCover(c, t, raw, DestOf(c, raw), a.written);
  }

  lemma ActsRetransmit(c: Config, s: State, t: nat, a: Attempt)
    requires Enabled(c, s, Retransmit(t, a))
    ensures var s' := DoRetransmit(c, s, t, a);
            Acts(c, s, s', t) && SameLimits(s, s') && SameCache(s, s')
  {
    hide N.Parse, N.Ack, DestOf;
    hide Sends, R.Enters;
    var s' := DoRetransmit(c, s, t, a);
    if s'.out.replies != s.out.replies { assert ReplyOk(c, s', Reply(t, N.Ack(SeqNum(s.tasks[t])))); }
    SendsAttempt(c, s, t, a);
  }

  lemma ActsArrive(c: Config, s: State, nack: B.ByteString, src: Option<string>)
    ensures var s' := DoArrive(s, nack, src);
            Acts(c, s, s', |s.tasks|) && SameLimits(s, s') && SameCache(s, s')
  {
    hide N.Parse;
  }

  lemma ActsOp(c: Config, s: State, op: M.Op)
    ensures var s' := DoOp(s, op);
            Acts(c, s, s', -1) && SameLimits(s, s')
  {
    hide M.Apply;
  }

  /** The NACK a step acts on, or -1. */
  function Actor(s: State, step: Step): (t: int)
  {
    match step
    case Tick(_) => -1
    case Frame(_, _, _) => -1
    case Sweep => -1
    case Arrive(_, _) => |s.tasks|
    case AskIP(t, _) => t
    case AskSeq(t, _) => t
    case AskChain(t, _) => t
    case Lookup(t) => t
    case LookupError(t) => t
    case AskGroup(t, _) => t
    case Retransmit(t, _) => t
  }

  lemma StepActs(c: Config, s: State, step: Step)
    requires Enabled(c, s, step)
    ensures Acts(c, s, Do(c, s, step), Actor(s, step))
  {
    hide DoIP, DoSeq, DoChain, DoLookup, DoLookupError, DoGroup, DoRetransmit, DoArrive, DoOp;
    hide N.Parse, M.VictimsOk;
    match step
    case Tick(_) =>
    case Frame(raw, ttl, victims) =>
      var op := StoreOf(c, s, raw, ttl, victims);
      if op.Some? { ActsOp(c, s, op.value); }
    case Sweep => hide Acts; ActsOp(c, s, M.Sweep(s.clock));
    case Arrive(nack, src) => hide Acts; ActsArrive(c, s, nack, src);
    case AskIP(t, verdict) => hide Acts; ActsIP(c, s, t, verdict);
    case AskSeq(t, reading) => hide Acts; ActsSeq(c, s, t, reading);
    case AskChain(t, reading) => hide Acts; ActsChain(c, s, t, reading);
    case Lookup(t) => hide Acts; ActsLookup(c, s, t);
    case LookupError(t) => hide Acts; ActsLookupError(c, s, t);
    case AskGroup(t, verdict) => hide Acts; ActsGroup(c, s, t, verdict);
    case Retransmit(t, a) => hide Acts; ActsRetransmit(c, s, t, a);
  }

  // ----- limiters and cache -----

  lemma LimitsKept(c: Config, s: State, s': State)
    requires LimitInv(c, s) && SameLimits(s, s')
    ensures LimitInv(c, s')
  {
    hide W.Entries;
  }

  lemma LimitsOfSeq(c: Config, s: State, t: nat, reading: int)
    requires LimitInv(c, s) && Enabled(c, s, AskSeq(t, reading))
    ensures LimitInv(c, DoSeq(c, s, t, reading))
  {
    hide W.Entries, W.Stored, W.Allow, W.Admits, N.Parse;
    LogGrows(c.seqPolicy, s.win.seqLog, s.win.seqs, W.Call(SeqNum(s.tasks[t]), reading, t), s.clock, c.lag);
  }

  lemma LimitsOfChain(c: Config, s: State, t: nat, reading: int)
    requires LimitInv(c, s) && Enabled(c, s, AskChain(t, reading))
    ensures LimitInv(c, DoChain(c, s, t, reading))
  {
    hide W.Entries, W.Stored, W.Allow, W.Admits, N.Parse, ChainKey;
    if HashKey(s.tasks[t]) != 0 {
      var key := ChainKey(Source(s.tasks[t]), HashKey(s.tasks[t]));
      LogGrows(c.chainPolicy, s.win.chainLog, s.win.chains, W.Call(key, reading, t), s.clock, c.lag);
    }
  }

  lemma KeepsLimits(c: Config, s: State, step: Step)
    requires Inv(c, s) && Enabled(c, s, step)
    ensures LimitInv(c, Do(c, s, step))
  {
    hide DoIP, DoSeq, DoChain, DoLookup, DoLookupError, DoGroup, DoRetransmit, DoArrive, DoOp;
    hide CacheInv, TaskInv, TimeInv, ReplyInv, EgressInv, MetricsInv, N.Parse, LimitInv, Acts, M.VictimsOk;
    match step
    case Tick(_) => LimitsKept(c, s, Do(c, s, step));
    case Frame(raw, ttl, victims) =>
      var op := StoreOf(c, s, raw, ttl, victims);
      if op.Some? { ActsOp(c, s, op.value); }
      LimitsKept(c, s, Do(c, s, step));
    case Sweep => ActsOp(c, s, M.Sweep(s.clock)); LimitsKept(c, s, Do(c, s, step));
    case Arrive(nack, src) => ActsArrive(c, s, nack, src); LimitsKept(c, s, Do(c, s, step));
    case AskIP(t, verdict) => ActsIP(c, s, t, verdict); LimitsKept(c, s, Do(c, s, step));
    case AskSeq(t, reading) => LimitsOfSeq(c, s, t, reading);
    case AskChain(t, reading) => LimitsOfChain(c, s, t, reading);
    case Lookup(t) => ActsLookup(c, s, t); LimitsKept(c, s, Do(c, s, step));
    case LookupError(t) => ActsLookupError(c, s, t); LimitsKept(c, s, Do(c, s, step));
    case AskGroup(t, verdict) => ActsGroup(c, s, t, verdict); LimitsKept(c, s, Do(c, s, step));
    case Retransmit(t, a) => ActsRetransmit(c, s, t, a); LimitsKept(c, s, Do(c, s, step));
  }

  lemma CacheKept(c: Config, s: State, s': State)
    requires CacheInv(c, s) && SameCache(s, s')
    ensures CacheInv(c, s')
  {
    hide M.Run, M.ValidRun, StoreOk;
  }

  lemma CacheOfOp(c: Config, s: State, op: M.Op)
    requires CacheInv(c, s) && StoreOk(c, op) && !op.Delete? && op.now == s.clock
    requires M.Enabled(s.cache.data, c.maxKeys, op)
    ensures CacheInv(c, DoOp(s, op))
  {
    hide M.Run, M.ValidRun, M.Apply, I.KeyMatches;
    OpsGrow(s.cache.ops, op, c.maxKeys, s.clock);
  }

  lemma CacheOfFrame(c: Config, s: State, raw: B.ByteString, ttl: int, victims: set<B.ByteString>)
    requires CacheInv(c, s) && Enabled(c, s, Frame(raw, ttl, victims))
    ensures CacheInv(c, DoFrame(c, s, raw, ttl, victims))
  {
    hide CacheInv, I.StampOf;
    var op := StoreOf(c, s, raw, ttl, victims);
    if op.Some? { CacheOfOp(c, s, op.value); }
  }

  lemma KeepsCache(c: Config, s: State, step: Step)
    requires Inv(c, s) && Enabled(c, s, step)
    ensures CacheInv(c, Do(c, s, step))
  {
    hide DoIP, DoSeq, DoChain, DoLookup, DoLookupError, DoGroup, DoRetransmit, DoArrive, DoOp, DoFrame;
    hide LimitInv, TaskInv, TimeInv, ReplyInv, EgressInv, MetricsInv, N.Parse, CacheInv, Acts, StoreOf;
    match step
    case Tick(_) => CacheKept(c, s, Do(c, s, step));
    case Frame(raw, ttl, victims) => CacheOfFrame(c, s, raw, ttl, victims);
    case Sweep => CacheOfOp(c, s, M.Sweep(s.clock));
    case Arrive(nack, src) => ActsArrive(c, s, nack, src); CacheKept(c, s, Do(c, s, step));
    case AskIP(t, verdict) => ActsIP(c, s, t, verdict); CacheKept(c, s, Do(c, s, step));
    case AskSeq(t, reading) => ActsSeq(c, s, t, reading); CacheKept(c, s, Do(c, s, step));
    case AskChain(t, reading) => ActsChain(c, s, t, reading); CacheKept(c, s, Do(c, s, step));
    case Lookup(t) => ActsLookup(c, s, t); CacheKept(c, s, Do(c, s, step));
    case LookupError(t) => ActsLookupError(c, s, t); CacheKept(c, s, Do(c, s, step));
    case AskGroup(t, verdict) => ActsGroup(c, s, t, verdict); CacheKept(c, s, Do(c, s, step));
    case Retransmit(t, a) => ActsRetransmit(c, s, t, a); CacheKept(c, s, Do(c, s, step));
  }

  // ----- tasks -----

  lemma TaskOfIP(c: Config, s: State, t: nat, verdict: bool)
    requires At(s, t, Fresh) && TaskOk(c, s, t, s.tasks[t])
    ensures TaskOk(c, DoIP(s, t, verdict), t, DoIP(s, t, verdict).tasks[t])
  {
    hide N.Parse;
  }

  lemma TaskOfSeq(c: Config, s: State, t: nat, reading: int)
    requires LimitInv(c, s) && At(s, t, PassedIP) && TaskOk(c, s, t, s.tasks[t])
    ensures TaskOk(c, DoSeq(c, s, t, reading), t, DoSeq(c, s, t, reading).tasks[t])
  {
    hide W.Entries, W.Allow, W.Admits, W.AdmittedAt, N.Parse;
    WL.DecisionStep(c.seqPolicy, s.win.seqLog, W.Call(SeqNum(s.tasks[t]), reading, t));
  }

  lemma TaskOfChain(c: Config, s: State, t: nat, reading: int)
    requires LimitInv(c, s) && At(s, t, PassedSeq) && TaskOk(c, s, t, s.tasks[t])
    ensures TaskOk(c, DoChain(c, s, t, reading), t, DoChain(c, s, t, reading).tasks[t])
  {
    hide W.Entries, W.Allow, W.Admits, W.AdmittedAt, N.Parse, ChainKey;
    var key := ChainKey(Source(s.tasks[t]), HashKey(s.tasks[t]));
    WL.DecisionStep(c.chainPolicy, s.win.chainLog, W.Call(key, reading, t));
  }

  lemma TaskOfLookup(c: Config, s: State, t: nat)
    requires CacheInv(c, s) && At(s, t, PassedChain) && TaskOk(c, s, t, s.tasks[t])
    ensures TaskOk(c, DoLookup(c, s, t), t, DoLookup(c, s, t).tasks[t])
  {
    hide M.Run, M.ValidRun, M.Lookup, N.Parse, N.Response, ChainKey, W.AdmittedAt, StoreOk;
    assert s.cache.ops[..|s.cache.ops|] == s.cache.ops;
  }

  lemma TaskOfLookupError(c: Config, s: State, t: nat)
    requires At(s, t, PassedChain) && TaskOk(c, s, t, s.tasks[t])
    ensures TaskOk(c, DoLookupError(s, t), t, DoLookupError(s, t).tasks[t])
  {
    hide N.Parse, ChainKey, W.AdmittedAt;
  }

  lemma TaskOfGroup(c: Config, s: State, t: nat, verdict: bool)
    requires At(s, t, Found) && s.tasks[t].look.raw.Some? && TaskOk(c, s, t, s.tasks[t])
    ensures TaskOk(c, DoGroup(c, s, t, verdict), t, DoGroup(c, s, t, verdict).tasks[t])
  {
    hide M.Run, M.Lookup, N.Parse, N.Ack, ChainKey, W.AdmittedAt, GroupKey, TxID;
  }

  lemma TaskOfRetransmit(c: Config, s: State, t: nat, a: Attempt)
    requires At(s, t, Cleared) && s.tasks[t].look.raw.Some? && TaskOk(c, s, t, s.tasks[t])
    ensures TaskOk(c, DoRetransmit(c, s, t, a), t, DoRetransmit(c, s, t, a).tasks[t])
  {
    hide M.Run, M.Lookup, N.Parse, N.Ack, ChainKey, W.AdmittedAt, GroupKey, TxID, DestOf;
  }

  lemma TaskOfArrive(c: Config, s: State, nack: B.ByteString, src: Option<string>)
    ensures var s' := DoArrive(s, nack, src);
            |s'.tasks| == |s.tasks| + 1 && TaskOk(c, s', |s.tasks|, s'.tasks[|s.tasks|])
  {
    hide N.Parse;
  }

  lemma ActorOk(c: Config, s: State, step: Step)
    requires Inv(c, s) && Enabled(c, s, step) && Actor(s, step) >= 0
    requires Actor(s, step) < |s.tasks| ==> TaskOk(c, s, Actor(s, step), s.tasks[Actor(s, step)])
    ensures Actor(s, step) < |Do(c, s, step).tasks|
    ensures TaskOk(c, Do(c, s, step), Actor(s, step), Do(c, s, step).tasks[Actor(s, step)])
  {
    hide DoIP, DoSeq, DoChain, DoLookup, DoLookupError, DoGroup, DoRetransmit, DoArrive, DoOp;
    hide LimitInv, CacheInv, TaskInv, TimeInv, ReplyInv, EgressInv, MetricsInv, N.Parse, TaskOk, SameLimits, SameCache;
    StepActs(c, s, step);
    match step
    case Arrive(nack, src) => TaskOfArrive(c, s, nack, src);
    case AskIP(t, verdict) => TaskOfIP(c, s, t, verdict);
    case AskSeq(t, reading) => TaskOfSeq(c, s, t, reading);
    case AskChain(t, reading) => TaskOfChain(c, s, t, reading);
    case Lookup(t) => TaskOfLookup(c, s, t);
    case LookupError(t) => TaskOfLookupError(c, s, t);
    case AskGroup(t, verdict) => TaskOfGroup(c, s, t, verdict);
    case Retransmit(t, a) => TaskOfRetransmit(c, s, t, a);
  }

  lemma KeepsTasks(c: Config, s: State, step: Step)
    requires Inv(c, s) && Enabled(c, s, step)
    ensures TaskInv(c, Do(c, s, step))
  {
    hide LimitInv, CacheInv, TimeInv, ReplyInv, EgressInv, MetricsInv, TaskOk, Do, Enabled, Grows, Actor;
    var s' := Do(c, s, step);
    StepActs(c, s, step);
    forall t | 0 <= t < |s'.tasks| ensures TaskOk(c, s', t, s'.tasks[t]) {
      if t == Actor(s, step) {
        ActorOk(c, s, step);
      } else {
        var task := s'.tasks[t];
        TaskKept(c, s, s', t, task);
      }
    }
  }

  // ----- responses and egress -----

  /** A NACK that is still moving has been answered by nobody and has sent nothing. */
  lemma MovingIsSilent(c: Config, s: State, t: nat)
    requires ReplyInv(c, s) && EgressInv(c, s) && t < |s.tasks|
    requires !Acked(s.tasks[t].stage) && s.tasks[t].stage != Missed && s.tasks[t].stage != SendFailed
    ensures forall i :: 0 <= i < |s.out.replies| ==> s.out.replies[i].task != t
    ensures forall i :: 0 <= i < |s.out.egress| ==> s.out.egress[i].task != t
  {
    hide N.Parse, N.Ack, DestOf;
    forall i | 0 <= i < |s.out.replies| ensures s.out.replies[i].task != t { assert ReplyOk(c, s, s.out.replies[i]); }
    forall i | 0 <= i < |s.out.egress| ensures s.out.egress[i].task != t { assert EgressOk(c, s, s.out.egress[i]); }
  }

  lemma ActorIsSilent(c: Config, s: State, step: Step)
    requires Inv(c, s) && Enabled(c, s, step)
    ensures forall i :: 0 <= i < |s.out.replies| ==>
              0 <= s.out.replies[i].task < |s.tasks| && s.out.replies[i].task != Actor(s, step)
    ensures forall i :: 0 <= i < |s.out.egress| ==>
              0 <= s.out.egress[i].task < |s.tasks| && s.out.egress[i].task != Actor(s, step)
  {
    hide LimitInv, CacheInv, TaskInv, TimeInv, MetricsInv, N.Parse, N.Ack, DestOf;
    var t := Actor(s, step);
    if 0 <= t < |s.tasks| { MovingIsSilent(c, s, t); }
    forall i | 0 <= i < |s.out.replies|
      ensures 0 <= s.out.replies[i].task < |s.tasks|
    {
      assert ReplyOk(c, s, s.out.replies[i]);
    }
    forall i | 0 <= i < |s.out.egress|
      ensures 0 <= s.out.egress[i].task < |s.tasks|
    {
      assert EgressOk(c, s, s.out.egress[i]);
    }
  }

  lemma AnswersKept(c: Config, s: State, s': State, t: int, u: nat)
    requires ReplyInv(c, s) && Acts(c, s, s', t) && u < |s'.tasks| && Due(c, s'.tasks[u])
    ensures Answered(s', u)
  {
    hide N.Parse, N.Ack, EgressOk, ReplyOk, Grows, Due;
    if u == t {
      var n := |s.out.replies|;
      assert s'.out.replies[n].task == t;
    } else {
      assert s'.tasks[u] == s.tasks[u] && Answered(s, u);
      var i :| 0 <= i < |s.out.replies| && s.out.replies[i].task == u;
      assert s'.out.replies[i] == s.out.replies[i];
    }
  }

  lemma KeepsReplies(c: Config, s: State, step: Step)
    requires Inv(c, s) && Enabled(c, s, step)
    ensures ReplyInv(c, Do(c, s, step))
  {
    hide LimitInv, CacheInv, TaskInv, TimeInv, MetricsInv, EgressInv, Do, Enabled, Actor, Grows, N.Parse, N.Ack,
         EgressOk, Due, Answered;
    var s' := Do(c, s, step);
    StepActs(c, s, step);
    ActorIsSilent(c, s, step);
    forall i | 0 <= i < |s.out.replies| ensures ReplyOk(c, s', s.out.replies[i]) {
      assert ReplyOk(c, s, s.out.replies[i]);
    }
    forall u | 0 <= u < |s'.tasks| && Due(c, s'.tasks[u]) ensures Answered(s', u) {
      AnswersKept(c, s, s', Actor(s, step), u);
    }
  }

  lemma WroteSplit(a: seq<Egress>, b: seq<Egress>, t: nat, name: string)
    ensures Wrote(a + b, t, name) <==> Wrote(a, t, name) || Wrote(b, t, name)
  {
    if Wrote(a, t, name) {
      var i :| 0 <= i < |a| && a[i].task == t && a[i].sending.iface == name;
      assert (a + b)[i] == a[i];
    }
    if Wrote(b, t, name) {
      var i :| 0 <= i < |b| && b[i].task == t && b[i].sending.iface == name;
      assert (a + b)[|a| + i] == b[i];
    }
  }

  /** Datagrams of other NACKs do not count towards a NACK's sockets. */
  lemma WroteAllSplit(c: Config, a: seq<Egress>, b: seq<Egress>, t: nat)
    ensures (forall i :: 0 <= i < |b| ==> b[i].task != t) ==> WroteAll(c, a + b, t) == WroteAll(c, a, t)
    ensures (forall i :: 0 <= i < |a| ==> a[i].task != t) ==> WroteAll(c, a + b, t) == WroteAll(c, b, t)
  {
    forall name ensures Wrote(a + b, t, name) <==> Wrote(a, t, name) || Wrote(b, t, name) {
      WroteSplit(a, b, t, name);
    }
  }

  lemma LoopKept(c: Config, s: State, s': State, t: int, u: nat)
    requires EgressInv(c, s) && Acts(c, s, s', t) && u < |s'.tasks|
    requires forall i :: 0 <= i < |s.out.egress| ==> s.out.egress[i].task != t
    ensures LoopOk(c, s', u)
  {
    hide EgressOk, Grows, Due, ReplyOk, WroteAll, OncePerSocket;
    assert Sends(c, s, s', t) && s.out.egress <= s'.out.egress;
    var old', new' := s.out.egress, s'.out.egress[|s.out.egress|..];
    assert s'.out.egress == old' + new';
    WroteAllSplit(c, old', new', u);
    if u != t {
      var task := s'.tasks[u];
      assert u < |s.tasks| && task == s.tasks[u] && LoopOk(c, s, u);
    }
  }

  lemma SocketsKept(a: seq<Egress>, b: seq<Egress>, t: int)
    requires OncePerSocket(a) && OncePerSocket(b)
    requires forall i :: 0 <= i < |a| ==> a[i].task != t
    requires forall i :: 0 <= i < |b| ==> b[i].task == t
    ensures OncePerSocket(a + b)
  {
  }

  lemma EgressKept(c: Config, s: State, s': State, t: int)
    requires EgressInv(c, s) && Acts(c, s, s', t)
    requires forall i :: 0 <= i < |s.out.egress| ==> s.out.egress[i].task != t
    ensures EgressInv(c, s')
  {
    hide Grows, Due, ReplyOk, DestOf, LoopOk, WroteAll, OncePerSocket;
    assert Sends(c, s, s', t) && s.out.egress <= s'.out.egress;
    var new' := s'.out.egress[|s.out.egress|..];
    assert s'.out.egress == s.out.egress + new';
    SocketsKept(s.out.egress, new', t);
    forall i | 0 <= i < |s'.out.egress| ensures EgressOk(c, s', s'.out.egress[i]) {
      if i < |s.out.egress| {
        assert EgressOk(c, s, s.out.egress[i]);
      } else {
        assert s'.out.egress[i] == new'[i - |s.out.egress|];
      }
    }
    forall u | 0 <= u < |s'.tasks| ensures LoopOk(c, s', u) {
      LoopKept(c, s, s', t, u);
    }
  }

  lemma KeepsEgress(c: Config, s: State, step: Step)
    requires Inv(c, s) && Enabled(c, s, step)
    ensures EgressInv(c, Do(c, s, step))
  {
    hide LimitInv, CacheInv, TaskInv, TimeInv, MetricsInv, ReplyInv, EgressInv, Do, Enabled, Actor, Acts;
    StepActs(c, s, step);
    ActorIsSilent(c, s, step);
    EgressKept(c, s, Do(c, s, step), Actor(s, step));
  }

  // ----- times -----

  lemma TimeKept(s: State, s': State, task: Task)
    requires TimeOk(s, task) && Grows(s, s')
    ensures TimeOk(s', task)
  {
    hide N.Parse;
  }

  lemma TimeOfLookup(c: Config, s: State, t: nat)
    requires LimitInv(c, s) && At(s, t, PassedChain) && TaskOk(c, s, t, s.tasks[t])
    ensures TimeOk(DoLookup(c, s, t), DoLookup(c, s, t).tasks[t])
    ensures TimeOk(DoLookupError(s, t), DoLookupError(s, t).tasks[t])
  {
    hide N.Parse, M.Lookup, N.Response, W.AdmittedAt, W.Entries, ChainKey, LookOk, GrantOk;
  }

  lemma TimeOfGroup(c: Config, s: State, t: nat, verdict: bool)
    requires At(s, t, Found) && s.tasks[t].look.raw.Some? && TimeOk(s, s.tasks[t])
    ensures TimeOk(DoGroup(c, s, t, verdict), DoGroup(c, s, t, verdict).tasks[t])
  {
    hide N.Parse, N.Ack, BucketOf;
  }

  lemma TimeOfRetransmit(c: Config, s: State, t: nat, a: Attempt)
    requires At(s, t, Cleared) && s.tasks[t].look.raw.Some? && TimeOk(s, s.tasks[t])
    ensures TimeOk(DoRetransmit(c, s, t, a), DoRetransmit(c, s, t, a).tasks[t])
  {
    hide N.Parse, N.Ack, DestOf, Writes, R.Enters;
  }

  lemma ActorTime(c: Config, s: State, step: Step)
    requires Inv(c, s) && Enabled(c, s, step) && 0 <= Actor(s, step) < |Do(c, s, step).tasks|
    ensures TimeOk(Do(c, s, step), Do(c, s, step).tasks[Actor(s, step)])
  {
    hide LimitInv, CacheInv, ReplyInv, EgressInv, MetricsInv, N.Parse, N.Ack, TaskOk, M.Lookup, W.Allow, W.Admits;
    hide ChainKey, BucketOf, DestOf, Writes, R.Enters, Plausible, N.Response;
    match step
    case Lookup(t) => hide DoLookup, TimeOk; TimeOfLookup(c, s, t);
    case LookupError(t) => hide DoLookupError, TimeOk; TimeOfLookup(c, s, t);
    case AskGroup(t, verdict) => hide DoGroup, TimeOk; TimeOfGroup(c, s, t, verdict);
    case Retransmit(t, a) => hide DoRetransmit, TimeOk; TimeOfRetransmit(c, s, t, a);
    case _ =>
  }

  lemma KeepsTimes(c: Config, s: State, step: Step)
    requires Inv(c, s) && Enabled(c, s, step)
    ensures TimeInv(Do(c, s, step))
  {
    hide LimitInv, CacheInv, TaskInv, ReplyInv, EgressInv, MetricsInv, TimeOk, Do, Enabled, Grows, Actor;
    var s' := Do(c, s, step);
    StepActs(c, s, step);
    forall t | 0 <= t < |s'.tasks| ensures TimeOk(s', s'.tasks[t]) {
      if t == Actor(s, step) {
        ActorTime(c, s, step);
      } else {
        var task := s'.tasks[t];
        TimeKept(s, s', task);
      }
    }
  }

  // ----- counters -----

  lemma {:induction false} TotalUpdate(tasks: seq<Task>, t: nat, task: Task)
    requires t < |tasks|
    ensures Plus(Total(tasks[t := task]), Mark(tasks[t].stage)) == Plus(Total(tasks), Mark(task.stage))
  {
    hide Mark;
    var n := |tasks| - 1;
    if t == n {
      assert tasks[t := task][..n] == tasks[..n];
    } else {
      assert tasks[t := task][..n] == tasks[..n][t := task];
      TotalUpdate(tasks[..n], t, task);
    }
  }

  lemma TotalAppend(tasks: seq<Task>, task: Task)
    ensures Total(tasks + [task]) == Plus(Total(tasks), Mark(task.stage))
  {
    assert (tasks + [task])[..|tasks|] == tasks;
  }

  lemma MetricsOfIP(s: State, t: nat, verdict: bool)
    requires MetricsInv(s) && At(s, t, Fresh)
    ensures MetricsInv(DoIP(s, t, verdict))
  {
    hide Total, N.Parse;
    TotalUpdate(s.tasks, t, DoIP(s, t, verdict).tasks[t]);
  }

  lemma MetricsOfSeq(c: Config, s: State, t: nat, reading: int)
    requires MetricsInv(s) && At(s, t, PassedIP)
    ensures MetricsInv(DoSeq(c, s, t, reading))
  {
    hide Total, N.Parse, W.Allow, W.Admits;
    TotalUpdate(s.tasks, t, DoSeq(c, s, t, reading).tasks[t]);
  }

  lemma MetricsOfChain(c: Config, s: State, t: nat, reading: int)
    requires MetricsInv(s) && At(s, t, PassedSeq)
    ensures MetricsInv(DoChain(c, s, t, reading))
  {
    hide Total, N.Parse, W.Allow, W.Admits, ChainKey;
    TotalUpdate(s.tasks, t, DoChain(c, s, t, reading).tasks[t]);
  }

  lemma MetricsOfLookup(c: Config, s: State, t: nat)
    requires MetricsInv(s) && At(s, t, PassedChain)
    ensures MetricsInv(DoLookup(c, s, t))
  {
    hide Total, N.Parse, M.Lookup, N.Response;
    TotalUpdate(s.tasks, t, DoLookup(c, s, t).tasks[t]);
  }

  lemma MetricsOfLookupError(s: State, t: nat)
    requires MetricsInv(s) && At(s, t, PassedChain)
    ensures MetricsInv(DoLookupError(s, t))
  {
    hide Total, N.Parse;
    TotalUpdate(s.tasks, t, DoLookupError(s, t).tasks[t]);
  }

  lemma MetricsOfGroup(c: Config, s: State, t: nat, verdict: bool)
    requires MetricsInv(s) && At(s, t, Found) && s.tasks[t].look.raw.Some?
    ensures MetricsInv(DoGroup(c, s, t, verdict))
  {
    hide Total, N.Parse, N.Ack, BucketOf;
    TotalUpdate(s.tasks, t, DoGroup(c, s, t, verdict).tasks[t]);
  }

  lemma MetricsOfRetransmit(c: Config, s: State, t: nat, a: Attempt)
    requires MetricsInv(s) && At(s, t, Cleared) && s.tasks[t].look.raw.Some?
    ensures MetricsInv(DoRetransmit(c, s, t, a))
  {
    hide Total, N.Parse, N.Ack, DestOf;
    TotalUpdate(s.tasks, t, DoRetransmit(c, s, t, a).tasks[t]);
  }

  lemma MetricsOfArrive(s: State, nack: B.ByteString, src: Option<string>)
    requires MetricsInv(s)
    ensures MetricsInv(DoArrive(s, nack, src))
  {
    hide Total, N.Parse;
    TotalAppend(s.tasks, DoArrive(s, nack, src).tasks[|s.tasks|]);
  }

  lemma KeepsMetrics(c: Config, s: State, step: Step)
    requires Inv(c, s) && Enabled(c, s, step)
    ensures MetricsInv(Do(c, s, step))
  {
    hide DoIP, DoSeq, DoChain, DoLookup, DoLookupError, DoGroup, DoRetransmit, DoArrive;
    hide LimitInv, CacheInv, TaskInv, TimeInv, ReplyInv, EgressInv, N.Parse, Total, M.Apply, StoreOf;
    match step
    case Arrive(nack, src) => hide MetricsInv; MetricsOfArrive(s, nack, src);
    case AskIP(t, verdict) => hide MetricsInv; MetricsOfIP(s, t, verdict);
    case AskSeq(t, reading) => hide MetricsInv; MetricsOfSeq(c, s, t, reading);
    case AskChain(t, reading) => hide MetricsInv; MetricsOfChain(c, s, t, reading);
    case Lookup(t) => hide MetricsInv; MetricsOfLookup(c, s, t);
    case LookupError(t) => hide MetricsInv; MetricsOfLookupError(s, t);
    case AskGroup(t, verdict) => hide MetricsInv; MetricsOfGroup(c, s, t, verdict);
    case Retransmit(t, a) => hide MetricsInv; MetricsOfRetransmit(c, s, t, a);
    case _ =>
  }

  // ----- runs -----

  lemma KeepsInv(c: Config, s: State, step: Step)
    requires Inv(c, s) && Enabled(c, s, step)
    ensures Inv(c, Do(c, s, step))
  {
    hide LimitInv, CacheInv, TaskInv, TimeInv, ReplyInv, EgressInv, MetricsInv, Do, Enabled;
    KeepsLimits(c, s, step);
    KeepsCache(c, s, step);
    KeepsTasks(c, s, step);
    KeepsTimes(c, s, step);
    KeepsReplies(c, s, step);
    KeepsEgress(c, s, step);
    KeepsMetrics(c, s, step);
  }

  lemma StartInv(c: Config)
    ensures Inv(c, START)
  {
  }

  lemma {:induction false} RunInv(c: Config, steps: seq<Step>)
    requires CanRun(c, steps)
    ensures Inv(c, Run(c, steps))
  {
    if steps == [] {
      StartInv(c);
    } else {
      var before := steps[..|steps| - 1];
      RunInv(c, before);
      hide Inv;
      KeepsInv(c, Run(c, before), steps[|steps| - 1]);
    }
  }
}
