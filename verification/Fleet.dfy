/**
 Endpoints together: any number of endpoints, each with its own tiers, retransmitting through one
 shared store of claims. A memory-backed endpoint has a cache of its own; redis-backed endpoints of
 one prefix have one cache between them, in that same store, and a frame that one of them receives is
 filed for all. A run of the fleet is a run of every endpoint and a run of the claim protocol at once.
 A NACK that the group tier has cleared begins a Retransmit call; when the call has returned, how it
 ended decides how the NACK ends.
 */
module Fleet {
  import opened Bytes
  import opened Options
  import M = MemoryCache
  import I = Ingress
  import N = Nack
  import D = Dedup
  import R = Retransmit
  import E = Endpoint
  import V = EndpointInvariants
  import ER = EndpointRuns
  import J = Justification

  /** The endpoints, and the same endpoints as the claim protocol sees them. */
  datatype Config = Config(eps: seq<E.Config>, claims: D.Config)

  ghost predicate ConfigOk(c: Config) {
    && D.ConfigOk(c.claims) && |c.claims.endpoints| == |c.eps|
    && (forall e :: 0 <= e < |c.eps| ==> SameEndpoint(c, e))
    && (forall e, f :: 0 <= e < |c.eps| && 0 <= f < |c.eps| && Shares(c, e, f) ==> c.eps[e].codec == c.eps[f].codec)
  }

  /** Whether two endpoints, or one and itself, have one frame cache: redis-backed with one prefix. */
  predicate Shares(c: Config, e: nat, f: nat) {
    && e < |c.eps| && f < |c.eps| && e < |c.claims.endpoints| && f < |c.claims.endpoints|
    && c.eps[e].shared && c.eps[f].shared && c.claims.endpoints[e].prefix == c.claims.endpoints[f].prefix
  }

  ghost predicate SameEndpoint(c: Config, e: nat)
    requires e < |c.eps| && |c.claims.endpoints| == |c.eps|
  {
    && c.claims.endpoints[e].redis == c.eps[e].redis
    && c.claims.endpoints[e].sockets == c.eps[e].sockets
    && c.claims.groupIndex == c.eps[e].groupIndex
    && (c.eps[e].shared ==> c.eps[e].redis && c.eps[e].maxKeys <= 0 && c.eps[e].ttl > 0)
  }

  /** The NACK a call was made for. */
  datatype Owner = Owner(ep: nat, task: nat)

  /** What each endpoint and the claim protocol have done so far, and whose the calls are. */
  datatype State = State(runs: seq<seq<E.Step>>, calls: seq<D.Step>, owners: seq<Owner>)

  datatype Step =
    | Time(dt: nat)                    // one clock for all
    | At(e: nat, step: E.Step)         // an endpoint on its own
    | Receive(e: nat, raw: ByteString) // a redis-backed endpoint receives a frame and files it in the shared cache
    | Call(e: nat, t: nat)             // a cleared NACK calls Retransmit
    | Shared(move: D.Step)             // a step of a call in progress
    | Return(k: nat)                   // a call has returned to its NACK

  ghost function Start(c: Config): (s: State)
  {
    State(seq(|c.eps|, _ => []), [], [])
  }

  ghost predicate Sound(c: Config, s: State) {
    && |s.runs| == |c.eps| && (forall e :: 0 <= e < |c.eps| ==> E.CanRun(c.eps[e], s.runs[e]))
    && D.CanRun(c.claims, s.calls)
  }

  /** An endpoint's own state. */
  ghost function Ep(c: Config, s: State, e: nat): (es: E.State)
    requires Sound(c, s) && e < |c.eps|
  {
    E.Run(c.eps[e], s.runs[e])
  }

  /** The state of the claim protocol. */
  ghost function Claim(c: Config, s: State): (ds: D.State)
    requires Sound(c, s)
  {
    D.Run(c.claims, s.calls)
  }

  predicate Returned(phase: D.Phase) {
    phase.Sent? || phase.Suppressed? || phase.Failed?
  }

  /** The interfaces a call has written, in order. */
  function Interfaces(writes: seq<D.Write>, k: nat): (names: seq<string>)
  {
    if writes == [] then []
    else
      var n := |writes| - 1;
      if writes[n].call == k then Interfaces(writes[..n], k) + [writes[n].iface] else Interfaces(writes[..n], k)
  }

  /** A returned call as its NACK sees it. */
  function Seen(ds: D.State, k: nat): (a: E.Attempt)
    requires k < |ds.calls|
  {
    E.Attempt(if ds.calls[k].phase.Suppressed? then R.Taken else R.Set, Interfaces(ds.writes, k),
              !ds.calls[k].phase.Failed?)
  }

  /** Whether an endpoint's step concerns its NACKs and cache and nothing shared. */
  predicate Own(step: E.Step) { !step.Tick? && !step.Retransmit? }

  /** Whether a step would change a cache that is shared. */
  predicate Files(c: E.Config, step: E.Step) {
    c.shared && (step.Sweep? || (step.Frame? && step.raw != [] && I.Classify(c.codec, step.raw).Cacheable?))
  }

  /** Whether a step of the claim protocol belongs to a call in progress. */
  predicate InCall(step: D.Step) { !step.Tick? && !step.Begin? && !step.FrameStore? }

  ghost predicate Enabled(c: Config, s: State, step: Step) {
    Sound(c, s) &&
    match step
    case Time(_) => true
    case At(e, st) => e < |c.eps| && Own(st) && !Files(c.eps[e], st) && E.Enabled(c.eps[e], Ep(c, s, e), st)
    case Receive(e, raw) =>
      Shares(c, e, e) && c.eps[e].ttl > 0 && raw != [] && I.Classify(c.eps[e].codec, raw).Cacheable?
    case Call(e, t) =>
      && e < |c.eps| && e < |c.claims.endpoints| && E.At(Ep(c, s, e), t, E.Cleared)
      && Ep(c, s, e).tasks[t].look.raw.Some? && Owner(e, t) !in s.owners
    case Shared(st) => InCall(st) && D.Enabled(c.claims, Claim(c, s), st)
    case Return(k) =>
      && k < |s.owners| && k < |Claim(c, s).calls| && Returned(Claim(c, s).calls[k].phase)
      && s.owners[k].ep < |c.eps| && E.At(Ep(c, s, s.owners[k].ep), s.owners[k].task, E.Cleared)
  }

  function Append(s: State, e: nat, step: E.Step): (s': State)
    requires e < |s.runs|
  {
    s.(runs := s.runs[e := s.runs[e] + [step]])
  }

  /** A frame that one endpoint received is filed for all that share its cache, for its time to live. */
  function Filed(c: Config, runs: seq<seq<E.Step>>, e: nat, raw: ByteString): (runs': seq<seq<E.Step>>)
    requires e < |c.eps|
    ensures |runs'| == |runs|
    ensures forall f :: 0 <= f < |runs| ==>
              runs'[f] == if Shares(c, e, f) then runs[f] + [E.Frame(raw, c.eps[e].ttl, {})] else runs[f]
  {
    seq(|runs|, f requires 0 <= f < |runs| =>
      if Shares(c, e, f) then runs[f] + [E.Frame(raw, c.eps[e].ttl, {})] else runs[f])
  }

  ghost function Do(c: Config, s: State, step: Step): (s': State)
    requires Enabled(c, s, step)
  {
    match step
    case Time(dt) =>
      State(seq(|s.runs|, e requires 0 <= e < |s.runs| => s.runs[e] + [E.Tick(dt)]), s.calls + [D.Tick(dt)], s.owners)
    case At(e, st) => Append(s, e, st)
    case Receive(e, raw) =>
      s.(runs := Filed(c, s.runs, e, raw),
         calls := s.calls + [D.FrameStore(e, I.Classify(c.eps[e].codec, raw).key, c.eps[e].ttl)])
    case Call(e, t) =>
      var raw := Ep(c, s, e).tasks[t].look.raw.value;
      s.(calls := s.calls + [D.Begin(e, raw, E.TxID(raw))], owners := s.owners + [Owner(e, t)])
    case Shared(st) => s.(calls := s.calls + [st])
    case Return(k) => Append(s, s.owners[k].ep, E.Retransmit(s.owners[k].task, Seen(Claim(c, s), k)))
  }

  // ----- what every step keeps -----

  /** How a NACK stands to its call: still waiting, or ended as the call did. */
  predicate Agree(stage: E.Stage, phase: D.Phase) {
    || stage == E.Cleared
    || (stage == E.Sent && phase.Sent?)
    || (stage == E.Suppressed && phase.Suppressed?)
    || (stage == E.SendFailed && phase.Failed?)
  }

  predicate Ended(stage: E.Stage) { stage == E.Sent || stage == E.Suppressed || stage == E.SendFailed }

  /** A call carries what its NACK found, and its NACK ends as it does. */
  ghost predicate CallOk(es: E.State, t: nat, e: nat, call: D.Call) {
    && t < |es.tasks| && E.Asks(es.tasks[t]) && call.ep == e
    && es.tasks[t].look.raw == Some(call.raw) && call.txID == E.TxID(call.raw)
    && Agree(es.tasks[t].stage, call.phase)
  }

  ghost predicate CallsInv(c: Config, s: State)
    requires Sound(c, s)
  {
    && |s.owners| == |Claim(c, s).calls|
    && (forall k :: 0 <= k < |s.owners| ==>
          s.owners[k].ep < |c.eps|
            && CallOk(Ep(c, s, s.owners[k].ep), s.owners[k].task, s.owners[k].ep, Claim(c, s).calls[k]))
  }

  ghost predicate OwnersInv(s: State) {
    forall i, j :: 0 <= i < j < |s.owners| ==> s.owners[i] != s.owners[j]
  }

  /** Every NACK that has ended in a retransmit had a call. */
  ghost predicate EndedInv(c: Config, s: State)
    requires Sound(c, s)
  {
    forall e, t :: 0 <= e < |c.eps| && 0 <= t < |Ep(c, s, e).tasks| && Ended(Ep(c, s, e).tasks[t].stage) ==>
      Owner(e, t) in s.owners
  }

  ghost predicate Inv(c: Config, s: State) {
    Sound(c, s) && CallsInv(c, s) && OwnersInv(s) && EndedInv(c, s)
  }

  // ----- a returned call is one its endpoint can have made -----

  lemma {:induction false} InterfacesAre(writes: seq<D.Write>, k: nat, name: string)
    ensures name in Interfaces(writes, k) <==>
              exists i :: 0 <= i < |writes| && writes[i].call == k && writes[i].iface == name
  {
    if writes != [] {
      var n := |writes| - 1;
      var before := writes[..n];
      InterfacesAre(before, k, name);
      if name in Interfaces(before, k) {
        var i :| 0 <= i < |before| && before[i].call == k && before[i].iface == name;
        assert writes[i].call == k && writes[i].iface == name;
      } else {
        assert forall i :: 0 <= i < n ==> before[i] == writes[i];
      }
    }
  }

  lemma {:induction false} InterfacesDistinct(writes: seq<D.Write>, k: nat)
    requires forall i, j :: 0 <= i < j < |writes| ==>
               writes[i].call != writes[j].call || writes[i].iface != writes[j].iface
    ensures E.Distinct(Interfaces(writes, k))
  {
    if writes != [] {
      var n := |writes| - 1;
      var before := writes[..n];
      InterfacesDistinct(before, k);
      InterfacesAre(before, k, writes[n].iface);
      assert forall i :: 0 <= i < n ==> before[i] == writes[i];
    }
  }

  lemma {:induction false} NoInterfaces(writes: seq<D.Write>, k: nat)
    requires forall i :: 0 <= i < |writes| ==> writes[i].call != k
    ensures Interfaces(writes, k) == []
  {
    if writes != [] { NoInterfaces(writes[..|writes| - 1], k); }
  }

  /** A suppressed call has written nothing and needed a claim. */
  lemma SuppressedCall(c: D.Config, ds: D.State, k: nat)
    requires D.Inv(c, ds) && k < |ds.calls| && ds.calls[k].phase.Suppressed?
    ensures D.Claims(c, ds.calls[k]) && Interfaces(ds.writes, k) == []
  {
    hide D.TicketInv, D.SpacingInv, D.BackedInv, D.LoopInv, D.FailInv, D.LockInv, D.EgressDest, Interfaces;
    assert D.CallOk(c, ds, ds.calls[k]);
    forall i | 0 <= i < |ds.writes| ensures ds.writes[i].call != k { assert D.WriteOk(c, ds, ds.writes[i]); }
    NoInterfaces(ds.writes, k);
  }

  /** A completed call has written every socket once, a failed one some of them once but not all. */
  lemma WrittenCall(c: D.Config, ds: D.State, k: nat)
    requires D.Inv(c, ds) && k < |ds.calls| && (ds.calls[k].phase.Sent? || ds.calls[k].phase.Failed?)
    ensures ds.calls[k].ep < |c.endpoints|
    ensures var names, sockets := Interfaces(ds.writes, k), c.endpoints[ds.calls[k].ep].sockets;
            && E.Distinct(names) && (forall i :: 0 <= i < |names| ==> names[i] in sockets)
            && (ds.calls[k].phase.Sent? <==> forall name :: name in sockets ==> name in names)
  {
    hide D.TicketInv, D.SpacingInv, D.BackedInv, D.LockInv, D.EgressDest, Interfaces;
    assert D.CallOk(c, ds, ds.calls[k]);
    InterfacesDistinct(ds.writes, k);
    var names := Interfaces(ds.writes, k);
    forall name ensures name in names <==> D.Wrote(ds, k, name) { InterfacesAre(ds.writes, k, name); }
    forall i | 0 <= i < |names| ensures names[i] in c.endpoints[ds.calls[k].ep].sockets {
      assert names[i] in names;
      var j :| 0 <= j < |ds.writes| && ds.writes[j].call == k && ds.writes[j].iface == names[i];
      assert D.WriteOk(c, ds, ds.writes[j]);
    }
  }

  /** What a returned call did is plausible for its endpoint, and ends its NACK as the call ended. */
  lemma SeenPlausible(c: Config, ds: D.State, k: nat)
    requires ConfigOk(c) && D.Inv(c.claims, ds) && k < |ds.calls| && Returned(ds.calls[k].phase)
             && ds.calls[k].ep < |c.eps|
    ensures E.Plausible(c.eps[ds.calls[k].ep], ds.calls[k].raw, Seen(ds, k))
    ensures Agree(E.Ending(c.eps[ds.calls[k].ep], ds.calls[k].raw, Seen(ds, k)), ds.calls[k].phase)
    ensures Ended(E.Ending(c.eps[ds.calls[k].ep], ds.calls[k].raw, Seen(ds, k)))
  {
    hide D.Inv, Interfaces;
    assert SameEndpoint(c, ds.calls[k].ep);
    if ds.calls[k].phase.Suppressed? {
      SuppressedCall(c.claims, ds, k);
    } else {
      WrittenCall(c.claims, ds, k);
    }
  }

  // ----- steps of the parts -----

  /** A step of an endpoint's own leaves cleared and ended NACKs alone and ends none. */
  lemma OwnKeeps(c: E.Config, es: E.State, step: E.Step, t: nat)
    requires E.Enabled(c, es, step) && Own(step) && t < |E.Do(c, es, step).tasks|
    ensures t < |es.tasks| && (es.tasks[t].stage == E.Cleared || Ended(es.tasks[t].stage)) ==>
              E.Do(c, es, step).tasks[t] == es.tasks[t]
    ensures Ended(E.Do(c, es, step).tasks[t].stage) ==> t < |es.tasks| && Ended(es.tasks[t].stage)
    ensures |es.tasks| <= |E.Do(c, es, step).tasks|
  {
    V.StepActs(c, es, step);
    if t != V.Actor(es, step) {
      hide E.Do, E.Enabled, V.Grows, V.ReplyOk, V.Sends, V.Due;
      var task := E.Do(c, es, step).tasks[t];
      assert t < |es.tasks| && task == es.tasks[t];
    } else {
      hide V.Acts;
      OwnActor(c, es, step, t);
    }
    assert |es.tasks| <= |E.Do(c, es, step).tasks| by { hide E.Do, E.Enabled, V.Grows, V.ReplyOk, V.Sends, V.Due; }
  }

  lemma OwnActor(c: E.Config, es: E.State, step: E.Step, t: nat)
    requires E.Enabled(c, es, step) && Own(step) && t < |E.Do(c, es, step).tasks| && t == V.Actor(es, step)
    ensures t < |es.tasks| ==> es.tasks[t].stage != E.Cleared && !Ended(es.tasks[t].stage)
    ensures !Ended(E.Do(c, es, step).tasks[t].stage)
  {
    hide N.Parse, E.Do;
    if step.Lookup? || step.AskGroup? {
      LookupEndsNone(c, es, step, t);
    } else {
      J.EarlyStages(c, es, step, t);
    }
  }

  lemma LookupEndsNone(c: E.Config, es: E.State, step: E.Step, t: nat)
    requires E.Enabled(c, es, step) && (step.Lookup? || step.AskGroup?) && t < |E.Do(c, es, step).tasks| && t == step.t
    ensures !Ended(E.Do(c, es, step).tasks[t].stage)
  {
    hide N.Parse, N.Ack, N.Response, E.BucketOf, M.Lookup;
    hide E.DoArrive, E.DoIP, E.DoSeq, E.DoChain, E.DoLookupError, E.DoRetransmit, E.DoOp, E.DoFrame;
  }

  /** A step of a call moves only phases, and no call that has returned. */
  lemma SharedKeeps(c: D.Config, ds: D.State, step: D.Step, k: nat)
    requires D.Enabled(c, ds, step) && InCall(step) && k < |ds.calls|
    ensures |D.Do(c, ds, step).calls| == |ds.calls|
    ensures D.Do(c, ds, step).calls[k].ep == ds.calls[k].ep && D.Do(c, ds, step).calls[k].raw == ds.calls[k].raw
    ensures D.Do(c, ds, step).calls[k].txID == ds.calls[k].txID
    ensures Returned(ds.calls[k].phase) ==> D.Do(c, ds, step).calls[k].phase == ds.calls[k].phase
  {
    hide D.EgressDest, D.DedupKey;
  }

  // ----- what a step does to the parts -----

  ghost predicate SameEps(c: Config, s: State, s': State)
    requires Sound(c, s) && Sound(c, s')
  {
    forall e :: 0 <= e < |c.eps| ==> Ep(c, s', e) == Ep(c, s, e)
  }

  lemma TimePasses(c: Config, s: State, dt: nat)
    requires Sound(c, s)
    ensures var s' := Do(c, s, Time(dt));
            && Sound(c, s') && s'.owners == s.owners
            && (forall e :: 0 <= e < |c.eps| ==> Ep(c, s', e) == Ep(c, s, e).(clock := Ep(c, s, e).clock + dt))
            && Claim(c, s') == Claim(c, s).(now := Claim(c, s).now + dt)
  {
    hide E.Run, E.CanRun, D.Run, D.CanRun;
    var s' := Do(c, s, Time(dt));
    forall e | 0 <= e < |c.eps|
      ensures E.CanRun(c.eps[e], s'.runs[e])
      ensures E.Run(c.eps[e], s'.runs[e]) == E.Run(c.eps[e], s.runs[e]).(clock := E.Run(c.eps[e], s.runs[e]).clock + dt)
    {
      ER.Extend(c.eps[e], s.runs[e], E.Tick(dt));
      assert s'.runs[e] == s.runs[e] + [E.Tick(dt)];
    }
    D.Extend(c.claims, s.calls, D.Tick(dt));
  }

  lemma EndpointSteps(c: Config, s: State, e: nat, step: E.Step)
    requires Sound(c, s) && e < |c.eps| && E.Enabled(c.eps[e], Ep(c, s, e), step)
    ensures var s' := Append(s, e, step);
            && Sound(c, s') && Claim(c, s') == Claim(c, s) && Ep(c, s', e) == E.Do(c.eps[e], Ep(c, s, e), step)
            && (forall f :: 0 <= f < |c.eps| && f != e ==> Ep(c, s', f) == Ep(c, s, f))
  {
    hide E.Run, E.CanRun, D.Run, D.CanRun, E.Do, E.Enabled;
    ER.Extend(c.eps[e], s.runs[e], step);
  }

  lemma ClaimsStep(c: Config, s: State, s': State, step: D.Step)
    requires Sound(c, s) && D.Enabled(c.claims, Claim(c, s), step) && s'.runs == s.runs && s'.calls == s.calls + [step]
    ensures Sound(c, s') && SameEps(c, s, s') && Claim(c, s') == D.Do(c.claims, Claim(c, s), step)
  {
    hide E.Run, E.CanRun, D.Run, D.CanRun, D.Do, D.Enabled;
    D.Extend(c.claims, s.calls, step);
  }

  /** One frame filed in a cache; nothing else about the endpoint changes. */
  lemma FrameStep(c: E.Config, es: E.State, raw: ByteString, ttl: int, key: ByteString)
    requires c.shared && c.maxKeys <= 0 && raw != [] && I.Classify(c.codec, raw) == I.Cacheable(key)
    ensures E.Enabled(c, es, E.Frame(raw, ttl, {}))
    ensures E.Do(c, es, E.Frame(raw, ttl, {})) == E.DoOp(es, M.Store(key, raw, ttl, es.clock, {}))
  {
    hide I.Classify, M.Apply;
  }

  lemma FrameStoreStep(c: D.Config, ds: D.State, e: nat, key: ByteString, ttl: nat)
    requires e < |c.endpoints| && c.endpoints[e].redis && |key| == 16
    ensures D.Enabled(c, ds, D.FrameStore(e, key, ttl))
    ensures D.Do(c, ds, D.FrameStore(e, key, ttl))
            == ds.(store := ds.store[c.endpoints[e].prefix + key := ds.now + ttl])
  {
    hide D.DoClaim, D.EgressDest;
  }

  /** The operation a frame makes on every cache that shares it. */
  function StoreBy(c: Config, e: nat, raw: ByteString, clock: int): (op: M.Op)
    requires e < |c.eps| && I.Classify(c.eps[e].codec, raw).Cacheable?
  {
    M.Store(I.Classify(c.eps[e].codec, raw).key, raw, c.eps[e].ttl, clock, {})
  }

  lemma ReceiveEffect(c: Config, s: State, e: nat, raw: ByteString)
    requires ConfigOk(c) && Enabled(c, s, Receive(e, raw))
    ensures var s' := Do(c, s, Receive(e, raw));
            && Sound(c, s') && s'.owners == s.owners
            && (forall f :: 0 <= f < |c.eps| ==>
                  Ep(c, s', f) == if Shares(c, e, f) then E.DoOp(Ep(c, s, f), StoreBy(c, e, raw, Ep(c, s, f).clock))
                                  else Ep(c, s, f))
            && Claim(c, s') == Claim(c, s).(store := Claim(c, s').store)
  {
    hide E.Run, E.CanRun, D.Run, D.CanRun, E.Do, E.Enabled, E.DoOp, D.Do, D.Enabled, I.Classify;
    var s' := Do(c, s, Receive(e, raw));
    var key := I.Classify(c.eps[e].codec, raw).key;
    forall f | 0 <= f < |c.eps|
      ensures E.CanRun(c.eps[f], s'.runs[f])
      ensures E.Run(c.eps[f], s'.runs[f])
              == if Shares(c, e, f) then E.DoOp(Ep(c, s, f), StoreBy(c, e, raw, Ep(c, s, f).clock)) else Ep(c, s, f)
    {
      if Shares(c, e, f) {
        assert SameEndpoint(c, f) && c.eps[e].codec == c.eps[f].codec;
        FrameStep(c.eps[f], Ep(c, s, f), raw, c.eps[e].ttl, key);
        ER.Extend(c.eps[f], s.runs[f], E.Frame(raw, c.eps[e].ttl, {}));
      }
    }
    assert SameEndpoint(c, e) && |key| == 16 by { KeyLength(c.eps[e].codec, raw); }
    FrameStoreStep(c.claims, Claim(c, s), e, key, c.eps[e].ttl);
    D.Extend(c.claims, s.calls, D.FrameStore(e, key, c.eps[e].ttl));
  }

  lemma KeyLength(c: I.Codec, raw: ByteString)
    requires I.Classify(c, raw).Cacheable?
    ensures |I.Classify(c, raw).key| == 16
  {
    hide I.StampOf;
  }

  // ----- the invariant step by step -----

  /** A call stays right while its NACK's entry stays and the call only moves on. */
  lemma CallKept(es: E.State, es': E.State, t: nat, e: nat, call: D.Call, call': D.Call)
    requires CallOk(es, t, e, call) && t < |es'.tasks| && es'.tasks[t] == es.tasks[t]
    requires call'.ep == call.ep && call'.raw == call.raw && call'.txID == call.txID
    requires Returned(call.phase) ==> call'.phase == call.phase
    ensures CallOk(es', t, e, call')
  {
    hide E.Asks, E.TxID;
  }

  lemma KeepsTime(c: Config, s: State, dt: nat)
    requires Inv(c, s)
    ensures Inv(c, Do(c, s, Time(dt)))
  {
    hide Sound, Ep, Claim, CallOk, Do;
    TimePasses(c, s, dt);
    var s' := Do(c, s, Time(dt));
    forall k | 0 <= k < |s'.owners|
      ensures CallOk(Ep(c, s', s'.owners[k].ep), s'.owners[k].task, s'.owners[k].ep, Claim(c, s').calls[k])
    {
      TaskThere(Ep(c, s, s.owners[k].ep), s.owners[k].task, s.owners[k].ep, Claim(c, s).calls[k]);
      CallKept(Ep(c, s, s.owners[k].ep), Ep(c, s', s.owners[k].ep), s.owners[k].task, s.owners[k].ep,
               Claim(c, s).calls[k], Claim(c, s').calls[k]);
    }
  }

  lemma TaskThere(es: E.State, t: nat, e: nat, call: D.Call)
    requires CallOk(es, t, e, call)
    ensures t < |es.tasks| && (es.tasks[t].stage == E.Cleared || Ended(es.tasks[t].stage))
  {
    hide E.Asks, E.TxID;
  }

  lemma KeepsAt(c: Config, s: State, e: nat, step: E.Step)
    requires Inv(c, s) && Enabled(c, s, At(e, step))
    ensures Inv(c, Do(c, s, At(e, step)))
  {
    hide Sound, Ep, Claim, CallOk, E.Do, E.Enabled, Own;
    EndpointSteps(c, s, e, step);
    var s' := Do(c, s, At(e, step));
    forall k | 0 <= k < |s'.owners|
      ensures CallOk(Ep(c, s', s'.owners[k].ep), s'.owners[k].task, s'.owners[k].ep, Claim(c, s').calls[k])
    {
      var o := s.owners[k];
      if o.ep == e {
        TaskThere(Ep(c, s, e), o.task, e, Claim(c, s).calls[k]);
        OwnGrows(c.eps[e], Ep(c, s, e), step);
        OwnKeeps(c.eps[e], Ep(c, s, e), step, o.task);
        CallKept(Ep(c, s, e), Ep(c, s', e), o.task, e, Claim(c, s).calls[k], Claim(c, s').calls[k]);
      }
    }
    forall f, t | 0 <= f < |c.eps| && 0 <= t < |Ep(c, s', f).tasks| && Ended(Ep(c, s', f).tasks[t].stage)
      ensures Owner(f, t) in s'.owners
    {
      if f == e { OwnKeeps(c.eps[e], Ep(c, s, e), step, t); }
    }
  }

  lemma KeepsReceive(c: Config, s: State, e: nat, raw: ByteString)
    requires ConfigOk(c) && Inv(c, s) && Enabled(c, s, Receive(e, raw))
    ensures Inv(c, Do(c, s, Receive(e, raw)))
  {
    ReceiveEffect(c, s, e, raw);
    hide Sound, Ep, Claim, CallOk, Do, ConfigOk, Enabled, StoreBy, M.Apply;
    var s' := Do(c, s, Receive(e, raw));
    forall f | 0 <= f < |c.eps| ensures Ep(c, s', f).tasks == Ep(c, s, f).tasks { }
    hide E.DoOp, Shares;
    forall k | 0 <= k < |s'.owners|
      ensures CallOk(Ep(c, s', s'.owners[k].ep), s'.owners[k].task, s'.owners[k].ep, Claim(c, s').calls[k])
    {
      var o, call := s.owners[k], Claim(c, s).calls[k];
      TaskThere(Ep(c, s, o.ep), o.task, o.ep, call);
      CallKept(Ep(c, s, o.ep), Ep(c, s', o.ep), o.task, o.ep, call, Claim(c, s').calls[k]);
    }
  }

  lemma OwnGrows(c: E.Config, es: E.State, step: E.Step)
    requires E.Enabled(c, es, step)
    ensures |es.tasks| <= |E.Do(c, es, step).tasks|
  {
    V.StepActs(c, es, step);
    hide E.Do, E.Enabled, V.Grows, V.ReplyOk, V.Sends, V.Due;
  }

  lemma KeepsShared(c: Config, s: State, step: D.Step)
    requires Inv(c, s) && Enabled(c, s, Shared(step))
    ensures Inv(c, Do(c, s, Shared(step)))
  {
    hide Sound, Ep, Claim, CallOk, D.Do, D.Enabled, InCall, Returned;
    var s' := Do(c, s, Shared(step));
    ClaimsStep(c, s, s', step);
    var before, after := Claim(c, s), Claim(c, s');
    assert |after.calls| == |before.calls| by { SharedCount(c.claims, before, step); }
    forall k | 0 <= k < |s'.owners|
      ensures CallOk(Ep(c, s', s'.owners[k].ep), s'.owners[k].task, s'.owners[k].ep, after.calls[k])
    {
      var o := s.owners[k];
      TaskThere(Ep(c, s, o.ep), o.task, o.ep, before.calls[k]);
      SharedKeeps(c.claims, before, step, k);
      CallKept(Ep(c, s, o.ep), Ep(c, s', o.ep), o.task, o.ep, before.calls[k], after.calls[k]);
    }
  }

  lemma SharedCount(c: D.Config, ds: D.State, step: D.Step)
    requires D.Enabled(c, ds, step) && InCall(step)
    ensures |D.Do(c, ds, step).calls| == |ds.calls|
  {
    hide D.EgressDest, D.DedupKey;
  }

  lemma BeginStep(c: D.Config, ds: D.State, e: nat, raw: ByteString, txID: ByteString)
    requires e < |c.endpoints|
    ensures D.Enabled(c, ds, D.Begin(e, raw, txID))
    ensures D.Do(c, ds, D.Begin(e, raw, txID)) == ds.(calls := ds.calls + [D.Call(e, raw, txID, D.Started, None)])
  {
  }

  lemma KeepsCall(c: Config, s: State, e: nat, t: nat)
    requires Inv(c, s) && Enabled(c, s, Call(e, t))
    ensures Inv(c, Do(c, s, Call(e, t)))
  {
    hide Sound, Ep, Claim, D.Do, D.Enabled, E.Asks, E.TxID;
    var s' := Do(c, s, Call(e, t));
    var raw := Ep(c, s, e).tasks[t].look.raw.value;
    BeginStep(c.claims, Claim(c, s), e, raw, E.TxID(raw));
    ClaimsStep(c, s, s', D.Begin(e, raw, E.TxID(raw)));
    forall k | 0 <= k < |s'.owners|
      ensures s'.owners[k].ep < |c.eps|
      ensures CallOk(Ep(c, s', s'.owners[k].ep), s'.owners[k].task, s'.owners[k].ep, Claim(c, s').calls[k])
    {
      if k < |s.owners| {
        assert CallOk(Ep(c, s, s.owners[k].ep), s.owners[k].task, s.owners[k].ep, Claim(c, s).calls[k]);
      }
    }
  }

  lemma RetransmitTasks(c: E.Config, es: E.State, t: nat, a: E.Attempt)
    requires E.Enabled(c, es, E.Retransmit(t, a))
    ensures var es' := E.Do(c, es, E.Retransmit(t, a));
            es'.tasks == es.tasks[t := es.tasks[t].(stage := E.Ending(c, es.tasks[t].look.raw.value, a))]
  {
    hide N.Parse, N.Ack, E.DestOf, E.Writes, R.Enters;
  }

  /** The endpoint can take what its call returns. */
  lemma ReturnEnabled(c: Config, s: State, k: nat)
    requires ConfigOk(c) && Inv(c, s) && D.Inv(c.claims, Claim(c, s)) && Enabled(c, s, Return(k))
    ensures var o, a := s.owners[k], Seen(Claim(c, s), k);
            && E.Enabled(c.eps[o.ep], Ep(c, s, o.ep), E.Retransmit(o.task, a))
            && Agree(E.Ending(c.eps[o.ep], Claim(c, s).calls[k].raw, a), Claim(c, s).calls[k].phase)
            && Ended(E.Ending(c.eps[o.ep], Claim(c, s).calls[k].raw, a))
  {
    hide Sound, Ep, Claim, D.Inv, E.Plausible, E.Ending, Seen, E.TxID, E.Asks;
    assert CallOk(Ep(c, s, s.owners[k].ep), s.owners[k].task, s.owners[k].ep, Claim(c, s).calls[k]);
    SeenPlausible(c, Claim(c, s), k);
  }

  /** A return ends its NACK and touches nothing else. */
  lemma ReturnEffect(c: Config, s: State, k: nat)
    requires ConfigOk(c) && Inv(c, s) && D.Inv(c.claims, Claim(c, s)) && Enabled(c, s, Return(k))
    ensures var s', o := Do(c, s, Return(k)), s.owners[k];
            && Sound(c, s') && s'.owners == s.owners && Claim(c, s') == Claim(c, s) && k < |Claim(c, s).calls|
            && (forall f :: 0 <= f < |c.eps| && f != o.ep ==> Ep(c, s', f) == Ep(c, s, f))
            && o.task < |Ep(c, s, o.ep).tasks|
            && Ended1(Ep(c, s, o.ep), Ep(c, s', o.ep), o.task, Claim(c, s).calls[k].phase)
  {
    ReturnEnabled(c, s, k);
    hide Sound, Ep, Claim, D.Inv, E.Do, E.Enabled, E.Ending, Seen, E.TxID, E.Asks, Agree, Ended, Returned;
    var o, a := s.owners[k], Seen(Claim(c, s), k);
    EndpointSteps(c, s, o.ep, E.Retransmit(o.task, a));
    assert CallOk(Ep(c, s, o.ep), o.task, o.ep, Claim(c, s).calls[k]);
    RetransmitTasks(c.eps[o.ep], Ep(c, s, o.ep), o.task, a);
  }

  /** One NACK has ended, in agreement with a call. */
  ghost predicate Ended1(es: E.State, es': E.State, t: nat, phase: D.Phase) {
    && t < |es.tasks| == |es'.tasks|
    && (forall u :: 0 <= u < |es.tasks| && u != t ==> es'.tasks[u] == es.tasks[u])
    && es'.tasks[t] == es.tasks[t].(stage := es'.tasks[t].stage)
    && Ended(es'.tasks[t].stage) && Agree(es'.tasks[t].stage, phase)
  }

  lemma KeepsReturn(c: Config, s: State, k: nat)
    requires ConfigOk(c) && Inv(c, s) && D.Inv(c.claims, Claim(c, s)) && Enabled(c, s, Return(k))
    ensures Inv(c, Do(c, s, Return(k)))
  {
    ReturnEffect(c, s, k);
    assert k < |s.owners| && s.owners[k].ep < |c.eps|;
    hide Sound, Ep, Claim, D.Inv, Do, Enabled, Ended1, ConfigOk, CallsInv, EndedInv;
    ReturnKeepsCalls(c, s, Do(c, s, Return(k)), k);
    ReturnKeepsEnded(c, s, Do(c, s, Return(k)), k);
  }

  /** One endpoint's NACK has ended with its call; all else is as before. */
  ghost predicate OnlyEnded(c: Config, s: State, s': State, k: nat) {
    && Sound(c, s) && Sound(c, s') && k < |s.owners| && s.owners[k].ep < |c.eps|
    && s'.owners == s.owners && Claim(c, s') == Claim(c, s) && k < |Claim(c, s).calls|
    && (forall f :: 0 <= f < |c.eps| && f != s.owners[k].ep ==> Ep(c, s', f) == Ep(c, s, f))
    && Ended1(Ep(c, s, s.owners[k].ep), Ep(c, s', s.owners[k].ep), s.owners[k].task, Claim(c, s).calls[k].phase)
  }

  lemma ReturnKeepsEnded(c: Config, s: State, s': State, k: nat)
    requires OnlyEnded(c, s, s', k) && EndedInv(c, s)
    ensures EndedInv(c, s')
  {
    hide Sound, Ep, Claim, Agree, Ended;
    var o := s.owners[k];
    forall f, t | 0 <= f < |c.eps| && 0 <= t < |Ep(c, s', f).tasks| && Ended(Ep(c, s', f).tasks[t].stage)
      ensures Owner(f, t) in s'.owners
    {
      if f == o.ep && t == o.task { assert s'.owners[k] == o; }
    }
  }

  lemma ReturnKeepsCalls(c: Config, s: State, s': State, k: nat)
    requires OnlyEnded(c, s, s', k) && CallsInv(c, s) && OwnersInv(s)
    ensures CallsInv(c, s')
  {
    hide Sound, Ep, Claim, Returned, Agree, Ended, CallOk;
    var o := s.owners[k];
    forall i | 0 <= i < |s'.owners|
      ensures CallOk(Ep(c, s', s'.owners[i].ep), s'.owners[i].task, s'.owners[i].ep, Claim(c, s').calls[i])
    {
      if i == k {
        ReturnedCallOk(Ep(c, s, o.ep), Ep(c, s', o.ep), o.task, o.ep, Claim(c, s).calls[k]);
      } else {
        assert s.owners[i] != s.owners[k];
        TaskThere(Ep(c, s, s.owners[i].ep), s.owners[i].task, s.owners[i].ep, Claim(c, s).calls[i]);
        CallKept(Ep(c, s, s.owners[i].ep), Ep(c, s', s.owners[i].ep), s.owners[i].task, s.owners[i].ep,
                 Claim(c, s).calls[i], Claim(c, s').calls[i]);
      }
    }
  }

  /** A call whose NACK has just ended as it did. */
  lemma ReturnedCallOk(es: E.State, es': E.State, t: nat, e: nat, call: D.Call)
    requires CallOk(es, t, e, call) && t < |es'.tasks| && es'.tasks[t] == es.tasks[t].(stage := es'.tasks[t].stage)
    requires Agree(es'.tasks[t].stage, call.phase)
    ensures CallOk(es', t, e, call)
  {
    hide E.TxID, N.Parse;
  }

  lemma KeepsInv(c: Config, s: State, step: Step)
    requires ConfigOk(c) && Inv(c, s) && D.Inv(c.claims, Claim(c, s)) && Enabled(c, s, step)
    ensures Inv(c, Do(c, s, step))
  {
    hide Inv, Do, Enabled, D.Inv;
    match step
    case Time(dt) => KeepsTime(c, s, dt);
    case At(e, st) => KeepsAt(c, s, e, st);
    case Receive(e, raw) => KeepsReceive(c, s, e, raw);
    case Call(e, t) => KeepsCall(c, s, e, t);
    case Shared(st) => KeepsShared(c, s, st);
    case Return(k) => KeepsReturn(c, s, k);
  }

  // ----- runs -----

  ghost predicate CanRun(c: Config, steps: seq<Step>)
    decreases |steps|, 0
  {
    steps == [] ||
    (var before := steps[..|steps| - 1];
     CanRun(c, before) && Enabled(c, Run(c, before), steps[|steps| - 1]))
  }

  /** The state after a run from the start. */
  ghost function Run(c: Config, steps: seq<Step>): (s: State)
    requires CanRun(c, steps)
    decreases |steps|, 1
  {
    if steps == [] then Start(c) else Do(c, Run(c, steps[..|steps| - 1]), steps[|steps| - 1])
  }

  lemma StartInv(c: Config)
    ensures Inv(c, Start(c))
  {
    var s := Start(c);
    forall e | 0 <= e < |c.eps| ensures s.runs[e] == [] && Ep(c, s, e) == E.START { }
  }

  lemma {:induction false} RunInv(c: Config, steps: seq<Step>)
    requires ConfigOk(c) && CanRun(c, steps)
    ensures Inv(c, Run(c, steps)) && D.Inv(c.claims, Claim(c, Run(c, steps)))
  {
    if steps == [] {
      StartInv(c);
    } else {
      var before := steps[..|steps| - 1];
      RunInv(c, before);
      hide Do, Enabled, D.Inv, CallsInv, OwnersInv, EndedInv;
      KeepsInv(c, Run(c, before), steps[|steps| - 1]);
    }
    assert D.Inv(c.claims, Claim(c, Run(c, steps))) by { D.RunInv(c.claims, Run(c, steps).calls); }
  }

  /** The last step of a run, and what holds before it. */
  lemma LastStep(c: Config, steps: seq<Step>) returns (before: seq<Step>, step: Step)
    requires ConfigOk(c) && CanRun(c, steps) && steps != []
    ensures before == steps[..|steps| - 1] && step == steps[|steps| - 1] && steps == before + [step]
    ensures CanRun(c, before) && Inv(c, Run(c, before)) && D.Inv(c.claims, Claim(c, Run(c, before)))
    ensures Enabled(c, Run(c, before), step) && Run(c, steps) == Do(c, Run(c, before), step)
  {
    hide Do, Enabled, D.Inv, Inv, Sound, ConfigOk;
    before, step := steps[..|steps| - 1], steps[|steps| - 1];
    RunInv(c, before);
  }
}
