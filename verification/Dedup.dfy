/**
 Cross-instance deduplication. Any number of endpoints retransmit cached frames; each first claims
 the frame's SeqNum with a set-if-absent in one shared store, then writes the frame to every egress
 socket under its own lock. Claim, lock, each write and the return are separate steps, interleaved
 in any order with those of other calls and with the frame stores of redis-backed endpoints.
 */
module Dedup {
  import opened Bytes
  import opened Options

  // ----- what one frame determines -----

  datatype Dest = Control | SubtreeAnnounce | Shard(group: nat)

  /** The multicast group of a frame: control groups by version byte, otherwise the TxID's shard. */
  function EgressDest(groupIndex: ByteString -> nat, raw: ByteString, txID: ByteString): (d: Dest)
  {
    if |raw| >= 7 && (raw[6] == 4 || raw[6] == 6) then Control
    else if |raw| >= 7 && raw[6] == 5 then SubtreeAnnounce
    else Shard(groupIndex(txID))
  }

  /**
   Where a frame goes, by its bytes: version 4 (block) and 6 (anchor) to the control group, version 5
   (subtree) to the subtree-announce group, any other version, or a frame too short to have one, to
   the shard of a TxID.
   */
  ghost predicate Addressed(groupIndex: ByteString -> nat, raw: ByteString, txID: ByteString, dest: Dest) {
    && (|raw| >= 7 && raw[6] in {4, 6} ==> dest == Control)
    && (|raw| >= 7 && raw[6] == 5 ==> dest == SubtreeAnnounce)
    && (|raw| < 7 || raw[6] !in {4, 5, 6} ==> dest == Shard(groupIndex(txID)))
  }

  lemma AddressedExactly(groupIndex: ByteString -> nat, raw: ByteString, txID: ByteString, dest: Dest)
    ensures Addressed(groupIndex, raw, txID, dest) <==> dest == EgressDest(groupIndex, raw, txID)
  {
  }

  /** The claim key: SeqNum alone, bytes 48 to 55; a shorter frame has none and is never deduplicated. */
  function DedupKey(raw: ByteString): (key: Option<ByteString>)
    ensures key.Some? <==> |raw| >= 56
    ensures key.Some? ==> |key.value| == 8
  {
    if |raw| < 56 then None else Some(raw[48..56])
  }

  // ----- the shared system -----

  datatype Endpoint = Endpoint(
    redis: bool,             // false: no shared store, every frame goes out
    prefix: ByteString,      // put before every key this endpoint uses in the shared store
    window: nat,
    sockets: set<string>)

  /** Key prefixes in use: redis-backed endpoints claim among their frames, memory-backed ones apart. */
  const FRAME_PREFIX: ByteString := [98, 114, 101, 58, 102, 114, 97, 109, 101, 58]
  const DEDUP_PREFIX: ByteString := [98, 114, 101, 58, 100, 101, 100, 117, 112, 58]

  /** The bytes of plain text. */
  function Ascii(text: string): (bs: ByteString)
    ensures |bs| == |text|
  {
    seq(|text|, i requires 0 <= i < |text| => text[i] as int % 256)
  }

  datatype Config = Config(endpoints: seq<Endpoint>, groupIndex: ByteString -> nat)

  /** Prefixes of one length, as the two in use have, and windows that end. */
  ghost predicate ConfigOk(c: Config) {
    && (forall e :: 0 <= e < |c.endpoints| ==> c.endpoints[e].window > 0)
    && (forall e, f :: 0 <= e < |c.endpoints| && 0 <= f < |c.endpoints| ==>
          |c.endpoints[e].prefix| == |c.endpoints[f].prefix|)
  }

  datatype Phase = Started | Ready | Writing(left: set<string>) | Sent | Suppressed | Failed

  /** One Retransmit call; the ticket is the number of its claim, if that took effect. */
  datatype Call = Call(ep: nat, raw: ByteString, txID: ByteString, phase: Phase, ticket: Option<nat>)

  /** A claim that took effect; the caller may not have learnt of it. */
  datatype Claim = Claim(call: nat, key: ByteString, at: int, window: nat, known: bool)

  datatype Write = Write(call: nat, iface: string, raw: ByteString, dest: Dest, at: int)

  datatype State = State(
    now: int,                          // the store's clock
    store: map<ByteString, int>,       // key to expiry
    calls: seq<Call>,
    claims: seq<Claim>,                // claims that took effect, in order
    writes: seq<Write>,                // datagrams that left an egress socket, in order
    locks: map<nat, nat>)              // endpoint to the call inside its write loop

  datatype Reply = Answered | Lost(applied: bool)  // an error may hide a claim that took effect

  datatype Step =
    | Tick(dt: nat)
    | FrameStore(ep: nat, key: ByteString, ttl: nat)
    | Begin(ep: nat, raw: ByteString, txID: ByteString)
    | TryClaim(call: nat, reply: Reply)
    | NoClaim(call: nat)
    | Lock(call: nat)
    | WriteTo(call: nat, iface: string, ok: bool)
    | Finish(call: nat)

  const START := State(0, map[], [], [], [], map[])

  predicate Live(s: State, key: ByteString) {
    key in s.store && s.now < s.store[key]
  }

  /** Whether a call goes through the claim at all. */
  predicate Claims(c: Config, call: Call) {
    call.ep < |c.endpoints| && c.endpoints[call.ep].redis && |call.raw| >= 56
  }

  /** The store key of a call's claim. */
  function StoreKey(c: Config, call: Call): (key: ByteString)
    requires Claims(c, call)
  {
    c.endpoints[call.ep].prefix + DedupKey(call.raw).value
  }

  predicate Enabled(c: Config, s: State, step: Step) {
    match step
    case Tick(_) => true
    case FrameStore(ep, key, _) => ep < |c.endpoints| && c.endpoints[ep].redis && |key| == 16
    case Begin(ep, _, _) => ep < |c.endpoints|
    case TryClaim(k, _) => k < |s.calls| && s.calls[k].phase.Started? && Claims(c, s.calls[k])
    case NoClaim(k) => k < |s.calls| && s.calls[k].phase.Started? && !Claims(c, s.calls[k])
    case Lock(k) =>
      k < |s.calls| && s.calls[k].phase.Ready? && s.calls[k].ep < |c.endpoints| && s.calls[k].ep !in s.locks
    case WriteTo(k, iface, _) => k < |s.calls| && s.calls[k].phase.Writing? && iface in s.calls[k].phase.left
    case Finish(k) => k < |s.calls| && s.calls[k].phase == Writing({})
  }

  function SetPhase(s: State, k: nat, phase: Phase): (s': State)
    requires k < |s.calls|
  {
    s.(calls := s.calls[k := s.calls[k].(phase := phase)])
  }

  /** SET NX with the endpoint's window: succeeds exactly when the key is not live. */
  function DoClaim(c: Config, s: State, k: nat, reply: Reply): (s': State)
    requires k < |s.calls| && Claims(c, s.calls[k])
  {
    var call := s.calls[k];
    var key := StoreKey(c, call);
    var window := c.endpoints[call.ep].window;
    if Live(s, key) || reply == Lost(false) then SetPhase(s, k, Suppressed)
    else
      s.(store := s.store[key := s.now + window],
         claims := s.claims + [Claim(k, key, s.now, window, reply.Answered?)],
         calls := s.calls[k := call.(phase := if reply.Answered? then Ready else Suppressed,
                                     ticket := Some(|s.claims|))])
  }

  function Do(c: Config, s: State, step: Step): (s': State)
    requires Enabled(c, s, step)
  {
    match step
    case Tick(dt) => s.(now := s.now + dt)
    case FrameStore(ep, key, ttl) => s.(store := s.store[c.endpoints[ep].prefix + key := s.now + ttl])
    case Begin(ep, raw, txID) => s.(calls := s.calls + [Call(ep, raw, txID, Started, None)])
    case TryClaim(k, reply) => DoClaim(c, s, k, reply)
    case NoClaim(k) => SetPhase(s, k, Ready)
    case Lock(k) =>
      SetPhase(s, k, Writing(c.endpoints[s.calls[k].ep].sockets)).(locks := s.locks[s.calls[k].ep := k])
    case WriteTo(k, iface, ok) =>
      var call := s.calls[k];
      if !ok then SetPhase(s, k, Failed).(locks := s.locks - {call.ep})
      else
        SetPhase(s, k, Writing(call.phase.left - {iface})).(
          writes := s.writes + [Write(k, iface, call.raw, EgressDest(c.groupIndex, call.raw, call.txID), s.now)])
    case Finish(k) => SetPhase(s, k, Sent).(locks := s.locks - {s.calls[k].ep})
  }

  // ----- what every step keeps -----

  /** Claims and calls point at each other, so no call claims twice and no claim has two calls. */
  ghost predicate TicketInv(c: Config, s: State) {
    && (forall i :: 0 <= i < |s.claims| ==>
          var k := s.claims[i].call;
          && k < |s.calls| && s.calls[k].ticket == Some(i) && Claims(c, s.calls[k])
          && s.claims[i].key == StoreKey(c, s.calls[k])
          && s.claims[i].window == c.endpoints[s.calls[k].ep].window)
    && (forall k :: 0 <= k < |s.calls| && s.calls[k].ticket.Some? ==>
          s.calls[k].ticket.value < |s.claims| && s.claims[s.calls[k].ticket.value].call == k)
  }

  predicate PastClaim(p: Phase) {
    p.Ready? || p.Writing? || p.Sent? || p.Failed?
  }

  ghost predicate KnowsClaim(s: State, call: Call) {
    call.ticket.Some? && call.ticket.value < |s.claims| && s.claims[call.ticket.value].known
  }

  /** A call that must claim is past the claim exactly when it was told its claim took effect. */
  ghost predicate CallOk(c: Config, s: State, call: Call) {
    && call.ep < |c.endpoints|
    && (call.phase.Writing? ==> call.phase.left <= c.endpoints[call.ep].sockets)
    && (Claims(c, call) ==> (PastClaim(call.phase) <==> KnowsClaim(s, call)))
    && (call.phase.Started? ==> call.ticket == None)
    && (!Claims(c, call) ==> call.ticket == None && !call.phase.Suppressed?)
  }

  ghost predicate PhaseInv(c: Config, s: State) {
    forall k :: 0 <= k < |s.calls| ==> CallOk(c, s, s.calls[k])
  }

  /** The store remembers every claim for its whole window, and claims of one key keep their distance. */
  ghost predicate SpacingInv(s: State) {
    && (forall i :: 0 <= i < |s.claims| ==>
          && s.claims[i].at <= s.now
          && s.claims[i].key in s.store
          && s.claims[i].at + s.claims[i].window <= s.store[s.claims[i].key])
    && (forall i, j :: 0 <= i < j < |s.claims| && s.claims[i].key == s.claims[j].key ==>
          s.claims[i].at + s.claims[i].window <= s.claims[j].at)
  }

  ghost predicate Backed(s: State, key: ByteString) {
    key in s.store &&
    exists i :: 0 <= i < |s.claims| && s.claims[i].key == key && s.store[key] == s.claims[i].at + s.claims[i].window
  }

  /** Every claim key in the store was put there by a claim, with that claim's expiry. */
  ghost predicate BackedInv(c: Config, s: State) {
    forall key, ep :: key in s.store && 0 <= ep < |c.endpoints| && |key| == |c.endpoints[ep].prefix| + 8 ==>
      Backed(s, key)
  }

  /** A write belongs to a call inside or past its loop and to a socket that loop has done. */
  ghost predicate WriteOk(c: Config, s: State, w: Write) {
    && w.call < |s.calls|
    && var call := s.calls[w.call];
       && call.ep < |c.endpoints|
       && w.raw == call.raw
       && w.dest == EgressDest(c.groupIndex, call.raw, call.txID)
       && w.iface in c.endpoints[call.ep].sockets
       && w.at <= s.now
       && (call.ticket.Some? ==> call.ticket.value < |s.claims| && s.claims[call.ticket.value].at <= w.at)
       && (call.phase.Sent? || call.phase.Failed? || (call.phase.Writing? && w.iface !in call.phase.left))
  }

  ghost predicate Wrote(s: State, k: nat, iface: string) {
    exists i :: 0 <= i < |s.writes| && s.writes[i].call == k && s.writes[i].iface == iface
  }

  /** At most one write per call and interface; a finished loop has done them all. */
  ghost predicate WriteInv(c: Config, s: State) {
    && (forall i :: 0 <= i < |s.writes| ==> WriteOk(c, s, s.writes[i]))
    && (forall i, j :: 0 <= i < j < |s.writes| ==>
          s.writes[i].call != s.writes[j].call || s.writes[i].iface != s.writes[j].iface)
  }

  ghost predicate LoopInv(c: Config, s: State) {
    forall k, iface :: 0 <= k < |s.calls| && s.calls[k].ep < |c.endpoints|
                       && iface in c.endpoints[s.calls[k].ep].sockets
                       && (s.calls[k].phase.Sent? || (s.calls[k].phase.Writing? && iface !in s.calls[k].phase.left)) ==>
      Wrote(s, k, iface)
  }

  /** A call fails at a socket it has not written. */
  ghost predicate FailInv(c: Config, s: State) {
    forall k :: 0 <= k < |s.calls| && s.calls[k].phase.Failed? && s.calls[k].ep < |c.endpoints| ==>
      exists iface :: iface in c.endpoints[s.calls[k].ep].sockets && !Wrote(s, k, iface)
  }

  /** The call inside its write loop holds the endpoint's lock, and only such a call does. */
  ghost predicate LockInv(s: State) {
    && (forall k :: 0 <= k < |s.calls| && s.calls[k].phase.Writing? ==>
          s.calls[k].ep in s.locks && s.locks[s.calls[k].ep] == k)
    && (forall ep :: ep in s.locks ==>
          s.locks[ep] < |s.calls| && s.calls[s.locks[ep]].ep == ep && s.calls[s.locks[ep]].phase.Writing?)
  }

  ghost predicate Inv(c: Config, s: State) {
    && TicketInv(c, s) && PhaseInv(c, s) && SpacingInv(s) && BackedInv(c, s)
    && WriteInv(c, s) && LoopInv(c, s) && FailInv(c, s) && LockInv(s)
  }

  lemma StartInv(c: Config)
    ensures Inv(c, START)
  {
  }

  /** The two states have the same calls but for how far each has come. */
  ghost predicate SameButPhases(s: State, s': State) {
    && |s'.calls| == |s.calls|
    && forall k :: 0 <= k < |s.calls| ==> s'.calls[k] == s.calls[k].(phase := s'.calls[k].phase)
  }

  lemma TicketsFrame(c: Config, s: State, s': State)
    requires TicketInv(c, s) && SameButPhases(s, s') && s'.claims == s.claims
    ensures TicketInv(c, s')
  {
    hide DedupKey;
  }

  lemma TicketOfClaim(c: Config, s: State, k: nat, reply: Reply)
    requires Inv(c, s) && Enabled(c, s, TryClaim(k, reply))
    requires !Live(s, StoreKey(c, s.calls[k])) && reply != Lost(false)
    ensures TicketInv(c, DoClaim(c, s, k, reply))
  {
    hide SpacingInv, WriteInv, LoopInv, FailInv, LockInv, BackedInv, DedupKey, EgressDest;
    var s' := DoClaim(c, s, k, reply);
    assert s.calls[k].ticket == None;
    assert s'.claims[..|s.claims|] == s.claims;
  }

  lemma KeepsTickets(c: Config, s: State, step: Step)
    requires Inv(c, s) && Enabled(c, s, step)
    ensures TicketInv(c, Do(c, s, step))
  {
    hide SpacingInv, WriteInv, LoopInv, FailInv, LockInv, BackedInv, DedupKey, EgressDest;
    match step
    case Begin(_, _, _) =>
    case TryClaim(k, reply) =>
      hide TicketInv;
      if !Live(s, StoreKey(c, s.calls[k])) && reply != Lost(false) {
        TicketOfClaim(c, s, k, reply);
      } else {
        TicketsFrame(c, s, Do(c, s, step));
      }
    case _ =>
      hide TicketInv;
      TicketsFrame(c, s, Do(c, s, step));
  }

  lemma CallKept(c: Config, s: State, s': State, call: Call)
    requires CallOk(c, s, call) && s.claims <= s'.claims
    requires call.ticket.Some? ==> call.ticket.value < |s.claims|
    ensures CallOk(c, s', call)
  {
  }

  /** The call a step acts on, if any. */
  function Actor(s: State, step: Step): (k: int)
  {
    match step
    case Tick(_) => -1
    case FrameStore(_, _, _) => -1
    case Begin(_, _, _) => |s.calls|
    case TryClaim(k, _) => k
    case NoClaim(k) => k
    case Lock(k) => k
    case WriteTo(k, _, _) => k
    case Finish(k) => k
  }

  lemma ActorOk(c: Config, s: State, step: Step)
    requires Inv(c, s) && Enabled(c, s, step) && Actor(s, step) >= 0
    ensures Actor(s, step) < |Do(c, s, step).calls|
    ensures CallOk(c, Do(c, s, step), Do(c, s, step).calls[Actor(s, step)])
  {
    hide SpacingInv, WriteInv, LoopInv, FailInv, LockInv, BackedInv, DedupKey, EgressDest;
    var k := Actor(s, step);
    if k < |s.calls| { assert CallOk(c, s, s.calls[k]); }
  }

  lemma KeepsPhases(c: Config, s: State, step: Step)
    requires Inv(c, s) && Enabled(c, s, step)
    ensures PhaseInv(c, Do(c, s, step))
  {
    hide SpacingInv, WriteInv, LoopInv, FailInv, LockInv, BackedInv, DedupKey, EgressDest, CallOk;
    var s' := Do(c, s, step);
    forall k | 0 <= k < |s'.calls| ensures CallOk(c, s', s'.calls[k]) {
      if k == Actor(s, step) {
        ActorOk(c, s, step);
      } else {
        assert s'.calls[k] == s.calls[k];
        CallKept(c, s, s', s.calls[k]);
      }
    }
  }

  /** A 16-byte frame key and an 8-byte claim key under prefixes of one length never coincide. */
  lemma FrameKeysApart(c: Config, call: Call, ep: nat, key: ByteString)
    requires ConfigOk(c) && Claims(c, call) && ep < |c.endpoints| && |key| == 16
    ensures c.endpoints[ep].prefix + key != StoreKey(c, call)
  {
    assert |c.endpoints[ep].prefix + key| != |StoreKey(c, call)|;
  }

  lemma KeepsSpacing(c: Config, s: State, step: Step)
    requires ConfigOk(c) && Inv(c, s) && Enabled(c, s, step)
    ensures SpacingInv(Do(c, s, step))
  {
    hide WriteInv, LoopInv, FailInv, LockInv, PhaseInv, BackedInv, DedupKey, EgressDest;
    match step
    case FrameStore(ep, key, _) =>
      forall i | 0 <= i < |s.claims| ensures s.claims[i].key != c.endpoints[ep].prefix + key {
        FrameKeysApart(c, s.calls[s.claims[i].call], ep, key);
      }
    case _ =>
  }

  lemma KeepsBacked(c: Config, s: State, step: Step)
    requires ConfigOk(c) && Inv(c, s) && Enabled(c, s, step)
    ensures BackedInv(c, Do(c, s, step))
  {
    hide WriteInv, LoopInv, FailInv, LockInv, PhaseInv, TicketInv, SpacingInv, DedupKey, EgressDest;
    var s' := Do(c, s, step);
    forall key, ep | key in s'.store && 0 <= ep < |c.endpoints| && |key| == |c.endpoints[ep].prefix| + 8
      ensures Backed(s', key)
    {
      if key in s.store && s'.store[key] == s.store[key] {
        assert Backed(s, key);
        var i :| 0 <= i < |s.claims| && s.claims[i].key == key && s.store[key] == s.claims[i].at + s.claims[i].window;
        assert s'.claims[i] == s.claims[i];
      } else {
        assert step.TryClaim?;
        assert s'.claims[|s.claims|].key == key;
      }
    }
  }

  /** A write stays accounted for while its own call only moves on. */
  lemma WriteKept(c: Config, s: State, s': State, w: Write)
    requires WriteOk(c, s, w)
    requires s.now <= s'.now && s.claims <= s'.claims && w.call < |s'.calls|
    requires var a, b := s.calls[w.call], s'.calls[w.call];
             && b == a.(phase := b.phase)
             && (b.phase == a.phase || b.phase.Sent? || b.phase.Failed?
                 || (a.phase.Writing? && b.phase.Writing? && b.phase.left <= a.phase.left))
    ensures WriteOk(c, s', w)
  {
    hide EgressDest;
  }

  /** A call that is not in or past its loop has written nothing. */
  lemma NoWritesYet(c: Config, s: State, k: nat)
    requires WriteInv(c, s) && k < |s.calls|
    requires s.calls[k].phase.Started? || s.calls[k].phase.Ready?
    ensures forall i :: 0 <= i < |s.writes| ==> s.writes[i].call != k
  {
    forall i | 0 <= i < |s.writes| ensures s.writes[i].call != k {
      assert WriteOk(c, s, s.writes[i]);
    }
  }

  /** No step disturbs the writes already made. */
  lemma OldWritesKept(c: Config, s: State, step: Step, i: nat)
    requires Inv(c, s) && Enabled(c, s, step) && i < |s.writes|
    ensures WriteOk(c, Do(c, s, step), s.writes[i])
  {
    hide LoopInv, FailInv, LockInv, EgressDest, DedupKey, TicketInv, SpacingInv, PhaseInv, BackedInv;
    var s' := Do(c, s, step);
    assert WriteOk(c, s, s.writes[i]);
    match step
    case TryClaim(k, _) => NoWritesYet(c, s, k);
    case NoClaim(k) => NoWritesYet(c, s, k);
    case Lock(k) => NoWritesYet(c, s, k);
    case _ =>
    hide WriteOk, WriteInv;
    assert s.claims <= s'.claims;
    WriteKept(c, s, s', s.writes[i]);
  }

  lemma NewWriteOk(c: Config, s: State, k: nat, iface: string)
    requires Inv(c, s) && Enabled(c, s, WriteTo(k, iface, true))
    ensures var s' := Do(c, s, WriteTo(k, iface, true));
            && WriteOk(c, s', s'.writes[|s.writes|])
            && forall i :: 0 <= i < |s.writes| ==> s.writes[i].call != k || s.writes[i].iface != iface
  {
    hide LoopInv, FailInv, LockInv, EgressDest, DedupKey, BackedInv;
    forall i | 0 <= i < |s.writes| ensures s.writes[i].call != k || s.writes[i].iface != iface {
      assert WriteOk(c, s, s.writes[i]);
    }
  }

  lemma KeepsWrites(c: Config, s: State, step: Step)
    requires Inv(c, s) && Enabled(c, s, step)
    ensures WriteInv(c, Do(c, s, step))
  {
    hide LoopInv, FailInv, LockInv, EgressDest, DedupKey, WriteOk, TicketInv, SpacingInv, PhaseInv, BackedInv;
    var s' := Do(c, s, step);
    forall i | 0 <= i < |s.writes| ensures WriteOk(c, s', s.writes[i]) {
      OldWritesKept(c, s, step, i);
    }
    if step.WriteTo? && step.ok {
      NewWriteOk(c, s, step.call, step.iface);
    }
  }

  lemma KeepsLoop(c: Config, s: State, step: Step)
    requires Inv(c, s) && Enabled(c, s, step)
    ensures LoopInv(c, Do(c, s, step))
  {
    hide SpacingInv, WriteInv, LockInv, FailInv, TicketInv, BackedInv, EgressDest, DedupKey;
    var s' := Do(c, s, step);
    forall k, iface | 0 <= k < |s.calls| && Wrote(s, k, iface) ensures Wrote(s', k, iface) {
      var i :| 0 <= i < |s.writes| && s.writes[i].call == k && s.writes[i].iface == iface;
      assert s'.writes[i] == s.writes[i];
    }
    if step.WriteTo? && step.ok {
      assert s'.writes[|s.writes|].call == step.call && s'.writes[|s.writes|].iface == step.iface;
      assert Wrote(s', step.call, step.iface);
    }
  }

  lemma FailureLeavesSocket(c: Config, s: State, k: nat, iface: string)
    requires Inv(c, s) && Enabled(c, s, WriteTo(k, iface, false))
    ensures iface in c.endpoints[s.calls[k].ep].sockets && !Wrote(s, k, iface)
  {
    hide SpacingInv, LoopInv, FailInv, LockInv, TicketInv, BackedInv, EgressDest, DedupKey;
    assert CallOk(c, s, s.calls[k]);
    forall i | 0 <= i < |s.writes| ensures s.writes[i].call != k || s.writes[i].iface != iface {
      assert WriteOk(c, s, s.writes[i]);
    }
  }

  /** A call that has failed or not yet begun to write writes nothing in a step. */
  lemma SilentStays(c: Config, s: State, step: Step, k: nat, iface: string)
    requires Enabled(c, s, step) && k < |s.calls| && !s.calls[k].phase.Writing? && Wrote(Do(c, s, step), k, iface)
    ensures Wrote(s, k, iface)
  {
    hide EgressDest, DedupKey, DoClaim, Live;
    var s' := Do(c, s, step);
    var i :| 0 <= i < |s'.writes| && s'.writes[i].call == k && s'.writes[i].iface == iface;
    ClaimWritesNothing(c, s, step);
    assert i < |s.writes| && s.writes[i] == s'.writes[i];
  }

  lemma ClaimWritesNothing(c: Config, s: State, step: Step)
    requires Enabled(c, s, step)
    ensures step.TryClaim? ==> Do(c, s, step).writes == s.writes
  {
    hide EgressDest, DedupKey, Live;
  }

  lemma KeepsFailures(c: Config, s: State, step: Step)
    requires Inv(c, s) && Enabled(c, s, step)
    ensures FailInv(c, Do(c, s, step))
  {
    hide SpacingInv, WriteInv, LoopInv, LockInv, TicketInv, BackedInv, EgressDest, DedupKey, Wrote, Live;
    var s' := Do(c, s, step);
    forall k | 0 <= k < |s'.calls| && s'.calls[k].phase.Failed? && s'.calls[k].ep < |c.endpoints|
      ensures exists iface :: iface in c.endpoints[s'.calls[k].ep].sockets && !Wrote(s', k, iface)
    {
      if k < |s.calls| && s.calls[k].phase.Failed? {
        var iface :| iface in c.endpoints[s.calls[k].ep].sockets && !Wrote(s, k, iface);
        if Wrote(s', k, iface) { SilentStays(c, s, step, k, iface); }
      } else {
        FailureLeavesSocket(c, s, step.call, step.iface);
        SameWrites(s, s', k, step.iface);
      }
    }
  }

  lemma SameWrites(s: State, s': State, k: nat, iface: string)
    requires s'.writes == s.writes
    ensures Wrote(s', k, iface) == Wrote(s, k, iface)
  {
  }

  lemma KeepsLocks(c: Config, s: State, step: Step)
    requires Inv(c, s) && Enabled(c, s, step)
    ensures LockInv(Do(c, s, step))
  {
    hide SpacingInv, WriteInv, LoopInv, FailInv, TicketInv, BackedInv, PhaseInv, EgressDest, DedupKey;
    if step.TryClaim? {
      ClaimKeepsLocks(c, s, step.call, step.reply);
    } else {
      hide DoClaim;
    }
  }

  lemma ClaimKeepsLocks(c: Config, s: State, k: nat, reply: Reply)
    requires LockInv(s) && Enabled(c, s, TryClaim(k, reply))
    ensures LockInv(Do(c, s, TryClaim(k, reply)))
  {
    hide EgressDest, DedupKey, Live;
  }

  lemma KeepsInv(c: Config, s: State, step: Step)
    requires ConfigOk(c) && Inv(c, s) && Enabled(c, s, step)
    ensures Inv(c, Do(c, s, step))
  {
    hide TicketInv, PhaseInv, SpacingInv, BackedInv, WriteInv, LoopInv, FailInv, LockInv, Do, Enabled;
    KeepsTickets(c, s, step);
    KeepsPhases(c, s, step);
    KeepsSpacing(c, s, step);
    KeepsBacked(c, s, step);
    KeepsWrites(c, s, step);
    KeepsLoop(c, s, step);
    KeepsFailures(c, s, step);
    KeepsLocks(c, s, step);
  }

  // ----- runs -----

  ghost predicate CanRun(c: Config, steps: seq<Step>)
    decreases |steps|, 0
  {
    steps == [] ||
    (var before := steps[..|steps| - 1];
     CanRun(c, before) && Enabled(c, Run(c, before), steps[|steps| - 1]))
  }

  /** The state after a run from the start. */
  ghost function Run(c: Config, steps: seq<Step>): (s: State)
    requires CanRun(c, steps)
    decreases |steps|, 1
  {
    if steps == [] then START
    else
      var before := steps[..|steps| - 1];
      Do(c, Run(c, before), steps[|steps| - 1])
  }

  lemma {:induction false} RunInv(c: Config, steps: seq<Step>)
    requires ConfigOk(c) && CanRun(c, steps)
    ensures Inv(c, Run(c, steps))
  {
    if steps == [] {
      StartInv(c);
    } else {
      var before := steps[..|steps| - 1];
      RunInv(c, before);
      hide Inv;
      KeepsInv(c, Run(c, before), steps[|steps| - 1]);
    }
  }

  /** Whether the claim of one call is a claim on another's key. */
  predicate SameClaim(c: Config, a: Call, b: Call) {
    Claims(c, a) && Claims(c, b) && StoreKey(c, a) == StoreKey(c, b)
  }

  /** Calls claim one key exactly when their endpoints' prefixes and their frames' SeqNums are equal. */
  lemma SameClaimExact(c: Config, a: Call, b: Call)
    requires ConfigOk(c) && Claims(c, a) && Claims(c, b)
    ensures SameClaim(c, a, b) <==>
              c.endpoints[a.ep].prefix == c.endpoints[b.ep].prefix && a.raw[48..56] == b.raw[48..56]
  {
    var p, q := c.endpoints[a.ep].prefix, c.endpoints[b.ep].prefix;
    var x, y := p + a.raw[48..56], q + b.raw[48..56];
    assert x[..|p|] == p && y[..|q|] == q;
    assert x[|p|..] == a.raw[48..56] && y[|q|..] == b.raw[48..56];
  }

  /**
   Over every interleaving of any number of endpoints, two successful claims of one SeqNum under one
   prefix are at least the first claimer's window apart.
   */
  lemma ClaimsKeepDistance(c: Config, steps: seq<Step>, i: nat, j: nat)
    requires ConfigOk(c) && CanRun(c, steps) && i < j < |Run(c, steps).claims|
    ensures var s := Run(c, steps);
            var a, b := s.claims[i], s.claims[j];
            && a.call < |s.calls| && b.call < |s.calls| && a.call != b.call
            && (SameClaim(c, s.calls[a.call], s.calls[b.call]) ==> a.at + a.window <= b.at)
  {
    hide Run, CanRun, WriteInv, LoopInv, FailInv, LockInv, PhaseInv, BackedInv;
    RunInv(c, steps);
  }

  /**
   Every datagram written belongs to one call: its bytes and group are that call's, no interface gets
   it twice, and if the frame has a SeqNum and the endpoint shares a store, that call and no other
   holds the one successful claim it was sent under, made before the write.
   */
  lemma WritesAreClaimed(c: Config, steps: seq<Step>, i: nat)
    requires ConfigOk(c) && CanRun(c, steps) && i < |Run(c, steps).writes|
    ensures var s := Run(c, steps);
            var w := s.writes[i];
            && w.call < |s.calls|
            && w.raw == s.calls[w.call].raw
            && Addressed(c.groupIndex, w.raw, s.calls[w.call].txID, w.dest)
            && (forall j :: 0 <= j < |s.writes| && j != i && s.writes[j].call == w.call ==>
                  s.writes[j].iface != w.iface)
            && (Claims(c, s.calls[w.call]) ==>
                  exists t :: 0 <= t < |s.claims| && s.claims[t].call == w.call && s.claims[t].known
                              && s.claims[t].at <= w.at
                              && forall u :: 0 <= u < |s.claims| && s.claims[u].call == w.call ==> u == t)
  {
    RunInv(c, steps);
    hide Run, CanRun, LoopInv, FailInv, LockInv, EgressDest, BackedInv, SpacingInv, DedupKey;
    var s := Run(c, steps);
    var w := s.writes[i];
    assert WriteOk(c, s, w);
    assert Addressed(c.groupIndex, w.raw, s.calls[w.call].txID, w.dest) by {
      AddressedExactly(c.groupIndex, w.raw, s.calls[w.call].txID, w.dest);
    }
    hide Addressed;
    if Claims(c, s.calls[w.call]) {
      var t := s.calls[w.call].ticket.value;
      assert s.claims[t].call == w.call;
    }
  }

  /** How a returned call ends: suppressed calls wrote nothing, completed ones every socket once. */
  lemma ReturnedCalls(c: Config, steps: seq<Step>, k: nat)
    requires ConfigOk(c) && CanRun(c, steps) && k < |Run(c, steps).calls|
    ensures var s := Run(c, steps);
            var call := s.calls[k];
            && call.ep < |c.endpoints|
            && (call.phase.Suppressed? ==>
                  Claims(c, call) && !KnowsClaim(s, call)
                  && forall i :: 0 <= i < |s.writes| ==> s.writes[i].call != k)
            && (call.phase.Sent? ==> forall iface :: iface in c.endpoints[call.ep].sockets ==> Wrote(s, k, iface))
            && (call.phase.Failed? && Claims(c, call) ==> KnowsClaim(s, call))
  {
    RunInv(c, steps);
    hide Run, CanRun, LockInv, FailInv, EgressDest, SpacingInv, TicketInv, BackedInv, DedupKey;
    var s := Run(c, steps);
    forall i | 0 <= i < |s.writes| && s.calls[k].phase.Suppressed? ensures s.writes[i].call != k {
      assert WriteOk(c, s, s.writes[i]);
    }
  }

  /** Every write so far came at most so long after its call's claim. */
  ghost predicate PromptWrites(s: State, delay: nat) {
    forall k, t :: 0 <= k < |s.writes| && 0 <= t < |s.claims| && s.claims[t].call == s.writes[k].call ==>
      s.writes[k].at <= s.claims[t].at + delay
  }

  lemma WritesApart(c: Config, s: State, i: nat, j: nat, delay: nat)
    requires Inv(c, s) && PromptWrites(s, delay) && i < |s.writes| && j < |s.writes|
    requires s.writes[i].call < |s.calls| && s.writes[j].call < |s.calls|
    requires s.calls[s.writes[i].call].ticket.Some? && s.calls[s.writes[j].call].ticket.Some?
    requires s.calls[s.writes[i].call].ticket.value < s.calls[s.writes[j].call].ticket.value
    requires SameClaim(c, s.calls[s.writes[i].call], s.calls[s.writes[j].call])
    ensures s.writes[i].at + c.endpoints[s.calls[s.writes[i].call].ep].window - delay <= s.writes[j].at
  {
    hide LoopInv, FailInv, LockInv, EgressDest, DedupKey, PhaseInv, BackedInv;
    var a, b := s.writes[i], s.writes[j];
    assert WriteOk(c, s, a) && WriteOk(c, s, b);
    var t, u := s.calls[a.call].ticket.value, s.calls[b.call].ticket.value;
    assert s.claims[t].call == a.call && s.claims[u].call == b.call;
    assert s.claims[t].at + s.claims[t].window <= s.claims[u].at;
  }

  /**
   Datagrams of one SeqNum under one prefix from different calls are apart on the wire by the window
   less the time a call may take from its claim to its last write.
   */
  lemma WritesKeepDistance(c: Config, steps: seq<Step>, i: nat, j: nat, delay: nat)
    requires ConfigOk(c) && CanRun(c, steps) && PromptWrites(Run(c, steps), delay)
    requires i < |Run(c, steps).writes| && j < |Run(c, steps).writes|
    ensures var s := Run(c, steps);
            var a, b := s.writes[i], s.writes[j];
            && a.call < |s.calls| && b.call < |s.calls|
            && (a.call != b.call && SameClaim(c, s.calls[a.call], s.calls[b.call]) ==>
                  || a.at + c.endpoints[s.calls[a.call].ep].window - delay <= b.at
                  || b.at + c.endpoints[s.calls[b.call].ep].window - delay <= a.at)
  {
    RunInv(c, steps);
    hide Run, CanRun, LoopInv, FailInv, LockInv, EgressDest, DedupKey, PromptWrites, SpacingInv, BackedInv;
    var s := Run(c, steps);
    var a, b := s.writes[i], s.writes[j];
    assert WriteOk(c, s, a) && WriteOk(c, s, b);
    if a.call != b.call && SameClaim(c, s.calls[a.call], s.calls[b.call]) {
      var t, u := s.calls[a.call].ticket.value, s.calls[b.call].ticket.value;
      assert s.claims[t].call == a.call && s.claims[u].call == b.call;
      if t < u { WritesApart(c, s, i, j, delay); } else { WritesApart(c, s, j, i, delay); }
    }
  }

  // ----- exactly which calls go out -----

  /**
   In every reachable state a claim that is answered succeeds exactly when no claim of that key that
   took effect, known to its caller or not, is still within its window. Otherwise the call returns
   without error and without writing.
   */
  lemma ClaimSucceedsExactly(c: Config, steps: seq<Step>, k: nat)
    requires ConfigOk(c) && CanRun(c, steps) && Enabled(c, Run(c, steps), TryClaim(k, Answered))
    ensures var s := Run(c, steps);
            var phase := Do(c, s, TryClaim(k, Answered)).calls[k].phase;
            && (phase.Ready? || phase.Suppressed?)
            && (phase.Ready? <==>
                  forall i :: 0 <= i < |s.claims| && s.claims[i].key == StoreKey(c, s.calls[k]) ==>
                    s.claims[i].at + s.claims[i].window <= s.now)
  {
    RunInv(c, steps);
    hide Run, CanRun, LoopInv, FailInv, LockInv, WriteInv, EgressDest, TicketInv;
    var s := Run(c, steps);
    var key := StoreKey(c, s.calls[k]);
    if Live(s, key) {
      assert |key| == |c.endpoints[s.calls[k].ep].prefix| + 8;
      assert Backed(s, key);
    } else if key in s.store {
      forall i | 0 <= i < |s.claims| && s.claims[i].key == key ensures s.claims[i].at + s.claims[i].window <= s.now {
        assert s.claims[i].at + s.claims[i].window <= s.store[key];
      }
    }
  }

  lemma Extend(c: Config, steps: seq<Step>, step: Step)
    requires CanRun(c, steps) && Enabled(c, Run(c, steps), step)
    ensures CanRun(c, steps + [step])
    ensures Run(c, steps + [step]) == Do(c, Run(c, steps), step)
  {
    hide Do, Enabled;
    assert (steps + [step])[..|steps|] == steps;
  }

  lemma CanRunPrefix(c: Config, steps: seq<Step>, step: Step)
    requires CanRun(c, steps + [step])
    ensures CanRun(c, steps) && Enabled(c, Run(c, steps), step)
    ensures Run(c, steps + [step]) == Do(c, Run(c, steps), step)
  {
    hide Do, Enabled;
    assert (steps + [step])[..|steps|] == steps;
  }

  lemma SuppressedStays(c: Config, s: State, step: Step, k: nat)
    requires Enabled(c, s, step) && k < |s.calls| && s.calls[k].phase.Suppressed?
    ensures k < |Do(c, s, step).calls| && Do(c, s, step).calls[k].phase.Suppressed?
  {
  }

  /** A suppressed call is never sent later: whatever happens next, it has written nothing. */
  lemma {:induction false} SuppressedIsFinal(c: Config, steps: seq<Step>, more: seq<Step>, k: nat)
    requires ConfigOk(c) && CanRun(c, steps + more)
    requires CanRun(c, steps) && k < |Run(c, steps).calls| && Run(c, steps).calls[k].phase.Suppressed?
    ensures var s := Run(c, steps + more);
            && k < |s.calls| && s.calls[k].phase.Suppressed?
            && forall i :: 0 <= i < |s.writes| ==> s.writes[i].call != k
  {
    hide Do, Enabled, Run, CanRun;
    if more == [] {
      assert steps + more == steps;
    } else {
      var rest, step := more[..|more| - 1], more[|more| - 1];
      assert steps + more == (steps + rest) + [step];
      CanRunPrefix(c, steps + rest, step);
      SuppressedIsFinal(c, steps, rest, k);
      SuppressedStays(c, Run(c, steps + rest), step, k);
    }
    ReturnedCalls(c, steps + more, k);
  }

  // ----- every call that holds its claim can be sent -----

  /** Whether a step belongs to the write loop of a call. */
  predicate InLoop(step: Step) { step.Lock? || step.WriteTo? || step.Finish? }

  /** One call has gone on to a phase and written its own frame; nothing else but the locks has changed. */
  ghost predicate Moved(s: State, s': State, k: nat, phase: Phase) {
    && k < |s.calls| && s'.calls == s.calls[k := s.calls[k].(phase := phase)]
    && s'.now == s.now && s'.store == s.store && s'.claims == s.claims && s.writes <= s'.writes
    && (forall i :: |s.writes| <= i < |s'.writes| ==> s'.writes[i].call == k && s'.writes[i].raw == s.calls[k].raw)
  }

  lemma MovedBoth(a: State, b: State, d: State, k: nat, p: Phase, q: Phase)
    requires Moved(a, b, k, p) && Moved(b, d, k, q)
    ensures Moved(a, d, k, q)
  {
  }

  lemma WriteOne(c: Config, s: State, k: nat, left: set<string>, iface: string)
    requires k < |s.calls| && s.calls[k].phase == Writing(left) && iface in left
    ensures Enabled(c, s, WriteTo(k, iface, true))
    ensures var s' := Do(c, s, WriteTo(k, iface, true));
            Moved(s, s', k, Writing(left - {iface})) && s'.locks == s.locks
  {
    hide EgressDest, DoClaim;
  }

  lemma LockOne(c: Config, s: State, k: nat)
    requires k < |s.calls| && s.calls[k].phase.Ready? && s.calls[k].ep < |c.endpoints| && s.calls[k].ep !in s.locks
    ensures Enabled(c, s, Lock(k)) && Moved(s, Do(c, s, Lock(k)), k, Writing(c.endpoints[s.calls[k].ep].sockets))
  {
    hide EgressDest, DoClaim;
  }

  lemma FinishOne(c: Config, s: State, k: nat)
    requires k < |s.calls| && s.calls[k].phase == Writing({})
    ensures Enabled(c, s, Finish(k)) && Moved(s, Do(c, s, Finish(k)), k, Sent)
    ensures Do(c, s, Finish(k)).locks == s.locks - {s.calls[k].ep}
  {
    hide EgressDest, DoClaim;
  }

  /** A call in its loop writes every socket that is left, finishes, and frees its endpoint's lock. */
  lemma {:induction false} FinishLoop(c: Config, steps: seq<Step>, k: nat, left: set<string>) returns (more: seq<Step>)
    requires CanRun(c, steps) && k < |Run(c, steps).calls| && Run(c, steps).calls[k].phase == Writing(left)
    ensures (forall i :: 0 <= i < |more| ==> InLoop(more[i])) && CanRun(c, steps + more)
    ensures var s, s' := Run(c, steps), Run(c, steps + more);
            Moved(s, s', k, Sent) && s'.locks == s.locks - {s.calls[k].ep}
    decreases |left|
  {
    hide Run, CanRun, Do, Enabled;
    var s := Run(c, steps);
    if left == {} {
      FinishOne(c, s, k);
      Extend(c, steps, Finish(k));
      more := [Finish(k)];
    } else {
      var iface :| iface in left;
      var step := WriteTo(k, iface, true);
      WriteOne(c, s, k, left, iface);
      Extend(c, steps, step);
      var rest := FinishLoop(c, steps + [step], k, left - {iface});
      more := [step] + rest;
      assert steps + more == steps + [step] + rest;
      MovedBoth(s, Run(c, steps + [step]), Run(c, steps + more), k, Writing(left - {iface}), Sent);
    }
  }

  /** A call that is ready with its endpoint's lock free takes the lock and is sent. */
  lemma SendReady(c: Config, steps: seq<Step>, k: nat) returns (more: seq<Step>)
    requires CanRun(c, steps) && k < |Run(c, steps).calls| && Run(c, steps).calls[k].phase.Ready?
    requires Run(c, steps).calls[k].ep < |c.endpoints| && Run(c, steps).calls[k].ep !in Run(c, steps).locks
    ensures (forall i :: 0 <= i < |more| ==> InLoop(more[i])) && CanRun(c, steps + more)
    ensures Moved(Run(c, steps), Run(c, steps + more), k, Sent)
  {
    hide Run, CanRun, Do, Enabled;
    var s := Run(c, steps);
    var sockets := c.endpoints[s.calls[k].ep].sockets;
    LockOne(c, s, k);
    Extend(c, steps, Lock(k));
    var rest := FinishLoop(c, steps + [Lock(k)], k, sockets);
    more := [Lock(k)] + rest;
    assert steps + more == steps + [Lock(k)] + rest;
    MovedBoth(s, Run(c, steps + [Lock(k)]), Run(c, steps + more), k, Writing(sockets), Sent);
  }

  /** The call that keeps another from its endpoint's lock is in its loop, and can finish it. */
  lemma FreeLock(c: Config, steps: seq<Step>, k: nat) returns (more: seq<Step>)
    requires ConfigOk(c) && CanRun(c, steps) && k < |Run(c, steps).calls| && Run(c, steps).calls[k].phase.Ready?
    ensures (forall i :: 0 <= i < |more| ==> InLoop(more[i])) && CanRun(c, steps + more)
    ensures SameButPhases(Run(c, steps), Run(c, steps + more))
    ensures Run(c, steps + more).calls[k] == Run(c, steps).calls[k] && Run(c, steps).calls[k].ep < |c.endpoints|
    ensures Run(c, steps).calls[k].ep !in Run(c, steps + more).locks
  {
    RunInv(c, steps);
    hide Run, CanRun, TicketInv, SpacingInv, BackedInv, WriteInv, LoopInv, FailInv, Claims;
    var s := Run(c, steps);
    assert CallOk(c, s, s.calls[k]);
    if s.calls[k].ep in s.locks {
      var h := s.locks[s.calls[k].ep];
      more := FinishLoop(c, steps, h, s.calls[h].phase.left);
    } else {
      more := [];
      assert steps + more == steps;
    }
  }

  /**
   From every reachable state every call that is past its claim and not yet in its loop can be sent,
   whoever holds its endpoint's lock: by steps of write loops alone the run goes on to a state where
   the call has ended as sent, on every socket.
   */
  lemma ReadyCanBeSent(c: Config, steps: seq<Step>, k: nat) returns (more: seq<Step>)
    requires ConfigOk(c) && CanRun(c, steps) && k < |Run(c, steps).calls| && Run(c, steps).calls[k].phase.Ready?
    ensures (forall i :: 0 <= i < |more| ==> InLoop(more[i])) && CanRun(c, steps + more)
    ensures var s, s' := Run(c, steps), Run(c, steps + more);
            && SameButPhases(s, s') && s'.calls[k].phase == Sent && s'.calls[k].ep < |c.endpoints|
            && forall iface :: iface in c.endpoints[s'.calls[k].ep].sockets ==> Wrote(s', k, iface)
  {
    hide Run, CanRun, Wrote;
    var free := FreeLock(c, steps, k);
    var rest := SendReady(c, steps + free, k);
    more := free + rest;
    assert steps + more == steps + free + rest;
    ReturnedCalls(c, steps + more, k);
  }

  // ----- runs that show what the claim does not promise -----

  /** A run followed by one more call, up to and including its claim. */
  ghost function Ask(c: Config, pre: seq<Step>, ep: nat, raw: ByteString, reply: Reply): (steps: seq<Step>)
    requires CanRun(c, pre)
  {
    pre + [Begin(ep, raw, [])] + [TryClaim(|Run(c, pre).calls|, reply)]
  }

  lemma BeginRun(c: Config, pre: seq<Step>, ep: nat, raw: ByteString, txID: ByteString)
    requires CanRun(c, pre) && ep < |c.endpoints|
    ensures CanRun(c, pre + [Begin(ep, raw, txID)])
    ensures var s := Run(c, pre);
            Run(c, pre + [Begin(ep, raw, txID)]) == s.(calls := s.calls + [Call(ep, raw, txID, Started, None)])
  {
    hide Run, CanRun, DoClaim, EgressDest, Live;
    Extend(c, pre, Begin(ep, raw, txID));
  }

  lemma ClaimRun(c: Config, pre: seq<Step>, k: nat, reply: Reply)
    requires CanRun(c, pre) && k < |Run(c, pre).calls|
    requires Run(c, pre).calls[k].phase.Started? && Claims(c, Run(c, pre).calls[k])
    ensures CanRun(c, pre + [TryClaim(k, reply)])
    ensures Run(c, pre + [TryClaim(k, reply)]) == DoClaim(c, Run(c, pre), k, reply)
  {
    hide Run, CanRun, DoClaim, EgressDest, Live, Claims;
    Extend(c, pre, TryClaim(k, reply));
  }

  lemma AskRun(c: Config, pre: seq<Step>, ep: nat, raw: ByteString, reply: Reply)
    requires CanRun(c, pre) && ep < |c.endpoints| && c.endpoints[ep].redis && |raw| >= 56
    ensures CanRun(c, Ask(c, pre, ep, raw, reply))
    ensures var s, t := Run(c, pre), Run(c, Ask(c, pre, ep, raw, reply));
            var n := |s.calls|;
            var key := c.endpoints[ep].prefix + raw[48..56];
            && |t.calls| == n + 1 && t.calls[..n] == s.calls
            && t.calls[n].ep == ep && t.calls[n].raw == raw
            && t.writes == s.writes && t.now == s.now && t.locks == s.locks
            && t.calls[n].phase == (if reply.Answered? && !Live(s, key) then Ready else Suppressed)
            && t.store == if Live(s, key) || reply == Lost(false) then s.store
                          else s.store[key := s.now + c.endpoints[ep].window]
  {
    hide Run, CanRun;
    var s := Run(c, pre);
    BeginRun(c, pre, ep, raw, []);
    var mid := pre + [Begin(ep, raw, [])];
    ClaimRun(c, mid, |s.calls|, reply);
  }

  /**
   Two endpoints asked at one time for frames of equal SeqNum, of one flow or of two: the second goes
   out as well exactly when their prefixes differ, as those of a redis-backed and a memory-backed
   endpoint do. With one prefix the second frame is suppressed although it may be another flow's.
   */
  lemma AskedAtOnce(c: Config, r1: ByteString, r2: ByteString)
    requires ConfigOk(c) && |c.endpoints| >= 2 && c.endpoints[0].redis && c.endpoints[1].redis
    requires |r1| >= 56 && |r2| >= 56 && r1[48..56] == r2[48..56]
    ensures var steps := Ask(c, [], 0, r1, Answered);
            && CanRun(c, steps) && CanRun(c, Ask(c, steps, 1, r2, Answered))
            && var t := Run(c, Ask(c, steps, 1, r2, Answered));
               |t.calls| == 2 && t.calls[0].phase == Ready && t.calls[1].raw == r2
               && t.calls[1].phase == if c.endpoints[0].prefix != c.endpoints[1].prefix then Ready else Suppressed
  {
    hide Run, CanRun, Ask;
    EmptyRun(c);
    AskRun(c, [], 0, r1, Answered);
    var steps := Ask(c, [], 0, r1, Answered);
    AskRun(c, steps, 1, r2, Answered);
    var p, q, f := c.endpoints[0].prefix, c.endpoints[1].prefix, r1[48..56];
    assert (p + f)[..|p|] == p && (q + f)[..|q|] == q;
  }

  lemma EmptyRun(c: Config)
    ensures CanRun(c, []) && Run(c, []) == START
  {
  }

  /** A claim whose reply was lost suppresses its own call and the next: the frame is never sent. */
  lemma LostReplyConsumesWindow(c: Config, r1: ByteString, r2: ByteString)
    requires ConfigOk(c) && |c.endpoints| >= 2 && c.endpoints[0].redis && c.endpoints[1].redis
    requires c.endpoints[0].prefix == c.endpoints[1].prefix
    requires |r1| >= 56 && |r2| >= 56 && r1[48..56] == r2[48..56]
    ensures var steps := Ask(c, [], 0, r1, Lost(true));
            && CanRun(c, steps) && CanRun(c, Ask(c, steps, 1, r2, Answered))
            && var t := Run(c, Ask(c, steps, 1, r2, Answered));
               |t.calls| == 2 && t.calls[0].phase == Suppressed && t.calls[1].phase == Suppressed && t.writes == []
  {
    hide Run, CanRun, Ask;
    EmptyRun(c);
    AskRun(c, [], 0, r1, Lost(true));
    AskRun(c, Ask(c, [], 0, r1, Lost(true)), 1, r2, Answered);
  }

  /** The first call claims, takes its lock and fails its first write. */
  ghost function FailedAttempt(c: Config, r1: ByteString, iface: string): (steps: seq<Step>)
  {
    EmptyRun(c);
    Ask(c, [], 0, r1, Answered) + [Lock(0)] + [WriteTo(0, iface, false)]
  }

  /** A failed write keeps the claim: the other endpoint's call is suppressed and nobody sent the frame. */
  lemma FailedWriteConsumesWindow(c: Config, r1: ByteString, r2: ByteString, iface: string)
    requires ConfigOk(c) && |c.endpoints| >= 2 && c.endpoints[0].redis && c.endpoints[1].redis
    requires c.endpoints[0].prefix == c.endpoints[1].prefix && iface in c.endpoints[0].sockets
    requires |r1| >= 56 && |r2| >= 56 && r1[48..56] == r2[48..56]
    ensures CanRun(c, FailedAttempt(c, r1, iface))
    ensures CanRun(c, Ask(c, FailedAttempt(c, r1, iface), 1, r2, Answered))
    ensures var t := Run(c, Ask(c, FailedAttempt(c, r1, iface), 1, r2, Answered));
            |t.calls| == 2 && t.calls[0].phase == Failed && t.calls[1].phase == Suppressed && t.writes == []
  {
    hide Run, CanRun, Ask;
    EmptyRun(c);
    AskRun(c, [], 0, r1, Answered);
    var a := Ask(c, [], 0, r1, Answered);
    Extend(c, a, Lock(0));
    Extend(c, a + [Lock(0)], WriteTo(0, iface, false));
    var b := FailedAttempt(c, r1, iface);
    assert Run(c, b).store == Run(c, a).store && Run(c, b).now == 0;
    AskRun(c, b, 1, r2, Answered);
  }

  /** The prefixes in use are of one length and differ. */
  lemma PrefixesInUse()
    ensures |FRAME_PREFIX| == |DEDUP_PREFIX| && FRAME_PREFIX != DEDUP_PREFIX
    ensures FRAME_PREFIX == Ascii("bre:frame:") && DEDUP_PREFIX == Ascii("bre:dedup:")
  {
    assert FRAME_PREFIX[4] != DEDUP_PREFIX[4];
  }
}
