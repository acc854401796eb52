/** Runs of the fleet put together step by step: frames that are acknowledged and that nobody sends. */
module FleetRuns {
  import opened Bytes
  import opened Options
  import M = MemoryCache
  import I = Ingress
  import N = Nack
  import D = Dedup
  import R = Retransmit
  import E = Endpoint
  import ER = EndpointRuns
  import opened Fleet
  import opened FleetTheorems

  // ----- putting runs together -----

  lemma Extend(c: Config, steps: seq<Step>, step: Step)
    requires CanRun(c, steps) && Enabled(c, Run(c, steps), step)
    ensures CanRun(c, steps + [step])
    ensures Run(c, steps + [step]) == Do(c, Run(c, steps), step)
  {
    hide Do, Enabled;
    assert (steps + [step])[..|steps|] == steps;
  }

  lemma EndpointPrefix(c: E.Config, run: seq<E.Step>, step: E.Step)
    requires E.CanRun(c, run + [step])
    ensures E.CanRun(c, run) && E.Enabled(c, E.Run(c, run), step)
  {
    hide E.Do, E.Enabled;
    assert (run + [step])[..|run|] == run;
  }

  /** An endpoint's own steps are steps of the fleet. */
  lemma {:induction false} Locally(c: Config, steps: seq<Step>, e: nat, more: seq<E.Step>) returns (steps': seq<Step>)
    requires CanRun(c, steps) && Sound(c, Run(c, steps)) && e < |c.eps| && ER.Asking(more)
    requires E.CanRun(c.eps[e], Run(c, steps).runs[e] + more)
    ensures CanRun(c, steps')
    ensures var s := Run(c, steps);
            Run(c, steps') == s.(runs := s.runs[e := s.runs[e] + more])
    ensures Sound(c, Run(c, steps'))
  {
    hide E.Run, E.CanRun, E.Enabled, E.Do, Run, CanRun, D.Run, D.CanRun;
    var s := Run(c, steps);
    if more == [] {
      assert s.runs[e] + more == s.runs[e];
      steps' := steps;
    } else {
      var n := |more| - 1;
      assert s.runs[e] + more == s.runs[e] + more[..n] + [more[n]];
      EndpointPrefix(c.eps[e], s.runs[e] + more[..n], more[n]);
      var before := Locally(c, steps, e, more[..n]);
      Extend(c, before, At(e, more[n]));
      steps' := before + [At(e, more[n])];
    }
  }

  /** An endpoint that can serve, and a frame with a stamp and a claim. */
  ghost predicate Serves(c: Config, e: nat, raw: ByteString, h: Uint64, n: Uint64) {
    && e < |c.eps| && ER.Stamped(c.eps[e], raw, h, n) && |raw| >= 56
    && c.eps[e].redis && c.eps[e].seqPolicy.max >= 1 && c.eps[e].chainPolicy.max >= 1 && c.eps[e].ttl >= 0
    && !c.eps[e].suppressACK
  }

  /** A NACK of the source, the endpoint's first, stands cleared with the frame it found. */
  ghost predicate Waiting(es: E.State, raw: ByteString, src: string, h: Uint64, n: Uint64) {
    && |es.tasks| == 1 && ER.ClearedFor(es.tasks[0], raw, Some(src), h, n) && es.out.replies == []
  }

  /** Only one endpoint has moved. */
  ghost predicate OnlyEp(c: Config, s: State, s': State, e: nat) {
    && Sound(c, s) && Sound(c, s') && s'.calls == s.calls && s'.owners == s.owners
    && forall f :: 0 <= f < |c.eps| && f != e ==> s'.runs[f] == s.runs[f]
  }

  /** An endpoint that no NACK has reached yet. */
  predicate Untouched(es: E.State) {
    es.tasks == [] && es.out.replies == [] && es.win.seqLog == [] && es.win.chainLog == []
  }

  /** A claim store without calls, and with nothing in it but frames. */
  ghost predicate NoCalls(c: D.Config, ds: D.State) {
    && ds.calls == [] && ds.writes == [] && ds.locks == map[]
    && (forall key, e: nat :: key in ds.store && e < |c.endpoints| ==> |key| == |c.endpoints[e].prefix| + 16)
  }

  /** From one state to another only caches have changed, and the shared store by frames alone. */
  ghost predicate OnlyCaches(c: Config, s: State, s': State) {
    && Sound(c, s) && Sound(c, s') && s'.owners == s.owners
    && (forall f :: 0 <= f < |c.eps| ==> Ep(c, s', f) == Ep(c, s, f).(cache := Ep(c, s', f).cache))
    && (NoCalls(c.claims, Claim(c, s)) ==> NoCalls(c.claims, Claim(c, s')))
  }

  lemma FrameKeepsNoCalls(c: D.Config, ds: D.State, e: nat, key: ByteString, expiry: int)
    requires D.ConfigOk(c) && e < |c.endpoints| && |key| == 16 && NoCalls(c, ds)
    ensures NoCalls(c, ds.(store := ds.store[c.endpoints[e].prefix + key := expiry]))
  {
  }

  lemma ReceiveCaches(c: Config, s: State, e: nat, raw: ByteString, h: Uint64, n: Uint64)
    requires ConfigOk(c) && Sound(c, s) && Shares(c, e, e) && c.eps[e].ttl > 0 && ER.Stamped(c.eps[e], raw, h, n)
    ensures Enabled(c, s, Receive(e, raw)) && OnlyCaches(c, s, Do(c, s, Receive(e, raw)))
    ensures var es := Ep(c, Do(c, s, Receive(e, raw)), e);
            M.Lookup(es.cache.data, CacheKey(h, n), es.clock) == Some(raw)
  {
    hide I.StampOf, Sound, Ep, Claim, E.Run, E.CanRun, D.Run, D.CanRun;
    I.FilesExactly(c.eps[e].codec, raw, h, n);
    hide I.Classify, I.Files, CacheKey;
    ReceiveEffect(c, s, e, raw);
    FrameKey(c, s, e, raw);
  }

  lemma FrameKey(c: Config, s: State, e: nat, raw: ByteString)
    requires ConfigOk(c) && Enabled(c, s, Receive(e, raw)) && Sound(c, Do(c, s, Receive(e, raw)))
    ensures NoCalls(c.claims, Claim(c, s)) ==> NoCalls(c.claims, Claim(c, Do(c, s, Receive(e, raw))))
  {
    hide E.Run, E.CanRun, D.Run, D.CanRun, D.Do, D.Enabled, I.Classify, NoCalls;
    var key := I.Classify(c.eps[e].codec, raw).key;
    KeyLength(c.eps[e].codec, raw);
    assert SameEndpoint(c, e);
    FrameStoreStep(c.claims, Claim(c, s), e, key, c.eps[e].ttl);
    D.Extend(c.claims, s.calls, D.FrameStore(e, key, c.eps[e].ttl));
    if NoCalls(c.claims, Claim(c, s)) {
      FrameKeepsNoCalls(c.claims, Claim(c, s), e, key, Claim(c, s).now + c.eps[e].ttl);
    }
  }

  /** An endpoint receives a stamped frame, into a cache of its own or the shared one. */
  lemma FileAt(c: Config, steps: seq<Step>, e: nat, raw: ByteString, h: Uint64, n: Uint64) returns (steps': seq<Step>)
    requires ConfigOk(c) && CanRun(c, steps) && Sound(c, Run(c, steps)) && Serves(c, e, raw, h, n)
    ensures CanRun(c, steps') && OnlyCaches(c, Run(c, steps), Run(c, steps'))
    ensures var es := Ep(c, Run(c, steps'), e);
            M.Lookup(es.cache.data, CacheKey(h, n), es.clock) == Some(raw)
  {
    hide Run, CanRun, ER.Stamped, M.Lookup, CacheKey, NoCalls;
    var s := Run(c, steps);
    assert SameEndpoint(c, e);
    if c.eps[e].shared {
      hide Sound, Ep, Claim, Do, Enabled;
      ReceiveCaches(c, s, e, raw, h, n);
      Extend(c, steps, Receive(e, raw));
      steps' := steps + [Receive(e, raw)];
    } else {
      var step := ER.ReceiveFrame(c.eps[e], s.runs[e], raw, h, n);
      assert E.Enabled(c.eps[e], Ep(c, s, e), step) by { EndpointPrefix(c.eps[e], s.runs[e], step); }
      EndpointSteps(c, s, e, step);
      hide Sound, Ep, Claim, E.Enabled, E.Do;
      Extend(c, steps, At(e, step));
      steps' := steps + [At(e, step)];
    }
  }

  lemma QuietStart(c: E.Config, es: E.State)
    requires Untouched(es)
    ensures ER.Quiet(c, es)
  {
  }

  /** An endpoint's first NACK asks for a frame in its cache. */
  lemma AskAt(c: Config, steps: seq<Step>, e: nat, raw: ByteString, src: string, h: Uint64, n: Uint64)
    returns (steps': seq<Step>)
    requires CanRun(c, steps) && Sound(c, Run(c, steps)) && Serves(c, e, raw, h, n)
             && Untouched(Ep(c, Run(c, steps), e))
    requires var es := Ep(c, Run(c, steps), e);
             M.Lookup(es.cache.data, CacheKey(h, n), es.clock) == Some(raw)
    ensures CanRun(c, steps') && OnlyEp(c, Run(c, steps), Run(c, steps'), e)
    ensures Waiting(Ep(c, Run(c, steps'), e), raw, src, h, n)
  {
    hide Run, CanRun, ER.Stamped, ER.ClearedFor, D.Run, D.CanRun, E.Run, E.CanRun, ER.Asking, ER.Quiet, M.Lookup,
         CacheKey;
    QuietStart(c.eps[e], Ep(c, Run(c, steps), e));
    var more := ER.AskFor(c.eps[e], Run(c, steps).runs[e], raw, Some(src), h, n);
    steps' := Locally(c, steps, e, more);
  }

  /** A frame is received and asked for. */
  lemma FetchAt(c: Config, steps: seq<Step>, e: nat, raw: ByteString, src: string, h: Uint64, n: Uint64)
    returns (steps': seq<Step>)
    requires ConfigOk(c) && CanRun(c, steps) && Sound(c, Run(c, steps)) && Serves(c, e, raw, h, n)
    requires Untouched(Ep(c, Run(c, steps), e)) && NoCalls(c.claims, Claim(c, Run(c, steps)))
    ensures CanRun(c, steps') && Sound(c, Run(c, steps'))
    ensures Waiting(Ep(c, Run(c, steps'), e), raw, src, h, n) && NoCalls(c.claims, Claim(c, Run(c, steps')))
    ensures Run(c, steps').owners == Run(c, steps).owners
    ensures forall f :: 0 <= f < |c.eps| && f != e ==> SameNacks(Ep(c, Run(c, steps), f), Ep(c, Run(c, steps'), f))
  {
    hide Run, CanRun, Sound, Ep, Claim, Serves, Waiting, M.Lookup, CacheKey, NoCalls, ConfigOk;
    assert e < |c.eps| by { ServesFacts(c, e, raw, h, n); }
    var mid := FileAt(c, steps, e, raw, h, n);
    steps' := AskAt(c, mid, e, raw, src, h, n);
    OnlyEpClaims(c, Run(c, mid), Run(c, steps'), e);
  }

  /** The two states have the same NACKs, responses and window logs. */
  predicate SameNacks(a: E.State, b: E.State) {
    b.tasks == a.tasks && b.out == a.out && b.win == a.win
  }

  /** The store key a frame is claimed under at an endpoint. */
  function ClaimKey(c: Config, e: nat, raw: ByteString): (key: ByteString)
    requires e < |c.claims.endpoints| && |raw| >= 56
  {
    c.claims.endpoints[e].prefix + raw[48..56]
  }

  /** The claim protocol after one call more, up to and including its claim. */
  ghost predicate Claimed(c: Config, ds: D.State, ds': D.State, e: nat, raw: ByteString, reply: D.Reply)
    requires e < |c.claims.endpoints| && |raw| >= 56
  {
    var key := ClaimKey(c, e, raw);
    && |ds'.calls| == |ds.calls| + 1 && ds'.calls[..|ds.calls|] == ds.calls
    && ds'.calls[|ds.calls|].phase == (if reply.Answered? && !D.Live(ds, key) then D.Ready else D.Suppressed)
    && ds'.calls[|ds.calls|].ep == e && ds'.calls[|ds.calls|].raw == raw
    && ds'.writes == ds.writes && ds'.now == ds.now && ds'.locks == ds.locks
    && (reply.Answered? && !D.Live(ds, key) ==> ds'.store == ds.store[key := ds.now + c.claims.endpoints[e].window])
  }

  lemma ClaimEffect(c: Config, ds: D.State, e: nat, raw: ByteString, txID: ByteString, reply: D.Reply)
    requires e < |c.claims.endpoints| && c.claims.endpoints[e].redis && |raw| >= 56
    ensures var ds1 := ds.(calls := ds.calls + [D.Call(e, raw, txID, D.Started, None)]);
            && D.Enabled(c.claims, ds1, D.TryClaim(|ds.calls|, reply))
            && Claimed(c, ds, D.Do(c.claims, ds1, D.TryClaim(|ds.calls|, reply)), e, raw, reply)
  {
    hide D.EgressDest;
  }

  /** A waiting NACK calls Retransmit, and the call makes its claim. */
  lemma CallAndClaim(c: Config, steps: seq<Step>, e: nat, raw: ByteString, src: string, h: Uint64, n: Uint64,
                     reply: D.Reply)
    returns (steps': seq<Step>)
    requires ConfigOk(c) && CanRun(c, steps) && Sound(c, Run(c, steps)) && Serves(c, e, raw, h, n)
    requires Waiting(Ep(c, Run(c, steps), e), raw, src, h, n) && Owner(e, 0) !in Run(c, steps).owners
    ensures CanRun(c, steps') && Sound(c, Run(c, steps'))
    ensures var s, s' := Run(c, steps), Run(c, steps');
            && s'.runs == s.runs && s'.owners == s.owners + [Owner(e, 0)]
            && Claimed(c, Claim(c, s), Claim(c, s'), e, raw, reply)
  {
    hide Run, CanRun, Sound, Ep, Claim, ER.Stamped, E.TxID, D.Do, D.Enabled, Claimed, N.Parse;
    var s := Run(c, steps);
    var ds := Claim(c, s);
    assert SameEndpoint(c, e) && E.At(Ep(c, s, e), 0, E.Cleared);
    Extend(c, steps, Call(e, 0));
    var mid := steps + [Call(e, 0)];
    BeginStep(c.claims, ds, e, raw, E.TxID(raw));
    ClaimsStep(c, s, Run(c, mid), D.Begin(e, raw, E.TxID(raw)));
    ClaimEffect(c, ds, e, raw, E.TxID(raw), reply);
    var claim := D.TryClaim(|ds.calls|, reply);
    Extend(c, mid, Shared(claim));
    steps' := mid + [Shared(claim)];
    ClaimsStep(c, Run(c, mid), Run(c, steps'), claim);
  }

  lemma SuppressedAnswer(c: E.Config, es: E.State, a: E.Attempt, raw: ByteString, src: string, h: Uint64, n: Uint64)
    requires Waiting(es, raw, src, h, n) && !c.suppressACK && E.Enabled(c, es, E.Retransmit(0, a))
    requires E.Ending(c, raw, a) == E.Suppressed
    ensures var es' := E.Do(c, es, E.Retransmit(0, a));
            && |es'.tasks| == 1 && es'.tasks[0].stage == E.Suppressed && es'.out.replies == [E.Reply(0, N.Ack(n))]
  {
    hide N.Parse, N.Ack, E.DestOf, E.Writes, R.Enters, E.Plausible;
  }

  /** A call that was suppressed has not yet returned to its waiting NACK. */
  ghost predicate SuppressedFor(c: Config, s: State, k: nat, e: nat, raw: ByteString, src: string, h: Uint64,
                                n: Uint64) {
    && Sound(c, s) && e < |c.eps| && !c.eps[e].suppressACK
    && k < |s.owners| && s.owners[k] == Owner(e, 0) && k < |Claim(c, s).calls| && Claim(c, s).calls[k].phase.Suppressed?
    && Waiting(Ep(c, s, e), raw, src, h, n)
  }

  lemma SuppressedEnds(c: Config, s: State, k: nat, e: nat, raw: ByteString, src: string, h: Uint64, n: Uint64)
    requires ConfigOk(c) && Inv(c, s) && D.Inv(c.claims, Claim(c, s)) && SuppressedFor(c, s, k, e, raw, src, h, n)
    ensures Enabled(c, s, Return(k)) && E.Enabled(c.eps[e], Ep(c, s, e), E.Retransmit(0, Seen(Claim(c, s), k)))
    ensures E.Ending(c.eps[e], raw, Seen(Claim(c, s), k)) == E.Suppressed
  {
    hide Sound, Ep, Claim, D.Inv, E.Enabled, E.Ending, Seen, N.Parse, E.TxID;
    assert CallOk(Ep(c, s, e), 0, e, Claim(c, s).calls[k]);
    assert Enabled(c, s, Return(k));
    hide Inv;
    ReturnEnabled(c, s, k);
  }

  /** A suppressed call returns: its NACK is acknowledged. */
  lemma ReturnSuppressed(c: Config, steps: seq<Step>, k: nat, e: nat, raw: ByteString, src: string, h: Uint64,
                         n: Uint64)
    returns (steps': seq<Step>)
    requires ConfigOk(c) && CanRun(c, steps) && Sound(c, Run(c, steps)) && e < |c.eps|
    requires SuppressedFor(c, Run(c, steps), k, e, raw, src, h, n)
    ensures CanRun(c, steps') && Sound(c, Run(c, steps'))
    ensures Claim(c, Run(c, steps')) == Claim(c, Run(c, steps))
    ensures E.Reply(0, N.Ack(n)) in Ep(c, Run(c, steps'), e).out.replies
  {
    RunInv(c, steps);
    hide Run, CanRun, Sound, Ep, Claim, D.Inv, Inv, Do, Enabled, SuppressedFor, ConfigOk;
    SuppressedReturn(c, Run(c, steps), k, e, raw, src, h, n);
    Extend(c, steps, Return(k));
    steps' := steps + [Return(k)];
  }

  lemma SuppressedReturn(c: Config, s: State, k: nat, e: nat, raw: ByteString, src: string, h: Uint64, n: Uint64)
    requires ConfigOk(c) && Inv(c, s) && D.Inv(c.claims, Claim(c, s)) && SuppressedFor(c, s, k, e, raw, src, h, n)
    ensures Enabled(c, s, Return(k))
    ensures var s' := Do(c, s, Return(k));
            && Sound(c, s') && Claim(c, s') == Claim(c, s) && e < |c.eps|
            && E.Reply(0, N.Ack(n)) in Ep(c, s', e).out.replies
  {
    SuppressedEnds(c, s, k, e, raw, src, h, n);
    hide Sound, Ep, Claim, D.Inv, E.Do, E.Enabled, E.Ending, Seen, N.Ack, Inv, Waiting, Append, ConfigOk, Do, Enabled;
    var a := Seen(Claim(c, s), k);
    ReturnIs(c, s, k, e);
    SuppressedAnswer(c.eps[e], Ep(c, s, e), a, raw, src, h, n);
    EndpointSteps(c, s, e, E.Retransmit(0, a));
  }

  lemma ReturnIs(c: Config, s: State, k: nat, e: nat)
    requires Enabled(c, s, Return(k)) && s.owners[k] == Owner(e, 0)
    ensures Do(c, s, Return(k)) == Append(s, e, E.Retransmit(0, Seen(Claim(c, s), k)))
  {
    hide Seen, Append, Claim, Sound;
  }

  lemma ClaimedFacts(c: Config, ds: D.State, ds': D.State, e: nat, raw: ByteString, reply: D.Reply)
    requires e < |c.claims.endpoints| && |raw| >= 56 && Claimed(c, ds, ds', e, raw, reply)
    ensures |ds'.calls| == |ds.calls| + 1 && ds'.writes == ds.writes && ds'.now == ds.now && ds'.locks == ds.locks
    ensures ds'.calls[|ds.calls|].ep == e && ds'.calls[|ds.calls|].raw == raw
    ensures forall i :: 0 <= i < |ds.calls| ==> ds'.calls[i] == ds.calls[i]
    ensures !reply.Answered? || D.Live(ds, ClaimKey(c, e, raw)) ==> ds'.calls[|ds.calls|].phase == D.Suppressed
  {
    hide D.Live, ClaimKey;
    forall i | 0 <= i < |ds.calls| ensures ds'.calls[i] == ds.calls[i] {
      assert ds'.calls[i] == ds'.calls[..|ds.calls|][i];
    }
  }

  /** A NACK was acknowledged, and its frame has left no socket of any endpoint. */
  ghost predicate AckedNotSent(c: Config, s: State, e: nat, raw: ByteString, n: Uint64) {
    && Sound(c, s) && e < |c.eps| && E.Reply(0, N.Ack(n)) in Ep(c, s, e).out.replies
    && forall i :: 0 <= i < |Claim(c, s).writes| ==> Claim(c, s).writes[i].raw != raw
  }

  // ----- frames acknowledged and never sent -----

  /** A lost reply of the claim store: the frame is acknowledged and nobody sends it. */
  lemma LostReplyAckedNotSent(c: Config, e: nat, raw: ByteString, src: string, h: Uint64, n: Uint64, applied: bool)
    returns (steps: seq<Step>)
    requires ConfigOk(c) && Serves(c, e, raw, h, n)
    ensures CanRun(c, steps) && AckedNotSent(c, Run(c, steps), e, raw, n)
  {
    StartSound(c);
    hide Run, CanRun, Sound, Ep, Claim, Serves, Waiting, Claimed, ConfigOk;
    assert |c.claims.endpoints| == |c.eps| by { ClaimsConfig(c); }
    assert e < |c.eps| && |raw| >= 56 && !c.eps[e].suppressACK by { ServesFacts(c, e, raw, h, n); }
    var s1 := FetchAt(c, [], e, raw, src, h, n);
    var s2 := CallAndClaim(c, s1, e, raw, src, h, n, D.Lost(applied));
    SameRuns(c, Run(c, s1), Run(c, s2));
    ClaimedFacts(c, Claim(c, Run(c, s1)), Claim(c, Run(c, s2)), e, raw, D.Lost(applied));
    steps := ReturnSuppressed(c, s2, 0, e, raw, src, h, n);
  }

  lemma ClaimsConfig(c: Config)
    requires ConfigOk(c)
    ensures D.ConfigOk(c.claims) && |c.claims.endpoints| == |c.eps|
  {
  }

  lemma ServesFacts(c: Config, e: nat, raw: ByteString, h: Uint64, n: Uint64)
    requires Serves(c, e, raw, h, n)
    ensures e < |c.eps| && |raw| >= 56 && c.eps[e].redis && !c.eps[e].suppressACK
  {
  }

  lemma OnlyEpClaims(c: Config, s: State, s': State, e: nat)
    requires OnlyEp(c, s, s', e)
    ensures Sound(c, s) && Sound(c, s') && Claim(c, s') == Claim(c, s) && s'.owners == s.owners
    ensures forall f :: 0 <= f < |c.eps| && f != e ==> Ep(c, s', f) == Ep(c, s, f)
  {
    hide E.Run, E.CanRun, D.Run, D.CanRun;
  }

  lemma SameRuns(c: Config, s: State, s': State)
    requires Sound(c, s) && Sound(c, s') && s'.runs == s.runs
    ensures forall f :: 0 <= f < |c.eps| ==> Ep(c, s', f) == Ep(c, s, f)
  {
    hide E.Run, E.CanRun, D.Run, D.CanRun;
  }

  /** Two endpoints of one prefix, each with a NACK waiting for its own frame. */
  lemma BothWaiting(c: Config, r1: ByteString, r2: ByteString, src: string, h1: Uint64, h2: Uint64, n1: Uint64,
                    n2: Uint64)
    returns (steps: seq<Step>)
    requires ConfigOk(c) && Serves(c, 0, r1, h1, n1) && Serves(c, 1, r2, h2, n2)
    ensures CanRun(c, steps) && Sound(c, Run(c, steps))
    ensures NoCalls(c.claims, Claim(c, Run(c, steps))) && Run(c, steps).owners == []
    ensures Waiting(Ep(c, Run(c, steps), 0), r1, src, h1, n1) && Waiting(Ep(c, Run(c, steps), 1), r2, src, h2, n2)
  {
    StartSound(c);
    ServesFacts(c, 0, r1, h1, n1);
    ServesFacts(c, 1, r2, h2, n2);
    hide Run, CanRun, Sound, Ep, Claim, Serves, NoCalls, ConfigOk, ER.ClearedFor;
    var s1 := FetchAt(c, [], 0, r1, src, h1, n1);
    steps := FetchAt(c, s1, 1, r2, src, h2, n2);
  }

  /** A step of one call in progress. */
  lemma SharedStep(c: Config, steps: seq<Step>, step: D.Step) returns (steps': seq<Step>)
    requires CanRun(c, steps) && Sound(c, Run(c, steps)) && InCall(step)
    requires D.Enabled(c.claims, Claim(c, Run(c, steps)), step)
    ensures steps <= steps' && CanRun(c, steps') && Sound(c, Run(c, steps'))
    ensures var s, s' := Run(c, steps), Run(c, steps');
            s'.runs == s.runs && s'.owners == s.owners && Claim(c, s') == D.Do(c.claims, Claim(c, s), step)
  {
    hide Run, CanRun, Sound, Ep, Claim, D.Do, D.Enabled;
    Extend(c, steps, Shared(step));
    steps' := steps + [Shared(step)];
    ClaimsStep(c, Run(c, steps), Run(c, steps'), step);
  }

  lemma ClaimsPrefix(c: D.Config, run: seq<D.Step>, step: D.Step)
    requires D.CanRun(c, run + [step])
    ensures D.CanRun(c, run) && D.Enabled(c, D.Run(c, run), step)
  {
    hide D.Do, D.Enabled;
    assert (run + [step])[..|run|] == run;
  }

  /** Steps of calls in progress are steps of the fleet. */
  lemma {:induction false} InCalls(c: Config, steps: seq<Step>, more: seq<D.Step>) returns (steps': seq<Step>)
    requires CanRun(c, steps) && Sound(c, Run(c, steps)) && forall i :: 0 <= i < |more| ==> InCall(more[i])
    requires D.CanRun(c.claims, Run(c, steps).calls + more)
    ensures steps <= steps' && CanRun(c, steps') && Sound(c, Run(c, steps'))
    ensures Run(c, steps') == Run(c, steps).(calls := Run(c, steps).calls + more)
  {
    hide E.Run, E.CanRun, D.Run, D.CanRun, D.Do, D.Enabled, Run, CanRun;
    var s := Run(c, steps);
    if more == [] {
      assert s.calls + more == s.calls;
      steps' := steps;
    } else {
      var n := |more| - 1;
      assert s.calls + more == s.calls + more[..n] + [more[n]];
      ClaimsPrefix(c.claims, s.calls + more[..n], more[n]);
      var before := InCalls(c, steps, more[..n]);
      Extend(c, before, Shared(more[n]));
      steps' := before + [Shared(more[n])];
    }
  }

  /** A call that holds its claim, with its endpoint's lock free, writes every socket and ends as sent. */
  lemma SendCall(c: Config, steps: seq<Step>, k: nat) returns (steps': seq<Step>)
    requires CanRun(c, steps) && Sound(c, Run(c, steps)) && k < |Claim(c, Run(c, steps)).calls|
    requires Claim(c, Run(c, steps)).calls[k].phase == D.Ready && Claim(c, Run(c, steps)).locks == map[]
    requires Claim(c, Run(c, steps)).calls[k].ep < |c.claims.endpoints|
    ensures CanRun(c, steps') && Sound(c, Run(c, steps'))
    ensures Run(c, steps').runs == Run(c, steps).runs && Run(c, steps').owners == Run(c, steps).owners
    ensures D.Moved(Claim(c, Run(c, steps)), Claim(c, Run(c, steps')), k, D.Sent)
  {
    hide Run, CanRun, D.Run, D.CanRun, E.CanRun, E.Run, D.Moved;
    var more := D.SendReady(c.claims, Run(c, steps).calls, k);
    steps' := InCalls(c, steps, more);
  }

  /**
   Another flow's frame of equal SeqNum was claimed first and goes out on every socket: the second
   flow's frame is acknowledged all the same, and nobody sends it.
   */
  lemma OtherFlowAckedNotSent(c: Config, r1: ByteString, r2: ByteString, src: string, h1: Uint64, h2: Uint64, n: Uint64)
    returns (steps: seq<Step>)
    requires ConfigOk(c) && Serves(c, 0, r1, h1, n) && Serves(c, 1, r2, h2, n) && r1[48..56] == r2[48..56]
    requires |c.claims.endpoints| >= 2 && c.claims.endpoints[0].prefix == c.claims.endpoints[1].prefix && r1 != r2
    ensures CanRun(c, steps) && AckedNotSent(c, Run(c, steps), 1, r2, n)
    ensures Claim(c, Run(c, steps)).calls != [] && Claim(c, Run(c, steps)).calls[0].raw == r1
    ensures Claim(c, Run(c, steps)).calls[0].phase == D.Sent
  {
    ServesFacts(c, 0, r1, h1, n);
    ServesFacts(c, 1, r2, h2, n);
    var s1 := FirstClaims(c, r1, r2, src, h1, h2, n);
    hide Run, CanRun, Sound, Ep, Claim, Serves, Waiting, D.Live, ClaimKey, ConfigOk, D.Moved, AckedNotSent;
    var s2 := SecondSuppressed(c, s1, r2, src, h2, n);
    steps := SendCall(c, s2, 0);
    StillNotSent(c, Run(c, s2), Run(c, steps), r1, r2, n);
  }

  lemma StillNotSent(c: Config, s: State, s': State, r1: ByteString, r2: ByteString, n: Uint64)
    requires Sound(c, s) && Sound(c, s') && 1 < |c.eps| && s'.runs == s.runs && r1 != r2
    requires E.Reply(0, N.Ack(n)) in Ep(c, s, 1).out.replies && Claim(c, s).writes == [] && Claim(c, s).calls != []
    requires Claim(c, s).calls[0].raw == r1 && D.Moved(Claim(c, s), Claim(c, s'), 0, D.Sent)
    ensures AckedNotSent(c, s', 1, r2, n) && Claim(c, s').calls != []
    ensures Claim(c, s').calls[0].raw == r1 && Claim(c, s').calls[0].phase == D.Sent
  {
    hide Sound, Ep, Claim, N.Ack;
    SameRuns(c, s, s');
  }

  /** The first endpoint's call holds the claim; the second endpoint's NACK waits. */
  lemma FirstClaims(c: Config, r1: ByteString, r2: ByteString, src: string, h1: Uint64, h2: Uint64, n: Uint64)
    returns (steps: seq<Step>)
    requires ConfigOk(c) && Serves(c, 0, r1, h1, n) && Serves(c, 1, r2, h2, n) && r1[48..56] == r2[48..56]
    requires |c.claims.endpoints| >= 2 && c.claims.endpoints[0].prefix == c.claims.endpoints[1].prefix
    ensures CanRun(c, steps) && Sound(c, Run(c, steps)) && 1 < |c.eps|
    ensures var s := Run(c, steps);
            && s.owners == [Owner(0, 0)] && Waiting(Ep(c, s, 1), r2, src, h2, n)
            && D.Live(Claim(c, s), ClaimKey(c, 1, r2))
            && |Claim(c, s).calls| == 1 && Claim(c, s).writes == [] && Claim(c, s).locks == map[]
            && Claim(c, s).calls[0].ep == 0 && Claim(c, s).calls[0].raw == r1 && Claim(c, s).calls[0].phase == D.Ready
  {
    ServesFacts(c, 0, r1, h1, n);
    ServesFacts(c, 1, r2, h2, n);
    ClaimsConfig(c);
    var s0 := BothWaiting(c, r1, r2, src, h1, h2, n, n);
    hide Run, CanRun, Sound, Ep, Claim, Serves, Waiting, D.Live, Claimed, ClaimKey, ConfigOk;
    steps := CallAndClaim(c, s0, 0, r1, src, h1, n, D.Answered);
    SameRuns(c, Run(c, s0), Run(c, steps));
    ClaimedFacts(c, Claim(c, Run(c, s0)), Claim(c, Run(c, steps)), 0, r1, D.Answered);
    KeyIsLive(c, Claim(c, Run(c, s0)), Claim(c, Run(c, steps)), r1, r2);
  }

  /** The second endpoint's NACK finds the key taken, and is acknowledged. */
  lemma SecondSuppressed(c: Config, steps: seq<Step>, raw: ByteString, src: string, h: Uint64, n: Uint64)
    returns (steps': seq<Step>)
    requires ConfigOk(c) && CanRun(c, steps) && Sound(c, Run(c, steps)) && Serves(c, 1, raw, h, n)
    requires 1 < |c.eps| && 1 < |c.claims.endpoints| && |raw| >= 56
    requires Run(c, steps).owners == [Owner(0, 0)] && Waiting(Ep(c, Run(c, steps), 1), raw, src, h, n)
    requires D.Live(Claim(c, Run(c, steps)), ClaimKey(c, 1, raw)) && |Claim(c, Run(c, steps)).calls| == 1
    ensures CanRun(c, steps') && Sound(c, Run(c, steps'))
    ensures E.Reply(0, N.Ack(n)) in Ep(c, Run(c, steps'), 1).out.replies
    ensures var ds, ds' := Claim(c, Run(c, steps)), Claim(c, Run(c, steps'));
            |ds'.calls| == 2 && ds'.calls[0] == ds.calls[0] && ds'.writes == ds.writes && ds'.locks == ds.locks
  {
    ServesFacts(c, 1, raw, h, n);
    hide Run, CanRun, Sound, Ep, Claim, Serves, Waiting, D.Live, Claimed, ClaimKey, ConfigOk;
    var mid := CallAndClaim(c, steps, 1, raw, src, h, n, D.Answered);
    SameRuns(c, Run(c, steps), Run(c, mid));
    ClaimedFacts(c, Claim(c, Run(c, steps)), Claim(c, Run(c, mid)), 1, raw, D.Answered);
    steps' := ReturnSuppressed(c, mid, 1, 1, raw, src, h, n);
  }

  lemma KeyIsLive(c: Config, ds: D.State, ds': D.State, r1: ByteString, r2: ByteString)
    requires D.ConfigOk(c.claims) && |c.claims.endpoints| >= 2 && |r1| >= 56 && |r2| >= 56 && r1[48..56] == r2[48..56]
    requires c.claims.endpoints[0].prefix == c.claims.endpoints[1].prefix
    requires NoCalls(c.claims, ds) && Claimed(c, ds, ds', 0, r1, D.Answered)
    ensures ds'.calls[|ds.calls|].phase == D.Ready && D.Live(ds', ClaimKey(c, 1, r2))
  {
  }

  lemma FailingWrite(c: D.Config, ds: D.State, iface: string)
    requires |ds.calls| == 1 && ds.calls[0].phase == D.Ready && ds.calls[0].ep < |c.endpoints| && ds.locks == map[]
    requires iface in c.endpoints[ds.calls[0].ep].sockets
    ensures D.Enabled(c, ds, D.Lock(0))
    ensures var ds1 := D.Do(c, ds, D.Lock(0));
            && D.Enabled(c, ds1, D.WriteTo(0, iface, false))
            && var ds2 := D.Do(c, ds1, D.WriteTo(0, iface, false));
               && |ds2.calls| == 1 && ds2.calls[0].phase == D.Failed
               && ds2.writes == ds.writes && ds2.store == ds.store && ds2.now == ds.now
  {
    hide D.EgressDest, D.DedupKey, D.Live;
  }

  /** A call that holds a claim takes its lock and fails its first write. */
  lemma FailCall(c: Config, steps: seq<Step>, iface: string) returns (steps': seq<Step>)
    requires CanRun(c, steps) && Sound(c, Run(c, steps))
    requires var ds := Claim(c, Run(c, steps));
             && |ds.calls| == 1 && ds.calls[0].phase == D.Ready && ds.calls[0].ep < |c.claims.endpoints|
             && ds.locks == map[]
             && iface in c.claims.endpoints[ds.calls[0].ep].sockets
    ensures CanRun(c, steps') && Sound(c, Run(c, steps'))
    ensures var s, s' := Run(c, steps), Run(c, steps');
            && s'.runs == s.runs && s'.owners == s.owners
            && var ds, ds' := Claim(c, s), Claim(c, s');
               && |ds'.calls| == 1 && ds'.calls[0].phase == D.Failed
               && ds'.writes == ds.writes && ds'.store == ds.store && ds'.now == ds.now
  {
    hide Run, CanRun, Sound, Ep, Claim, D.Do, D.Enabled;
    var s := Run(c, steps);
    FailingWrite(c.claims, Claim(c, s), iface);
    Extend(c, steps, Shared(D.Lock(0)));
    var mid := steps + [Shared(D.Lock(0))];
    ClaimsStep(c, s, Run(c, mid), D.Lock(0));
    var write := D.WriteTo(0, iface, false);
    Extend(c, mid, Shared(write));
    steps' := mid + [Shared(write)];
    ClaimsStep(c, Run(c, mid), Run(c, steps'), write);
  }

  /**
   A failed write keeps the claim: another endpoint asked for the same frame acknowledges it, and
   nobody sends it.
   */
  lemma FailedWriteAckedNotSent(c: Config, raw: ByteString, src: string, h: Uint64, n: Uint64, iface: string)
    returns (steps: seq<Step>)
    requires ConfigOk(c) && Serves(c, 0, raw, h, n) && Serves(c, 1, raw, h, n)
    requires |c.claims.endpoints| >= 2 && c.claims.endpoints[0].prefix == c.claims.endpoints[1].prefix
    requires iface in c.claims.endpoints[0].sockets
    ensures CanRun(c, steps) && AckedNotSent(c, Run(c, steps), 1, raw, n)
    ensures Claim(c, Run(c, steps)).calls != [] && Claim(c, Run(c, steps)).calls[0].phase == D.Failed
  {
    ServesFacts(c, 0, raw, h, n);
    ServesFacts(c, 1, raw, h, n);
    var s1 := FirstClaims(c, raw, raw, src, h, h, n);
    hide Run, CanRun, Sound, Ep, Claim, Serves, Waiting, D.Live, ClaimKey, ConfigOk;
    var s2 := FailCall(c, s1, iface);
    SameRuns(c, Run(c, s1), Run(c, s2));
    StillLive(Claim(c, Run(c, s1)), Claim(c, Run(c, s2)), ClaimKey(c, 1, raw));
    steps := SecondSuppressed(c, s2, raw, src, h, n);
  }

  lemma StillLive(ds: D.State, ds': D.State, key: ByteString)
    requires D.Live(ds, key) && ds'.store == ds.store && ds'.now == ds.now
    ensures D.Live(ds', key)
  {
  }
}
