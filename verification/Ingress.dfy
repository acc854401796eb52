/**
 The multicast receive worker. One buffer receives every datagram; each stamped frame is stored
 under HashKey and SeqNum as a slice of that buffer. Whether a cached frame survives the next
 receive depends on whether the store copies the slice or keeps it.
 */
module Ingress {
  import opened Bytes
  import opened Options

  datatype Stamp = Stamp(hashKey: Uint64, seqNum: Uint64)

  /** The frame package: version tests and one decoder per version. */
  datatype Codec = Codec(
    isBlock: ByteString -> bool,
    isSubtree: ByteString -> bool,
    isAnchor: ByteString -> bool,
    decode: ByteString -> Option<Stamp>,
    decodeBlock: ByteString -> Option<Stamp>,
    decodeSubtree: ByteString -> Option<Stamp>,
    decodeAnchor: ByteString -> Option<Stamp>)

  /** The stamp of a frame, by the decoder of its version. */
  function StampOf(c: Codec, raw: ByteString): (s: Option<Stamp>)
  {
    if c.isBlock(raw) then c.decodeBlock(raw)
    else if c.isSubtree(raw) then c.decodeSubtree(raw)
    else if c.isAnchor(raw) then c.decodeAnchor(raw)
    else c.decode(raw)
  }

  datatype Verdict = DecodeError | Unstamped | Cacheable(key: ByteString)

  /** What becomes of a received frame: unreadable, not stamped by the proxy, or stored under its key. */
  function Classify(c: Codec, raw: ByteString): (v: Verdict)
    ensures v.Cacheable? ==> KeyMatches(c, v.key, raw)
  {
    match StampOf(c, raw)
    case None => DecodeError
    case Some(s) => if s.seqNum == 0 then Unstamped else Cacheable(CacheKey(s.hashKey, s.seqNum))
  }

  /** A cached frame is right when its own stamp gives the key it is filed under. */
  predicate KeyMatches(c: Codec, key: ByteString, raw: ByteString) {
    match StampOf(c, raw)
    case None => false
    case Some(s) => s.seqNum != 0 && key == CacheKey(s.hashKey, s.seqNum)
  }

  // ----- what the codec itself says -----

  /**
   The stamp a frame carries: the first of the block, subtree and anchor tests that it passes names
   its decoder, and a frame that passes none of them has the ordinary one.
   */
  ghost predicate Carries(c: Codec, raw: ByteString, stamp: Option<Stamp>) {
    && (c.isBlock(raw) ==> c.decodeBlock(raw) == stamp)
    && (!c.isBlock(raw) && c.isSubtree(raw) ==> c.decodeSubtree(raw) == stamp)
    && (!c.isBlock(raw) && !c.isSubtree(raw) && c.isAnchor(raw) ==> c.decodeAnchor(raw) == stamp)
    && (!c.isBlock(raw) && !c.isSubtree(raw) && !c.isAnchor(raw) ==> c.decode(raw) == stamp)
  }

  /** A frame to be filed under a pair: its decoder gives the pair, and the proxy has numbered it. */
  ghost predicate Files(c: Codec, raw: ByteString, h: Uint64, n: Uint64) {
    raw != [] && n != 0 && Carries(c, raw, Some(Stamp(h, n)))
  }

  lemma CarriesExactly(c: Codec, raw: ByteString, stamp: Option<Stamp>)
    ensures Carries(c, raw, stamp) <==> StampOf(c, raw) == stamp
  {
  }

  lemma FilesExactly(c: Codec, raw: ByteString, h: Uint64, n: Uint64)
    ensures Files(c, raw, h, n) <==> raw != [] && Classify(c, raw) == Cacheable(CacheKey(h, n))
  {
    CarriesExactly(c, raw, Some(Stamp(h, n)));
    match StampOf(c, raw)
    case None =>
    case Some(s) => CacheKeyInjective(s.hashKey, s.seqNum, h, n);
  }

  /** Whatever is filed is filed under the pair of its own stamp. */
  lemma FiledUnder(c: Codec, raw: ByteString, key: ByteString)
    requires raw != []
    ensures Classify(c, raw) == Cacheable(key) <==> exists h, n :: Files(c, raw, h, n) && key == CacheKey(h, n)
  {
    if Classify(c, raw) == Cacheable(key) {
      var s := StampOf(c, raw).value;
      FilesExactly(c, raw, s.hashKey, s.seqNum);
    }
    forall h, n | Files(c, raw, h, n) ensures Classify(c, raw) == Cacheable(CacheKey(h, n)) {
      FilesExactly(c, raw, h, n);
    }
  }

  /** A frame that its decoder rejects, or that the proxy has not numbered, is not filed. */
  ghost predicate Ignored(c: Codec, raw: ByteString) {
    raw == [] || Carries(c, raw, None) || exists h :: Carries(c, raw, Some(Stamp(h, 0)))
  }

  lemma IgnoredExactly(c: Codec, raw: ByteString)
    ensures Ignored(c, raw) <==> raw == [] || !Classify(c, raw).Cacheable?
  {
    CarriesExactly(c, raw, None);
    match StampOf(c, raw)
    case None =>
    case Some(s) => CarriesExactly(c, raw, Some(s));
    forall h | Carries(c, raw, Some(Stamp(h, 0))) ensures StampOf(c, raw) == Some(Stamp(h, 0)) {
      CarriesExactly(c, raw, Some(Stamp(h, 0)));
    }
  }

  /** Every decoder finds the SeqNum where the dedup key takes it from: bytes 48 to 55. */
  ghost predicate SeqNumAt48(c: Codec) {
    forall raw :: StampOf(c, raw).Some? ==> |raw| >= 56 && Field(raw, 48) == StampOf(c, raw).value.seqNum
  }

  // ----- value models of the two kinds of store -----

  /** A step of the cache's life: a datagram of the network, or entries leaving by expiry or eviction. */
  datatype Step = Receive(datagram: ByteString) | Drop(keys: set<ByteString>)

  /** What Recvfrom leaves of a datagram in a buffer of the given size. */
  function Cut(datagram: ByteString, size: nat): (raw: ByteString)
    ensures |raw| <= size && raw <= datagram && (|raw| == size || raw == datagram)
  {
    if |datagram| <= size then datagram else datagram[..size]
  }

  function Overwrite(buf: ByteString, raw: ByteString): (buf': ByteString)
    requires |raw| <= |buf|
    ensures |buf'| == |buf|
  {
    raw + buf[|raw|..]
  }

  /** Frames the store owns. */
  function OwnedStep(c: Codec, size: nat, cache: map<ByteString, ByteString>, step: Step)
    : (cache': map<ByteString, ByteString>)
  {
    match step
    case Drop(keys) => cache - keys
    case Receive(d) =>
      var raw := Cut(d, size);
      var v := if raw == [] then Unstamped else Classify(c, raw);
      if v.Cacheable? then cache[v.key := raw] else cache
  }

  /** Frames kept as slices: the shared buffer and the length of each slice. */
  datatype Shared = Shared(buf: ByteString, lens: map<ByteString, nat>)

  ghost predicate SharedOk(s: Shared) {
    forall k :: k in s.lens ==> s.lens[k] <= |s.buf|
  }

  function SharedStep(c: Codec, s: Shared, step: Step): (s': Shared)
    ensures |s'.buf| == |s.buf|
    ensures SharedOk(s) ==> SharedOk(s')
  {
    match step
    case Drop(keys) => s.(lens := s.lens - keys)
    case Receive(d) =>
      var raw := Cut(d, |s.buf|);
      var v := if raw == [] then Unstamped else Classify(c, raw);
      Shared(Overwrite(s.buf, raw), if v.Cacheable? then s.lens[v.key := |raw|] else s.lens)
  }

  /** The bytes a reader of the cache gets for a key. */
  ghost function Seen(s: Shared, key: ByteString): (raw: ByteString)
    requires SharedOk(s) && key in s.lens
    ensures |raw| == s.lens[key]
  {
    s.buf[..s.lens[key]]
  }

  function OwnedRun(c: Codec, size: nat, steps: seq<Step>): (cache: map<ByteString, ByteString>)
  {
    if steps == [] then map[]
    else OwnedStep(c, size, OwnedRun(c, size, steps[..|steps| - 1]), steps[|steps| - 1])
  }

  function SharedRun(c: Codec, buf: ByteString, steps: seq<Step>): (s: Shared)
    ensures |s.buf| == |buf| && SharedOk(s)
  {
    if steps == [] then Shared(buf, map[])
    else SharedStep(c, SharedRun(c, buf, steps[..|steps| - 1]), steps[|steps| - 1])
  }

  // ----- a store that owns its bytes -----

  /**
   In every run every cached frame still carries the pair it is filed under, by the decoder of its
   kind, however many datagrams arrive later, and is one of the datagrams received, byte for byte.
   */
  lemma {:induction false} OwnedFramesStayRight(c: Codec, size: nat, steps: seq<Step>, key: ByteString)
    requires key in OwnedRun(c, size, steps)
    ensures exists h, n :: Files(c, OwnedRun(c, size, steps)[key], h, n) && key == CacheKey(h, n)
    ensures exists i :: 0 <= i < |steps| && steps[i].Receive?
                        && Cut(steps[i].datagram, size) == OwnedRun(c, size, steps)[key]
  {
    if steps != [] {
      var n := |steps| - 1;
      var before, step := steps[..n], steps[n];
      var stored := step.Receive? && Cut(step.datagram, size) != []
                    && Classify(c, Cut(step.datagram, size)) == Cacheable(key);
      if stored {
        FiledUnder(c, Cut(step.datagram, size), key);
        assert steps[n].Receive? && Cut(steps[n].datagram, size) == OwnedRun(c, size, steps)[key];
      } else {
        OwnedFramesStayRight(c, size, before, key);
        var i :| 0 <= i < |before| && before[i].Receive?
                 && Cut(before[i].datagram, size) == OwnedRun(c, size, before)[key];
        assert steps[i] == before[i];
      }
    }
  }

  /** A datagram that is received and carries a pair is cached under it, and nothing else changes. */
  lemma OwnedFiles(c: Codec, size: nat, cache: map<ByteString, ByteString>, d: ByteString, h: Uint64, n: Uint64)
    ensures Files(c, Cut(d, size), h, n) ==>
              OwnedStep(c, size, cache, Receive(d)) == cache[CacheKey(h, n) := Cut(d, size)]
    ensures Ignored(c, Cut(d, size)) ==> OwnedStep(c, size, cache, Receive(d)) == cache
  {
    hide Classify, CacheKey;
    FilesExactly(c, Cut(d, size), h, n);
    IgnoredExactly(c, Cut(d, size));
  }

  /** A step that puts another frame under a key, or takes the key away. */
  ghost predicate Touches(c: Codec, size: nat, step: Step, h: Uint64, n: Uint64) {
    match step
    case Receive(d) => Files(c, Cut(d, size), h, n)
    case Drop(keys) => CacheKey(h, n) in keys
  }

  lemma Untouched(c: Codec, size: nat, cache: map<ByteString, ByteString>, step: Step, h: Uint64, n: Uint64)
    requires !Touches(c, size, step, h, n) && CacheKey(h, n) in cache
    ensures var cache' := OwnedStep(c, size, cache, step);
            CacheKey(h, n) in cache' && cache'[CacheKey(h, n)] == cache[CacheKey(h, n)]
  {
    hide Classify, CacheKey, Carries;
    if step.Receive? { FilesExactly(c, Cut(step.datagram, size), h, n); }
  }

  /** In every run the latest frame received of a pair is found under it until its entry is dropped. */
  lemma {:induction false} LatestOwnedFrameIsKept(c: Codec, size: nat, steps: seq<Step>, i: nat, h: Uint64, n: Uint64)
    requires i < |steps| && steps[i].Receive? && Files(c, Cut(steps[i].datagram, size), h, n)
    requires forall j :: i < j < |steps| ==> !Touches(c, size, steps[j], h, n)
    ensures var cache := OwnedRun(c, size, steps);
            CacheKey(h, n) in cache && cache[CacheKey(h, n)] == Cut(steps[i].datagram, size)
  {
    hide Classify, CacheKey, Files, OwnedStep, Touches;
    var last := |steps| - 1;
    var before := OwnedRun(c, size, steps[..last]);
    if i == last {
      OwnedFiles(c, size, before, steps[i].datagram, h, n);
    } else {
      LatestOwnedFrameIsKept(c, size, steps[..last], i, h, n);
      Untouched(c, size, before, steps[last], h, n);
    }
  }

  // ----- a store that keeps the slice -----

  /** Exactly when a kept frame survives the next receive: the datagram repeats its common prefix. */
  lemma KeptFrameSurvives(c: Codec, s: Shared, d: ByteString, key: ByteString)
    requires SharedOk(s) && key in s.lens
    requires var raw := Cut(d, |s.buf|); raw != [] ==> Classify(c, raw) != Cacheable(key)
    ensures var s' := SharedStep(c, s, Receive(d));
            var raw := Cut(d, |s.buf|);
            var common := if |raw| < s.lens[key] then |raw| else s.lens[key];
            && key in s'.lens
            && (Seen(s', key) == Seen(s, key) <==> raw[..common] == Seen(s, key)[..common])
  {
    var s' := SharedStep(c, s, Receive(d));
    var raw := Cut(d, |s.buf|);
    var old', new' := Seen(s, key), Seen(s', key);
    var common := if |raw| < s.lens[key] then |raw| else s.lens[key];
    assert new'[..common] == raw[..common];
    assert new'[common..] == old'[common..];
    assert old' == old'[..common] + old'[common..] && new' == new'[..common] + new'[common..];
  }

  /** The SeqNum a frame carries on the wire, or -1 when it is too short to have one. */
  function ShownSeqNum(raw: ByteString): (n: int)
  {
    if |raw| >= 56 then Field(raw, 48) else -1
  }

  lemma ShownByPrefix(buf: ByteString, n: nat)
    requires 56 <= n <= |buf|
    ensures ShownSeqNum(buf[..n]) == ShownSeqNum(buf)
  {
    assert buf[..n][48..56] == buf[48..56];
  }

  lemma SharedRunStep(c: Codec, buf: ByteString, steps: seq<Step>, step: Step)
    ensures SharedRun(c, buf, steps + [step]) == SharedStep(c, SharedRun(c, buf, steps), step)
  {
    assert (steps + [step])[..|steps|] == steps;
  }

  /** Entries hold whole frames, so at least 56 bytes each. */
  lemma {:induction false} KeptFramesAreFrames(c: Codec, buf: ByteString, steps: seq<Step>, key: ByteString)
    requires SeqNumAt48(c) && key in SharedRun(c, buf, steps).lens
    ensures SharedRun(c, buf, steps).lens[key] >= 56
  {
    if steps != [] {
      var before, step := steps[..|steps| - 1], steps[|steps| - 1];
      var s := SharedRun(c, buf, before);
      var stored := step.Receive? && Cut(step.datagram, |s.buf|) != []
                    && Classify(c, Cut(step.datagram, |s.buf|)) == Cacheable(key);
      if !stored {
        KeptFramesAreFrames(c, buf, before, key);
      }
    }
  }

  /** In every run all kept frames carry one and the same SeqNum, whatever their keys say. */
  lemma KeptFramesShareSeqNum(c: Codec, buf: ByteString, steps: seq<Step>, k1: ByteString, k2: ByteString)
    requires SeqNumAt48(c)
    requires k1 in SharedRun(c, buf, steps).lens && k2 in SharedRun(c, buf, steps).lens
    ensures ShownSeqNum(Seen(SharedRun(c, buf, steps), k1)) == ShownSeqNum(Seen(SharedRun(c, buf, steps), k2))
  {
    hide SharedRun;
    var s := SharedRun(c, buf, steps);
    KeptFramesAreFrames(c, buf, steps, k1);
    KeptFramesAreFrames(c, buf, steps, k2);
    ShownByPrefix(s.buf, s.lens[k1]);
    ShownByPrefix(s.buf, s.lens[k2]);
  }

  /** A stamped frame puts its own SeqNum into every frame kept so far. */
  lemma StampedFrameSpreads(c: Codec, s: Shared, d: ByteString, key: ByteString)
    requires SeqNumAt48(c) && SharedOk(s)
    requires StampOf(c, Cut(d, |s.buf|)).Some?
    requires var s' := SharedStep(c, s, Receive(d)); key in s'.lens && s'.lens[key] >= 56
    ensures ShownSeqNum(Seen(SharedStep(c, s, Receive(d)), key)) == StampOf(c, Cut(d, |s.buf|)).value.seqNum
  {
    var raw := Cut(d, |s.buf|);
    var s' := SharedStep(c, s, Receive(d));
    assert s'.buf[..|raw|] == raw;
    ShownByPrefix(s'.buf, |raw|);
    ShownByPrefix(s'.buf, s'.lens[key]);
  }

  /** Every decoder finds the HashKey in one and the same field, before the SeqNum. */
  ghost predicate HashKeyAt(c: Codec, off: nat) {
    && off <= 40
    && forall raw :: StampOf(c, raw).Some? ==> |raw| >= 56 && Field(raw, off) == StampOf(c, raw).value.hashKey
  }

  /** The key that the two fields of a buffer spell. */
  function Spelled(buf: ByteString, off: nat): (key: ByteString)
    requires off <= 40 && |buf| >= 56
  {
    CacheKey(Field(buf, off), Field(buf, 48))
  }

  lemma FieldByPrefix(buf: ByteString, n: nat, at: nat)
    requires at + 8 <= n <= |buf|
    ensures Field(buf[..n], at) == Field(buf, at)
  {
    hide Get;
    assert buf[..n][at..at + 8] == buf[at..at + 8];
  }

  lemma SpelledByPrefix(buf: ByteString, n: nat, off: nat)
    requires off <= 40 && 56 <= n <= |buf|
    ensures Spelled(buf[..n], off) == Spelled(buf, off)
  {
    FieldByPrefix(buf, n, 48);
    FieldByPrefix(buf, n, off);
  }

  /** What a frame that decodes is filed under is what its fields spell. */
  lemma StampIsSpelled(c: Codec, raw: ByteString, off: nat, key: ByteString)
    requires SeqNumAt48(c) && HashKeyAt(c, off)
    ensures KeyMatches(c, key, raw) <==>
              StampOf(c, raw).Some? && |raw| >= 56 && Field(raw, 48) != 0 && key == Spelled(raw, off)
  {
    hide Field, CacheKey, StampOf;
    if StampOf(c, raw).Some? { assert Field(raw, 48) == StampOf(c, raw).value.seqNum; }
  }

  /**
   In every state of every run, whatever has arrived, a kept frame is right exactly when its bytes
   still decode and the shared buffer's own fields spell its key.
   */
  lemma KeptFrameRightExactly(c: Codec, buf: ByteString, steps: seq<Step>, off: nat, key: ByteString)
    requires SeqNumAt48(c) && HashKeyAt(c, off) && key in SharedRun(c, buf, steps).lens
    ensures var s := SharedRun(c, buf, steps);
            && |s.buf| >= 56
            && (KeyMatches(c, key, Seen(s, key)) <==>
                  StampOf(c, Seen(s, key)).Some? && Field(s.buf, 48) != 0 && key == Spelled(s.buf, off))
  {
    KeptFramesAreFrames(c, buf, steps, key);
    hide SharedRun, StampOf, SeqNumAt48, HashKeyAt, Field, Spelled, KeyMatches;
    var s := SharedRun(c, buf, steps);
    var n := s.lens[key];
    StampIsSpelled(c, Seen(s, key), off, key);
    SpelledByPrefix(s.buf, n, off);
    FieldByPrefix(s.buf, n, 48);
  }

  /** So however many frames the cache holds, at most one of them is right. */
  lemma AtMostOneKeptFrameRight(c: Codec, buf: ByteString, steps: seq<Step>, off: nat, k1: ByteString, k2: ByteString)
    requires SeqNumAt48(c) && HashKeyAt(c, off)
    requires k1 in SharedRun(c, buf, steps).lens && k2 in SharedRun(c, buf, steps).lens
    requires KeyMatches(c, k1, Seen(SharedRun(c, buf, steps), k1))
             && KeyMatches(c, k2, Seen(SharedRun(c, buf, steps), k2))
    ensures k1 == k2
  {
    hide SharedRun, KeyMatches, SeqNumAt48, HashKeyAt, Spelled;
    KeptFrameRightExactly(c, buf, steps, off, k1);
    KeptFrameRightExactly(c, buf, steps, off, k2);
  }

  /** After a receive the buffer starts with the datagram. */
  lemma BufferAfter(c: Codec, buf: ByteString, steps: seq<Step>, d: ByteString)
    ensures var raw, s := Cut(d, |buf|), SharedRun(c, buf, steps + [Receive(d)]);
            |raw| <= |s.buf| && s.buf[..|raw|] == raw
  {
    SharedRunStep(c, buf, steps, Receive(d));
  }

  /** The frame just stored is kept whole. */
  lemma LatestFrameKept(c: Codec, buf: ByteString, steps: seq<Step>, d: ByteString)
    requires Cut(d, |buf|) != [] && Classify(c, Cut(d, |buf|)).Cacheable?
    ensures var raw, s := Cut(d, |buf|), SharedRun(c, buf, steps + [Receive(d)]);
            var key := Classify(c, raw).key;
            key in s.lens && Seen(s, key) == raw && KeyMatches(c, key, raw)
  {
    SharedRunStep(c, buf, steps, Receive(d));
    BufferAfter(c, buf, steps, d);
  }

  /** If a kept frame is right, its key is that of the stamped frame whose bytes the buffer starts with. */
  lemma RightSpellsLatest(c: Codec, s: Shared, raw: ByteString, off: nat, key: ByteString)
    requires SeqNumAt48(c) && HashKeyAt(c, off) && Classify(c, raw).Cacheable?
    requires |raw| <= |s.buf| && s.buf[..|raw|] == raw && |s.buf| >= 56 && key == Spelled(s.buf, off)
    ensures key == Classify(c, raw).key
  {
    StampIsSpelled(c, raw, off, Classify(c, raw).key);
    hide StampOf, SeqNumAt48, HashKeyAt, Field, Spelled, CacheKey;
    SpelledByPrefix(s.buf, |raw|, off);
  }

  /**
   After a stamped frame a kept frame is right exactly when it is that very frame: any other is
   spoilt, a frame of another flow with the same SeqNum included.
   */
  lemma OnlyLatestFrameRight(c: Codec, buf: ByteString, steps: seq<Step>, d: ByteString, off: nat, key: ByteString)
    requires SeqNumAt48(c) && HashKeyAt(c, off)
    requires Cut(d, |buf|) != [] && Classify(c, Cut(d, |buf|)).Cacheable?
    requires key in SharedRun(c, buf, steps + [Receive(d)]).lens
    ensures KeyMatches(c, key, Seen(SharedRun(c, buf, steps + [Receive(d)]), key))
            <==> key == Classify(c, Cut(d, |buf|)).key
  {
    assert off <= 40;
    hide SharedRun, SharedStep, Classify, KeyMatches, StampOf, SeqNumAt48, HashKeyAt, Field, Spelled;
    var raw, s := Cut(d, |buf|), SharedRun(c, buf, steps + [Receive(d)]);
    LatestFrameKept(c, buf, steps, d);
    KeptFrameRightExactly(c, buf, steps + [Receive(d)], off, key);
    if key == Spelled(s.buf, off) {
      BufferAfter(c, buf, steps, d);
      RightSpellsLatest(c, s, raw, off, key);
    }
  }

  lemma UnstampedFields(c: Codec, raw: ByteString)
    requires SeqNumAt48(c) && Classify(c, raw).Unstamped?
    ensures |raw| >= 56 && Field(raw, 48) == 0
  {
    hide Field, StampOf;
  }

  /** A frame that is not stamped yet decodes but is not stored: after it no kept frame is right. */
  lemma UnstampedSpoilsAll(c: Codec, buf: ByteString, steps: seq<Step>, d: ByteString, off: nat, key: ByteString)
    requires SeqNumAt48(c) && HashKeyAt(c, off) && Classify(c, Cut(d, |buf|)).Unstamped?
    requires key in SharedRun(c, buf, steps + [Receive(d)]).lens
    ensures !KeyMatches(c, key, Seen(SharedRun(c, buf, steps + [Receive(d)]), key))
  {
    var raw, s := Cut(d, |buf|), SharedRun(c, buf, steps + [Receive(d)]);
    hide SharedRun, SharedStep, Classify, KeyMatches, StampOf, SeqNumAt48, HashKeyAt, Field, Spelled;
    BufferAfter(c, buf, steps, d);
    UnstampedFields(c, raw);
    KeptFrameRightExactly(c, buf, steps + [Receive(d)], off, key);
    FieldByPrefix(s.buf, |raw|, 48);
  }

  /** The bytes of a kept frame once a datagram has been received over it. */
  function Overlay(kept: ByteString, raw: ByteString): (kept': ByteString)
    ensures |kept'| == |kept|
  {
    if |raw| <= |kept| then raw + kept[|raw|..] else raw[..|kept|]
  }

  lemma KeptAfterDropped(c: Codec, s: Shared, d: ByteString, key: ByteString)
    requires SharedOk(s) && key in s.lens && !Classify(c, Cut(d, |s.buf|)).Cacheable?
    ensures var s' := SharedStep(c, s, Receive(d));
            key in s'.lens && Seen(s', key) == Overlay(Seen(s, key), Cut(d, |s.buf|))
  {
    hide Classify;
    var raw, n := Cut(d, |s.buf|), s.lens[key];
    if |raw| <= n {
      assert s.buf[..n][|raw|..] == s.buf[|raw|..][..n - |raw|];
    }
  }

  /**
   A datagram that does not decode is dropped, yet it overwrites every kept frame: one of them is
   right afterwards exactly when what is left of it still decodes and spells its key.
   */
  lemma UndecodableOverwrites(c: Codec, buf: ByteString, steps: seq<Step>, d: ByteString, off: nat, key: ByteString)
    requires SeqNumAt48(c) && HashKeyAt(c, off) && Classify(c, Cut(d, |buf|)).DecodeError?
    requires key in SharedRun(c, buf, steps).lens
    ensures var s, s' := SharedRun(c, buf, steps), SharedRun(c, buf, steps + [Receive(d)]);
            var left := Overlay(Seen(s, key), Cut(d, |buf|));
            && key in s'.lens && Seen(s', key) == left && |left| >= 56
            && (KeyMatches(c, key, Seen(s', key)) <==>
                  StampOf(c, left).Some? && Field(left, 48) != 0 && key == Spelled(left, off))
  {
    hide SharedRun, SharedStep, Classify, KeyMatches, StampOf, SeqNumAt48, HashKeyAt, Field, Spelled, Overlay, Cut,
         Seen;
    SharedRunStep(c, buf, steps, Receive(d));
    KeptFramesAreFrames(c, buf, steps, key);
    var s := SharedRun(c, buf, steps);
    KeptAfterDropped(c, s, d, key);
    var left := Overlay(Seen(s, key), Cut(d, |buf|));
    StampIsSpelled(c, left, off, key);
  }

  /** The short run that breaks the invariant: after two stamped frames the first is filed wrongly. */
  lemma SecondFrameSpoilsFirst(c: Codec, buf: ByteString, f1: ByteString, f2: ByteString, s1: Stamp, s2: Stamp)
    requires SeqNumAt48(c) && |f1| <= |buf| && |f2| <= |buf|
    requires StampOf(c, f1) == Some(s1) && StampOf(c, f2) == Some(s2)
    requires s1.seqNum != 0 && s2.seqNum != s1.seqNum
    ensures var s := SharedRun(c, buf, [Receive(f1)] + [Receive(f2)]);
            var key := CacheKey(s1.hashKey, s1.seqNum);
            && key in s.lens
            && !KeyMatches(c, key, Seen(s, key))
            && ShownSeqNum(Seen(s, key)) == s2.seqNum
  {
    var key := CacheKey(s1.hashKey, s1.seqNum);
    assert Classify(c, f1) == Cacheable(key);
    var one := SharedRun(c, buf, [Receive(f1)]);
    assert [] + [Receive(f1)] == [Receive(f1)];
    SharedRunStep(c, buf, [], Receive(f1));
    SharedRunStep(c, buf, [Receive(f1)], Receive(f2));
    assert key in one.lens && one.lens[key] == |f1|;
    var two := SharedStep(c, one, Receive(f2));
    hide SharedRun;
    KeptFramesAreFrames(c, buf, [Receive(f1)] + [Receive(f2)], key);
    StampedFrameSpreads(c, one, f2, key);
    WrongSeqNumIsWrong(c, key, s1, Seen(two, key));
  }

  lemma WrongSeqNumIsWrong(c: Codec, key: ByteString, stamp: Stamp, raw: ByteString)
    requires SeqNumAt48(c) && key == CacheKey(stamp.hashKey, stamp.seqNum)
    requires ShownSeqNum(raw) != stamp.seqNum
    ensures !KeyMatches(c, key, raw)
  {
    match StampOf(c, raw)
    case None =>
    case Some(st) => CacheKeyInjective(st.hashKey, st.seqNum, stamp.hashKey, stamp.seqNum);
  }

  lemma FilesIfSo(c: Codec, raw: ByteString)
    ensures forall h, n :: Files(c, raw, h, n) ==> raw != [] && Classify(c, raw) == Cacheable(CacheKey(h, n))
    ensures Ignored(c, raw) <==> raw == [] || !Classify(c, raw).Cacheable?
  {
    hide Classify, Files, CacheKey;
    forall h, n | Files(c, raw, h, n) ensures raw != [] && Classify(c, raw) == Cacheable(CacheKey(h, n)) {
      FilesExactly(c, raw, h, n);
    }
    IgnoredExactly(c, raw);
  }

  // ----- the worker object -----

  /** A byte slice that starts where its backing array does. */
  datatype Slice = Slice(backing: array<Byte>, len: nat) {
    ghost function Content(): (bs: ByteString)
      requires len <= backing.Length
      reads backing
    {
      backing[..len]
    }
  }

  class Worker {
    const codec: Codec
    const copies: bool  // whether the store copies the value it is given
    const buf: array<Byte>
    var slices: map<ByteString, Slice>

    ghost predicate Valid()
      reads this`slices
    {
      forall k :: k in slices ==>
        && slices[k].len <= slices[k].backing.Length
        && (copies <==> slices[k].backing != buf)
    }

    ghost function Lens(): (lens: map<ByteString, nat>)
      reads this`slices
    {
      map k | k in slices :: slices[k].len
    }

    /** What a reader of the cache gets for each key. */
    ghost function View(): (view: map<ByteString, ByteString>)
      requires Valid()
      reads this`slices, (set k | k in slices :: slices[k].backing)
    {
      map k | k in slices :: slices[k].Content()
    }

    constructor (codec: Codec, copies: bool, size: nat)
      ensures Valid() && this.codec == codec && this.copies == copies
      ensures fresh(buf) && buf.Length == size && slices == map[]
    {
      this.codec := codec;
      this.copies := copies;
      buf := new Byte[size];
      slices := map[];
    }

    /** Recvfrom: the datagram, cut to the buffer, replaces the front of the buffer. */
    method Recvfrom(datagram: ByteString) returns (n: nat)
      modifies buf
      ensures n == if |datagram| <= buf.Length then |datagram| else buf.Length
      ensures buf[..n] == datagram[..n] == Cut(datagram, buf.Length) && buf[n..] == old(buf[n..])
      ensures buf[..] == Overwrite(old(buf[..]), Cut(datagram, buf.Length))
    {
      var raw := Cut(datagram, buf.Length);
      n := |raw|;
      var i := 0;
      while i < n
        invariant 0 <= i <= n
        invariant forall j :: 0 <= j < i ==> buf[j] == raw[j]
        invariant forall j :: i <= j < buf.Length ==> buf[j] == old(buf[j])
      {
        buf[i] := raw[i];
        i := i + 1;
      }
    }

    /** The value handed to the cache: the slice itself, or a copy the cache owns. */
    method Keep(n: nat) returns (slice: Slice)
      requires n <= buf.Length
      ensures slice.len == n <= slice.backing.Length
      ensures slice.backing[..n] == buf[..n]
      ensures copies ==> fresh(slice.backing)
      ensures !copies ==> slice.backing == buf
    {
      if copies {
        var own := new Byte[n];
        var i := 0;
        while i < n
          invariant 0 <= i <= n
          invariant own[..i] == buf[..i]
        {
          own[i] := buf[i];
          i := i + 1;
        }
        slice := Slice(own, n);
      } else {
        slice := Slice(buf, n);
      }
    }

    /**
     One turn of the receive loop: receive into the shared buffer, classify, store. A frame that its
     decoder gives a number is found under its pair; any other leaves every entry's slice as it was.
     */
    method ReceiveFrame(datagram: ByteString)
      requires Valid()
      modifies this, buf
      ensures Valid()
      ensures copies ==> View() == OwnedStep(codec, buf.Length, old(View()), Receive(datagram))
      ensures !copies ==> Shared(buf[..], Lens())
                          == SharedStep(codec, Shared(old(buf[..]), old(Lens())), Receive(datagram))
      ensures !copies ==> forall k :: k in View() ==> View()[k] == Seen(Shared(buf[..], Lens()), k)
      ensures var raw := if |datagram| <= buf.Length then datagram else datagram[..buf.Length];
              && (forall h, n :: Files(codec, raw, h, n) ==>
                    CacheKey(h, n) in View() && View()[CacheKey(h, n)] == raw
                    && slices == old(slices)[CacheKey(h, n) := slices[CacheKey(h, n)]])
              && (Ignored(codec, raw) ==> slices == old(slices))
    {
      hide Classify, StampOf, Files, Ignored, CacheKey;
      ghost var before := View();
      var n := Recvfrom(datagram);
      assert copies ==> View() == before;
      ghost var raw := Cut(datagram, buf.Length);
      assert buf[..n] == buf[..][..n] == raw;
      if n > 0 {
        var v := Classify(codec, buf[..n]);
        if v.Cacheable? {
          var slice := Keep(n);
          File(v.key, slice, raw);
        }
      }
      FilesIfSo(codec, raw);
    }

    /** Files a slice under a key; every other key keeps its slice. */
    method File(key: ByteString, slice: Slice, ghost raw: ByteString)
      requires Valid() && slice.len <= slice.backing.Length && slice.Content() == raw
      requires copies <==> slice.backing != buf
      modifies this`slices
      ensures Valid()
      ensures View() == old(View())[key := raw]
      ensures Lens() == old(Lens())[key := slice.len] && slices == old(slices)[key := slice]
    {
      hide Slice.Content;
      slices := slices[key := slice];
    }
  }
}
