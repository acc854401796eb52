/** One Retransmit call as the code runs it: claim, choose the group, write every socket under the lock. */
module Retransmit {
  import opened Bytes
  import opened Options
  import opened Dedup

  /** What the shared store answered: the key was set, it was already there, or the request failed. */
  datatype ClaimReply = Set | Taken | Error

  datatype Sending = Sending(iface: string, raw: ByteString, dest: Dest)

  /** The interfaces of a run of sendings, each at most once. */
  ghost predicate OncePerInterface(sent: seq<Sending>) {
    forall i, j :: 0 <= i < j < |sent| ==> sent[i].iface != sent[j].iface
  }

  /** Whether a frame goes into the write loop at all. */
  predicate Enters(redis: bool, raw: ByteString, reply: ClaimReply) {
    !redis || DedupKey(raw).None? || reply.Set?
  }

  class Retransmitter {
    const redis: bool
    const groupIndex: ByteString -> nat
    var sockets: map<string, int>   // interface name to socket
    var sent: seq<Sending>          // datagrams that left, in order
    var dedups: nat                 // retransmit dedup counter
    var errors: nat                 // error counter

    constructor (redis: bool, groupIndex: ByteString -> nat)
      ensures this.redis == redis && this.groupIndex == groupIndex
      ensures sockets == map[] && sent == [] && dedups == 0 && errors == 0
    {
      this.redis := redis;
      this.groupIndex := groupIndex;
      sockets := map[];
      sent := [];
      dedups := 0;
      errors := 0;
    }

    /** Opens a socket per interface in order, stopping at the first that cannot be opened. */
    method Open(ifaces: seq<string>, open: string -> Option<int>) returns (ok: bool)
      modifies this`sockets
      ensures ok <==> forall i :: 0 <= i < |ifaces| ==> open(ifaces[i]).Some?
      ensures ok ==> sockets.Keys == old(sockets).Keys + (set i | 0 <= i < |ifaces| :: ifaces[i])
    {
      var n := 0;
      while n < |ifaces|
        invariant 0 <= n <= |ifaces|
        invariant forall i :: 0 <= i < n ==> open(ifaces[i]).Some?
        invariant sockets.Keys == old(sockets).Keys + (set i | 0 <= i < n :: ifaces[i])
      {
        match open(ifaces[n])
        case None => return false;
        case Some(fd) => sockets := sockets[ifaces[n] := fd];
        n := n + 1;
      }
      ok := true;
    }

    /**
     The write loop: sockets in any order, stopping at the first failed write. Without a failure
     every socket has sent the frame exactly once; with one, those before it have.
     */
    method WriteAll(raw: ByteString, dest: Dest, writes: string -> bool) returns (ok: bool, ghost out: seq<Sending>)
      modifies this`sent, this`errors
      ensures sent == old(sent) + out && OncePerInterface(out)
      ensures forall i :: 0 <= i < |out| ==>
                out[i].iface in sockets && writes(out[i].iface) && out[i].raw == raw && out[i].dest == dest
      ensures ok <==> forall name :: name in sockets ==> writes(name)
      ensures ok ==> forall name :: name in sockets ==> Sending(name, raw, dest) in out
      ensures errors == old(errors) + if ok then 0 else 1
    {
      var todo := sockets.Keys;
      out := [];
      while todo != {}
        invariant todo <= sockets.Keys && errors == old(errors)
        invariant sent == old(sent) + out && OncePerInterface(out)
        invariant forall i :: 0 <= i < |out| ==>
                    out[i].iface in sockets && out[i].iface !in todo && writes(out[i].iface)
                    && out[i].raw == raw && out[i].dest == dest
        invariant forall name :: name in sockets && name !in todo ==> writes(name) && Sending(name, raw, dest) in out
        decreases |todo|
      {
        var name :| name in todo;
        if !writes(name) {
          errors := errors + 1;
          return false, out;
        }
        sent := sent + [Sending(name, raw, dest)];
        out := out + [Sending(name, raw, dest)];
        todo := todo - {name};
      }
      ok := true;
    }

    /**
     A frame that must be claimed enters the write loop exactly when the store said the key was set;
     an error counts as taken. A suppressed frame is not written and reported as success.
     */
    method Retransmit(raw: ByteString, txID: ByteString, reply: ClaimReply, writes: string -> bool)
      returns (err: bool, ghost out: seq<Sending>)
      modifies this`sent, this`dedups, this`errors
      ensures sent == old(sent) + out && OncePerInterface(out)
      ensures forall i :: 0 <= i < |out| ==>
                && out[i].iface in sockets && writes(out[i].iface) && out[i].raw == raw
                && (|raw| >= 7 && raw[6] in {4, 6} ==> out[i].dest == Control)
                && (|raw| >= 7 && raw[6] == 5 ==> out[i].dest == SubtreeAnnounce)
                && (|raw| < 7 || raw[6] !in {4, 5, 6} ==> out[i].dest == Shard(groupIndex(txID)))
                && out[i].dest == EgressDest(groupIndex, raw, txID)
      ensures Enters(redis, raw, reply) <==> !redis || |raw| < 56 || reply == Set
      ensures !Enters(redis, raw, reply) ==> !err && out == [] && dedups == old(dedups) + 1
      ensures Enters(redis, raw, reply) ==>
                && dedups == old(dedups)
                && (err <==> exists name :: name in sockets && !writes(name))
                && (!err ==> forall name :: name in sockets ==>
                      Sending(name, raw, EgressDest(groupIndex, raw, txID)) in out)
      ensures errors == old(errors) + if err then 1 else 0
    {
      AddressedExactly(groupIndex, raw, txID, EgressDest(groupIndex, raw, txID));
      hide EgressDest;
      if redis {
        var key := DedupKey(raw);
        if key.Some? && reply != Set {
          dedups := dedups + 1;
          return false, [];
        }
      }
      var ok;
      ok, out := WriteAll(raw, EgressDest(groupIndex, raw, txID), writes);
      err := !ok;
    }
  }
}
