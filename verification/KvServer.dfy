/**
  The key/value server and its clerk as the programs they are: fields updated in place, one message of the apply
  channel at a time, with buffered channels to wake waiting calls.
 */
module KvServer {
  import opened Options
  import opened KvReplica
  import opened KvSystem

  // A channel with room for one operation.
  class Channel {
    var content: Option<KvOp>

    constructor ()
      ensures content == None
    {
      content := None;
    }

    // Sends if there is room, and otherwise drops.
    method Offer(op: KvOp)
      modifies this
      ensures content == if old(content) == None then Some(op) else old(content)
    {
      if content == None { content := Some(op); }
    }
  }

  datatype Message =
    | CommandMessage(index: nat, op: KvOp)
    | SnapshotMessage(index: nat, content: Option<Saved>)  // no content: an empty snapshot

  datatype Err = OK | ErrNoKey | ErrWrongLeader

  // What a woken call is told: the operation, with the value read if it is a Get.
  function Answer(kv: map<string, string>, op: KvOp): KvOp {
    if op.kind == GetOp then op.(value := GetValue(kv, op.key)) else op
  }

  class Server {
    const maxRaftState: int
    var kv: map<string, string>
    var requestCache: map<int, int>
    var lastApplied: nat
    var notify: map<int, Channel>

    ghost function State(): Saved
      reads this
    {
      Saved(Store(kv, requestCache), lastApplied)
    }

    // Boots from what was saved last, if anything.
    constructor (maxRaftState: int, snapshot: Option<Saved>)
      ensures State() == (if snapshot.Some? then snapshot.value else EMPTY) && notify == map[]
      ensures this.maxRaftState == maxRaftState
    {
      this.maxRaftState := maxRaftState;
      kv, requestCache, lastApplied, notify := map[], map[], 0, map[];
      new;
      ReadSnapshot(snapshot);
    }

    method ReadSnapshot(snapshot: Option<Saved>)
      modifies `kv, `requestCache, `lastApplied
      ensures State() == if snapshot.Some? then snapshot.value else old(State())
    {
      if snapshot.Some? {
        kv, requestCache, lastApplied := snapshot.value.store.kv, snapshot.value.store.requestCache,
            snapshot.value.lastApplied;
      }
    }

    // Applies an operation that is not a repetition; a Get picks up its value.
    method ApplyOp(op: KvOp) returns (op': KvOp)
      modifies `kv, `requestCache
      ensures State() == Saved(Apply(old(State().store), op), lastApplied)
      ensures op' == Answer(kv, op)
    {
      op' := op;
      match op.kind {
        case PutOp =>
          kv := kv[op.key := op.value];
        case AppendOp =>
          kv := kv[op.key := (if op.key in kv then kv[op.key] else "") + op.value];
        case GetOp =>
          op' := op.(value := GetValue(kv, op.key));
      }
      requestCache := requestCache[op.client := op.seqNo];
    }

    method ShouldSnapshot(raftStateSize: int) returns (yes: bool)
      ensures yes <==> maxRaftState != -1 && raftStateSize >= maxRaftState
    {
      if maxRaftState == -1 { return false; }
      return raftStateSize >= maxRaftState;
    }

    // Hands the answer to the call waiting at an index, if there is one.
    method Wake(index: nat, op: KvOp)
      modifies `notify, notify.Values
      ensures notify == old(notify) - {index}
      ensures forall i {:trigger old(notify)[i]} ::
                i in old(notify) && (index !in old(notify) || old(notify)[i] != old(notify)[index]) ==>
                  old(notify)[i].content == old(notify[i].content)
      ensures index in old(notify) ==>
                old(notify)[index].content == if old(notify[index].content) == None then Some(op)
                    else old(notify[index].content)
    {
      if index in notify {
        var ch := notify[index];
        notify := notify - {index};
        ch.Offer(op);
      }
    }

    /**
      One message of the apply channel.  A snapshot is taken over if it is ahead.  A command takes effect unless it
      is a repetition, and then whoever waits at its index is woken with it.  `saved` is a snapshot handed to Raft.
     */
    method Update(msg: Message, raftStateSize: int, ghost last: nat) returns (saved: Option<Saved>)
      modifies this, notify.Values
      ensures msg.SnapshotMessage? ==>
                && notify == old(notify) && saved == None
                && State() == if msg.index <= old(lastApplied) then old(State())
                              else Saved(if msg.content.Some? then msg.content.value.store
                                  else old(State().store), msg.index)
      ensures msg.SnapshotMessage? && msg.content.Some? && msg.content.value.lastApplied == msg.index ==>
                Replica(State(), msg.index) == OnSnapshot(Replica(old(State()), last), msg.content.value)
      ensures msg.CommandMessage? ==>
                Replica(State(), msg.index) == OnCommand(Replica(old(State()), last), msg.index, msg.op)
      ensures msg.CommandMessage? ==> Duplicate(State().store, msg.op)
      ensures msg.CommandMessage? ==>
                && notify == old(notify) - {msg.index}
                && saved == (if maxRaftState != -1 && raftStateSize >= maxRaftState then Some(State()) else None)
                && (msg.index in old(notify) ==>
                      old(notify)[msg.index].content ==
                      if old(notify[msg.index].content) == None then Some(Answer(kv, msg.op))
                          else old(notify[msg.index].content))
    {
      saved := None;
      if msg.SnapshotMessage? {
        if msg.index > lastApplied {
          ReadSnapshot(msg.content);
          lastApplied := msg.index;
        }
      } else {
        var op := msg.op;
        if !Duplicate(Store(kv, requestCache), op) {
          op := ApplyOp(op);
        } else if op.kind == GetOp {
          op := op.(value := GetValue(kv, op.key));
        }
        lastApplied := msg.index;
        var full := ShouldSnapshot(raftStateSize);
        if full { saved := Some(Saved(Store(kv, requestCache), lastApplied)); }
        Wake(msg.index, op);
      }
    }

    // The channel calls wait on for an index.
    method GetNotifyCh(index: int) returns (ch: Channel)
      modifies `notify
      ensures notify == old(notify)[index := ch]
      ensures if index in old(notify) then ch == old(notify)[index] else fresh(ch) && ch.content == None
    {
      if index in notify {
        ch := notify[index];
        assert notify == notify[index := ch];
      } else {
        ch := new Channel();
        notify := notify[index := ch];
      }
    }

    // The end of a Put or Append: woken with an operation, or timed out.
    method FinishPutAppend(index: int, client: int, seqNo: int, applied: Option<KvOp>) returns (err: Err)
      modifies `notify
      ensures err == OK <==> applied.Some? && applied.value.client == client && applied.value.seqNo == seqNo
      ensures err != OK ==> err == ErrWrongLeader
      ensures notify == if applied.None? then old(notify) - {index} else old(notify)
    {
      if applied.Some? {
        err := if applied.value.client == client && applied.value.seqNo == seqNo then OK else ErrWrongLeader;
      } else {
        err := ErrWrongLeader;
        notify := notify - {index};
      }
    }

    // The end of a Get.
    method FinishGet(index: int, client: int, seqNo: int, applied: Option<KvOp>) returns (err: Err, value: string)
      modifies `notify
      ensures err == ErrWrongLeader <==> applied.None? || applied.value.client != client || applied.value.seqNo != seqNo
      ensures err == OK ==> value == applied.value.value != NO_KEY
      ensures err == ErrNoKey ==> value == "" && applied.value.value == NO_KEY
      ensures notify == if applied.None? then old(notify) - {index} else old(notify)
    {
      value := "";
      if applied.Some? {
        if applied.value.client == client && applied.value.seqNo == seqNo {
          if applied.value.value == NO_KEY { err := ErrNoKey; } else { err, value := OK, applied.value.value; }
        } else {
          err := ErrWrongLeader;
        }
      } else {
        err := ErrWrongLeader;
        notify := notify - {index};
      }
    }
  }

  // ---------- the clerk ----------

  datatype Reply = Lost | Replied(err: Err, value: string)

  predicate Final(reply: Reply, isGet: bool) {
    reply.Replied? && (reply.err == OK || (isGet && reply.err == ErrNoKey))
  }

  function NextServer(leader: nat, servers: nat): (r: nat)
    requires leader < servers
    ensures r == if leader + 1 == servers then 0 else leader + 1
  {
    (leader + 1) % servers
  }

  // The server a clerk asks after so many failed attempts: one after another, round and round.
  function ServerAfter(leader: nat, failed: nat, servers: nat): (r: nat)
    requires leader < servers
    ensures r < servers
  {
    if failed == 0 then leader
    else
      var last := ServerAfter(leader, failed - 1, servers);
      if last + 1 == servers then 0 else last + 1
  }

  lemma {:induction false} ServerAfterIs(leader: nat, failed: nat, servers: nat)
    requires leader < servers && failed < servers
    ensures ServerAfter(leader, failed, servers) ==
            if leader + failed < servers then leader + failed else leader + failed - servers
  {
    if failed > 0 { ServerAfterIs(leader, failed - 1, servers); }
  }

  /** As many attempts as there are servers reach every one of them, wherever the clerk starts. */
  lemma EveryServerIsTried(leader: nat, server: nat, servers: nat) returns (failed: nat)
    requires leader < servers && server < servers
    ensures failed < servers && ServerAfter(leader, failed, servers) == server
  {
    failed := if leader <= server then server - leader else server + servers - leader;
    ServerAfterIs(leader, failed, servers);
  }

  class Clerk {
    const id: int
    const servers: nat
    var seqNo: int
    var leader: nat

    constructor (id: int, servers: nat)
      requires servers > 0
      ensures this.id == id && this.servers == servers && seqNo == 0 && leader == 0
    {
      this.id, this.servers, seqNo, leader := id, servers, 0, 0;
    }

    /**
      Sends one operation until it is answered.  `replies` are what the attempts come back with, up to the first
      final answer.  The operation is the same in every attempt, each attempt after the first goes to the next server,
      and the next operation has the next number.
     */
    method Call(kind: OpType, key: string, value: string, replies: seq<Reply>) returns (op: KvOp, result: string)
      requires servers > 0 && leader < servers
      requires replies != [] && Final(replies[|replies| - 1], kind == GetOp)
      requires forall i :: 0 <= i < |replies| - 1 ==> !Final(replies[i], kind == GetOp)
      modifies `seqNo, `leader
      ensures op == KvOp(kind, key, if kind == GetOp then "" else value, old(seqNo), id) && seqNo == old(seqNo) + 1
      ensures leader == ServerAfter(old(leader), |replies| - 1, servers)
      ensures result == if kind == GetOp && replies[|replies| - 1].err == OK then replies[|replies| - 1].value else ""
    {
      op := KvOp(kind, key, if kind == GetOp then "" else value, seqNo, id);
      seqNo := seqNo + 1;
      var i := 0;
      while !Final(replies[i], kind == GetOp)
        invariant 0 <= i < |replies| && leader == ServerAfter(old(leader), i, servers)
        invariant seqNo == old(seqNo) + 1
        decreases |replies| - i
      {
        leader := NextServer(leader, servers);
        i := i + 1;
      }
      result := if kind == GetOp && replies[i].err == OK then replies[i].value else "";
    }
  }

  /**
    A call waits at an index, the command of that index arrives, and the call ends.  It is told something final exactly
    if the command has its own client and number; then the server's state accounts for the command, and a Get is told
    what a clerk makes of the server's values.
   */
  method Serve(s: Server, index: nat, op: KvOp, raftStateSize: int, isGet: bool, client: int, seqNo: int)
      returns (reply: Reply)
    requires index in s.notify && s.notify[index].content == None
    modifies s, s.notify.Values
    ensures Final(reply, isGet) <==> op.client == client && op.seqNo == seqNo
    ensures Final(reply, isGet) ==> Duplicate(s.State().store, op)
    ensures Final(reply, isGet) && isGet && op.kind == GetOp ==>
              && reply.value == Result(s.kv, op)
              && (reply.err == ErrNoKey <==> op.key !in s.kv || s.kv[op.key] == NO_KEY)
    ensures s.State() == OnCommand(Replica(old(s.State()), index), index, op).state
  {
    var ch := s.notify[index];
    var _ := s.Update(CommandMessage(index, op), raftStateSize, index);
    if isGet {
      var err, value := s.FinishGet(index, client, seqNo, ch.content);
      reply := Replied(err, value);
    } else {
      var err := s.FinishPutAppend(index, client, seqNo, ch.content);
      reply := Replied(err, "");
    }
  }

  /** What the user of a clerk reads is the stored value, or nothing for a missing key, exactly when the key does not
      hold the text that stands for a missing one. */
  lemma ClerkReads(kv: map<string, string>, op: KvOp)
    requires op.kind == GetOp
    ensures Result(kv, op) == (if op.key in kv then kv[op.key] else "") <==> !(op.key in kv && kv[op.key] == NO_KEY)
  {
  }
}
