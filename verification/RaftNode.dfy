/** One node as the code has it: a mutable object whose *Locked methods update its
    fields in place. Every method is proved equal to its specification in NodeSpec. */
module RaftNode {
  import opened Types
  import opened RaftLog
  import opened NodeSpec
  import opened EntryLog
  import opened CommitRule

  lemma AppendFanoutSnoc(n: Node, ps: seq<NodeId>, k: nat)
    requires k < |ps|
    ensures AppendFanout(n, ps[..k + 1]) == AppendFanout(n, ps[..k]) + if ps[k] == n.id then [] else [AppendFor(n, ps[k])]
  {
    FanoutSplits(n, ps[..k], [ps[k]]);
    assert ps[..k + 1] == ps[..k] + [ps[k]];
  }

  lemma {:induction false} FanoutSplits(n: Node, a: seq<NodeId>, b: seq<NodeId>)
    ensures AppendFanout(n, a + b) == AppendFanout(n, a) + AppendFanout(n, b)
    ensures VoteFanout(n, a + b) == VoteFanout(n, a) + VoteFanout(n, b)
  {
    if |a| == 0 {
      assert a + b == b;
    } else {
      assert (a + b)[1..] == a[1..] + b;
      FanoutSplits(n, a[1..], b);
    }
  }

  lemma VoteFanoutSnoc(n: Node, ps: seq<NodeId>, k: nat)
    requires k < |ps|
    ensures VoteFanout(n, ps[..k + 1]) == VoteFanout(n, ps[..k]) + if ps[k] == n.id then [] else [VoteRequest(n, ps[k])]
  {
    FanoutSplits(n, ps[..k], [ps[k]]);
    assert ps[..k + 1] == ps[..k] + [ps[k]];
  }

  lemma StandKeepsPeers(n: Node, draw: nat)
    ensures Stand(n, draw).peers == n.peers
  {
  }

  lemma QueueMore(n: Node, ms: seq<Message>, m: Message)
    ensures Queue(QueueAll(n, ms), m) == QueueAll(n, ms + [m])
    ensures QueueAll(n, []) == n
  {
    assert Tagged(n.epoch, ms + [m]) == Tagged(n.epoch, ms) + Tagged(n.epoch, [m]);
    assert n.pending + Tagged(n.epoch, []) == n.pending;
    assert n.pending + Tagged(n.epoch, ms) + Tagged(n.epoch, [m]) == n.pending + Tagged(n.epoch, ms + [m]);
  }

  lemma StepDownKeepsLog(n: Node, t: nat)
    ensures StepDown(n, t).log == n.log && (t <= n.term ==> StepDown(n, t) == n)
  {
  }

  /** One entry either extends the store or is refused, and truncation takes it back. */
  lemma TakenBack(log: Log, store: Log, e: Entry)
    ensures Truncate(log + [e], |log| + 1) == log
    ensures StoreAppend(store, [e]) == if e.index == |store| + 1 then Some(store + [e]) else None
    ensures e.index == |log| + 1 ==> Continues(log, [e])
  {
  }

  /** m is m0 with every member of ps set to v. */
  ghost predicate AllSet(m: map<NodeId, nat>, m0: map<NodeId, nat>, ps: seq<NodeId>, v: nat) {
    && (forall p :: p in m <==> p in m0 || p in ps)
    && (forall p :: p in m ==> m[p] == if p in ps then v else m0[p])
  }

  lemma SetOne(m: map<NodeId, nat>, m0: map<NodeId, nat>, ps: seq<NodeId>, k: nat, v: nat)
    requires k < |ps| && AllSet(m, m0, ps[..k], v)
    ensures AllSet(m[ps[k] := v], m0, ps[..k + 1], v)
  {
    assert ps[..k + 1] == ps[..k] + [ps[k]];
  }

  lemma AllSetIsEnthroned(n: Node, next: map<NodeId, nat>, matches: map<NodeId, nat>)
    requires AllSet(next, n.nextIndex, n.peers, |n.log| + 1) && AllSet(matches, n.matchIndex, n.peers, 0)
    ensures n.(role := Leader, leaderHint := n.id, nextIndex := next, matchIndex := matches,
               timers := n.timers.(heartbeatElapsed := 0, heartbeatTimeout := 1)) == Enthrone(n)
  {
    assert Enthrone(n).nextIndex == next;
    assert Enthrone(n).matchIndex == matches;
  }

  lemma SendKeepsLog(n: Node)
    ensures var s := SendAppends(n); s.log == n.log && s.store == n.store && s.term == n.term && s.role == n.role
    ensures var a := AdvanceCommit(SendAppends(n)); a.log == n.log && a.store == n.store && a.term == n.term && a.role == n.role
  {
    hide AppendFanout, Tagged, IsQuorumIndex, TermAt;
  }

  class RaftNode {
    const id: NodeId
    const peers: seq<NodeId>
    const log: MemLog
    const storage: MemoryStorage

    var currentTerm: nat
    var votedFor: NodeId
    var role: Role
    var commitIndex: nat
    var leaderHint: NodeId
    var nextIndex: map<NodeId, nat>
    var matchIndex: map<NodeId, nat>
    var votesReceived: set<NodeId>
    var timers: Timers
    var stepDownEpoch: nat
    var pendingMsgs: seq<Pending>
    var pendingHS: Option<HardState>

    /** The stored log mirrors the log, and both are indexed from 1. */
    predicate Valid()
      reads log, storage
    {
      log.Valid() && storage.Valid() && storage.entries == log.entries
    }

    function State(): Node
      reads this, log, storage
    {
      Node(id, peers, currentTerm, votedFor, role, log.entries, storage.entries, commitIndex, leaderHint,
           nextIndex, matchIndex, votesReceived, timers, stepDownEpoch, pendingMsgs, pendingHS)
    }

    /** newNode: resume from the hard state and the log that storage holds. */
    constructor (self: NodeId, members: seq<NodeId>, store: MemoryStorage, draw: nat)
      requires store.Valid()
      ensures Valid() && fresh(log) && storage == store
      ensures State() == Restart(self, members, store.hs, store.entries, draw)
    {
      id, peers, storage := self, members, store;
      role, leaderHint, votesReceived := Follower, NO_NODE, {};
      nextIndex, matchIndex := map[], map[];
      stepDownEpoch, pendingMsgs, pendingHS := 0, [], None;
      currentTerm, votedFor, commitIndex := store.hs.term, store.hs.votedFor, store.hs.commit;
      timers := Timers(0, draw, 0, 0, 0);
      var l := new MemLog();
      log := l;
      new;
      var last := storage.LastIndex();
      if last != 0 {
        var ents := storage.Entries(1, last + 1);
        assert ents.value == storage.entries && [] + storage.entries == storage.entries;
        log.Append(ents.value);
      }
    }

    // ---- outbox -------------------------------------------------------------------------

    method QueueMsgLocked(m: Message)
      modifies this`pendingMsgs
      ensures Valid() == old(Valid()) && State() == Queue(old(State()), m)
    {
      pendingMsgs := pendingMsgs + [Pending(stepDownEpoch, m)];
      assert Tagged(stepDownEpoch, [m]) == [Pending(stepDownEpoch, m)];
    }

    method QueueHardStateLocked()
      modifies this`pendingHS
      ensures Valid() == old(Valid()) && State() == QueueHS(old(State()))
    {
      pendingHS := Some(HardState(currentTerm, votedFor, commitIndex));
    }

    /** Ready: hand out the messages of the current epoch and the queued hard state,
        and empty both buffers. */
    method Ready() returns (msgs: seq<Message>, hs: Option<HardState>)
      requires Valid()
      modifies this`pendingMsgs, this`pendingHS
      ensures Valid() && State() == old(State()).(pending := [], pendingHS := None)
      ensures msgs == Live(old(pendingMsgs), stepDownEpoch) && hs == old(pendingHS)
    {
      msgs := [];
      for k := 0 to |pendingMsgs|
        invariant msgs + Live(pendingMsgs[k..], stepDownEpoch) == Live(pendingMsgs, stepDownEpoch)
      {
        assert pendingMsgs[k..][1..] == pendingMsgs[k + 1..];
        if pendingMsgs[k].epoch == stepDownEpoch {
          assert msgs + [pendingMsgs[k].msg] + Live(pendingMsgs[k + 1..], stepDownEpoch) == msgs + Live(pendingMsgs[k..], stepDownEpoch);
          msgs := msgs + [pendingMsgs[k].msg];
        }
      }
      pendingMsgs := [];
      hs := pendingHS;
      pendingHS := None;
    }

    method MaybeStepDownLocked(rpcTerm: nat)
      requires Valid()
      modifies this
      ensures Valid() && State() == StepDown(old(State()), rpcTerm)
    {
      hide Valid, QueueHS;
      if rpcTerm <= currentTerm { return; }
      currentTerm, votedFor, role, leaderHint := rpcTerm, NO_NODE, Follower, NO_NODE;
      votesReceived, stepDownEpoch := {}, stepDownEpoch + 1;
      QueueHardStateLocked();
    }

    method ResetElectionTimeoutLocked(draw: nat)
      modifies this`timers
      ensures Valid() == old(Valid()) && State() == ResetElection(old(State()), draw)
    {
      timers := timers.(electionTimeout := draw, electionElapsed := 0);
    }

    // ---- leader ----------------------------------------------------------------------------

    method SendAppendEntriesLocked(peer: NodeId)
      requires Valid()
      modifies this`pendingMsgs
      ensures Valid() && State() == Queue(old(State()), AppendFor(old(State()), peer))
    {
      var next := if peer in nextIndex then nextIndex[peer] else 0;
      var prev := if next == 0 then MAX_UINT64 else next - 1;
      var prevTerm := log.Term(prev);
      var entries := log.EntriesFrom(next);
      QueueMsgLocked(AppendEntries(currentTerm, id, peer, prev, if prevTerm.Some? then prevTerm.value else 0, entries, commitIndex));
    }

    /** The fan-out loop over every peer but the node itself. */
    method SendAppendsLocked()
      requires Valid()
      modifies this`pendingMsgs
      ensures Valid() && State() == SendAppends(old(State()))
    {
      ghost var n := State();
      QueueMore(n, [], AppendFor(n, id));
      for k := 0 to |peers|
        invariant Valid() && State() == QueueAll(n, AppendFanout(n, peers[..k]))
      {
        AppendFanoutSnoc(n, peers, k);
        if peers[k] != id {
          QueueMore(n, AppendFanout(n, peers[..k]), AppendFor(n, peers[k]));
          assert AppendFor(State(), peers[k]) == AppendFor(n, peers[k]);
          SendAppendEntriesLocked(peers[k]);
        }
      }
      assert peers[..|peers|] == peers;
    }

    /** Every peer starts at the end of the new leader's log, acknowledged nowhere. */
    method ResetProgressLocked(nextIdx: nat)
      modifies this`nextIndex, this`matchIndex
      ensures AllSet(nextIndex, old(nextIndex), peers, nextIdx) && AllSet(matchIndex, old(matchIndex), peers, 0)
    {
      for k := 0 to |peers|
        invariant AllSet(nextIndex, old(nextIndex), peers[..k], nextIdx) && AllSet(matchIndex, old(matchIndex), peers[..k], 0)
      {
        SetOne(nextIndex, old(nextIndex), peers, k, nextIdx);
        SetOne(matchIndex, old(matchIndex), peers, k, 0);
        nextIndex := nextIndex[peers[k] := nextIdx];
        matchIndex := matchIndex[peers[k] := 0];
      }
      assert peers[..|peers|] == peers;
    }

    method BecomeLeaderLocked()
      requires Valid()
      modifies this
      ensures Valid() && State() == BecomeLeader(old(State()))
    {
      hide AppendFanout, QueueAll, AllSet, Enthrone;
      ghost var n := State();
      role := Leader;
      leaderHint := id;
      var last := log.LastIndex();
      ResetProgressLocked(last + 1);
      timers := timers.(heartbeatElapsed := 0, heartbeatTimeout := 1);
      AllSetIsEnthroned(n, nextIndex, matchIndex);
      SendAppendsLocked();
    }

    method MaybeAdvanceCommitLocked()
      requires Valid()
      modifies this`commitIndex, this`pendingHS
      ensures Valid() && State() == AdvanceCommit(old(State()))
    {
      var pick := PickQuorumIndex(State());
      if pick.None? { return; }
      var quorumIndex := pick.value;
      QuorumIndexIsUnique(State(), quorumIndex, QuorumIndex(State()));
      if quorumIndex <= commitIndex { return; }
      var term := log.Term(quorumIndex);
      if (if term.Some? then term.value else 0) != currentTerm { return; }
      commitIndex := quorumIndex;
      QueueHardStateLocked();
    }

    method TickLeaderLocked()
      requires Valid()
      modifies this
      ensures Valid() && State() == TickLeader(old(State()))
    {
      timers := timers.(heartbeatElapsed := timers.heartbeatElapsed + 1);
      if timers.heartbeatElapsed < timers.heartbeatTimeout { return; }
      timers := timers.(heartbeatElapsed := 0);
      SendAppendsLocked();
      MaybeAdvanceCommitLocked();
    }

    method HandleAppendEntriesRespLocked(m: Message)
      requires Valid() && m.AppendEntriesResp?
      modifies this
      ensures Valid() && State() == HandleAppendResp(old(State()), m)
    {
      if role != Leader || m.term != currentTerm { return; }
      if m.success {
        matchIndex := matchIndex[m.from := m.matchIndex];
        nextIndex := nextIndex[m.from := m.matchIndex + 1];
        MaybeAdvanceCommitLocked();
        return;
      }
      if m.from in nextIndex && nextIndex[m.from] > 1 {
        nextIndex := nextIndex[m.from := nextIndex[m.from] - 1];
      }
    }

    // ---- candidate ---------------------------------------------------------------------------

    method RequestVotesLocked()
      requires Valid()
      modifies this`pendingMsgs
      ensures Valid() && State() == QueueAll(old(State()), VoteFanout(old(State()), peers))
    {
      ghost var n := State();
      QueueMore(n, [], VoteRequest(n, id));
      for k := 0 to |peers|
        invariant Valid() && State() == QueueAll(n, VoteFanout(n, peers[..k]))
      {
        VoteFanoutSnoc(n, peers, k);
        if peers[k] != id {
          QueueMore(n, VoteFanout(n, peers[..k]), VoteRequest(n, peers[k]));
          var lastIndex := log.LastIndex();
          QueueMsgLocked(RequestVote(currentTerm, id, peers[k], lastIndex, LastTerm(log.entries)));
        }
      }
      assert peers[..|peers|] == peers;
    }

    method StandLocked(draw: nat)
      requires Valid()
      modifies this`role, this`currentTerm, this`votedFor, this`leaderHint, this`votesReceived, this`timers, this`pendingHS
      ensures Valid() && State() == Stand(old(State()), draw)
    {
      hide Valid, ResetElection, QueueHS;
      role, currentTerm, votedFor, leaderHint, votesReceived := Candidate, currentTerm + 1, id, NO_NODE, {id};
      ResetElectionTimeoutLocked(draw);
      QueueHardStateLocked();
    }

    method BecomeCandidateLocked(draw: nat)
      requires Valid()
      modifies this
      ensures Valid() && State() == BecomeCandidate(old(State()), draw)
    {
      hide Stand, VoteFanout, QueueAll, BecomeLeader;
      ghost var n := State();
      StandLocked(draw);
      RequestVotesLocked();
      if |votesReceived| >= |peers| / 2 + 1 { BecomeLeaderLocked(); }
      StandKeepsPeers(n, draw);
    }

    method TickFollowerLocked(draw: nat)
      requires Valid()
      modifies this
      ensures Valid() && State() == TickFollower(old(State()), draw)
    {
      hide BecomeCandidate;
      timers := timers.(electionElapsed := timers.electionElapsed + 1, lastHeartbeat := timers.lastHeartbeat + 1);
      if timers.electionElapsed >= timers.electionTimeout { BecomeCandidateLocked(draw); }
    }

    method TickCandidateLocked(draw: nat)
      requires Valid()
      modifies this
      ensures Valid() && State() == TickCandidate(old(State()), draw)
    {
      hide BecomeCandidate;
      timers := timers.(electionElapsed := timers.electionElapsed + 1);
      if timers.electionElapsed >= timers.electionTimeout { BecomeCandidateLocked(draw); }
    }

    method HandleRequestVoteResponseLocked(m: Message)
      requires Valid() && m.RequestVoteResponse?
      modifies this
      ensures Valid() && State() == HandleVoteResponse(old(State()), m)
    {
      hide BecomeLeader;
      if role != Candidate || m.term != currentTerm { return; }
      if !m.granted { return; }
      votesReceived := votesReceived + {m.from};
      if |votesReceived| >= |peers| / 2 + 1 { BecomeLeaderLocked(); }
    }

    // ---- follower -----------------------------------------------------------------------------

    method HandleRequestVoteLocked(m: Message, draw: nat)
      requires Valid() && m.RequestVote?
      modifies this
      ensures Valid() && State() == HandleRequestVote(old(State()), m, draw)
    {
      hide QueueAll, UpToDate;
      var lastIndex := log.LastIndex();
      var grant := m.term >= currentTerm && (votedFor == NO_NODE || votedFor == m.from) &&
        UpToDate(m.lastTerm, m.lastIndex, LastTerm(log.entries), lastIndex);
      if grant {
        votedFor := m.from;
        ResetElectionTimeoutLocked(draw);
        QueueHardStateLocked();
      }
      QueueMsgLocked(RequestVoteResponse(currentTerm, id, m.from, grant));
    }

    method FirstConflictIndex(entries: seq<Entry>) returns (fc: nat)
      requires Valid()
      ensures fc == FirstConflict(log.entries, entries)
    {
      var last := log.LastIndex();
      for k := 0 to |entries|
        invariant FirstConflict(log.entries, entries) == FirstConflict(log.entries, entries[k..])
      {
        var e := entries[k];
        assert entries[k..][1..] == entries[k + 1..];
        if e.index > last { return e.index; }
        var localTerm := log.Term(e.index);
        if localTerm.value != e.term { return e.index; }
      }
      fc := 0;
    }

    static method SuffixFrom(entries: seq<Entry>, from: nat) returns (suffix: seq<Entry>)
      ensures suffix == EntriesFrom(entries, from)
    {
      for k := 0 to |entries|
        invariant EntriesFrom(entries, from) == EntriesFrom(entries[k..], from)
      {
        assert entries[k..][1..] == entries[k + 1..];
        if entries[k].index >= from { return entries[k..]; }
      }
      suffix := [];
    }

    method MirrorLogWriteLocked(from: nat, suffix: seq<Entry>) returns (ok: bool)
      requires storage.Valid() && from > 0
      modifies storage`entries
      ensures storage.Valid() && (ok, storage.entries) == Mirror(old(storage.entries), from, suffix)
    {
      ok := storage.TruncateSuffix(from);
      if !ok { return false; }
      ok := storage.Append(suffix);
    }

    method ReplyAppendEntriesLocked(to: NodeId, success: bool, index: nat)
      modifies this`pendingMsgs
      ensures Valid() == old(Valid()) && State() == Queue(old(State()), AppendReply(old(State()), to, success, index))
    {
      QueueMsgLocked(AppendEntriesResp(currentTerm, id, to, success, index));
    }

    /** Truncate at the first conflict and append the rest, in memory and in storage. */
    method ResolveConflictLocked(fc: nat, entries: seq<Entry>) returns (ok: bool)
      requires Valid() && fc > 0
      modifies log, storage`entries
      ensures storage.Valid() && (ok <==> Valid())
      ensures log.entries == Truncate(old(log.entries), fc) + EntriesFrom(entries, fc)
      ensures (ok, storage.entries) == Mirror(old(storage.entries), fc, EntriesFrom(entries, fc))
    {
      StoreAppendIff(Truncate(log.entries, fc), EntriesFrom(entries, fc));
      var suffix := SuffixFrom(entries, fc);
      log.TruncateSuffix(fc);
      log.Append(suffix);
      ok := MirrorLogWriteLocked(fc, suffix);
    }

    method FollowCommitLocked(m: Message)
      requires Valid() && m.AppendEntries?
      modifies this`commitIndex, this`pendingHS
      ensures Valid() && State() == FollowCommit(old(State()), m)
    {
      if m.leaderCommit > commitIndex {
        var lastNew := m.prevIndex + |m.entries|;
        commitIndex := if m.leaderCommit <= lastNew then m.leaderCommit else lastNew;
        QueueHardStateLocked();
      }
    }

    /** A request that would rewrite a committed entry panics. A batch with a gap is
        taken by the log and refused by the storage, which ends the mirroring; neither
        happens in a run (Guards.HandlersAreCallable). */
    method HandleAppendEntriesLocked(m: Message)
      requires Valid() && m.AppendEntries? && !TruncatePanics(State(), m)
      modifies this, log, storage`entries
      ensures State() == HandleAppend(old(State()), m)
      ensures storage.Valid() && (Valid() <==> State().store == State().log)
    {
      hide FirstConflict, EntriesFrom, Mirror, QueueAll, Match, FollowCommit, AppendReply, Indexed;
      if m.term < currentTerm {
        ReplyAppendEntriesLocked(m.from, false, 0);
        return;
      }
      timers := timers.(electionElapsed := 0, lastHeartbeat := 0);
      leaderHint := m.from;
      var matches := log.Matches(m.prevIndex, m.prevTerm);
      if !matches {
        ReplyAppendEntriesLocked(m.from, false, 0);
        return;
      }
      var fc := FirstConflictIndex(m.entries);
      if fc != 0 {
        var ok := ResolveConflictLocked(fc, m.entries);
        if !ok {
          ReplyAppendEntriesLocked(m.from, false, 0);
          return;
        }
      }
      FollowCommitLocked(m);
      var last := log.LastIndex();
      ReplyAppendEntriesLocked(m.from, true, last);
    }

    // ---- proposals and dispatch ------------------------------------------------------------------

    /** The entry and its index, when the node leads and the store takes it; otherwise
        neither log keeps it. */
    method ProposeLocked(data: Types.Bytes, storeFails: bool) returns (index: Option<nat>)
      requires Valid()
      modifies this`matchIndex, log, storage`entries
      ensures Valid() && (State(), index) == NodeSpec.ProposeLocked(old(State()), data, storeFails)
      ensures index.Some? <==> role == Leader && !storeFails
      ensures index.Some? ==> index.value == |old(log.entries)| + 1 && id in matchIndex && matchIndex[id] == index.value
      ensures log.entries == storage.entries == old(log.entries) + if index.Some? then [Entry(currentTerm, index.value, data)] else []
    {
      hide StoreAppend, Truncate, LastTerm;
      if role != Leader { return None; }
      var last := log.LastIndex();
      TakenBack(log.entries, storage.entries, Entry(currentTerm, last + 1, data));
      var e := Entry(currentTerm, last + 1, data);
      log.Append([e]);
      var ok := false;
      if !storeFails { ok := storage.Append([e]); }
      if !ok {
        log.TruncateSuffix(last + 1);
        return None;
      }
      matchIndex := matchIndex[id := last + 1];
      index := Some(last + 1);
    }

    /** The index and the term of the entry, under which its proposer waits. */
    method Propose(data: Types.Bytes, storeFails: bool) returns (index: Option<nat>, term: nat)
      requires Valid()
      modifies this, log, storage`entries
      ensures Valid() && State() == NodeSpec.Propose(old(State()), data, storeFails)
      ensures index.Some? <==> old(role) == Leader && !storeFails
      ensures if index.Some? then index.value == |old(log.entries)| + 1 && term == currentTerm == old(currentTerm) else term == 0
      ensures log.entries == storage.entries == old(log.entries) + if index.Some? then [Entry(term, index.value, data)] else []
    {
      hide NodeSpec.ProposeLocked, SendAppends, AdvanceCommit;
      index := ProposeLocked(data, storeFails);
      term := 0;
      if index.Some? {
        term := currentTerm;
        SendKeepsLog(State());
        SendAppendsLocked();
        MaybeAdvanceCommitLocked();
      }
    }

    method TickLocked(draw: nat)
      requires Valid()
      modifies this
      ensures Valid() && State() == Tick(old(State()), draw)
    {
      hide TickFollower, TickCandidate, TickLeader;
      match role
      case Follower => TickFollowerLocked(draw);
      case Candidate => TickCandidateLocked(draw);
      case Leader => TickLeaderLocked();
    }

    method StepLocked(m: Message, draw: nat)
      requires Valid() && !Panics(State(), m)
      modifies this, log, storage`entries
      ensures State() == Receive(old(State()), m, draw)
      ensures storage.Valid() && (Valid() <==> State().store == State().log)
    {
      hide HandleRequestVote, HandleVoteResponse, HandleAppend, HandleAppendResp, TruncatePanics, Indexed;
      StepDownKeepsLog(State(), m.term);
      if m.term > currentTerm { MaybeStepDownLocked(m.term); }
      match m
      case RequestVote(_, _, _, _, _) => HandleRequestVoteLocked(m, draw);
      case RequestVoteResponse(_, _, _, _) => HandleRequestVoteResponseLocked(m);
      case AppendEntries(_, _, _, _, _, _, _) => HandleAppendEntriesLocked(m);
      case AppendEntriesResp(_, _, _, _, _) => HandleAppendEntriesRespLocked(m);
    }
  }

  /** flush persists before it sends: a node that dies once its hard state is saved
      comes back with the term, vote, commit index and log it had. */
  method FlushThenRestart(n: RaftNode, draw: nat) returns (r: RaftNode, msgs: seq<Message>)
    requires n.Valid() && Current(n.State()) == (if n.pendingHS.Some? then n.pendingHS.value else n.storage.hs)
    modifies n, n.storage
    ensures r.Valid() && r.State() == Restart(n.id, n.peers, Current(old(n.State())), old(n.State()).log, draw)
    ensures r.currentTerm == old(n.currentTerm) && r.votedFor == old(n.votedFor) && r.commitIndex == old(n.commitIndex)
    ensures r.log.entries == r.storage.entries == old(n.log.entries)
    ensures r.role == Follower && r.leaderHint == NO_NODE && r.pendingMsgs == [] && r.pendingHS == None
    ensures r.timers.electionElapsed == 0 && r.timers.electionTimeout == draw
    ensures msgs == Live(old(n.pendingMsgs), n.stepDownEpoch)
  {
    hide Live, Indexed;
    var hs;
    msgs, hs := n.Ready();
    if hs.Some? { n.storage.SaveHardState(hs.value); }
    r := new RaftNode(n.id, n.peers, n.storage, draw);
  }
}
