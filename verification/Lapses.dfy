/** Runs of three nodes in which promises of the code fail: the second debug check at
    Ready, the order and growth of the indexes in Status, and whose answer a proposal
    gets. */
module Lapses {
  import opened Types
  import opened RaftLog
  import opened NodeSpec
  import opened Cluster
  import opened Actions
  import opened Theorems
  import opened Guards
  import opened ReadyChecks
  import opened Trace
  import opened Witness

  // ---- a reply that claims more than the log holds ------------------------------------------------

  const A2: Entry := Entry(1, 2, [11])

  /** Node 1 keeps two entries of term 1 to itself, and node 3, as the leader of term 2,
      first sends it a heartbeat and then an entry of its own. */
  lemma NodeOneIsBehind() returns (d: Cluster)
    ensures Reachable(d, false) && d.cfg == TRIO && Is(d, 1, View(1, Leader, [A, A2], 0))
    ensures AppendEntries(2, 3, 1, 0, 0, [], 0) in d.net && AppendEntries(2, 3, 1, 0, 0, [B], 0) in d.net
  {
    hide Reachable, NodeIs, Quiet, AppendFor;
    d := NodeOneLeads(false);
    d := Proposes(d, false, 1, View(1, Leader, [A], 0), 1, [11]);
    assert [A] + [A2] == [A, A2];
    d := NodeThreeRises(d, false);
    d := Proposes(d, false, 3, View(2, Leader, [], 0), 1, [20]);
    assert [] + [B] == [B];
    SentWhole(d, 3, View(2, Leader, [B], 0), 1);
  }

  /** What both requests, handled without a Ready between them, leave of node 1. */
  lemma BothHandled(n: Node)
    requires NodeIs(n, [1, 2, 3], 1, View(1, Leader, [A, A2], 0)) && n.pending == []
    ensures var beat, append := AppendEntries(2, 3, 1, 0, 0, [], 0), AppendEntries(2, 3, 1, 0, 0, [B], 0);
            var d := Receive(n, beat, 1);
            && !Panics(n, beat) && !Panics(d, append) && !AcksCovered(Receive(d, append, 1))
            && |Receive(d, append, 1).log| < |d.log|
  {
    var beat, append := AppendEntries(2, 3, 1, 0, 0, [], 0), AppendEntries(2, 3, 1, 0, 0, [B], 0);
    var d := Receive(n, beat, 1);
    var r := AppendEntriesResp(2, 1, 3, true, 2);
    assert d.log == d.store == [A, A2] && d.term == 2 && d.commit == 0;
    assert d.pending == [Pending(d.epoch, r)];
    assert FirstConflict([A, A2], [B]) == 1 && EntriesFrom([B], 1) == [B] && Truncate([A, A2], 1) == [];
    assert [] + [B] == [B];
    var e := Receive(d, append, 1);
    assert e.log == [B];
    assert e.pending[0] == Pending(d.epoch, r);
  }

  /** Without a Ready in between, the heartbeat has been handled and the entry is next. */
  lemma BeatIsHandled() returns (d: Cluster)
    ensures Reachable(d, false) && d.cfg == TRIO && Deliverable(d, 1, AppendEntries(2, 3, 1, 0, 0, [B], 0))
    ensures var n, m := d.hosts[1].n, AppendEntries(2, 3, 1, 0, 0, [B], 0);
            !Panics(n, m) && !AcksCovered(Receive(n, m, 1)) && |Receive(n, m, 1).log| < |n.log|
  {
    hide Receive, Panics, AcksCovered, NodeIs, Record, Reachable;
    var beat := AppendEntries(2, 3, 1, 0, 0, [], 0);
    var c := NodeOneIsBehind();
    BothHandled(c.hosts[1].n);
    ReachNext(c, false, Deliver(1, beat, 1));
    d := Next(c, Deliver(1, beat, 1));
  }

  /** In some run a Ready of node 1 fails the check. */
  lemma AckCheckCanFail()
    ensures ValidConfig(TRIO)
    ensures exists steps :: var c := Run(Init(TRIO, ONE_TICK), steps); 1 in c.hosts && !AcksCovered(c.hosts[1].n)
  {
    hide Run, Init, Receive, Panics, AcksCovered, Record, Reachable;
    var d := BeatIsHandled();
    var s := Deliver(1, AppendEntries(2, 3, 1, 0, 0, [B], 0), 1);
    ReachNext(d, false, s);
    var steps := ScheduleOf(Next(d, s), false);
  }

  /** In some run LastLogIndex falls. */
  lemma LastIndexCanFall()
    ensures exists steps, m :: var c := Run(Init(TRIO, ONE_TICK), steps);
            Deliverable(c, 1, m) && !Panics(c.hosts[1].n, m) && |Receive(c.hosts[1].n, m, 1).log| < |c.hosts[1].n.log|
  {
    hide Run, Init, Receive, Panics, AcksCovered, Reachable;
    var d := BeatIsHandled();
    var steps := ScheduleOf(d, false);
    assert Deliverable(d, 1, AppendEntries(2, 3, 1, 0, 0, [B], 0));
  }

  // ---- a checkpoint ahead of the saved commit index -----------------------------------------------

  /** Node 1 commits an entry; the hard state that says so is not saved yet. */
  lemma CommitsUnsaved() returns (d: Cluster)
    ensures Reachable(d, true) && d.cfg == TRIO && 1 in d.hosts
    ensures var h := d.hosts[1]; h.n.commit == 1 && h.n.store == [A] && h.app == IDLE && h.hs.commit == 0
  {
    hide Reachable, Record, HandleAppendResp, NodeIs;
    var m, v := AppendEntriesResp(1, 2, 1, true, 1), View(1, Leader, [A], 0);
    var c := NodeTwoAcks();
    UnsavedCommit(c, v);
    HearsLast(c.hosts[1].n, m, v);
    ReachNext(c, true, Deliver(1, m, 1));
    d := Next(c, Deliver(1, m, 1));
  }

  lemma UnsavedCommit(c: Cluster, v: View)
    requires Reachable(c, true) && Is(c, 1, v) && v.commit == 0
    ensures c.hosts[1].hs.commit == 0
  {
    hide Reachable;
    ReachedHasBase(c, true);
    CommitIsBounded(c, 1);
  }

  lemma HearsLast(n: Node, m: Message, v: View)
    requires NodeIs(n, [1, 2, 3], 1, v) && v == View(1, Leader, [A], 0) && m == AppendEntriesResp(1, 2, 1, true, 1)
    requires n.matchIndex.Keys == {1, 2, 3} && forall q :: q in n.matchIndex && q != 1 ==> n.matchIndex[q] == 0
    ensures var r := Receive(n, m, 1); !Panics(n, m) && r.commit == 1 && r.store == [A]
  {
    hide HandleAppendResp;
    AckedNode(n, 1, 2, v);
    AckHeard(n, [1, 2, 3], 1, v, 2, 1);
  }

  /** It applies and checkpoints the entry. */
  lemma CheckpointOutrunsCommit() returns (d: Cluster)
    ensures Reachable(d, true) && d.cfg == TRIO && 1 in d.hosts
    ensures d.hosts[1].app.snap.index == 1 && d.hosts[1].hs.commit == 0
  {
    hide Reachable, Record;
    var c := CommitsUnsaved();
    ReachNext(c, true, Drain(1));
    var c1 := Next(c, Drain(1));
    assert c1.hosts[1].app == IDLE.(enqueued := 1, queue := [A]) && c1.hosts[1].hs.commit == 0;
    ReachNext(c1, true, ApplyNext(1));
    d := Next(c1, ApplyNext(1));
  }

  /** Even in runs that satisfy the hypothesis, Status can report an ApplyIndex above
      the CommitIndex: after that checkpoint the node dies before the save. */
  lemma StatusOrderCanFail()
    ensures exists steps :: var c := Run(Init(TRIO, ONE_TICK), steps);
            && TrueAcks(Init(TRIO, ONE_TICK), steps)
            && 1 in c.hosts && c.hosts[1].n.commit < c.hosts[1].app.applied == c.hosts[1].app.snap.index
  {
    hide Run, Init, TrueAcks, Reachable, Record;
    var d := CheckpointOutrunsCommit();
    var steps := ScheduleOf(d, true);
    RunOn(Init(TRIO, ONE_TICK), steps, Crash(1, 1));
    assert Next(d, Crash(1, 1)).hosts[1].app.applied == 1;
  }

  // ---- an answer that belongs to another proposal --------------------------------------------------

  /** Node 3 makes an entry of its own at index 1, as the leader of term 2. */
  lemma NodeThreeMakes() returns (d: Cluster)
    ensures Reachable(d, true) && d.cfg == TRIO && AppendEntries(1, 1, 2, 0, 0, [A], 0) in d.net
    ensures Is(d, 1, View(1, Leader, [A], 0)) && Is(d, 2, View(2, Follower, [], 0)) && Is(d, 3, View(2, Leader, [B], 0))
    ensures Leading(d.hosts[3].n, 1) && Sent(d, 3)
  {
    hide Reachable, NodeIs, Quiet, AppendFor, Leading;
    d := NodeOneLeads(true);
    SentWhole(d, 1, View(1, Leader, [A], 0), 2);
    d := NodeThreeRises(d, true);
    d := Proposes(d, true, 3, View(2, Leader, [], 0), 1, [20]);
    assert [] + [B] == [B];
  }

  /** It reaches node 2. */
  lemma NodeThreeReplicates() returns (d: Cluster)
    ensures Reachable(d, true) && d.cfg == TRIO && Is(d, 1, View(1, Leader, [A], 0)) && Is(d, 3, View(2, Leader, [B], 0))
    ensures AppendEntries(1, 1, 2, 0, 0, [A], 0) in d.net && AppendEntriesResp(2, 2, 3, true, 1) in d.net
    ensures Leading(d.hosts[3].n, 1)
  {
    hide Reachable, NodeIs, Quiet, AppendFor, Leading;
    d := NodeThreeMakes();
    SentWhole(d, 3, View(2, Leader, [B], 0), 2);
    assert [] + [B] == [B];
    d := Extends(d, true, 3, 2, View(2, Follower, [], 0), [B]);
  }

  /** It commits that entry and tells node 1. */
  lemma NodeThreeTells() returns (d: Cluster)
    ensures Reachable(d, true) && d.cfg == TRIO && Is(d, 1, View(1, Leader, [A], 0)) && Is(d, 3, View(2, Leader, [B], 1))
    ensures AppendEntries(1, 1, 2, 0, 0, [A], 0) in d.net && AppendEntries(2, 3, 1, 0, 0, [B], 1) in d.net
  {
    hide Reachable, NodeIs, Quiet, AppendFor;
    d := NodeThreeReplicates();
    FlushedIs(d.hosts[3].n, d.cfg.peers, 3, View(2, Leader, [B], 0));
    LeadingKeys(d.hosts[3].n, 1, d);
    d := CountsAck(d, true, 3, View(2, Leader, [B], 0), 2);
    IsHost(d, 3, View(2, Leader, [B], 1));
    d := Beats(d, true, 3, View(2, Leader, [B], 1));
    ProbeAt(d.hosts[3].n, d.cfg.peers, 3, View(2, Leader, [B], 1), 1, 1);
    assert AppendFor(d.hosts[3].n, 1) in d.net;
    assert Tail([B], 1) == [B];
  }

  lemma TakesOver(n: Node, m: Message)
    requires NodeIs(n, [1, 2, 3], 1, View(1, Leader, [A], 0)) && m == AppendEntries(2, 3, 1, 0, 0, [B], 1)
    ensures !Panics(n, m) && Accept(n.log, m.entries, 1) == [B]
    ensures var r := Receive(n, m, 1); r.store == [B] && r.commit == 1
  {
    assert FirstConflict([A], [B]) == 1 && EntriesFrom([B], 1) == [B] && Truncate([A], 1) == [] && [] + [B] == [B];
  }

  lemma RecordedLog(c: Cluster)
    requires Reachable(c, true) && Is(c, 3, View(2, Leader, [B], 1))
    ensures 2 in c.elections && c.elections[2].log == [B]
  {
    hide Reachable, BaseInv;
    ReachedHasBase(c, true);
    LeaderIsRecorded(c, 3);
  }

  /** In a run without a crash that satisfies the hypothesis, node 1 proposes A at index
      1 and sends it out, and what it later applies at index 1, and answers the
      proposal with, is B. */
  lemma AnswerCanBeForeign()
    ensures exists steps :: var c := Run(Init(TRIO, ONE_TICK), steps);
            && TrueAcks(Init(TRIO, ONE_TICK), steps) && Calm(steps)
            && AppendEntries(1, 1, 2, 0, 0, [A], 0) in c.net && 1 in c.hosts && c.hosts[1].app.queue == [B]
    ensures A.index == B.index && A.data != B.data
  {
    hide Run, Init, TrueAcks, Reachable, Calm, Receive, Panics, Record, NodeIs, Accept;
    var m := AppendEntries(2, 3, 1, 0, 0, [B], 1);
    var c := NodeThreeTells();
    TakesOver(c.hosts[1].n, m);
    RecordedLog(c);
    StepDownIsPlain(c.hosts[1].n);
    ReachNext(c, true, Deliver(1, m, 1));
    var c1 := Next(c, Deliver(1, m, 1));
    ReachNext(c1, true, Drain(1));
    var c2 := Next(c1, Drain(1));
    assert c2.hosts[1].app.queue == [B];
    var steps := ScheduleOf(c2, true);
  }

  lemma StepDownIsPlain(n: Node)
    ensures StepDown(n, 2).log == n.log
  {
  }
}
