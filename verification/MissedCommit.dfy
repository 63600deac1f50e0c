/** Where the commit rule of the code and that of Figure 2 of the Raft paper part: a
    run of five nodes with one crash in which three peers acknowledge past the log of
    a leader, whose next entry then meets the rule and is not committed. */
module MissedCommit {
  import opened Types
  import opened RaftLog
  import opened NodeSpec
  import opened Cluster
  import opened Actions
  import opened CommitRule
  import opened Theorems
  import opened Trace

  const FIVE: Config := Config([1, 2, 3, 4, 5], data => None, 1)

  const A1: Entry := Entry(1, 1, [1])
  const A2: Entry := Entry(1, 2, [2])
  const A3: Entry := Entry(1, 3, [3])
  const E1: Entry := Entry(2, 1, [4])
  const B1: Entry := Entry(3, 2, [5])
  const B2: Entry := Entry(3, 3, [6])

  lemma FiveIsValid(c: Cluster)
    requires c.cfg == FIVE
    ensures ValidConfig(c.cfg) && Members(c.cfg.peers) == {1, 2, 3, 4, 5} && forall p :: p in c.cfg.peers <==> p in {1, 2, 3, 4, 5}
  {
  }

  /** Node i, with the votes of p and q, becomes the leader of its next term. */
  lemma Elected(c: Cluster, i: NodeId, v: View, p: NodeId, w: View, q: NodeId, x: View) returns (d: Cluster)
    requires Reachable(c, false) && c.cfg == FIVE && p != q && p != i && q != i
    requires Is(c, i, v) && v.role != Leader && Is(c, p, w) && Is(c, q, x) && w.term <= v.term && x.term <= v.term
    requires UpToDate(LastTerm(v.log), |v.log|, LastTerm(w.log), |w.log|) && UpToDate(LastTerm(v.log), |v.log|, LastTerm(x.log), |x.log|)
    ensures Reachable(d, false) && Others(c, d, {i, p, q})
    ensures Is(d, i, v.(term := v.term + 1, role := Leader)) && Leading(d.hosts[i].n, |v.log| + 1) && Sent(d, i)
    ensures Is(d, p, w.(term := v.term + 1, role := Follower)) && Is(d, q, x.(term := v.term + 1, role := Follower))
  {
    hide Reachable, LastTerm, UpToDate, Is, Others, Leading, Sent, Asked, Members, AppendFor, Request;
    FiveIsValid(c);
    var r, u := v.(term := v.term + 1), v.(term := v.term + 1, role := Candidate);
    var w', x' := w.(term := v.term + 1, role := Follower), x.(term := v.term + 1, role := Follower);
    IsHost(c, p, w);
    IsHost(c, q, x);
    var c1 := Stands(c, false, i, v);
    StaysIs(c, c1, {i}, p, w);
    StaysIs(c, c1, {i}, q, x);
    AskedOne(c, c1, i, r, p);
    AskedOne(c, c1, i, r, q);
    var c2 := Grants(c1, false, i, r, p, w);
    StaysIs(c1, c2, {p}, i, u);
    StaysIs(c1, c2, {p}, q, x);
    MoreSent(c1, c2, {p}, Request(i, r, q));
    var c3 := Grants(c2, false, i, r, q, x);
    StaysIs(c2, c3, {q}, i, u);
    StaysIs(c2, c3, {q}, p, w');
    MoreSent(c2, c3, {q}, RequestVoteResponse(r.term, p, i, true));
    OthersTrans(c, c1, c2, {i}, {p});
    OthersTrans(c, c2, c3, {i} + {p}, {q});
    ConfigStays(c, c3, {i} + {p} + {q});
    d := TwoVotes(c3, i, u, p, w', q, x');
    OthersTrans(c, c3, d, {i} + {p} + {q}, {i});
    assert {i} + {p} + {q} + {i} == {i, p, q};
  }

  lemma MoreSent(c: Cluster, d: Cluster, s: set<NodeId>, m: Message)
    requires Others(c, d, s) && m in c.net
    ensures m in d.net
  {
  }

  lemma TwoVotes(c: Cluster, i: NodeId, u: View, p: NodeId, w: View, q: NodeId, x: View) returns (d: Cluster)
    requires Reachable(c, false) && c.cfg == FIVE && p != q && p != i && q != i
    requires Is(c, i, u) && u.role == Candidate && c.hosts[i].n.votes == {i} && Is(c, p, w) && Is(c, q, x)
    requires RequestVoteResponse(u.term, p, i, true) in c.net && RequestVoteResponse(u.term, q, i, true) in c.net
    ensures Reachable(d, false) && Others(c, d, {i}) && Is(d, i, u.(role := Leader)) && Is(d, p, w) && Is(d, q, x)
    ensures Leading(d.hosts[i].n, |u.log| + 1) && Sent(d, i)
  {
    hide Reachable, Is, Others, Leading, AppendFor;
    IsHost(c, i, u);
    assert {i} + {p} == {i, p} && |{i, p}| == 2 && {i, p} + {q} == {i, p, q} && |{i, p, q}| == 3;
    var c1 := Tallies(c, false, i, u, p);
    IsHost(c1, i, u);
    MoreSent(c, c1, {i}, RequestVoteResponse(u.term, q, i, true));
    ConfigStays(c, c1, {i});
    d := Wins(c1, false, i, u, q);
    OthersTrans(c, c1, d, {i}, {i});
    assert {i} + {i} == {i};
    StaysIs(c, d, {i}, p, w);
    StaysIs(c, d, {i}, q, x);
  }

  /** What a leader sends a peer it probes at index next. */
  lemma Probes(c: Cluster, i: NodeId, v: View, p: NodeId, next: nat)
    requires c.cfg == FIVE && Is(c, i, v) && Leading(c.hosts[i].n, next) && Sent(c, i) && p in c.cfg.peers && p != i && next > 0
    ensures AppendEntries(v.term, i, p, next - 1, TermAt(v.log, next - 1), Tail(v.log, next), v.commit) in c.net
  {
    hide TermAt, Tail;
    assert AppendFor(c.hosts[i].n, p) in c.net;
  }

  // ---- the run -----------------------------------------------------------------------------------

  /** A reachable state with the nodes at the given views. */
  ghost predicate Stage(c: Cluster, vs: map<NodeId, View>) {
    Reachable(c, false) && c.cfg == FIVE && vs.Keys == {1, 2, 3, 4, 5} && forall i :: i in vs ==> Is(c, i, vs[i])
  }

  lemma Onward(c: Cluster, d: Cluster, vs: map<NodeId, View>, ws: map<NodeId, View>)
    requires Stage(c, vs) && Reachable(d, false) && ws.Keys <= vs.Keys && Others(c, d, ws.Keys)
    requires forall i :: i in ws ==> Is(d, i, ws[i])
    ensures Stage(d, vs + ws)
  {
    hide Is, Reachable;
    forall i | i in vs + ws ensures Is(d, i, (vs + ws)[i]) {
      if i !in ws { StaysIs(c, d, ws.Keys, i, vs[i]); }
    }
  }

  lemma At(c: Cluster, vs: map<NodeId, View>, i: NodeId)
    requires Stage(c, vs) && i in vs
    ensures Is(c, i, vs[i]) && Reachable(c, false) && c.cfg == FIVE && i in c.hosts && i in c.cfg.peers && c.hosts[i].n.id == i
  {
    hide Reachable;
    IsHost(c, i, vs[i]);
  }

  lemma Elects(c: Cluster, vs: map<NodeId, View>, i: NodeId, p: NodeId, q: NodeId) returns (d: Cluster, ws: map<NodeId, View>)
    requires Stage(c, vs) && i in vs && p in vs && q in vs && p != q && p != i && q != i && vs[i].role != Leader
    requires vs[p].term <= vs[i].term && vs[q].term <= vs[i].term
    requires UpToDate(LastTerm(vs[i].log), |vs[i].log|, LastTerm(vs[p].log), |vs[p].log|)
    requires UpToDate(LastTerm(vs[i].log), |vs[i].log|, LastTerm(vs[q].log), |vs[q].log|)
    ensures var t := vs[i].term + 1;
            ws == vs + map[i := vs[i].(term := t, role := Leader), p := vs[p].(term := t, role := Follower), q := vs[q].(term := t, role := Follower)]
    ensures Stage(d, ws) && Others(c, d, {i, p, q}) && i in d.hosts && Leading(d.hosts[i].n, |vs[i].log| + 1) && Sent(d, i)
  {
    hide Is, Stage, Reachable, LastTerm, UpToDate, Leading, AppendFor, Sent, Others;
    At(c, vs, i);
    At(c, vs, p);
    At(c, vs, q);
    var t := vs[i].term + 1;
    d := Elected(c, i, vs[i], p, vs[p], q, vs[q]);
    var us := map[i := vs[i].(term := t, role := Leader), p := vs[p].(term := t, role := Follower), q := vs[q].(term := t, role := Follower)];
    assert us.Keys == {i, p, q};
    StageKeys(c, vs);
    Onward(c, d, vs, us);
    ws := vs + us;
    IsHost(d, i, us[i]);
  }

  lemma StageKeys(c: Cluster, vs: map<NodeId, View>)
    requires Stage(c, vs)
    ensures vs.Keys == {1, 2, 3, 4, 5}
  {
  }

  lemma Makes(c: Cluster, vs: map<NodeId, View>, i: NodeId, next: nat, data: Types.Bytes) returns (d: Cluster, ws: map<NodeId, View>)
    requires Stage(c, vs) && i in vs && vs[i].role == Leader && i in c.hosts && Leading(c.hosts[i].n, next)
    ensures ws == vs[i := vs[i].(log := vs[i].log + [Entry(vs[i].term, |vs[i].log| + 1, data)])]
    ensures Stage(d, ws) && c.net <= d.net && i in d.hosts && Leading(d.hosts[i].n, next) && Sent(d, i) && Others(c, d, {i})
  {
    hide Is, Stage, Reachable, Leading, AppendFor;
    At(c, vs, i);
    d := Proposes(c, false, i, vs[i], next, data);
    var us := map[i := vs[i].(log := vs[i].log + [Entry(vs[i].term, |vs[i].log| + 1, data)])];
    assert us.Keys == {i};
    Onward(c, d, vs, us);
    ws := vs + us;
    IsHost(d, i, us[i]);
  }

  /** Peer p takes the entries es behind its log from leader l of its term. */
  lemma Takes(c: Cluster, vs: map<NodeId, View>, l: NodeId, p: NodeId, es: seq<Entry>) returns (d: Cluster, ws: map<NodeId, View>)
    requires Stage(c, vs) && p in vs && vs[p].role == Follower && WellFormed(vs[p].log + es) && |es| > 0
    requires Continuing(vs[p].term, l, p, vs[p].log, es) in c.net
    ensures ws == vs[p := vs[p].(log := vs[p].log + es)] && Stage(d, ws) && Others(c, d, {p})
  {
    hide Is, Stage, Reachable, Continuing, WellFormed;
    At(c, vs, p);
    d := Extends(c, false, l, p, vs[p], es);
    var us := map[p := vs[p].(log := vs[p].log + es)];
    assert us.Keys == {p};
    Onward(c, d, vs, us);
    ws := vs + us;
  }

  lemma OverClaims(c: Cluster, vs: map<NodeId, View>, l: NodeId, p: NodeId, t: nat) returns (d: Cluster, ws: map<NodeId, View>)
    requires Stage(c, vs) && p in vs && t >= vs[p].term && AppendEntries(t, l, p, 0, 0, [], 0) in c.net
    ensures ws == vs[p := if t > vs[p].term then vs[p].(term := t, role := Follower) else vs[p]] && Stage(d, ws) && Others(c, d, {p})
    ensures AppendEntriesResp(t, p, l, true, |vs[p].log|) in d.net
  {
    hide Is, Stage, Reachable;
    At(c, vs, p);
    d := OverAcks(c, l, p, vs[p], t);
    var us := map[p := if t > vs[p].term then vs[p].(term := t, role := Follower) else vs[p]];
    assert us.Keys == {p};
    Onward(c, d, vs, us);
    ws := vs + us;
  }

  const ZERO: View := View(0, Follower, [], 0)
  const OLD: Log := [A1, A2, A3]

  lemma OldEntries() returns (d: Cluster, vs: map<NodeId, View>)
    ensures Stage(d, vs) && 4 in d.hosts && Leading(d.hosts[4].n, 1) && Sent(d, 4)
    ensures vs == map[1 := ZERO, 2 := ZERO, 3 := View(1, Follower, [], 0), 4 := View(1, Leader, OLD, 0), 5 := View(1, Follower, [], 0)]
  {
    hide Is, Stage, Reachable, Leading, AppendFor, Others, Sent;
    d, vs := Fresh();
    d, vs := Elects(d, vs, 4, 5, 3);
    d, vs := Makes(d, vs, 4, 1, [1]);
    d, vs := Makes(d, vs, 4, 1, [2]);
    d, vs := Makes(d, vs, 4, 1, [3]);
    assert vs[4].log == OLD;
  }

  /** Node 4 leads term 1 and replicates three entries to node 5 alone. */
  lemma OldLeader() returns (d: Cluster, vs: map<NodeId, View>)
    ensures Stage(d, vs)
    ensures vs == map[1 := ZERO, 2 := ZERO, 3 := View(1, Follower, [], 0), 4 := View(1, Leader, OLD, 0), 5 := View(1, Follower, OLD, 0)]
  {
    hide Is, Stage, Reachable, Leading, AppendFor, Others;
    d, vs := OldEntries();
    At(d, vs, 4);
    At(d, vs, 5);
    Probes(d, 4, vs[4], 5, 1);
    assert Tail(OLD, 1) == OLD && [] + OLD == OLD;
    d, vs := Takes(d, vs, 4, 5, OLD);
  }

  lemma Fresh() returns (d: Cluster, vs: map<NodeId, View>)
    ensures Stage(d, vs) && vs == map[1 := ZERO, 2 := ZERO, 3 := ZERO, 4 := ZERO, 5 := ZERO]
  {
    hide Is, Reachable;
    d := Start(FIVE, false);
    FiveIsValid(d);
    vs := map[1 := ZERO, 2 := ZERO, 3 := ZERO, 4 := ZERO, 5 := ZERO];
  }

  /** Node 1 leads term 2 on an empty log, and nodes 4 and 5 acknowledge three entries
      it has never seen. */
  lemma NewLeader() returns (d: Cluster, vs: map<NodeId, View>)
    ensures Stage(d, vs) && 1 in d.hosts && Leading(d.hosts[1].n, 1)
    ensures vs == map[1 := View(2, Leader, [], 0), 2 := View(2, Follower, [], 0), 3 := View(2, Follower, [], 0),
                      4 := View(2, Follower, OLD, 0), 5 := View(2, Follower, OLD, 0)]
    ensures Afloat(d.net)
  {
    hide Is, Stage, Reachable, Leading, AppendFor;
    d, vs := OldLeader();
    d, vs := FirstAttempt(d, vs);
    d, vs := Elects(d, vs, 1, 2, 3);
    FirstBeat(d, vs, 2);
    FirstBeat(d, vs, 4);
    FirstBeat(d, vs, 5);
    d, vs := TwoClaims(d, vs);
  }

  lemma TwoClaims(c: Cluster, vs: map<NodeId, View>) returns (d: Cluster, ws: map<NodeId, View>)
    requires Stage(c, vs) && 4 in vs && 5 in vs && vs[4] == View(1, Leader, OLD, 0) && vs[5] == View(1, Follower, OLD, 0)
    requires AppendEntries(2, 1, 4, 0, 0, [], 0) in c.net && AppendEntries(2, 1, 5, 0, 0, [], 0) in c.net
    ensures ws == vs[4 := View(2, Follower, OLD, 0)][5 := View(2, Follower, OLD, 0)] && Stage(d, ws) && Others(c, d, {4, 5})
    ensures AppendEntriesResp(2, 4, 1, true, 3) in d.net && AppendEntriesResp(2, 5, 1, true, 3) in d.net
  {
    hide Is, Stage, Reachable;
    d, ws := OverClaims(c, vs, 1, 4, 2);
    d, ws := OverClaims(d, ws, 1, 5, 2);
  }

  lemma FirstAttempt(c: Cluster, vs: map<NodeId, View>) returns (d: Cluster, ws: map<NodeId, View>)
    requires Stage(c, vs) && 1 in vs && vs[1] == ZERO
    ensures ws == vs[1 := View(1, Candidate, [], 0)] && Stage(d, ws)
  {
    hide Is, Stage, Reachable;
    At(c, vs, 1);
    d := Stands(c, false, 1, ZERO);
    var us := map[1 := View(1, Candidate, [], 0)];
    assert us.Keys == {1};
    Onward(c, d, vs, us);
    ws := vs + us;
  }

  lemma FirstBeat(c: Cluster, vs: map<NodeId, View>, p: NodeId)
    requires Stage(c, vs) && 1 in vs && vs[1] == View(2, Leader, [], 0) && 1 in c.hosts && Leading(c.hosts[1].n, 1) && Sent(c, 1) && p in {2, 3, 4, 5}
    ensures AppendEntries(2, 1, p, 0, 0, [], 0) in c.net
  {
    hide Is, Stage, Leading, AppendFor;
    At(c, vs, 1);
    FiveIsValid(c);
    Probes(c, 1, vs[1], p, 1);
  }

  /** What node 1 is owed and still owes when it has made its first entry. */
  predicate Afloat(net: set<Message>) {
    && AppendEntriesResp(2, 4, 1, true, 3) in net && AppendEntriesResp(2, 5, 1, true, 3) in net
    && AppendEntries(2, 1, 2, 0, 0, [], 0) in net
  }

  /** Node 1 makes an entry and offers it to nodes 2 and 3. */
  lemma EntryMade() returns (d: Cluster, vs: map<NodeId, View>)
    ensures Stage(d, vs) && 1 in d.hosts && Leading(d.hosts[1].n, 1) && Afloat(d.net)
    ensures vs == map[1 := View(2, Leader, [E1], 0), 2 := View(2, Follower, [], 0), 3 := View(2, Follower, [], 0),
                      4 := View(2, Follower, OLD, 0), 5 := View(2, Follower, OLD, 0)]
    ensures Continuing(2, 1, 2, [], [E1]) in d.net && Continuing(2, 1, 3, [], [E1]) in d.net
  {
    hide Is, Stage, Reachable, Leading, AppendFor;
    d, vs := NewLeader();
    d, vs := Makes(d, vs, 1, 1, [4]);
    assert vs[1].log == [E1];
    At(d, vs, 1);
    FiveIsValid(d);
    Probes(d, 1, vs[1], 2, 1);
    Probes(d, 1, vs[1], 3, 1);
    assert Tail([E1], 1) == [E1];
  }

  /** Nodes 2 and 3 take it; node 1 hears nothing of it. */
  lemma EntrySpreads() returns (d: Cluster, vs: map<NodeId, View>)
    ensures Stage(d, vs) && 1 in d.hosts && Leading(d.hosts[1].n, 1) && Afloat(d.net)
    ensures vs == map[1 := View(2, Leader, [E1], 0), 2 := View(2, Follower, [E1], 0), 3 := View(2, Follower, [E1], 0),
                      4 := View(2, Follower, OLD, 0), 5 := View(2, Follower, OLD, 0)]
  {
    hide Is, Stage, Reachable, Leading, Continuing, Others, Afloat, WellFormed;
    var c, us := EntryMade();
    OneEntry();
    var c1, ws := Takes(c, us, 1, 2, [E1]);
    StaysAfloat(c, c1, 2, Continuing(2, 1, 3, [], [E1]));
    d, vs := Takes(c1, ws, 1, 3, [E1]);
    StaysAfloat(c1, d, 3, Continuing(2, 1, 3, [], [E1]));
  }

  lemma OneEntry()
    ensures [] + [E1] == [E1] && WellFormed([] + [E1])
  {
  }

  lemma StaysAfloat(c: Cluster, d: Cluster, p: NodeId, m: Message)
    requires Others(c, d, {p}) && p != 1 && 1 in c.hosts && Leading(c.hosts[1].n, 1) && Afloat(c.net) && m in c.net
    ensures 1 in d.hosts && Leading(d.hosts[1].n, 1) && Afloat(d.net) && m in d.net
  {
    hide Leading;
  }

  lemma ThirdElected() returns (d: Cluster, vs: map<NodeId, View>)
    ensures Stage(d, vs) && 1 in d.hosts && Leading(d.hosts[1].n, 1) && Afloat(d.net)
    ensures vs == map[1 := View(2, Leader, [E1], 0), 2 := View(2, Follower, [E1], 0), 3 := View(3, Leader, [E1], 0),
                      4 := View(3, Follower, OLD, 0), 5 := View(3, Follower, OLD, 0)]
    ensures 3 in d.hosts && Leading(d.hosts[3].n, 2)
  {
    hide Is, Stage, Reachable, Leading, AppendFor;
    d, vs := EntrySpreads();
    d, vs := Elects(d, vs, 3, 4, 5);
  }

  /** Node 3 leads term 3 with nodes 4 and 5 and makes two entries. */
  lemma ThirdLeader() returns (d: Cluster, vs: map<NodeId, View>)
    ensures Stage(d, vs) && 1 in d.hosts && Leading(d.hosts[1].n, 1)
    ensures vs == map[1 := View(2, Leader, [E1], 0), 2 := View(2, Follower, [E1], 0), 3 := View(3, Leader, [E1, B1, B2], 0),
                      4 := View(3, Follower, OLD, 0), 5 := View(3, Follower, OLD, 0)]
    ensures Afloat(d.net) && Continuing(3, 3, 2, [E1], [B1, B2]) in d.net
  {
    hide Is, Stage, Reachable, Leading, AppendFor;
    d, vs := ThirdElected();
    d, vs := Makes(d, vs, 3, 2, [5]);
    d, vs := Makes(d, vs, 3, 2, [6]);
    assert vs[3].log == [E1, B1, B2];
    At(d, vs, 3);
    FiveIsValid(d);
    Probes(d, 3, vs[3], 2, 2);
    assert Tail([E1, B1, B2], 2) == [B1, B2];
  }

  /** Node 2 stores node 3's entries, dies before its hard state is saved, and back in
      term 2 acknowledges three entries to node 1. */
  lemma ThirdClaim() returns (d: Cluster, vs: map<NodeId, View>)
    ensures Stage(d, vs) && 1 in vs && vs[1] == View(2, Leader, [E1], 0) && 1 in d.hosts && Leading(d.hosts[1].n, 1)
    ensures forall p :: p in {2, 4, 5} ==> Claim(p) in d.net
  {
    hide Is, Stage, Reachable, Leading, AppendFor;
    d, vs := ThirdLeader();
    d, vs := DiesTaking(d, vs);
    assert [E1] + [B1, B2] == [E1, B1, B2];
    d, vs := OverClaims(d, vs, 1, 2, 2);
  }

  function Claim(p: NodeId): Message { AppendEntriesResp(2, p, 1, true, 3) }

  lemma DiesTaking(c: Cluster, vs: map<NodeId, View>) returns (d: Cluster, ws: map<NodeId, View>)
    requires Stage(c, vs) && 2 in vs && vs[2] == View(2, Follower, [E1], 0) && Continuing(3, 3, 2, [E1], [B1, B2]) in c.net
    ensures ws == vs[2 := View(2, Follower, [E1] + [B1, B2], 0)] && Stage(d, ws) && Others(c, d, {2})
  {
    hide Is, Stage, Reachable, Continuing;
    At(c, vs, 2);
    d := DiesExtending(c, 3, 2, vs[2], 3, [B1, B2]);
    var us := map[2 := View(2, Follower, [E1] + [B1, B2], 0)];
    assert us.Keys == {2};
    Onward(c, d, vs, us);
    ws := vs + us;
  }

  // ---- the missed commit --------------------------------------------------------------------------

  predicate Books(n: Node) {
    && n.matchIndex.Keys == {1, 2, 3, 4, 5}
    && n.matchIndex[2] == 3 && n.matchIndex[3] == 0 && n.matchIndex[4] == 3 && n.matchIndex[5] == 3
  }

  /** One of the claims is heard; what node 1 then commits is left open. */
  lemma HearsClaim(c: Cluster, x: nat, p: NodeId) returns (d: Cluster, y: nat)
    requires Reachable(c, false) && c.cfg == FIVE && Is(c, 1, View(2, Leader, [E1], x)) && p in {2, 4, 5} && Claim(p) in c.net
    ensures Reachable(d, false) && d.cfg == FIVE && Is(d, 1, View(2, Leader, [E1], y)) && c.net <= d.net
    ensures d.hosts[1].n.matchIndex == c.hosts[1].n.matchIndex[p := 3]
  {
    hide Is, Reachable, HandleAppendResp;
    FiveIsValid(c);
    IsHost(c, 1, View(2, Leader, [E1], x));
    d := HearsAck(c, false, 1, View(2, Leader, [E1], x), p, 3);
    y := d.hosts[1].n.commit;
  }

  /** All three claims are heard. */
  lemma ClaimsHeard() returns (d: Cluster, y: nat)
    ensures Reachable(d, false) && d.cfg == FIVE && Is(d, 1, View(2, Leader, [E1], y)) && y <= 1 && Books(d.hosts[1].n)
  {
    hide Is, Reachable, BaseInv, Stage, Claim, Leading;
    var c, vs := ThirdClaim();
    At(c, vs, 1);
    IsHost(c, 1, vs[1]);
    LeadingBooks(c.hosts[1].n, c);
    assert Claim(2) in c.net && Claim(4) in c.net && Claim(5) in c.net;
    d, y := HearsClaim(c, 0, 2);
    d, y := HearsClaim(d, y, 4);
    d, y := HearsClaim(d, y, 5);
    ReachedHasBase(d, false);
    IsHost(d, 1, View(2, Leader, [E1], y));
    Acks.StoreIsLog(d, 1);
  }

  lemma LeadingBooks(n: Node, c: Cluster)
    requires Leading(n, 1) && n.id == 1 && n.peers == c.cfg.peers && c.cfg == FIVE
    ensures n.matchIndex.Keys == {1, 2, 3, 4, 5} && n.matchIndex[3] == 0
  {
    FiveIsValid(c);
  }

  /** The rule allows index 2, the pick is 3, and the code commits nothing. */
  lemma StuckNode(n: Node)
    requires n.id == 1 && n.peers == [1, 2, 3, 4, 5] && n.term == 2 && |n.log| == 2 && n.log[1].term == 2 && n.commit <= 1 && Books(n)
    ensures MayCommit(n, 2) && AdvanceCommit(n) == n
  {
    assert Reaching(n, 2) == {1, 2, 4, 5} && Reaching(n, 3) == {2, 4, 5} && Reaching(n, 4) == {};
    assert |n.matchIndex| == |n.matchIndex.Keys|;
    assert |{1, 2, 4, 5}| == 4 && |{2, 4, 5}| == 3;
    QuorumIndexIsUnique(n, 3, QuorumIndex(n));
    hide Reaching;
  }

  lemma LastProposal() returns (d: Cluster)
    ensures Reachable(d, false) && d.cfg == FIVE && 1 in d.hosts && d.hosts[1].n.role == Leader
    ensures MayCommit(d.hosts[1].n, 2) && AdvanceCommit(d.hosts[1].n).commit == d.hosts[1].n.commit
  {
    hide Reachable, Live, AppendFanout, QueueAll, Propose, AdvanceCommit, MayCommit;
    var c, y := ClaimsHeard();
    var n := c.hosts[1].n;
    var v := View(2, Leader, [E1], y);
    ProposedNode(n, c.cfg.peers, 1, v, [7]);
    var p := Proposed(n, [7]);
    var s := SendAppends(p);
    QueuedFields(p, AppendFanout(p, p.peers));
    QueuedState(p, AppendFanout(p, p.peers));
    StuckNode(s);
    d := Move(c, false, ProposeStep(1, [7], false), s);
    StuckNode(Flushed(s));
  }

  lemma QueuedState(n: Node, ms: seq<Message>)
    ensures var q := QueueAll(n, ms); q.log == n.log && q.term == n.term && q.commit == n.commit && q.role == n.role
  {
  }

  /** The commit rule of the code misses an index that Figure 2 allows, in a run. */
  lemma RuleIsMissed()
    ensures ValidConfig(FIVE)
    ensures exists steps :: var c := Run(Init(FIVE, ONE_TICK), steps);
            && 1 in c.hosts && c.hosts[1].n.role == Leader
            && MayCommit(c.hosts[1].n, 2) && AdvanceCommit(c.hosts[1].n).commit == c.hosts[1].n.commit
  {
    hide Run, Init, AdvanceCommit, MayCommit;
    var d := LastProposal();
    var steps :| d == Run(Init(FIVE, ONE_TICK), steps);
  }
}
