/** Votes: the order on logs that decides them, exactly when one is given, and that
    enough of them make a leader. */
module Ballots {
  import opened Types
  import opened RaftLog
  import opened NodeSpec
  import opened Cluster
  import opened Theorems

  // ---- up-to-dateness -------------------------------------------------------------------------

  /** A candidate with log a passes a voter with log b. */
  predicate Passes(a: Log, b: Log) { UpToDate(LastTerm(a), |a|, LastTerm(b), |b|) }

  /** Of any two logs one passes the other. */
  lemma OnePasses(a: Log, b: Log)
    ensures Passes(a, b) || Passes(b, a)
  {
  }

  lemma PassingChains(a: Log, b: Log, c: Log)
    requires Passes(a, b) && Passes(b, c)
    ensures Passes(a, c)
  {
  }

  /** A log passes each of its prefixes, and no proper prefix passes it. */
  lemma PrefixIsPassed(log: Log, k: nat)
    requires WellFormed(log) && k <= |log|
    ensures Passes(log, log[..k]) && (k < |log| ==> !Passes(log[..k], log))
  {
  }

  /** A later last term passes whatever the lengths. */
  lemma LaterTermPasses(a: Log, b: Log)
    requires LastTerm(a) > LastTerm(b)
    ensures Passes(a, b) && !Passes(b, a)
  {
  }

  /** Among any nodes there is one whose log passes all of theirs. */
  lemma {:induction false} SomeonePassesAll(c: Cluster, q: set<NodeId>) returns (best: NodeId)
    requires q <= c.hosts.Keys && q != {}
    ensures best in q && forall j :: j in q ==> Passes(c.hosts[best].n.log, c.hosts[j].n.log)
    decreases |q|
  {
    hide Passes;
    var i :| i in q;
    OnePasses(c.hosts[i].n.log, c.hosts[i].n.log);
    best := i;
    var rest := q - {i};
    assert q == rest + {i};
    if rest != {} {
      var b := SomeonePassesAll(c, rest);
      OnePasses(c.hosts[i].n.log, c.hosts[b].n.log);
      if !Passes(c.hosts[i].n.log, c.hosts[b].n.log) {
        best := b;
      } else {
        forall j | j in rest ensures Passes(c.hosts[i].n.log, c.hosts[j].n.log) {
          PassingChains(c.hosts[i].n.log, c.hosts[b].n.log, c.hosts[j].n.log);
        }
      }
    }
  }

  // ---- one vote -------------------------------------------------------------------------------------

  function Max(a: nat, b: nat): nat { if a >= b then a else b }

  /** The vote a voter must give: to a candidate of its term or a later one, if it has
      not voted for another in that term, and if the candidate's last entry is of a
      later term than its own, or of the same and no shorter a log. */
  predicate Deserved(n: Node, m: Message)
    requires m.RequestVote?
  {
    && m.term >= n.term
    && (m.term == n.term ==> n.votedFor in {NO_NODE, m.from})
    && m.lastTerm >= LastTerm(n.log)
    && (m.lastTerm == LastTerm(n.log) ==> |n.log| <= m.lastIndex)
  }

  /** What a request for a vote does: the reply grants exactly when it must; a grant is
      queued for the disk with the vote and restarts the election timer, a refusal
      leaves vote and timer alone, but for a higher term. */
  lemma VoteIsGivenIff(n: Node, m: Message, draw: nat)
    requires m.RequestVote?
    ensures var r, yes := Receive(n, m, draw), Deserved(n, m);
            && r.term == Max(n.term, m.term) && r.log == n.log && r.commit == n.commit
            && r.role == (if m.term > n.term then Follower else n.role)
            && r.pending == n.pending + [Pending(r.epoch, RequestVoteResponse(r.term, n.id, m.from, yes))]
            && (yes ==> r.pendingHS == Some(HardState(m.term, m.from, n.commit)) && r.votedFor == m.from
                        && r.timers.electionElapsed == 0 && r.timers.electionTimeout == draw)
            && (!yes ==> r.votedFor == (if m.term > n.term then NO_NODE else n.votedFor) && r.timers == n.timers)
  {
  }

  /** A repeated request of the same candidate is answered alike. */
  lemma RepeatIsGrantedAgain(n: Node, m: Message, draw: nat)
    requires m.RequestVote? && Deserved(n, m)
    ensures Deserved(Receive(n, m, draw), m)
  {
    hide Receive;
    VoteIsGivenIff(n, m, draw);
  }

  /** And no other candidate gets the voter's vote in that term afterwards. */
  lemma OtherIsRefused(n: Node, m: Message, m': Message, draw: nat)
    requires m.RequestVote? && m'.RequestVote? && Deserved(n, m) && m'.term == m.term && m'.from != m.from && m.from != NO_NODE
    ensures !Deserved(Receive(n, m, draw), m')
  {
    hide Receive;
    VoteIsGivenIff(n, m, draw);
  }

  // ---- an election -------------------------------------------------------------------------------------

  /** The candidate after the grants of froms arrive, one after the other. */
  function Tally(n: Node, froms: seq<NodeId>): Node {
    if |froms| == 0 then n
    else
      var before := Tally(n, froms[..|froms| - 1]);
      HandleVoteResponse(before, RequestVoteResponse(n.term, froms[|froms| - 1], n.id, true))
  }

  /** A candidate leads as soon as, and only when, it and those who granted are a quorum. */
  lemma {:induction false} TallyLeadsIff(n: Node, froms: seq<NodeId>)
    requires n.role == Candidate && |n.votes| < Quorum(n)
    ensures var t, votes := Tally(n, froms), n.votes + set p | p in froms;
            && t.term == n.term && t.log == n.log && t.peers == n.peers
            && (t.role == Leader <==> |votes| >= Quorum(n))
            && (t.role != Leader ==> t.role == Candidate && t.votes == votes)
    decreases |froms|
  {
    var votes := n.votes + set p | p in froms;
    if |froms| == 0 {
      assert votes == n.votes;
    } else {
      var p, rest := froms[|froms| - 1], froms[..|froms| - 1];
      var before := n.votes + set q | q in rest;
      assert votes == before + {p};
      SubsetSize(before, votes);
      TallyLeadsIff(n, rest);
      OneMoreVote(Tally(n, rest), p);
    }
  }

  lemma OneMoreVote(n: Node, p: NodeId)
    ensures var r := HandleVoteResponse(n, RequestVoteResponse(n.term, p, n.id, true));
            && r.term == n.term && r.log == n.log && r.peers == n.peers
            && (n.role != Candidate ==> r == n)
            && (n.role == Candidate ==> if |n.votes + {p}| >= Quorum(n) then r.role == Leader
                                        else r.role == Candidate && r.votes == n.votes + {p})
  {
    hide SendAppends;
    SendOnlyQueues(Enthrone(n.(votes := n.votes + {p})));
  }

  /** A candidate whose log passes those of voters in earlier terms gets all their
      votes, and leads if they and it are a quorum. */
  lemma ElectionSucceeds(s: Node, voters: seq<Node>, draw: nat)
    requires s.role == Candidate && |s.votes| < Quorum(s)
    requires forall v :: v in voters ==> v.term < s.term && Passes(s.log, v.log)
    ensures forall v :: v in voters ==>
              var ps := Receive(v, VoteRequest(s, v.id), draw).pending;
              |ps| > 0 && ps[|ps| - 1].msg == RequestVoteResponse(s.term, v.id, s.id, true)
    ensures var ids := seq(|voters|, k requires 0 <= k < |voters| => voters[k].id);
            Tally(s, ids).role == Leader <==> |s.votes + set p | p in ids| >= Quorum(s)
  {
    hide Receive, Tally;
    forall v | v in voters
      ensures var ps := Receive(v, VoteRequest(s, v.id), draw).pending;
              |ps| > 0 && ps[|ps| - 1].msg == RequestVoteResponse(s.term, v.id, s.id, true)
    {
      VoteIsGivenIff(v, VoteRequest(s, v.id), draw);
    }
    TallyLeadsIff(s, seq(|voters|, k requires 0 <= k < |voters| => voters[k].id));
  }

  /** In every run and for every set of nodes: one of them, if it stands in a term above
      all of theirs, gets the votes of all the others. */
  lemma SomeoneIsElectable(cfg: Config, draws: NodeId -> nat, steps: seq<Step>, q: set<NodeId>, draw: nat) returns (i: NodeId)
    requires ValidConfig(cfg) && q != {} && q <= Peers(cfg)
    ensures var c := At(cfg, draws, steps, |steps|);
            && i in q && q <= c.hosts.Keys
            && var s := Stand(c.hosts[i].n, draw);
               forall j :: j in q && c.hosts[j].n.term < s.term ==> Deserved(c.hosts[j].n, VoteRequest(s, j))
  {
    hide At;
    InitHosts(cfg, draws, steps, |steps|);
    i := SomeonePassesAll(At(cfg, draws, steps, |steps|), q);
  }
}
