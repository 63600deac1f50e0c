/** The commit rule of pkg/raft/commit.go: a sorted slice of match indexes, one pick
    and one term test, against the rule of Figure 2 of the Raft paper. */
module CommitRule {
  import opened Types
  import opened RaftLog
  import opened NodeSpec

  // ---- counting ---------------------------------------------------------------------------

  /** How many elements of s are at least x. */
  function CountGe(s: seq<nat>, x: nat): nat {
    if |s| == 0 then 0 else (if s[0] >= x then 1 else 0) + CountGe(s[1..], x)
  }

  lemma {:induction false} CountGeSplit(a: seq<nat>, b: seq<nat>, x: nat)
    ensures CountGe(a + b, x) == CountGe(a, x) + CountGe(b, x)
  {
    if |a| == 0 {
      assert a + b == b;
    } else {
      assert (a + b)[1..] == a[1..] + b;
      CountGeSplit(a[1..], b, x);
    }
  }

  predicate Ascending(s: seq<nat>) { forall j, k :: 0 <= j < k < |s| ==> s[j] <= s[k] }

  lemma {:induction false} CountGeAscending(s: seq<nat>, x: nat, k: nat)
    requires Ascending(s) && k <= |s| && (k < |s| ==> s[k] >= x) && (k > 0 ==> s[k - 1] < x)
    ensures CountGe(s, x) == |s| - k
  {
    if k > 0 {
      CountGeAscending(s[1..], x, k - 1);
    } else if |s| > 0 {
      CountGeAscending(s[1..], x, 0);
    }
  }

  method Insert(s: seq<nat>, v: nat) returns (r: seq<nat>)
    requires Ascending(s)
    ensures Ascending(r) && |r| == |s| + 1 && multiset(r) == multiset(s + [v])
    ensures forall x: nat :: CountGe(r, x) == CountGe(s + [v], x)
  {
    var j := 0;
    while j < |s| && s[j] < v
      invariant j <= |s| && forall k :: 0 <= k < j ==> s[k] < v
    {
      j := j + 1;
    }
    r := s[..j] + [v] + s[j..];
    assert s == s[..j] + s[j..];
    forall x: nat ensures CountGe(r, x) == CountGe(s + [v], x) {
      CountGeSplit(s[..j] + [v], s[j..], x);
      CountGeSplit(s[..j], [v], x);
      CountGeSplit(s[..j], s[j..], x);
      CountGeSplit(s, [v], x);
    }
  }

  /** slices.Sort on the match indexes. */
  method Sort(s: seq<nat>) returns (r: seq<nat>)
    ensures Ascending(r) && |r| == |s| && multiset(r) == multiset(s)
    ensures forall x: nat :: CountGe(r, x) == CountGe(s, x)
  {
    hide CountGe;
    r := [];
    for i := 0 to |s|
      invariant Ascending(r) && |r| == i && multiset(r) == multiset(s[..i])
      invariant forall x: nat :: CountGe(r, x) == CountGe(s[..i], x)
    {
      assert s[..i + 1] == s[..i] + [s[i]];
      forall x: nat ensures CountGe(r + [s[i]], x) == CountGe(s[..i + 1], x) {
        CountGeSplit(r, [s[i]], x);
        CountGeSplit(s[..i], [s[i]], x);
      }
      r := Insert(r, s[i]);
    }
    assert s[..|s|] == s;
  }

  /** The element a quorum's length from the end of a sorted slice is the largest
      value that many elements reach. */
  lemma PickReachesQuorum(s: seq<nat>, q: nat)
    requires Ascending(s) && 1 <= q <= |s|
    ensures CountGe(s, s[|s| - q]) >= q > CountGe(s, s[|s| - q] + 1)
  {
    var k := |s| - q;
    var x := s[k];
    var lo, hi := k, k + 1;
    while lo > 0 && s[lo - 1] >= x
      invariant 0 <= lo <= k && s[lo] >= x
    {
      lo := lo - 1;
    }
    while hi < |s| && s[hi] < x + 1
      invariant k < hi <= |s| && s[hi - 1] < x + 1
    {
      hi := hi + 1;
    }
    CountGeAscending(s, x, lo);
    CountGeAscending(s, x + 1, hi);
  }

  // ---- the loop over matchIndex ---------------------------------------------------------------

  function ReachingIn(n: Node, keys: set<NodeId>, x: nat): set<NodeId>
    requires keys <= n.matchIndex.Keys
  {
    set p | p in keys && Progress(n, p) >= x
  }

  /** The slice that maybeAdvanceCommitLocked fills: one element per tracked peer,
      with the leader itself at its last index. */
  method Matches(n: Node) returns (matches: seq<nat>)
    ensures |matches| == |n.matchIndex|
    ensures forall x: nat :: CountGe(matches, x) == |Reaching(n, x)|
  {
    matches := [];
    var rest := n.matchIndex.Keys;
    ghost var done: set<NodeId> := {};
    while rest != {}
      invariant done !! rest && done + rest == n.matchIndex.Keys && |matches| == |done|
      invariant forall x: nat :: CountGe(matches, x) == |ReachingIn(n, done, x)|
      decreases |rest|
    {
      var p :| p in rest;
      var mi := if p == n.id then |n.log| else n.matchIndex[p];
      forall x: nat ensures CountGe(matches + [mi], x) == |ReachingIn(n, done + {p}, x)| {
        CountGeSplit(matches, [mi], x);
        OneMoreReaches(n, done, p, x);
      }
      matches := matches + [mi];
      rest := rest - {p};
      done := done + {p};
    }
    assert n.matchIndex.Keys == done;
    assert |n.matchIndex| == |n.matchIndex.Keys|;
    forall x: nat ensures ReachingIn(n, done, x) == Reaching(n, x) {}
  }

  lemma OneMoreReaches(n: Node, done: set<NodeId>, p: NodeId, x: nat)
    requires done + {p} <= n.matchIndex.Keys && p !in done
    ensures |ReachingIn(n, done + {p}, x)| == |ReachingIn(n, done, x)| + if Progress(n, p) >= x then 1 else 0
  {
    if Progress(n, p) >= x {
      assert ReachingIn(n, done + {p}, x) == ReachingIn(n, done, x) + {p};
    } else {
      assert ReachingIn(n, done + {p}, x) == ReachingIn(n, done, x);
    }
  }

  /** The pick of the code: the largest index that a quorum has reached; None when
      fewer peers are tracked than a quorum. */
  method PickQuorumIndex(n: Node) returns (q: Option<nat>)
    ensures q.Some? <==> Quorum(n) <= |n.matchIndex|
    ensures q.Some? ==> IsQuorumIndex(n, q.value)
  {
    var matches := Matches(n);
    var sorted := Sort(matches);
    if Quorum(n) > |sorted| { return None; }
    PickReachesQuorum(sorted, Quorum(n));
    q := Some(sorted[|sorted| - Quorum(n)]);
  }

  // ---- Figure 2 ----------------------------------------------------------------------------

  /** The rule for leaders: N lies above commitIndex, a majority has reached it, and
      its entry is of the current term. */
  predicate MayCommit(n: Node, N: nat) {
    N > n.commit && |Reaching(n, N)| >= Quorum(n) && TermAt(n.log, N) == n.term
  }

  /** The new commit index is the largest one the rule allows. */
  ghost predicate MeetsRule(n: Node, commit: nat) {
    if MayCommit(n, commit) then forall N: nat :: MayCommit(n, N) ==> N <= commit
    else commit == n.commit && forall N: nat :: !MayCommit(n, N)
  }

  /** A leader's own log: terms never decrease and never pass its own. */
  predicate OwnLog(n: Node) {
    n.term > 0 && WellFormed(n.log) && forall k :: 0 <= k < |n.log| ==> n.log[k].term <= n.term
  }

  lemma ReachingFalls(n: Node, x: nat, y: nat)
    requires x <= y
    ensures |Reaching(n, y)| <= |Reaching(n, x)|
  {
    SubsetSize(Reaching(n, y), Reaching(n, x));
  }

  lemma RuleStaysBelowPick(n: Node, q: nat, N: nat)
    requires IsQuorumIndex(n, q) && MayCommit(n, N)
    ensures N <= q
  {
    if N > q { ReachingFalls(n, q + 1, N); }
  }

  lemma OlderBelowPick(n: Node, q: nat, N: nat)
    requires OwnLog(n) && IsQuorumIndex(n, q) && q <= |n.log| && TermAt(n.log, q) != n.term
    ensures !MayCommit(n, N)
  {
    hide Reaching;
    if MayCommit(n, N) { RuleStaysBelowPick(n, q, N); }
  }

  lemma PickWithinLogIsExact(n: Node, q: nat)
    requires OwnLog(n) && IsQuorumIndex(n, q) && q <= |n.log| && Quorum(n) <= |n.matchIndex|
    ensures MeetsRule(n, AdvanceCommit(n).commit)
  {
    hide Reaching, WellFormed;
    QuorumIndexIsUnique(n, q, QuorumIndex(n));
    forall N: nat | MayCommit(n, N) ensures N <= q { RuleStaysBelowPick(n, q, N); }
    if TermAt(n.log, q) != n.term { forall N: nat ensures !MayCommit(n, N) { OlderBelowPick(n, q, N); } }
  }

  /** Past the log only the last index could still meet the rule. */
  lemma PickBeyondLog(n: Node, q: nat)
    requires OwnLog(n) && IsQuorumIndex(n, q) && q > |n.log| && Quorum(n) <= |n.matchIndex|
    ensures AdvanceCommit(n).commit == n.commit
    ensures (exists N: nat :: MayCommit(n, N)) <==> (|n.log| > n.commit && LastTerm(n.log) == n.term)
  {
    QuorumIndexIsUnique(n, q, QuorumIndex(n));
    ReachingFalls(n, |n.log|, q);
    hide Reaching;
    if |n.log| > n.commit && LastTerm(n.log) == n.term { assert MayCommit(n, |n.log|); }
  }

  /** When the code follows Figure 2: exactly when the picked index lies within the
      leader's log, or there is nothing of the current term left to commit. */
  lemma CommitRuleIsExactIff(n: Node, q: nat)
    requires OwnLog(n) && IsQuorumIndex(n, q) && Quorum(n) <= |n.matchIndex|
    ensures MeetsRule(n, AdvanceCommit(n).commit) <==>
            (q <= |n.log| || |n.log| <= n.commit || LastTerm(n.log) != n.term)
  {
    hide IsQuorumIndex, Reaching, WellFormed;
    if q <= |n.log| { PickWithinLogIsExact(n, q); } else { PickBeyondLog(n, q); }
  }
}
