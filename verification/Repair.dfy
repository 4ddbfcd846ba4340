/** Log repair: the exchange of AppendEntries requests and responses between one leader and
    one follower, turn by turn, with nothing lost. */
module Repair {
  import opened Commands
  import opened Quorums
  import opened Cluster
  import opened Steps
  import opened Invariant
  import opened Completeness
  import opened ReplicationSteps
  import opened Handlers
  import opened Draining
  import Safety

  // ----- one turn ---------------------------------------------------------------

  /** Request, response, and what the leader makes of next_index_. */
  function Turn(codec: Codec, p: Id, q: Id, l: Node, f: Node, next: nat): (Node, nat)
    requires 0 < next <= |l.log| + 1
  {
    var m := AppendMsg(p, l, q, next);
    var answer := AppendAnswer(q, f, m);
    (OnAppend(codec, f, m), NextIndex(l, map[q := next], q, answer.ok, answer.match_)[q])
  }

  /** The leader's log and the follower's, before either is repaired. */
  ghost predicate LogsAgree(a: seq<Entry>, b: seq<Entry>) {
    forall i :: 0 <= i < |a| && i < |b| && a[i].term == b[i].term ==> a[..i + 1] == b[..i + 1]
  }

  ghost predicate Compatible(l: Node, f: Node) {
    && l.snap <= |l.log| && l.commit <= |l.log| && l.commit < l.snap + SNAPSHOT_THRESHOLD
    && f.role == Follower && f.term == l.term
    && LogsAgree(f.log, l.log)
    && f.snap <= f.high <= |f.log| && f.commit <= f.high && f.log[..f.high] <= l.log
  }

  /** The leader of a term and any follower in that term are compatible, in every run. */
  lemma PairCompatible(c: World, p: Id, q: Id)
    requires Inv(c) && p in c.nodes && q in c.nodes && c.nodes[p].role == Leader && c.nodes[p].phase == Idle
    requires c.nodes[q].role == Follower && c.nodes[q].term == c.nodes[p].term
    ensures Compatible(c.nodes[p], c.nodes[q])
  {
    hide HistInv, MsgInv, VoteOk, AckOk, Safe, ReadOk, BufferOk, StateOk, LeaderOk, OnLine, TermsWithin, Ordered;
    var l, f := c.nodes[p], c.nodes[q];
    assert NodeInv(c.cfg, c.h, p, l) && NodeInv(c.cfg, c.h, q, f);
    Safety.LeaderWon(c, p);
    SafeOnLaterLine(c.cfg, c.h, f.log, f.high, f.term, f.term);
    HistAcksFit(c.cfg, c.h);
    forall i | 0 <= i < |f.log| && i < |l.log| && f.log[i].term == l.log[i].term
      ensures f.log[..i + 1] == l.log[..i + 1]
    {
      LogMatching(c.h, f.log, l.log, i);
    }
  }

  /** An index at which the follower accepts the leader's previous entry. */
  predicate Meets(l: Node, f: Node, a: nat) {
    l.snap <= a <= |l.log| && f.snap <= a <= |f.log| && TermOf(f.log, a) == TermOf(l.log, a)
  }

  lemma MeetPrefix(l: Node, f: Node, a: nat)
    requires Compatible(l, f) && Meets(l, f, a)
    ensures f.log[..a] == l.log[..a]
  {
    if a > 0 { assert f.log[..a - 1 + 1] == l.log[..a - 1 + 1]; }
  }

  /** The follower accepts exactly at such an index, and then holds the leader's entries
      up to the last one sent. */
  lemma TurnMerges(p: Id, q: Id, l: Node, f: Node, next: nat)
    requires Compatible(l, f) && l.snap < next <= |l.log| + 1
    ensures var m := AppendMsg(p, l, q, next);
            && (Merged(f, m).Some? <==> Meets(l, f, next - 1))
            && (Merged(f, m).Some? ==> Merged(f, m).value == Merge(f.log, l.log[..m.prev + |m.entries|]))
  {
    var m := AppendMsg(p, l, q, next);
    if Meets(l, f, next - 1) {
      MeetPrefix(l, f, next - 1);
      assert TermsDecide(f.log, l.log) by {
        forall i | 0 <= i < |f.log| && i < |l.log| && f.log[i].term == l.log[i].term ensures f.log[i] == l.log[i] {
          assert f.log[..i + 1][i] == l.log[..i + 1][i];
        }
      }
      assert AgreeTo(f.log, l.log, f.commit) by {
        assert forall i :: 0 <= i < f.high ==> f.log[..f.high][i] == l.log[i];
      }
      AbsorbIsMerge(f.log, l.log, m.prev, m.prev + |m.entries|, f.commit);
    }
  }

  lemma TurnRejected(codec: Codec, p: Id, q: Id, l: Node, f: Node, next: nat)
    requires Compatible(l, f) && l.snap < next <= |l.log| + 1 && !Meets(l, f, next - 1)
    ensures Turn(codec, p, q, l, f, next) == (f, if next > l.snap + 1 then next - 1 else next)
  {
    hide Merged, Compatible, Meets;
    TurnMerges(p, q, l, f, next);
    assert f.role == Follower && f.term == l.term by { Same(l, f); }
  }

  lemma Same(l: Node, f: Node)
    requires Compatible(l, f)
    ensures f.role == Follower && f.term == l.term && l.snap <= |l.log|
  {}

  lemma LogsAgreeMerged(a: seq<Entry>, b: seq<Entry>, k: nat)
    requires LogsAgree(a, b) && k <= |b|
    ensures LogsAgree(Merge(a, b[..k]), b)
  {
    if !(b[..k] <= a) {
      var cut := b[..k];
      forall i | 0 <= i < |cut| && i < |b| && cut[i].term == b[i].term ensures cut[..i + 1] == b[..i + 1] {}
    }
  }

  /** Upto where an accepted turn brings the follower. */
  function Reach(l: Node, next: nat): nat
    requires 0 < next
  {
    Min(next - 1 + MAX_ENTRIES_PER_RPC, |l.log|)
  }

  lemma TurnAccepted(codec: Codec, p: Id, q: Id, l: Node, f: Node, next: nat)
    requires Compatible(l, f) && l.snap < next <= |l.log| + 1 && Meets(l, f, next - 1)
    ensures var t := Turn(codec, p, q, l, f, next); var k := Reach(l, next);
            && t.1 == k + 1 && l.log[..k] <= t.0.log && t.0.commit == l.commit && Compatible(l, t.0) && Meets(l, t.0, k)
  {
    hide Settle, Merged, LogsAgree;
    var m, k := AppendMsg(p, l, q, next), Reach(l, next);
    assert m.prev + |m.entries| == k && m.commit == l.commit <= k;
    TurnMerges(p, q, l, f, next);
    var log := Merge(f.log, l.log[..k]);
    var n1 := AppendOk(f, m, log);
    var t := Turn(codec, p, q, l, f, next);
    assert t.0 == Settle(codec, n1) && t.1 == k + 1;
    SettleKeeps(codec, n1);
    MergeKeeps(f.log, l.log, k, f.log[..f.high]);
    LogsAgreeMerged(f.log, l.log, k);
    MergedPair(l, f, t.0, k);
  }

  lemma MergedPair(l: Node, f: Node, f': Node, k: nat)
    requires Compatible(l, f) && l.snap <= k <= |l.log| && l.commit <= k && f.snap <= k
    requires f'.log == Merge(f.log, l.log[..k]) && LogsAgree(f'.log, l.log)
    requires f.log[..f.high] <= f'.log && l.log[..k] <= f'.log
    requires f'.commit == Min(l.commit, |f'.log|) && f'.high == Max(f.high, f'.commit)
    requires f'.term == f.term && f'.role == f.role && (f'.snap == f.snap || f'.snap == f'.commit)
    ensures Compatible(l, f') && Meets(l, f', k)
  {
    hide LogsAgree, Merge;
    assert f'.log[..f'.high] <= l.log by {
      if f'.high == f.high {
        assert f'.log[..f.high] == f.log[..f.high];
      } else {
        assert f'.log[..f'.high] == l.log[..k][..f'.high];
      }
    }
    if k > 0 { assert l.log[..k][k - 1] == f'.log[k - 1]; }
  }

  // ----- many turns -------------------------------------------------------------

  /** Follower and next_index_ after `k` turns. */
  function After(codec: Codec, p: Id, q: Id, l: Node, f: Node, next: nat, k: nat): (Node, nat)
    requires 0 < next <= |l.log| + 1
    decreases k
  {
    if k == 0 then (f, next)
    else
      var t := Turn(codec, p, q, l, f, next);
      After(codec, p, q, l, t.0, t.1, k - 1)
  }

  /** Requests needed for `d` missing entries, 64 at a time; at least one. */
  function Requests(d: nat): nat { Max(1, (d + MAX_ENTRIES_PER_RPC - 1) / MAX_ENTRIES_PER_RPC) }

  lemma AfterTurn(codec: Codec, p: Id, q: Id, l: Node, f: Node, next: nat, k: nat)
    requires 0 < next <= |l.log| + 1 && k > 0
    ensures var t := Turn(codec, p, q, l, f, next);
            0 < t.1 <= |l.log| + 1 && After(codec, p, q, l, f, next, k) == After(codec, p, q, l, t.0, t.1, k - 1)
  {}

  /** Once the logs meet, 64 entries go over per turn until the follower has them all. */
  lemma {:induction false} CatchUp(codec: Codec, p: Id, q: Id, l: Node, f: Node, next: nat)
    requires Compatible(l, f) && l.snap < next <= |l.log| + 1 && Meets(l, f, next - 1)
    ensures var r := After(codec, p, q, l, f, next, Requests(|l.log| - (next - 1)));
            r.1 == |l.log| + 1 && l.log <= r.0.log && r.0.commit == l.commit
    decreases |l.log| + 1 - next
  {
    hide Turn, Compatible, Meets;
    var d := |l.log| - (next - 1);
    var k := Reach(l, next);
    var t := Turn(codec, p, q, l, f, next);
    TurnAccepted(codec, p, q, l, f, next);
    AfterTurn(codec, p, q, l, f, next, Requests(d));
    if d <= MAX_ENTRIES_PER_RPC {
      assert k == |l.log| && l.log[..k] == l.log;
    } else {
      CatchUp(codec, p, q, l, t.0, t.1);
      assert Requests(d) == 1 + Requests(d - MAX_ENTRIES_PER_RPC);
    }
  }

  /** Log repair terminates: from the largest index `a` at which the logs meet, `next - 1 - a`
      rejected requests, each lowering next_index_ by one, and then one request per 64
      missing entries make the follower's log contain the leader's. */
  lemma {:induction false} RepairConverges(codec: Codec, p: Id, q: Id, l: Node, f: Node, next: nat, a: nat)
    requires Compatible(l, f) && l.snap < next <= |l.log| + 1
    requires a < next && Meets(l, f, a) && forall b: nat :: a < b < next ==> !Meets(l, f, b)
    ensures var r := After(codec, p, q, l, f, next, next - 1 - a + Requests(|l.log| - a));
            r.1 == |l.log| + 1 && l.log <= r.0.log && r.0.commit == l.commit
    ensures forall j :: 0 <= j <= next - 1 - a ==> After(codec, p, q, l, f, next, j) == (f, next - j)
    decreases next
  {
    hide Turn, Compatible, Requests;
    if a == next - 1 {
      CatchUp(codec, p, q, l, f, next);
    } else {
      TurnRejected(codec, p, q, l, f, next);
      RepairConverges(codec, p, q, l, f, next - 1, a);
      AfterTurn(codec, p, q, l, f, next, next - 1 - a + Requests(|l.log| - a));
      forall j | 0 <= j <= next - 1 - a ensures After(codec, p, q, l, f, next, j) == (f, next - j) {
        if j > 0 { AfterTurn(codec, p, q, l, f, next, j); }
      }
    }
  }

  /** Without such an index the follower rejects forever; next_index_ stops just above the
      snapshot, so the leader never falls back to sending it. */
  lemma {:induction false} RepairStalls(codec: Codec, p: Id, q: Id, l: Node, f: Node, next: nat, k: nat)
    requires Compatible(l, f) && l.snap < next <= |l.log| + 1 && forall b: nat :: b < next ==> !Meets(l, f, b)
    ensures After(codec, p, q, l, f, next, k) == (f, Max(l.snap + 1, if k < next then next - k else 0))
    decreases k
  {
    hide Turn, Compatible, Meets;
    if k > 0 {
      TurnRejected(codec, p, q, l, f, next);
      AfterTurn(codec, p, q, l, f, next, k);
      RepairStalls(codec, p, q, l, f, if next > l.snap + 1 then next - 1 else next, k - 1);
    }
  }

  // ----- no turn throws ---------------------------------------------------------

  /** The pair of a clean run: the leader has applied what it announces, and the follower's
      store is the fold of its prefix. */
  ghost predicate Sound(l: Node, f: Node) {
    && Compatible(l, f) && f.phase == Idle
    && Accepted(l.log[..l.commit])
    && f.snap <= f.applied <= f.stateIndex <= f.high
    && Accepted(f.log[..f.stateIndex]) && f.state == Fold(f.log[..f.stateIndex])
    && (forall j :: f.applied <= j < f.stateIndex ==> f.log[j].command.HasId())
    && (forall i :: 0 <= i < |l.log| ==> l.log[i].term != 0)
  }

  lemma PairSound(c: World, p: Id, q: Id)
    requires Inv(c) && c.h.clean && p in c.nodes && q in c.nodes
    requires c.nodes[p].role == Leader && c.nodes[p].phase == Idle
    requires c.nodes[q].role == Follower && c.nodes[q].phase == Idle && c.nodes[q].term == c.nodes[p].term
    ensures Sound(c.nodes[p], c.nodes[q])
  {
    hide HistInv, MsgInv, VoteOk, AckOk, Safe, ReadOk, BufferOk, LeaderOk, OnLine, Ordered, Fold, Accepted, Compatible;
    PairCompatible(c, p, q);
    var l := c.nodes[p];
    assert NodeInv(c.cfg, c.h, p, l) && NodeInv(c.cfg, c.h, q, c.nodes[q]);
    AcceptedPrefix(l.log[..l.stateIndex], l.commit);
    assert l.log[..l.stateIndex][..l.commit] == l.log[..l.commit];
  }

  /** An accepted turn of a sound pair applies to the end, so its reply is sent. */
  lemma TurnEnds(codec: Codec, p: Id, q: Id, l: Node, f: Node, next: nat)
    requires Sound(l, f) && l.snap < next <= |l.log| + 1 && Meets(l, f, next - 1)
    ensures var m := AppendMsg(p, l, q, next);
            Merged(f, m).Some? && Ending(AppendOk(f, m, Merged(f, m).value)) == Done
    ensures Sound(l, Turn(codec, p, q, l, f, next).0)
  {
    hide Settle, Ending, Merged, LogsAgree, Meets, Ready, Fold, Accepted;
    var m, k := AppendMsg(p, l, q, next), Reach(l, next);
    TurnMerges(p, q, l, f, next);
    TurnAccepted(codec, p, q, l, f, next);
    MergeKeeps(f.log, l.log, k, f.log[..f.high]);
    var log := Merge(f.log, l.log[..k]);
    var n1 := AppendOk(f, m, log);
    MergedReady(l, f, n1, k);
    SettleReady(codec, n1);
    assert Turn(codec, p, q, l, f, next).0 == Settle(codec, n1);
    SettleKeeps(codec, n1);
    SoundAfter(l, f, n1, Settle(codec, n1));
  }

  lemma MergedReady(l: Node, f: Node, n1: Node, k: nat)
    requires Sound(l, f) && l.commit <= k <= |l.log| && l.log[..k] <= n1.log && f.log[..f.high] <= n1.log
    requires n1 == f.(log := n1.log, commit := l.commit, high := Max(f.high, l.commit), phase := Applying)
    ensures Ready(n1) && n1.snap <= n1.applied && (n1.commit > n1.snap ==> TermOf(n1.log, n1.commit) != 0)
  {
    hide Fold, Accepted, Compatible;
    assert f.high <= |f.log| by { HighWithin(l, f); }
    assert n1.log[..f.stateIndex] == f.log[..f.high][..f.stateIndex] == f.log[..f.stateIndex];
    assert n1.log[..l.commit] == l.log[..k][..l.commit] == l.log[..l.commit];
    assert forall j :: 0 <= j < f.high ==> n1.log[j] == f.log[..f.high][j];
    assert forall j :: 0 <= j < k ==> n1.log[j] == l.log[..k][j];
  }

  lemma HighWithin(l: Node, f: Node)
    requires Compatible(l, f)
    ensures f.high <= |f.log|
  {}

  lemma SoundAfter(l: Node, f: Node, n1: Node, f': Node)
    requires Sound(l, f) && Compatible(l, f') && f'.phase == Idle && Ready(f') && f'.snap <= f'.applied
    requires f'.high == Max(f.high, l.commit) && f'.stateIndex == Max(f.stateIndex, l.commit) && f'.commit == l.commit
    ensures Sound(l, f')
  {
    hide Fold, Compatible;
  }

  /** Every turn of a repair of a clean run ends this way. */
  lemma {:induction false} EveryTurnEnds(codec: Codec, p: Id, q: Id, l: Node, f: Node, next: nat, k: nat)
    requires Sound(l, f) && l.snap < next <= |l.log| + 1
    ensures var r := After(codec, p, q, l, f, next, k);
            && Sound(l, r.0) && l.snap < r.1 <= |l.log| + 1
            && (Meets(l, r.0, r.1 - 1) ==>
                  var m := AppendMsg(p, l, q, r.1);
                  Merged(r.0, m).Some? && Ending(AppendOk(r.0, m, Merged(r.0, m).value)) == Done)
    decreases k
  {
    hide Turn, Meets, Sound, Ending, Merged;
    var met := Meets(l, f, next - 1);
    SoundFacts(l, f);
    if met { TurnEnds(codec, p, q, l, f, next); }
    if k > 0 {
      if met { TurnAccepted(codec, p, q, l, f, next); } else { TurnRejected(codec, p, q, l, f, next); }
      AfterTurn(codec, p, q, l, f, next, k);
      var t := Turn(codec, p, q, l, f, next);
      EveryTurnEnds(codec, p, q, l, t.0, t.1, k - 1);
    }
  }

  lemma SoundFacts(l: Node, f: Node)
    requires Sound(l, f)
    ensures Compatible(l, f) && l.snap <= |l.log|
  {}

  // ----- exactly when -----------------------------------------------------------

  /** The logs meet somewhere iff the follower has the entries under the leader's snapshot. */
  lemma MeetIff(l: Node, f: Node)
    requires Compatible(l, f)
    ensures (exists a: nat :: Meets(l, f, a)) <==> l.log[..l.snap] <= f.log
  {
    if a: nat :| Meets(l, f, a) {
      MeetPrefix(l, f, a);
      assert l.log[..l.snap] == f.log[..a][..l.snap];
    }
    if l.log[..l.snap] <= f.log {
      var a := Max(l.snap, f.high);
      if a == l.snap {
        assert a > 0 ==> l.log[..l.snap][a - 1] == f.log[a - 1];
      } else {
        assert f.log[..f.high][a - 1] == l.log[a - 1];
      }
      assert Meets(l, f, a);
    }
  }

  lemma {:induction false} LargestMeet(l: Node, f: Node, next: nat) returns (a: nat)
    requires exists b: nat :: b < next && Meets(l, f, b)
    ensures a < next && Meets(l, f, a) && forall b: nat :: a < b < next ==> !Meets(l, f, b)
    decreases next
  {
    if Meets(l, f, next - 1) { a := next - 1; } else { a := LargestMeet(l, f, next - 1); }
  }

  /** The follower has the leader's log after `k` turns, starting from a new leader's next_index_. */
  predicate Repaired(codec: Codec, p: Id, q: Id, l: Node, f: Node, k: nat) {
    l.log <= After(codec, p, q, l, f, |l.log| + 1, k).0.log
  }

  /** A new leader's AppendEntries repair a follower iff that follower already has every
      entry the leader has compacted. */
  lemma RepairIff(codec: Codec, p: Id, q: Id, l: Node, f: Node)
    requires Compatible(l, f)
    ensures (exists k: nat :: Repaired(codec, p, q, l, f, k)) <==> l.log[..l.snap] <= f.log
  {
    hide Turn, After, Meets;
    var next := |l.log| + 1;
    MeetIff(l, f);
    MeetsBelow(l, f);
    if l.log[..l.snap] <= f.log {
      var a := LargestMeet(l, f, next);
      RepairConverges(codec, p, q, l, f, next, a);
      assert Repaired(codec, p, q, l, f, next - 1 - a + Requests(|l.log| - a));
    } else if k: nat :| Repaired(codec, p, q, l, f, k) {
      RepairStalls(codec, p, q, l, f, next, k);
    }
  }

  lemma MeetsBelow(l: Node, f: Node)
    ensures forall a: nat :: Meets(l, f, a) ==> a < |l.log| + 1
  {}
}
