/** The apply loop on a store that stands for a prefix of the log. */
module Draining {
  import opened Commands
  import opened ExactlyOnce
  import opened Quorums
  import opened Cluster
  import opened Handlers

  /** The store is the fold of a prefix, everything up to the commit index is acceptable, and
      what was already applied but may be repeated has request ids. */
  ghost predicate Ready(n: Node) {
    && n.applied <= n.stateIndex <= |n.log| && n.commit <= |n.log|
    && Accepted(n.log[..Max(n.stateIndex, n.commit)])
    && n.state == Fold(n.log[..n.stateIndex])
    && (forall j :: n.applied <= j < n.stateIndex ==> n.log[j].command.HasId())
  }

  lemma ReadyStep(n: Node)
    requires Ready(n) && n.applied < n.commit
    ensures CanApply(n) && Ready(ApplyOne(n))
  {
    hide Accepted, Fold, Execute, Judge;
    var all := n.log[..Max(n.stateIndex, n.commit)];
    if n.applied < n.stateIndex {
      var done := n.log[..n.stateIndex];
      AcceptedPrefix(all, n.stateIndex);
      assert all[..n.stateIndex] == done && done[n.applied] == n.log[n.applied];
      RepeatIsNoOp(done, n.applied);
    } else {
      AcceptedPrefix(all, n.applied + 1);
      assert all[..n.applied + 1] == n.log[..n.applied + 1];
      FoldStep(n.log, n.applied);
    }
  }

  /** Then the loop reaches the commit index, and the store is the fold of everything that
      was applied or committed. */
  lemma {:induction false} DrainFolds(n: Node)
    requires Ready(n)
    ensures Drains(n) && Drain(n).applied == Max(n.applied, n.commit)
    ensures Drain(n).stateIndex == Max(n.stateIndex, n.commit)
    ensures Drain(n).state == Fold(n.log[..Max(n.stateIndex, n.commit)])
    ensures Ready(Drain(n))
    decreases |n.log| - n.applied
  {
    hide Drain, Ready, Execute, Judge;
    DrainUnfold(n);
    ReadyIndexes(n);
    if n.applied < n.commit {
      ReadyStep(n);
      DrainFolds(ApplyOne(n));
    }
  }

  lemma ReadyIndexes(n: Node)
    requires Ready(n)
    ensures n.applied <= n.stateIndex <= |n.log| && n.commit <= |n.log| && n.state == Fold(n.log[..n.stateIndex])
  {}

  /** A whole ApplyCommitted on such a node ends between handlers. */
  lemma SettleReady(codec: Codec, n: Node)
    requires Ready(n) && n.snap <= n.applied && (n.commit > n.snap ==> TermOf(n.log, n.commit) != 0)
    ensures Ending(n) == Done
    ensures var r := Settle(codec, n);
            && r.phase == Idle && r.applied == Max(n.applied, n.commit) && r.stateIndex == Max(n.stateIndex, n.commit)
            && r.log == n.log && r.commit == n.commit && r.state == Fold(n.log[..r.stateIndex]) && Ready(r)
            && r.snap <= r.applied && (r.snap == n.snap || r.snap == n.commit)
  {
    hide Drain, Accepted, Fold;
    DrainFolds(n);
    DrainKeeps(n);
  }

  /** The node it leaves, field by field. */
  lemma SettledNode(codec: Codec, n: Node)
    requires Ready(n) && n.snap <= n.applied && (n.commit > n.snap ==> TermOf(n.log, n.commit) != 0)
    ensures var top := Max(n.stateIndex, n.commit);
            var r := n.(state := Fold(n.log[..top]), stateIndex := top, applied := Max(n.applied, n.commit),
                        dcommit := n.commit, phase := Idle);
            Settle(codec, n) == if NeedsSnapshot(n) then r.(snap := n.commit, snapData := codec.encode(r.state)) else r
  {
    hide Drain, Accepted, Fold;
    DrainFolds(n);
    DrainKeeps(n);
  }

  /** Nothing to apply and no snapshot due. */
  lemma SettleNothing(codec: Codec, n: Node)
    requires n.applied >= n.commit && !NeedsSnapshot(n)
    ensures Settle(codec, n) == n.(dcommit := n.commit, phase := Idle)
  {}
}
