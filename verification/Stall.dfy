/** A new leader can be unable to repair a follower: a run that ends there. */
module Stall {
  import opened Commands
  import opened Quorums
  import opened Cluster
  import opened Steps
  import opened Handlers
  import opened Draining
  import opened Scenes
  import ReplicationSteps
  import Repair
  import Invariant
  import Safety
  import StaleRead

  const WRITE := Command(Put, 1, 0, "k", "v")

  /** The same write, again and again. */
  function Same(n: nat): (r: seq<Entry>)
    ensures |r| == n && forall i :: 0 <= i < n ==> r[i] == Entry(1, WRITE)
  {
    seq(n, _ => Entry(1, WRITE))
  }

  lemma SameStep(n: nat)
    ensures Same(n + 1) == Same(n) + [Entry(1, WRITE)]
  {}

  lemma {:induction false} SameAccepted(n: nat)
    ensures Accepted(Same(n))
  {
    if n > 0 {
      SameAccepted(n - 1);
      assert Same(n)[..n - 1] == Same(n - 1);
    }
  }

  // ----- node 1 stores eight writes with node 2 and compacts them ----------------

  function Writer(n: nat): Node { StaleRead.LEADER1.(log := Same(n)) }

  const HOLDER := StaleRead.VOTER2.(log := Same(8))

  const APPEND := AppendReq(1, 2, 1, 0, 0, Same(8), 0)
  const STORED := AppendResp(2, 1, 1, true, 8)

  lemma {:induction false} Writes(c0: World, c: World, n: nat) returns (c': World)
    requires Scene(c0, c, StaleRead.LEADER1, StaleRead.VOTER2, FRESH_NODE)
    ensures Scene(c0, c', Writer(n), StaleRead.VOTER2, FRESH_NODE)
  {
    hide Scene, OnSubmit;
    if n == 0 {
      assert Writer(0) == StaleRead.LEADER1;
      c' := c;
    } else {
      c' := Writes(c0, c, n - 1);
      c' := Submits(c0, c', Writer(n - 1), StaleRead.VOTER2, FRESH_NODE, 1, WRITE);
      SubmitsAlone(c0.cfg.codec, 1, Writer(n - 1), WRITE);
      SameStep(n - 1);
    }
  }

  lemma Sent8()
    ensures AppendMsg(1, Writer(8), 2, 1) == APPEND
  {
    assert Same(8)[0..8] == Same(8);
  }

  lemma Held8(codec: Codec)
    ensures OnAppend(codec, StaleRead.VOTER2, APPEND) == HOLDER && AppendAnswer(2, StaleRead.VOTER2, APPEND) == STORED
  {
    var n := StaleRead.VOTER2;
    assert Merged(n, APPEND) == Some(Same(8)) by {
      ReplicationSteps.AbsorbIsMerge([], Same(8), 0, 8, 0);
      assert Same(8)[0..8] == Same(8) && Same(8)[..8] == Same(8);
    }
    hide Merged, Settle;
    SettleNothing(codec, AppendOk(n, APPEND, Same(8)));
  }

  function Compacted(codec: Codec): Node {
    Writer(8).(matched := map[2 := 8, 3 := 0], commit := 8, high := 8, applied := 8, stateIndex := 8, dcommit := 8,
               state := Fold(Same(8)), snap := 8, snapData := codec.encode(Fold(Same(8))))
  }

  lemma Commit8(codec: Codec)
    ensures OnAppendReply(codec, 1, {1, 2, 3}, Writer(8), STORED) == Compacted(codec)
  {
    hide Largest, Fold, Settle;
    var n := Writer(8).(matched := map[2 := 8, 3 := 0]);
    assert Writer(8).matched[2 := 8] == n.matched;
    Pair(1, 2, 3, n, 8);
    var n1 := CommitTo(n, 8);
    assert Ready(n1) by {
      SameAccepted(8);
      assert Same(8)[..8] == Same(8) && Same(8)[..0] == [];
      NothingFolds();
    }
    SettledNode(codec, n1);
    assert Same(8)[..8] == Same(8);
  }

  lemma NothingFolds()
    ensures Fold([]) == EMPTY
  {}

  // ----- it restarts and is elected again, by a node that has nothing ------------

  function Restarted(codec: Codec): Node {
    Compacted(codec).(role := Follower, granted := {}, matched := map[])
  }

  const ASK := VoteReq(1, 3, 2, 8, 1)
  const GRANT := VoteResp(3, 1, 2, true)
  const EMPTY3 := FRESH_NODE.(term := 2, vote := Some(1))

  function Candidate(codec: Codec): Node {
    Restarted(codec).(term := 2, vote := Some(1), role := Role.Candidate, granted := {1})
  }

  function NewLeader(codec: Codec): Node {
    Candidate(codec).(role := Leader, granted := {1, 3}, matched := map[2 := 0, 3 := 0])
  }

  lemma Restart8(codec: Codec)
    ensures OnRestart(codec, Compacted(codec)) == Restarted(codec)
  {
    hide Fold;
    SettleNothing(codec, Restart(Compacted(codec)));
  }

  lemma Campaign8(codec: Codec)
    ensures OnTimeout(1, {1, 2, 3}, Restarted(codec)) == Candidate(codec)
  {
    hide Fold;
    assert |{1, 2, 3}| == 3;
  }

  lemma Vote3()
    ensures OnVoteRequest(FRESH_NODE, ASK) == EMPTY3 && VoteAnswer(3, FRESH_NODE, ASK) == GRANT
  {}

  lemma Win8(codec: Codec)
    ensures OnVoteReply(1, {1, 2, 3}, Candidate(codec), GRANT) == NewLeader(codec)
  {
    hide Fold;
    assert {1} + {3} == {1, 3} && |{1, 3}| == 2 && |{1, 2, 3}| == 3;
    assert (map q | q in {1, 2, 3} - {1} :: 0) == map[2 := 0, 3 := 0];
  }

  lemma FirstAct(c0: World) returns (c: World)
    requires Init(c0) && c0.cfg.peers == {1, 2, 3}
    ensures Scene(c0, c, Compacted(c0.cfg.codec), HOLDER, FRESH_NODE)
  {
    var codec, idle := c0.cfg.codec, StaleRead.VOTER2;
    assert idle.phase == Idle && Writer(8).phase == Idle && Writer(8).role == Leader && Writer(8).snap == 0;
    Sent8();
    Held8(codec);
    Commit8(codec);
    hide *;
    c := Opening(c0);
    c := Writes(c0, c, 8);
    Parts(Writer(8), idle, FRESH_NODE);
    c := Sends(c0, c, Writer(8), idle, FRESH_NODE, 1, 2, 1);
    Received(c, 2, APPEND);
    c := Appends(c0, c, Writer(8), idle, FRESH_NODE, 2, APPEND);
    Second(c0, c, Writer(8), idle, FRESH_NODE, HOLDER);
    Received(c, 1, STORED);
    Parts(Writer(8), HOLDER, FRESH_NODE);
    c := Hears(c0, c, Writer(8), HOLDER, FRESH_NODE, 1, STORED);
    First(c0, c, Writer(8), HOLDER, FRESH_NODE, Compacted(codec));
  }

  lemma Phases(codec: Codec)
    ensures Restarted(codec).phase == Idle && Restarted(codec).role == Follower
    ensures Candidate(codec).phase == Idle && Candidate(codec).role == Role.Candidate
    ensures Candidate(codec).term == 2 && |Candidate(codec).log| == 8 && LastTerm(Candidate(codec).log) == 1
    ensures NewLeader(codec).phase == Idle && NewLeader(codec).role == Leader && NewLeader(codec).term == 2
    ensures NewLeader(codec).snap == 8 == |NewLeader(codec).log|
    ensures FRESH_NODE.phase == Idle && EMPTY3.phase == Idle && EMPTY3.role == Follower && EMPTY3.term == 2 && EMPTY3.log == []
  {
    hide Fold;
  }

  lemma SecondAct(c0: World, was: World) returns (c: World)
    requires Scene(c0, was, Compacted(c0.cfg.codec), HOLDER, FRESH_NODE)
    ensures Scene(c0, c, NewLeader(c0.cfg.codec), HOLDER, EMPTY3)
  {
    var codec := c0.cfg.codec;
    Phases(codec);
    Restart8(codec);
    Campaign8(codec);
    Vote3();
    Win8(codec);
    assert ASK.dst == 3 && GRANT.dst == 1 && ASK.VoteReq? && GRANT.VoteResp?;
    hide *;
    Parts(Compacted(codec), HOLDER, FRESH_NODE);
    c := Restarts(c0, was, Compacted(codec), HOLDER, FRESH_NODE, 1);
    First(c0, c, Compacted(codec), HOLDER, FRESH_NODE, Restarted(codec));
    Parts(Restarted(codec), HOLDER, FRESH_NODE);
    c := Runs(c0, c, Restarted(codec), HOLDER, FRESH_NODE, 1);
    First(c0, c, Restarted(codec), HOLDER, FRESH_NODE, Candidate(codec));
    Parts(Candidate(codec), HOLDER, FRESH_NODE);
    c := Asks(c0, c, Candidate(codec), HOLDER, FRESH_NODE, 1, 3);
    Received(c, 3, ASK);
    c := Votes(c0, c, Candidate(codec), HOLDER, FRESH_NODE, 3, ASK);
    Third(c0, c, Candidate(codec), HOLDER, FRESH_NODE, EMPTY3);
    Received(c, 1, GRANT);
    Parts(Candidate(codec), HOLDER, EMPTY3);
    c := Tallies(c0, c, Candidate(codec), HOLDER, EMPTY3, 1, GRANT);
    First(c0, c, Candidate(codec), HOLDER, EMPTY3, NewLeader(codec));
  }

  lemma Begun(cs: seq<World>)
    requires Run(cs)
    ensures |cs| > 0
  {}

  /** From every initial state of three nodes a run leads to a leader that has compacted
      eight entries and a follower that has none, which the leader's AppendEntries never
      repair, however often they are sent and answered. */
  lemma RepairCanStall(c0: World) returns (cs: seq<World>)
    requires Init(c0) && c0.cfg.peers == {1, 2, 3}
    ensures Run(cs) && cs[0] == c0 && {1, 3} <= cs[|cs| - 1].nodes.Keys
    ensures var l, f := cs[|cs| - 1].nodes[1], cs[|cs| - 1].nodes[3];
            && l.role == Leader && l.snap == 8 == |l.log| && f.role == Follower && f.term == l.term && f.log == []
            && forall k: nat :: !Repair.Repaired(c0.cfg.codec, 1, 3, l, f, k)
  {
    var codec := c0.cfg.codec;
    Phases(codec);
    hide Init, Run, Reaches, NewLeader, Repair.Repaired, Invariant.Inv;
    var c := FirstAct(c0);
    c := SecondAct(c0, c);
    cs := Arrived(c0, c);
    assert |cs| > 0 by { Begun(cs); }
    Safety.InvariantHolds(cs, |cs| - 1);
    Repair.PairCompatible(c, 1, 3);
    Repair.RepairIff(codec, 1, 3, c.nodes[1], c.nodes[3]);
    assert !(c.nodes[1].log[..c.nodes[1].snap] <= c.nodes[3].log);
  }
}
