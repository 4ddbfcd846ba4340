/** ReadIndex is not linearizable by itself: a run of three nodes in which a confirmed read
    misses a committed write, because the new leader has committed nothing of its own. */
module StaleRead {
  import opened Commands
  import opened Quorums
  import opened Cluster
  import opened Steps
  import opened Freshness

  ghost function Last(cs: seq<World>): World
    requires cs != []
  {
    cs[|cs| - 1]
  }

  /** The run stands at these three nodes, and `m` has been sent. */
  ghost predicate At(cs: seq<World>, a: Node, b: Node, d: Node, m: Msg) {
    cs != [] && Run(cs) && Last(cs).cfg.peers == {1, 2, 3} && Last(cs).nodes.Keys == {1, 2, 3} &&
    Last(cs).nodes[1] == a && Last(cs).nodes[2] == b && Last(cs).nodes[3] == d && m in Last(cs).net
  }

  /** Node `p`, now `n`, can take the step, becomes `n'` and has then sent `m`. */
  ghost predicate Moves(c: World, s: Step, n: Node, n': Node, m: Msg) {
    Enabled(c, s) && c.nodes[s.p] == n && NodeAfter(c, s) == n' && (m in c.net || m in Sent(c, s))
  }

  ghost predicate Holds(c: World, p: Id, n: Node) {
    c.cfg.peers == {1, 2, 3} && p in {1, 2, 3} && p in c.nodes && c.nodes[p] == n
  }

  lemma Continue(cs: seq<World>, s: Step) returns (cs': seq<World>)
    requires Run(cs) && Enabled(Last(cs), s)
    ensures Run(cs') && cs' == cs + [Do(Last(cs), s)]
  {
    hide Enabled, NodeAfter, Sent, Trace;
    cs' := cs + [Do(Last(cs), s)];
    forall k | 0 <= k < |cs'| - 1 ensures Next(cs'[k], cs'[k + 1]) {
      if k < |cs| - 1 { assert Next(cs[k], cs[k + 1]); } else { assert Enabled(cs'[k], s); }
    }
  }

  lemma Move(was: seq<World>, s: Step, a: Node, b: Node, d: Node, m: Msg, n: Node, n': Node, m': Msg)
    returns (cs: seq<World>)
    requires At(was, a, b, d, m) && Moves(Last(was), s, n, n', m')
    ensures cs == was + [Do(Last(was), s)]
    ensures s.p == 1 ==> At(cs, n', b, d, m')
    ensures s.p == 2 ==> At(cs, a, n', d, m')
    ensures s.p == 3 ==> At(cs, a, b, n', m')
  {
    assert s.p in Last(was).cfg.peers;
    hide Enabled, NodeAfter, Sent, Trace, Run;
    cs := Continue(was, s);
  }

  lemma Standing(cs: seq<World>, a: Node, b: Node, d: Node, m: Msg)
    requires At(cs, a, b, d, m)
    ensures cs != [] && Holds(Last(cs), 1, a) && Holds(Last(cs), 2, b) && Holds(Last(cs), 3, d) && m in Last(cs).net
  {}

  // ----- node 1 wins term 1, its write reaches node 2, and it commits ------------

  const ENTRY := Entry(1, Command(Put, 1, 1, "k", "v"))
  const ASK1 := VoteReq(1, 2, 1, 0, 0)
  const GRANT2 := VoteResp(2, 1, 1, true)
  const APPEND1 := AppendReq(1, 2, 1, 0, 0, [ENTRY], 0)
  const STORED2 := AppendResp(2, 1, 1, true, 1)

  const CANDIDATE1 := FRESH_NODE.(term := 1, vote := Some(1), role := Candidate, granted := {1})
  const VOTER2 := FRESH_NODE.(term := 1, vote := Some(1))
  const ELECTED1 := CANDIDATE1.(granted := {1, 2})
  const LEADER1 := ELECTED1.(role := Leader, matched := map[2 := 0, 3 := 0])
  const WRITER1 := LEADER1.(log := [ENTRY])
  const HOLDER2 := VOTER2.(log := [ENTRY])
  const MATCHED1 := WRITER1.(matched := map[2 := 1, 3 := 0])
  const COMMITTER1 := MATCHED1.(commit := 1, high := 1, phase := Applying)

  lemma FirstCampaign(c: World) returns (cs: seq<World>)
    requires Init(c) && c.cfg.peers == {1, 2, 3}
    ensures At(cs, CANDIDATE1, FRESH_NODE, FRESH_NODE, ASK1) && [c] <= cs
  {
    hide NodeAfter, Sent, Trace;
    Campaigns1(c);
    cs := Continue([c], Timeout(1));
    Asks1(Last(cs));
    hide Enabled;
    cs := Continue(cs, AskVote(1, 2));
  }

  lemma Campaigns1(c: World)
    requires Holds(c, 1, FRESH_NODE)
    ensures Enabled(c, Timeout(1)) && NodeAfter(c, Timeout(1)) == CANDIDATE1
  {}

  lemma Asks1(c: World)
    requires Holds(c, 1, CANDIDATE1)
    ensures Moves(c, AskVote(1, 2), CANDIDATE1, CANDIDATE1, ASK1)
  {}

  lemma Observes2(c: World)
    requires Holds(c, 2, FRESH_NODE) && ASK1 in c.net
    ensures Moves(c, Observe(2, ASK1), FRESH_NODE, FRESH_NODE.(term := 1), ASK1)
  {}

  lemma Votes2(c: World)
    requires Holds(c, 2, FRESH_NODE.(term := 1)) && ASK1 in c.net
    ensures Moves(c, AnswerVote(2, ASK1), FRESH_NODE.(term := 1), VOTER2, GRANT2)
  {}

  lemma Counts1(c: World)
    requires Holds(c, 1, CANDIDATE1) && GRANT2 in c.net
    ensures Moves(c, CountVote(1, GRANT2), CANDIDATE1, ELECTED1, GRANT2)
  {
    assert {1} + {2} == {1, 2};
  }

  lemma Wins1(c: World)
    requires Holds(c, 1, ELECTED1) && GRANT2 in c.net
    ensures Moves(c, Win(1), ELECTED1, LEADER1, GRANT2)
  {
    assert (map q | q in {1, 2, 3} - {1} :: 0) == map[2 := 0, 3 := 0];
  }

  lemma FirstWin(was: seq<World>) returns (cs: seq<World>)
    requires At(was, CANDIDATE1, FRESH_NODE, FRESH_NODE, ASK1)
    ensures At(cs, LEADER1, VOTER2, FRESH_NODE, GRANT2) && was <= cs
  {
    hide *;
    Standing(was, CANDIDATE1, FRESH_NODE, FRESH_NODE, ASK1);
    Observes2(Last(was));
    cs := Move(was, Observe(2, ASK1), CANDIDATE1, FRESH_NODE, FRESH_NODE, ASK1, FRESH_NODE, FRESH_NODE.(term := 1), ASK1);
    Standing(cs, CANDIDATE1, FRESH_NODE.(term := 1), FRESH_NODE, ASK1);
    Votes2(Last(cs));
    cs := Move(cs, AnswerVote(2, ASK1), CANDIDATE1, FRESH_NODE.(term := 1), FRESH_NODE, ASK1, FRESH_NODE.(term := 1), VOTER2, GRANT2);
    Standing(cs, CANDIDATE1, VOTER2, FRESH_NODE, GRANT2);
    Counts1(Last(cs));
    cs := Move(cs, CountVote(1, GRANT2), CANDIDATE1, VOTER2, FRESH_NODE, GRANT2, CANDIDATE1, ELECTED1, GRANT2);
    Standing(cs, ELECTED1, VOTER2, FRESH_NODE, GRANT2);
    Wins1(Last(cs));
    cs := Move(cs, Win(1), ELECTED1, VOTER2, FRESH_NODE, GRANT2, ELECTED1, LEADER1, GRANT2);
  }

  lemma Writes1(c: World)
    requires Holds(c, 1, LEADER1) && GRANT2 in c.net
    ensures Moves(c, Submit(1, ENTRY.command), LEADER1, WRITER1, GRANT2)
  {
    assert [] + [ENTRY] == [ENTRY];
  }

  lemma Sends1(c: World)
    requires Holds(c, 1, WRITER1)
    ensures Moves(c, SendAppend(1, 2, 1), WRITER1, WRITER1, APPEND1)
  {
    assert AppendMsg(1, WRITER1, 2, 1) == APPEND1 by { assert [ENTRY][0..1] == [ENTRY]; }
  }

  lemma Stores2(c: World)
    requires Holds(c, 2, VOTER2) && APPEND1 in c.net
    ensures Moves(c, AnswerAppend(2, APPEND1), VOTER2, HOLDER2.(phase := Applying), STORED2)
  {
    assert Merged(VOTER2, APPEND1) == Some([ENTRY]) by {
      var none: seq<Entry> := [];
      assert [ENTRY][1..] == none && none[..0] + [ENTRY] == [ENTRY];
      assert Absorb(none, 0, [ENTRY], 0) == Absorb([ENTRY], 1, none, 0);
    }
    hide Merged;
  }

  lemma Persists2(c: World)
    requires Holds(c, 2, HOLDER2.(phase := Applying)) && STORED2 in c.net
    ensures Moves(c, PersistProgress(2), HOLDER2.(phase := Applying), HOLDER2.(phase := Compacting), STORED2)
  {}

  lemma Compacts2(c: World)
    requires Holds(c, 2, HOLDER2.(phase := Compacting)) && STORED2 in c.net
    ensures Moves(c, CompactLog(2), HOLDER2.(phase := Compacting), HOLDER2, STORED2)
  {}

  lemma FirstStore(was: seq<World>) returns (cs: seq<World>)
    requires At(was, LEADER1, VOTER2, FRESH_NODE, GRANT2)
    ensures At(cs, WRITER1, HOLDER2, FRESH_NODE, STORED2) && was <= cs
  {
    hide *;
    Standing(was, LEADER1, VOTER2, FRESH_NODE, GRANT2);
    Writes1(Last(was));
    cs := Move(was, Submit(1, ENTRY.command), LEADER1, VOTER2, FRESH_NODE, GRANT2, LEADER1, WRITER1, GRANT2);
    Standing(cs, WRITER1, VOTER2, FRESH_NODE, GRANT2);
    Sends1(Last(cs));
    cs := Move(cs, SendAppend(1, 2, 1), WRITER1, VOTER2, FRESH_NODE, GRANT2, WRITER1, WRITER1, APPEND1);
    Standing(cs, WRITER1, VOTER2, FRESH_NODE, APPEND1);
    Stores2(Last(cs));
    var applying, compacting := HOLDER2.(phase := Applying), HOLDER2.(phase := Compacting);
    cs := Move(cs, AnswerAppend(2, APPEND1), WRITER1, VOTER2, FRESH_NODE, APPEND1, VOTER2, applying, STORED2);
    Standing(cs, WRITER1, applying, FRESH_NODE, STORED2);
    Persists2(Last(cs));
    cs := Move(cs, PersistProgress(2), WRITER1, applying, FRESH_NODE, STORED2, applying, compacting, STORED2);
    Standing(cs, WRITER1, compacting, FRESH_NODE, STORED2);
    Compacts2(Last(cs));
    cs := Move(cs, CompactLog(2), WRITER1, compacting, FRESH_NODE, STORED2, compacting, HOLDER2, STORED2);
  }

  lemma Matches1(c: World)
    requires Holds(c, 1, WRITER1) && STORED2 in c.net
    ensures Moves(c, AckAppend(1, STORED2), WRITER1, MATCHED1, STORED2)
  {
    assert WRITER1.matched[2 := 1] == MATCHED1.matched;
  }

  lemma Commits1(c: World)
    requires Holds(c, 1, MATCHED1) && STORED2 in c.net
    ensures Moves(c, Advance(1, 1), MATCHED1, COMMITTER1, STORED2)
  {
    assert Holders(1, MATCHED1, 1) == {1, 2};
    assert |{1, 2}| == 2 && |{1, 2, 3}| == 3;
    hide Holders;
  }

  lemma FirstCommit(was: seq<World>) returns (cs: seq<World>)
    requires At(was, WRITER1, HOLDER2, FRESH_NODE, STORED2)
    ensures At(cs, COMMITTER1, HOLDER2, FRESH_NODE, STORED2) && was <= cs
  {
    hide *;
    Standing(was, WRITER1, HOLDER2, FRESH_NODE, STORED2);
    Matches1(Last(was));
    cs := Move(was, AckAppend(1, STORED2), WRITER1, HOLDER2, FRESH_NODE, STORED2, WRITER1, MATCHED1, STORED2);
    Standing(cs, MATCHED1, HOLDER2, FRESH_NODE, STORED2);
    Commits1(Last(cs));
    cs := Move(cs, Advance(1, 1), MATCHED1, HOLDER2, FRESH_NODE, STORED2, MATCHED1, COMMITTER1, STORED2);
  }

  // ----- node 2 wins term 2 without learning of the commit -----------------------

  const ASK2 := VoteReq(2, 3, 2, 1, 1)
  const GRANT3 := VoteResp(3, 2, 2, true)

  const CANDIDATE2 := HOLDER2.(term := 2, vote := Some(2), role := Candidate, granted := {2})
  const VOTER3 := FRESH_NODE.(term := 2, vote := Some(2))
  const ELECTED2 := CANDIDATE2.(granted := {2, 3})
  const LEADER2 := ELECTED2.(role := Leader, matched := map[1 := 0, 3 := 0])

  lemma Campaigns2(c: World)
    requires Holds(c, 2, HOLDER2) && STORED2 in c.net
    ensures Moves(c, Timeout(2), HOLDER2, CANDIDATE2, STORED2)
  {}

  lemma Asks2(c: World)
    requires Holds(c, 2, CANDIDATE2)
    ensures Moves(c, AskVote(2, 3), CANDIDATE2, CANDIDATE2, ASK2)
  {}

  lemma Observes3(c: World)
    requires Holds(c, 3, FRESH_NODE) && ASK2 in c.net
    ensures Moves(c, Observe(3, ASK2), FRESH_NODE, FRESH_NODE.(term := 2), ASK2)
  {}

  lemma Votes3(c: World)
    requires Holds(c, 3, FRESH_NODE.(term := 2)) && ASK2 in c.net
    ensures Moves(c, AnswerVote(3, ASK2), FRESH_NODE.(term := 2), VOTER3, GRANT3)
  {}

  lemma Counts2(c: World)
    requires Holds(c, 2, CANDIDATE2) && GRANT3 in c.net
    ensures Moves(c, CountVote(2, GRANT3), CANDIDATE2, ELECTED2, GRANT3)
  {
    assert {2} + {3} == {2, 3};
  }

  lemma Wins2(c: World)
    requires Holds(c, 2, ELECTED2) && GRANT3 in c.net
    ensures Moves(c, Win(2), ELECTED2, LEADER2, GRANT3)
  {
    assert (map q | q in {1, 2, 3} - {2} :: 0) == map[1 := 0, 3 := 0];
  }

  lemma SecondWin(was: seq<World>) returns (cs: seq<World>)
    requires At(was, COMMITTER1, HOLDER2, FRESH_NODE, STORED2)
    ensures At(cs, COMMITTER1, LEADER2, VOTER3, GRANT3) && was <= cs
  {
    hide *;
    Standing(was, COMMITTER1, HOLDER2, FRESH_NODE, STORED2);
    Campaigns2(Last(was));
    cs := Move(was, Timeout(2), COMMITTER1, HOLDER2, FRESH_NODE, STORED2, HOLDER2, CANDIDATE2, STORED2);
    Standing(cs, COMMITTER1, CANDIDATE2, FRESH_NODE, STORED2);
    Asks2(Last(cs));
    cs := Move(cs, AskVote(2, 3), COMMITTER1, CANDIDATE2, FRESH_NODE, STORED2, CANDIDATE2, CANDIDATE2, ASK2);
    Standing(cs, COMMITTER1, CANDIDATE2, FRESH_NODE, ASK2);
    Observes3(Last(cs));
    cs := Move(cs, Observe(3, ASK2), COMMITTER1, CANDIDATE2, FRESH_NODE, ASK2, FRESH_NODE, FRESH_NODE.(term := 2), ASK2);
    Standing(cs, COMMITTER1, CANDIDATE2, FRESH_NODE.(term := 2), ASK2);
    Votes3(Last(cs));
    cs := Move(cs, AnswerVote(3, ASK2), COMMITTER1, CANDIDATE2, FRESH_NODE.(term := 2), ASK2, FRESH_NODE.(term := 2), VOTER3, GRANT3);
    Standing(cs, COMMITTER1, CANDIDATE2, VOTER3, GRANT3);
    Counts2(Last(cs));
    cs := Move(cs, CountVote(2, GRANT3), COMMITTER1, CANDIDATE2, VOTER3, GRANT3, CANDIDATE2, ELECTED2, GRANT3);
    Standing(cs, COMMITTER1, ELECTED2, VOTER3, GRANT3);
    Wins2(Last(cs));
    cs := Move(cs, Win(2), COMMITTER1, ELECTED2, VOTER3, GRANT3, ELECTED2, LEADER2, GRANT3);
  }

  // ----- and serves a read -------------------------------------------------------

  const PROBE := ReadReq(2, 3, 2, 1)
  const ECHO := ReadResp(3, 2, 2, true, 1)

  const READER2 := LEADER2.(read := Some(Read(1, 0, {2})), lastRead := 1)
  const SERVER2 := READER2.(read := Some(Read(1, 0, {2, 3})))

  lemma Opens2(c: World)
    requires Holds(c, 2, LEADER2) && GRANT3 in c.net
    ensures Moves(c, StartRead(2, 1), LEADER2, READER2, GRANT3)
  {}

  lemma Probes2(c: World)
    requires Holds(c, 2, READER2)
    ensures Moves(c, AskRead(2, 3), READER2, READER2, PROBE)
  {}

  lemma Echoes3(c: World)
    requires Holds(c, 3, VOTER3) && PROBE in c.net
    ensures Moves(c, AnswerRead(3, PROBE), VOTER3, VOTER3, ECHO)
  {}

  lemma Confirms2(c: World)
    requires Holds(c, 2, READER2) && ECHO in c.net
    ensures Moves(c, AckRead(2, ECHO), READER2, SERVER2, ECHO)
  {
    assert {2} + {3} == {2, 3};
  }

  lemma SecondRead(was: seq<World>) returns (cs: seq<World>)
    requires At(was, COMMITTER1, LEADER2, VOTER3, GRANT3)
    ensures At(cs, COMMITTER1, SERVER2, VOTER3, ECHO) && was < cs
    ensures Moves(Last(was), StartRead(2, 1), LEADER2, READER2, GRANT3) && cs[|was|] == Do(Last(was), StartRead(2, 1))
  {
    hide *;
    Standing(was, COMMITTER1, LEADER2, VOTER3, GRANT3);
    Opens2(Last(was));
    EnabledIn(Last(was), StartRead(2, 1), LEADER2, READER2, GRANT3);
    cs := Move(was, StartRead(2, 1), COMMITTER1, LEADER2, VOTER3, GRANT3, LEADER2, READER2, GRANT3);
    Standing(cs, COMMITTER1, READER2, VOTER3, GRANT3);
    Probes2(Last(cs));
    cs := Move(cs, AskRead(2, 3), COMMITTER1, READER2, VOTER3, GRANT3, READER2, READER2, PROBE);
    Standing(cs, COMMITTER1, READER2, VOTER3, PROBE);
    Echoes3(Last(cs));
    cs := Move(cs, AnswerRead(3, PROBE), COMMITTER1, READER2, VOTER3, PROBE, VOTER3, VOTER3, ECHO);
    Standing(cs, COMMITTER1, READER2, VOTER3, ECHO);
    Confirms2(Last(cs));
    cs := Move(cs, AckRead(2, ECHO), COMMITTER1, READER2, VOTER3, ECHO, READER2, SERVER2, ECHO);
  }

  lemma EnabledIn(c: World, s: Step, n: Node, n': Node, m: Msg)
    requires Moves(c, s, n, n', m)
    ensures Enabled(c, s)
  {}

  lemma UntilSecondWin(c: World) returns (cs: seq<World>)
    requires Init(c) && c.cfg.peers == {1, 2, 3}
    ensures At(cs, COMMITTER1, LEADER2, VOTER3, GRANT3) && [c] <= cs
  {
    hide Run, Init, At;
    cs := FirstCampaign(c);
    cs := FirstWin(cs);
    cs := FirstStore(cs);
    cs := FirstCommit(cs);
    cs := SecondWin(cs);
  }

  /** From every initial state of three nodes a run leads to a confirmed read that is served
      from the empty state although node 1 committed a write before the read began. */
  lemma ConfirmedReadCanBeStale(c: World) returns (cs: seq<World>, j: nat, k: nat)
    requires Init(c) && c.cfg.peers == {1, 2, 3}
    ensures Run(cs) && cs[0] == c && Confirmed(cs, j, k, 2, 1)
    ensures 1 in cs[j].nodes && cs[j].nodes[1].commit == 1 && cs[j].nodes[1].log == [ENTRY]
    ensures !NothingInherited(cs[j].nodes[2]) && cs[k].nodes[2].state == EMPTY
    ensures Fold([ENTRY]) != EMPTY
  {
    hide Run, Init, Enabled, Do;
    var was := UntilSecondWin(c);
    j := |was| - 1;
    cs := SecondRead(was);
    k := |cs| - 1;
    assert cs[j] == Last(was) && cs[j + 1] == cs[|was|];
    FoldStep([ENTRY], 0);
  }
}
