/** What the cluster can always do: who grants a vote, who counts as elected or confirmed,
    and that a majority of idle nodes can elect one of its own. */
module Progress {
  import opened Commands
  import opened Quorums
  import opened Cluster
  import opened Steps
  import opened Handlers

  // ----- the vote rule orders logs ----------------------------------------------

  /** Of two logs one is at least as recent as the other, and the rule is transitive. */
  lemma RecencyIsOrder(a: seq<Entry>, b: seq<Entry>, d: seq<Entry>)
    ensures UpToDate(|a|, LastTerm(a), b) || UpToDate(|b|, LastTerm(b), a)
    ensures UpToDate(|a|, LastTerm(a), b) && UpToDate(|b|, LastTerm(b), d) ==> UpToDate(|a|, LastTerm(a), d)
  {}

  /** A later last entry wins, however short its log; a longer log with it wins a tie. */
  lemma GrantIff(p: Id, n: Node, m: Msg)
    requires m.VoteReq?
    ensures VoteAnswer(p, n, m).granted <==>
            (&& (m.term > n.term || (m.term == n.term && (n.vote == None || n.vote == Some(m.src))))
             && (m.lastTerm > LastTerm(n.log) || (m.lastTerm == LastTerm(n.log) && m.lastIndex >= |n.log|)))
    ensures VoteAnswer(p, n, m).granted ==> OnVoteRequest(n, m).vote == Some(m.src) && OnVoteRequest(n, m).term == m.term
  {}

  /** The request for a vote in term `t` on this log. */
  function Request(p: Id, q: Id, t: nat, log: seq<Entry>): Msg { VoteReq(p, q, t, |log|, LastTerm(log)) }

  lemma {:induction false} Freshest(nodes: map<Id, Node>, s: set<Id>) returns (p: Id)
    requires s != {} && s <= nodes.Keys
    ensures p in s && forall q :: q in s ==> UpToDate(|nodes[p].log|, LastTerm(nodes[p].log), nodes[q].log)
  {
    hide UpToDate, LastTerm;
    var x := Pick(s);
    p := x;
    if s == {x} {
      RecencyIsOrder(nodes[x].log, nodes[x].log, nodes[x].log);
    } else {
      var y := Freshest(nodes, s - {x});
      RecencyIsOrder(nodes[x].log, nodes[y].log, nodes[y].log);
      RecencyIsOrder(nodes[x].log, nodes[x].log, nodes[x].log);
      p := if UpToDate(|nodes[x].log|, LastTerm(nodes[x].log), nodes[y].log) then x else y;
      forall q | q in s ensures UpToDate(|nodes[p].log|, LastTerm(nodes[p].log), nodes[q].log) {
        if q != x { RecencyIsOrder(nodes[p].log, nodes[y].log, nodes[q].log); }
      }
    }
  }

  /** Among any nodes that have not voted in a term there is one whose request in that term
      every other one grants. */
  lemma SomeoneIsGranted(nodes: map<Id, Node>, s: set<Id>, t: nat) returns (p: Id)
    requires s != {} && s <= nodes.Keys
    requires forall q :: q in s ==> nodes[q].term < t || (nodes[q].term == t && nodes[q].vote == None)
    ensures p in s && forall q :: q in s ==> VoteAnswer(q, nodes[q], Request(p, q, t, nodes[p].log)).granted
  {
    hide UpToDate, LastTerm;
    p := Freshest(nodes, s);
    forall q | q in s ensures VoteAnswer(q, nodes[q], Request(p, q, t, nodes[p].log)).granted {
      GrantedTo(q, nodes[q], p, t, nodes[p].log);
    }
  }

  lemma GrantedTo(q: Id, n: Node, p: Id, t: nat, log: seq<Entry>)
    requires n.term < t || (n.term == t && n.vote == None)
    requires UpToDate(|log|, LastTerm(log), n.log)
    ensures VoteAnswer(q, n, Request(p, q, t, log)) == VoteResp(q, p, t, true)
  {}

  // ----- what counts ------------------------------------------------------------

  /** A candidate leads as soon as its distinct granters are more than half of the peers, with
      every peer's match index at zero. */
  lemma LeadsIff(p: Id, peers: set<Id>, n: Node, m: Msg)
    requires m.VoteResp? && n.role == Candidate && m.src !in n.granted
    ensures var r := OnVoteReply(p, peers, n, m); var counted := m.granted && m.term == n.term;
            && (r.role == Leader <==> counted && 2 * |n.granted + {m.src}| > |peers|)
            && (counted ==> r.granted == n.granted + {m.src} && r.term == n.term && r.log == n.log)
            && (r.role == Leader ==> r.matched == map q | q in peers && q != p :: 0)
            && (m.term > n.term ==> r.role == Follower && r.term == m.term && r.vote == None)
  {
    assert peers - {p} == set q | q in peers && q != p;
  }

  /** A peer confirms a read exactly when it is not in a newer term, and is then in the
      leader's term. */
  lemma ReadConfirmedIff(p: Id, n: Node, m: Msg)
    requires m.ReadReq?
    ensures ReadAnswer(p, n, m).ok <==> m.term >= n.term
    ensures OnReadRequest(n, m).term == Max(n.term, m.term) == ReadAnswer(p, n, m).term
  {}

  /** A response answers the active read exactly when it makes the distinct confirmers more
      than half of the peers. */
  lemma CompletesIff(codec: Codec, p: Id, peers: set<Id>, n: Node, m: Msg, queue: seq<nat>)
    requires m.ReadResp? && n.read.Some? && n.role == Leader && m.term <= n.term
    ensures Completes(peers, n, m) <==>
            m.ok && m.term == n.term && m.id == n.read.value.id && 2 * |n.read.value.acks + {m.src}| > |peers|
    ensures !Completes(peers, n, m) ==>
            OnReadReply(codec, p, peers, n, m, queue) ==
            (if m.ok && m.term == n.term && m.id == n.read.value.id
             then n.(read := Some(Read(m.id, n.read.value.index, n.read.value.acks + {m.src}))) else n, queue)
  {}

  /** A peer that has taken the whole snapshot is credited with it. */
  lemma SnapshotCredited(n: Node, m: Msg)
    requires m.SnapResp? && n.role == Leader && m.term == n.term
    ensures OnSnapshotReply(n, m) ==
            if m.ok && m.next == |n.snapData| then n.(matched := n.matched[m.src := n.snap]) else n
  {}

  // ----- an election as a run ---------------------------------------------------

  /** The candidate that `n` becomes in term `t`. */
  function Running(p: Id, n: Node, t: nat, granted: set<Id>): Node {
    n.(role := Candidate, term := t, vote := Some(p), granted := granted)
  }

  lemma {:induction false} Raise(c: World, p: Id, n: Node, c': World, t: nat) returns (c'': World)
    requires Walks(c, p, n, c') && n.phase == Idle && n.role != Leader && n.term < t
    ensures Walks(c, p, Running(p, n, t, {p}), c'')
    decreases t - n.term
  {
    hide Reaches;
    c'' := Walk(c, p, n, c', Timeout(p), Campaign(p, n));
    if n.term + 1 < t { c'' := Raise(c, p, Campaign(p, n), c'', t); }
  }

  /** `q` has not reached the candidate's term and its log is no more recent. */
  predicate Willing(n: Node, candidate: Node) {
    n.phase == Idle && n.term < candidate.term && UpToDate(|candidate.log|, LastTerm(candidate.log), n.log)
  }

  /** An election touches a node's term, vote and role, never its log, snapshot or store. */
  predicate Calm(n: Node, n': Node) {
    n' == n.(term := n'.term, vote := n'.vote, role := n'.role, read := n'.read)
  }

  /** `n` leads as `n'`, with nothing but its own log to start from. */
  ghost predicate Elected(n: Node, n': Node, peers: set<Id>, p: Id) {
    n' == n.(role := Leader, term := n'.term, vote := n'.vote, granted := n'.granted, lastRead := 0,
             matched := map q | q in peers && q != p :: 0)
  }

  /** One request, one granted vote, counted. */
  lemma OneVote(c: World, p: Id, q: Id) returns (c': World)
    requires p in c.cfg.peers && p in c.nodes && q in c.cfg.peers && q in c.nodes && p != q
    requires c.nodes[p].phase == Idle && c.nodes[p].role == Candidate && Willing(c.nodes[q], c.nodes[p])
    ensures var n := c.nodes[p];
            && Reaches(c, c') && c'.cfg == c.cfg && c'.nodes.Keys == c.nodes.Keys
            && c'.nodes[p] == OnVoteReply(p, c.cfg.peers, n, VoteResp(q, p, n.term, true))
            && c'.nodes[q].role == Follower && c'.nodes[q].term == n.term && Calm(c.nodes[q], c'.nodes[q])
            && forall x :: x in c.nodes && x != p && x != q ==> c'.nodes[x] == c.nodes[x]
  {
    hide Reaches, OnVoteReply, VoteAnswer, UpToDate, LastTerm;
    var n := c.nodes[p];
    var m := Request(p, q, n.term, n.log);
    Stay(c, p);
    var c1 := Walk(c, p, n, c, AskVote(p, q), n);
    assert c1.nodes == c.nodes;
    var c2 := VoteRequestIsRun(c1, q, m);
    GrantedTo(q, c.nodes[q], p, n.term, n.log);
    var c3 := VoteReplyIsRun(c2, p, VoteResp(q, p, n.term, true));
    ReachesTrans(c, c1, c2);
    ReachesTrans(c, c2, c3);
    c' := c3;
  }

  /** The votes of `rest` are collected one by one until they are a majority. */
  lemma {:induction false} Gather(c: World, p: Id, rest: set<Id>) returns (c': World)
    requires p in c.cfg.peers && p in c.nodes && c.nodes[p].phase == Idle && c.nodes[p].role == Candidate
    requires rest <= c.cfg.peers && rest <= c.nodes.Keys && p !in rest && rest !! c.nodes[p].granted
    requires forall q :: q in rest ==> Willing(c.nodes[q], c.nodes[p])
    requires 2 * |c.nodes[p].granted| <= |c.cfg.peers| < 2 * (|c.nodes[p].granted| + |rest|)
    ensures Reaches(c, c') && c'.cfg == c.cfg && c'.nodes.Keys == c.nodes.Keys
    ensures forall x :: x in c.nodes && x != p && x !in rest ==> c'.nodes[x] == c.nodes[x]
    ensures forall x :: x in rest ==> Calm(c.nodes[x], c'.nodes[x]) && c'.nodes[x].term <= c.nodes[p].term
    ensures Elected(c.nodes[p], c'.nodes[p], c.cfg.peers, p) && c'.nodes[p].term == c.nodes[p].term
    decreases rest
  {
    hide Reaches, OnVoteReply, UpToDate, LastTerm, Elected;
    var n := c.nodes[p];
    var q := Pick(rest);
    c' := OneVote(c, p, q);
    VoteCounted(p, c.cfg.peers, n, q);
    if c'.nodes[p].role != Leader {
      var c1 := c';
      assert forall x :: x in rest - {q} ==> c1.nodes[x] == c.nodes[x];
      c' := Gather(c1, p, rest - {q});
      ReachesTrans(c, c1, c');
      SameElected(n, n.(granted := n.granted + {q}), c'.nodes[p], c.cfg.peers, p);
    }
  }

  lemma VoteCounted(p: Id, peers: set<Id>, n: Node, q: Id)
    requires n.role == Candidate && q !in n.granted
    ensures var r := OnVoteReply(p, peers, n, VoteResp(q, p, n.term, true)); var more := n.granted + {q};
            if 2 * |more| > |peers| then Elected(n, r, peers, p) && r.role == Leader && r.term == n.term
            else r == n.(granted := more)
  {
    LeadsIff(p, peers, n, VoteResp(q, p, n.term, true));
  }

  lemma SameElected(n: Node, n1: Node, n': Node, peers: set<Id>, p: Id)
    requires Elected(n1, n', peers, p)
    requires n1 == n.(role := n1.role, term := n1.term, vote := n1.vote, granted := n1.granted)
    ensures Elected(n, n', peers, p)
  {}

  lemma {:induction false} TopTerm(nodes: map<Id, Node>, s: set<Id>) returns (t: nat)
    requires s <= nodes.Keys
    ensures forall q :: q in s ==> nodes[q].term < t
  {
    t := 0;
    if s != {} {
      var x := Pick(s);
      var t1 := TopTerm(nodes, s - {x});
      t := Max(t1, nodes[x].term + 1);
    }
  }

  /** Whatever terms, votes and logs a crashed or partitioned past has left, a majority of idle
      nodes of which none leads can elect one of its own in a term above all of theirs, with
      no help from the other nodes. */
  lemma MajorityCanElect(c: World, s: set<Id>) returns (p: Id, c': World)
    requires Majority(s, c.cfg.peers) && s <= c.nodes.Keys
    requires forall q :: q in s ==> c.nodes[q].phase == Idle && c.nodes[q].role != Leader
    ensures Reaches(c, c') && c'.cfg == c.cfg && c'.nodes.Keys == c.nodes.Keys && p in s
    ensures c'.nodes[p].role == Leader && Elected(c.nodes[p], c'.nodes[p], c.cfg.peers, p)
    ensures forall q :: q in s ==> c.nodes[q].term < c'.nodes[p].term
    ensures forall q :: q in s && q != p ==> Calm(c.nodes[q], c'.nodes[q]) && c'.nodes[q].term <= c'.nodes[p].term
    ensures forall q :: q in c.nodes && q !in s ==> c'.nodes[q] == c.nodes[q]
  {
    hide Reaches, UpToDate, LastTerm;
    p := Freshest(c.nodes, s);
    var t := TopTerm(c.nodes, s);
    var n := c.nodes[p];
    if |c.cfg.peers| == 1 {
      c' := CandidacyIsRun(c, p);
      SizeBound(s - {p}, c.cfg.peers - {p});
    } else {
      Stay(c, p);
      var c1 := Raise(c, p, n, c, t);
      assert |{p}| == 1 && |s - {p}| == |s| - 1;
      c' := Gather(c1, p, s - {p});
      ReachesTrans(c, c1, c');
      SameElected(n, c1.nodes[p], c'.nodes[p], c.cfg.peers, p);
    }
  }
}
