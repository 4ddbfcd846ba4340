/** The node as the code keeps it: a compacted log, fields updated in place, and loops.
    `View` is the protocol's node; every method is specified by what it does to the view. */
module Server {
  import opened Commands
  import opened Quorums
  import opened Cluster
  import opened Steps
  import opened Invariant
  import opened Handlers

  /** An entry as it travels, with its own index. */
  datatype WireEntry = WireEntry(index: nat, term: nat, command: Command)

  function Strip(entries: seq<WireEntry>): (r: seq<Entry>)
    ensures |r| == |entries|
    ensures forall k :: 0 <= k < |r| ==> r[k] == Entry(entries[k].term, entries[k].command)
  {
    seq(|entries|, k requires 0 <= k < |entries| => Entry(entries[k].term, entries[k].command))
  }

  /** What Load hands to LoadState. */
  datatype Saved = Saved(term: nat, vote: Option<Id>, commit: nat, applied: nat,
                         snapIndex: nat, snapTerm: nat, snapData: Bytes, log: seq<Entry>)

  /** The last_applied of a node is the stored one, or what a restart made of it. */
  ghost predicate ProgressOf(applied: nat, n: Node) {
    applied == n.applied ||
    (n.phase == Applying && n.applied == Min(Max(applied, n.snap), Min(Max(n.dcommit, n.snap), |n.log|)))
  }

  /** These are the records of node `n`. */
  ghost predicate SavedBy(saved: Saved, n: Node) {
    && n.snap <= |n.log|
    && saved == Saved(n.term, n.vote, n.dcommit, saved.applied, n.snap, TermOf(n.log, n.snap), n.snapData, n.log[n.snap..])
    && ProgressOf(saved.applied, n)
  }

  /** The node a restart makes of these records, field by field. */
  lemma Rebuilt(saved: Saved, s: State, n: Node)
    requires SavedBy(saved, n) && s == n.state && Indexes(n)
    ensures var commit := Min(Max(saved.commit, saved.snapIndex), saved.snapIndex + |saved.log|);
            && n.snap <= |n.log| && n.log[..n.snap] + saved.log == n.log && saved.snapIndex == n.snap
            && saved.snapTerm == LastTerm(n.log[..n.snap])
            && saved.snapIndex <= Min(Max(saved.applied, saved.snapIndex), commit)
            && Restart(n) == Node(saved.term, saved.vote, n.log, saved.snapIndex, saved.snapData, s, n.stateIndex,
                                  saved.commit, commit, Min(Max(saved.applied, saved.snapIndex), commit), n.high,
                                  Follower, {}, map[], Incoming(false, 0, 0, []), None, 0, Applying)
  {}

  /** The entries carry the indexes after `prev`, in order. */
  predicate Numbered(prev: nat, entries: seq<WireEntry>) {
    forall k :: 0 <= k < |entries| ==> entries[k].index == prev + 1 + k
  }

  function AbsorbStep(log: seq<Entry>, at: nat, e: Entry, commit: nat): Option<seq<Entry>>
    requires at <= |log|
  {
    if at < |log| && log[at].term != e.term && at + 1 <= commit then None
    else if at < |log| && log[at].term == e.term then Some(log)
    else Some(log[..at] + [e])
  }

  lemma AbsorbUnfold(log: seq<Entry>, at: nat, entries: seq<Entry>, commit: nat)
    requires at <= |log|
    ensures Absorb(log, at, entries, commit) ==
            if entries == [] then Some(log)
            else match AbsorbStep(log, at, entries[0], commit)
                 case None => None
                 case Some(next) => Absorb(next, at + 1, entries[1..], commit)
  {}

  lemma FreshMatches(p: Id, n: Node, peers: set<Id>, matched: map<Id, nat>)
    requires matched.Keys == peers - {p} && forall q :: q in matched ==> matched[q] == 0
    ensures Promote(p, n, peers).matched == matched
  {
    var zeros := Promote(p, n, peers).matched;
    assert zeros.Keys == matched.Keys;
    forall q | q in matched ensures zeros[q] == matched[q] {}
  }

  method TakeOne<T(==)>(s: set<T>) returns (x: T)
    requires s != {}
    ensures x in s
  {
    x :| x in s;
  }

  ghost function Waiting(queue: seq<nat>, reading: Option<Read>): set<nat> {
    (set r | r in queue) + if reading.Some? then {reading.value.id} else {}
  }

  ghost predicate Awaited(last: nat, queue: seq<nat>, reading: Option<Read>, answers: map<nat, bool>) {
    Rising(last, queue) && (reading.Some? ==> reading.value.id <= last) && Waiting(queue, reading) !! answers.Keys
  }

  lemma NothingAwaited(last: nat, answers: map<nat, bool>)
    ensures Awaited(last, [], None, answers) && Waiting([], None) == {}
  {}

  lemma AwaitedLower(last: nat, last': nat, queue: seq<nat>, answers: map<nat, bool>)
    requires Awaited(last, queue, None, answers) && last' <= last
    ensures Awaited(last', queue, None, answers)
  {}

  /** The answers after all waiting reads were answered false. */
  ghost predicate Failed(answers: map<nat, bool>, before: map<nat, bool>, waiting: set<nat>) {
    answers.Keys == before.Keys + waiting &&
    forall r :: r in answers ==> if r in waiting then !answers[r] else answers[r] == before[r]
  }

  ghost function Reaching(seen: set<Id>, matched: map<Id, nat>, index: nat): set<Id> {
    set q | q in seen && q in matched && matched[q] >= index
  }

  lemma ReachingStep(seen: set<Id>, matched: map<Id, nat>, index: nat, q: Id)
    requires q !in seen && q in matched
    ensures |Reaching(seen + {q}, matched, index)| ==
            |Reaching(seen, matched, index)| + if matched[q] >= index then 1 else 0
  {
    if matched[q] >= index {
      assert Reaching(seen + {q}, matched, index) == Reaching(seen, matched, index) + {q};
    } else {
      assert Reaching(seen + {q}, matched, index) == Reaching(seen, matched, index);
    }
  }

  /** Counting the peers whose match index reaches an index. */
  method CountAtLeast(matched: map<Id, nat>, index: nat) returns (count: nat)
    ensures count == |set q | q in matched && matched[q] >= index|
  {
    count := 0;
    var left := matched.Keys;
    ghost var seen: set<Id> := {};
    while left != {}
      invariant left !! seen && left + seen == matched.Keys
      invariant count == |Reaching(seen, matched, index)|
      decreases left
    {
      var q := TakeOne(left);
      ReachingStep(seen, matched, index, q);
      left := left - {q};
      if matched[q] >= index {
        count := count + 1;
      }
      seen := seen + {q};
    }
    assert Reaching(seen, matched, index) == (set q | q in matched && matched[q] >= index);
  }

  class RaftNode {
    const id: Id
    const peers: set<Id>
    const codec: Codec

    var role: Role
    var currentTerm: nat
    var votedFor: Option<Id>
    var log: seq<Entry>
    var snapshotIndex: nat
    var snapshotTerm: nat
    var snapshotData: Bytes
    var commitIndex: nat
    var lastApplied: nat
    var granted: set<Id>
    var nextIndex: map<Id, nat>
    var matchIndex: map<Id, nat>
    var voteRequest: map<Id, nat>         // the vote request each peer was last sent
    var rpcRequest: map<Id, nat>          // the request each peer still owes an answer to, 0 for none
    var rpcSnapshot: map<Id, bool>
    var snapshotOffset: map<Id, nat>
    var incoming: Incoming
    var reading: Option<Read>
    var readTerm: nat
    var pendingReads: seq<nat>
    var answers: map<nat, bool>           // the promises already fulfilled
    var state: State
    var storedCommit: nat

    ghost var compacted: seq<Entry>
    ghost var stateIndex: nat
    ghost var high: nat
    ghost var lastRead: nat

    ghost predicate Valid()
      reads this
    {
      && snapshotIndex == |compacted| && snapshotTerm == LastTerm(compacted) && snapshotIndex <= lastApplied
      && id !in matchIndex && id !in rpcRequest
      && (reading.Some? ==> role == Leader && readTerm == currentTerm)
    }

    /** Reads asked for and not answered: the queue and the active one. */
    ghost function Unanswered(): set<nat>
      reads this`pendingReads, this`reading
    {
      Waiting(pendingReads, reading)
    }

    /** No read is asked for twice, and none that waits has an answer. */
    ghost predicate Promises()
      reads this`lastRead, this`pendingReads, this`reading, this`answers
    {
      Awaited(lastRead, pendingReads, reading, answers)
    }

    ghost function View(phase: Phase): Node
      reads this
    {
      Node(currentTerm, votedFor, compacted + log, snapshotIndex, snapshotData, state, stateIndex, storedCommit,
           commitIndex, lastApplied, high, role, granted, matchIndex, incoming, reading, lastRead, phase)
    }

    constructor (id: Id, peers: set<Id>, codec: Codec)
      ensures this.id == id && this.peers == peers && this.codec == codec
      ensures Valid() && Promises() && View(Idle) == FRESH_NODE
    {
      this.id, this.peers, this.codec := id, peers, codec;
      role, currentTerm, votedFor, log := Follower, 0, None, [];
      snapshotIndex, snapshotTerm, snapshotData := 0, 0, [];
      commitIndex, lastApplied, granted := 0, 0, {};
      nextIndex, matchIndex, voteRequest := map[], map[], map[];
      rpcRequest, rpcSnapshot, snapshotOffset := map[], map[], map[];
      incoming, reading, readTerm, pendingReads, answers := Incoming(false, 0, 0, []), None, 0, [], map[];
      state, storedCommit := EMPTY, 0;
      compacted, stateIndex, high, lastRead := [], 0, 0, 0;
    }

    // ----- log arithmetic -------------------------------------------------------

    function LastIndex(): (r: nat)
      requires Valid()
      reads this
      ensures r == |View(Idle).log|
    {
      snapshotIndex + |log|
    }

    function LastLogTerm(): (r: nat)
      requires Valid()
      reads this
      ensures r == LastTerm(View(Idle).log)
    {
      if log == [] then assert compacted + log == compacted; snapshotTerm
      else log[|log| - 1].term
    }

    /** TermAt answers as on the log before compaction, for every index it still covers. */
    function TermOfIndex(index: nat): (r: nat)
      requires Valid()
      reads this
      ensures r == TermAt(View(Idle), index)
    {
      if index == snapshotIndex then
        assert index > 0 ==> (compacted + log)[index - 1] == compacted[index - 1]; snapshotTerm
      else if index < snapshotIndex || index > LastIndex() then 0
      else log[index - snapshotIndex - 1].term
    }

    predicate CandidateUpToDate(index: nat, term: nat)
      requires Valid()
      reads this
      ensures CandidateUpToDate(index, term) <==> UpToDate(index, term, View(Idle).log)
    {
      term > LastLogTerm() || (term == LastLogTerm() && index >= LastIndex())
    }

    // ----- ApplyCommitted -------------------------------------------------------

    /** One turn of the loop: the entry's command, or a refusal. */
    method ApplyEntry() returns (ok: bool)
      requires Valid() && lastApplied < commitIndex
      modifies this`state, this`stateIndex, this`lastApplied, this`storedCommit
      ensures Valid() && (ok <==> CanApply(old(View(Applying))))
      ensures ok ==> View(Applying) == ApplyOne(old(View(Applying))) && lastApplied == old(lastApplied) + 1
      ensures !ok ==> View(Applying) == old(View(Applying))
    {
      hide Applicable, Execute, Judge;
      if lastApplied + 1 > LastIndex() {
        return false;
      }
      var command := log[lastApplied - snapshotIndex].command;
      assert (compacted + log)[lastApplied].command == command;
      if !Applicable(state, command) {
        return false;
      }
      state := Execute(state, command);
      stateIndex := Max(stateIndex, lastApplied + 1);
      lastApplied := lastApplied + 1;
      storedCommit := commitIndex;
      ok := true;
    }

    method ApplyLoop() returns (ok: bool)
      requires Valid()
      modifies this`state, this`stateIndex, this`lastApplied, this`storedCommit
      ensures Valid() && View(Applying) == Drain(old(View(Applying))) && lastApplied >= old(lastApplied)
      ensures ok <==> Drains(old(View(Applying)))
    {
      hide Applicable, Execute;
      ghost var was := View(Applying);
      while lastApplied < commitIndex
        invariant Valid() && Drain(View(Applying)) == Drain(was) && commitIndex == was.commit && lastApplied >= was.applied
        decreases commitIndex - lastApplied
      {
        DrainUnfold(View(Applying));
        var applied := ApplyEntry();
        if !applied {
          return false;
        }
      }
      ok := true;
    }

    /** ApplyCommitted: the loop, the progress record, and a snapshot when one is due. */
    method ApplyCommitted() returns (outcome: Outcome)
      requires Valid()
      modifies this`state, this`stateIndex, this`lastApplied, this`storedCommit
      modifies this`snapshotIndex, this`snapshotTerm, this`snapshotData, this`log, this`compacted
      ensures Valid() && outcome == Ending(old(View(Applying))) && lastApplied >= old(lastApplied)
      ensures View(RestPhase(outcome)) == Settle(codec, old(View(Applying)))
    {
      hide Drain;
      var ok := ApplyLoop();
      if !ok {
        return Rejecting;
      }
      storedCommit := commitIndex;
      assert View(Compacting) == Persist(Drain(old(View(Applying))));
      assert commitIndex <= lastApplied;
      var labelled := CreateSnapshotIfNeeded();
      outcome := if labelled then Done else Unlabelled;
    }

    /** CreateSnapshotIfNeeded: drop the entries up to the commit index, keep everything
        the log answers for. */
    method CreateSnapshotIfNeeded() returns (labelled: bool)
      requires Valid() && commitIndex <= lastApplied
      modifies this`snapshotIndex, this`snapshotTerm, this`snapshotData, this`log, this`compacted
      ensures Valid() && (labelled <==> Labelled(old(View(Compacting))))
      ensures labelled ==> View(Idle) == Compact(codec, old(View(Compacting)))
      ensures !labelled ==> View(Compacting) == old(View(Compacting))
      ensures labelled ==> LastIndex() == old(LastIndex()) && LastLogTerm() == old(LastLogTerm())
      ensures labelled ==> forall i :: i >= snapshotIndex ==> TermOfIndex(i) == old(TermOfIndex(i))
    {
      if commitIndex <= snapshotIndex || commitIndex - snapshotIndex < SNAPSHOT_THRESHOLD {
        return true;
      }
      var newTerm := TermOfIndex(commitIndex);
      if newTerm == 0 {
        return false;
      }
      var eraseCount := commitIndex - snapshotIndex;
      ghost var full := compacted + log;
      compacted := full[..commitIndex];
      log := log[eraseCount..];
      assert compacted + log == full;
      snapshotIndex := commitIndex;
      snapshotTerm := newTerm;
      snapshotData := codec.encode(state);
      labelled := true;
    }

    // ----- roles ----------------------------------------------------------------

    method EnterTerm(term: nat)
      modifies this`currentTerm, this`votedFor
      ensures currentTerm == Max(old(currentTerm), term)
      ensures votedFor == if term > old(currentTerm) then None else old(votedFor)
    {
      if term > currentTerm {
        currentTerm := term;
        votedFor := None;
      }
    }

    method ClearReads()
      modifies this`reading, this`pendingReads, this`answers
      ensures reading == None && pendingReads == [] && Failed(answers, old(answers), old(Unanswered())) && Promises()
    {
      hide Awaited, Waiting, Failed;
      FailPendingReadIndexes();
      NothingAwaited(lastRead, answers);
    }

    /** StepDown: every read that was waiting is answered false. */
    method StepDownTo(term: nat)
      requires Valid()
      modifies this`currentTerm, this`votedFor, this`role, this`reading, this`pendingReads, this`answers
      ensures Valid() && View(Idle) == StepDown(old(View(Idle)), term)
      ensures reading == None && pendingReads == [] && Failed(answers, old(answers), old(Unanswered())) && Promises()
    {
      hide LastTerm, Awaited, Waiting, Failed;
      EnterTerm(term);
      ClearReads();
      role := Follower;
    }

    method BecomeCandidate()
      requires Valid() && role != Leader
      modifies this`currentTerm, this`votedFor, this`role, this`granted, this`nextIndex, this`matchIndex, this`lastRead
      ensures Valid() && View(Idle) == OnTimeout(id, peers, old(View(Idle)))
      ensures role == Leader ==> StartsAtEnd(id, peers, nextIndex, LastIndex())
      ensures old(Promises()) ==> Promises()
    {
      hide Awaited, Promote, LastTerm, StartsAtEnd;
      role := Candidate;
      currentTerm := currentTerm + 1;
      votedFor := Some(id);
      granted := {id};
      if |granted| >= |peers| / 2 + 1 {
        BecomeLeader();
      }
    }

    /** The loop over the peers that a new leader starts with. */
    method ResetPeers()
      requires Valid()
      modifies this`nextIndex, this`matchIndex
      ensures Valid() && matchIndex.Keys == peers - {id}
      ensures forall q :: q in peers && q != id ==>
                matchIndex[q] == 0 && q in nextIndex && nextIndex[q] == LastIndex() + 1
    {
      var left := peers - {id};
      matchIndex := map[];
      while left != {}
        invariant left <= peers - {id} && Valid() && matchIndex.Keys == peers - {id} - left
        invariant forall q :: q in matchIndex ==>
                    matchIndex[q] == 0 && q in nextIndex && nextIndex[q] == LastIndex() + 1
        decreases left
      {
        var q := TakeOne(left);
        nextIndex := nextIndex[q := LastIndex() + 1];
        matchIndex := matchIndex[q := 0];
        left := left - {q};
      }
    }

    method BecomeLeader()
      requires Valid() && reading == None
      modifies this`role, this`nextIndex, this`matchIndex, this`lastRead
      ensures Valid() && View(Idle) == Promote(id, old(View(Idle)), peers) && (old(Promises()) ==> Promises())
      ensures role == Leader && StartsAtEnd(id, peers, nextIndex, LastIndex())
    {
      hide Awaited;
      if Promises() { AwaitedLower(lastRead, 0, pendingReads, answers); }
      role := Leader;
      lastRead := 0;
      ResetPeers();
      FreshMatches(id, old(View(Idle)), peers, matchIndex);
    }

    /** HandleRequestVote. */
    method HandleRequestVote(src: Id, term: nat, lastLogIndex: nat, lastLogTerm: nat) returns (reply: Msg)
      requires Valid()
      modifies this`currentTerm, this`votedFor, this`role, this`reading, this`pendingReads, this`answers
      ensures Valid()
      ensures var m := VoteReq(src, id, term, lastLogIndex, lastLogTerm);
              View(Idle) == OnVoteRequest(old(View(Idle)), m) && reply == VoteAnswer(id, old(View(Idle)), m)
      ensures reply.granted <==>
              (&& (term > old(currentTerm) ||
                   (term == old(currentTerm) && (old(votedFor) == None || old(votedFor) == Some(src))))
               && (lastLogTerm > LastLogTerm() || (lastLogTerm == LastLogTerm() && lastLogIndex >= LastIndex())))
      ensures old(Promises()) ==> Promises()
    {
      hide Awaited, Waiting, Failed;
      if term > currentTerm {
        StepDownTo(term);
      }
      var grant := term == currentTerm && (votedFor == None || votedFor == Some(src)) &&
                   CandidateUpToDate(lastLogIndex, lastLogTerm);
      if grant {
        votedFor := Some(src);
      }
      reply := VoteResp(id, src, currentTerm, grant);
    }

    /** SendRequestVoteToPeer: the answer is awaited under this request id. */
    method BuildVoteRequest(peer: Id, requestId: nat) returns (lastLogIndex: nat, lastLogTerm: nat)
      requires Valid()
      modifies this`voteRequest
      ensures Valid() && voteRequest == old(voteRequest)[peer := requestId]
      ensures lastLogIndex == |View(Idle).log| && lastLogTerm == LastTerm(View(Idle).log)
    {
      lastLogIndex, lastLogTerm := LastIndex(), LastLogTerm();
      voteRequest := voteRequest[peer := requestId];
    }

    /** HandleRequestVoteResponse: apart from a newer term, only the awaited answer counts. */
    method HandleRequestVoteResponse(src: Id, requestId: nat, term: nat, voteGranted: bool)
      requires Valid()
      modifies this`currentTerm, this`votedFor, this`role, this`reading, this`pendingReads, this`answers, this`granted
      modifies this`nextIndex, this`matchIndex, this`lastRead
      ensures Valid()
      ensures var awaited := requestId != 0 && src in voteRequest && requestId == voteRequest[src];
              View(Idle) == if term > old(currentTerm) || awaited
                            then OnVoteReply(id, peers, old(View(Idle)), VoteResp(src, id, term, voteGranted))
                            else old(View(Idle))
      ensures if role == Leader && old(role) != Leader then StartsAtEnd(id, peers, nextIndex, LastIndex())
              else nextIndex == old(nextIndex)
      ensures old(Promises()) ==> Promises()
    {
      hide Promote, Awaited, Waiting, Failed, LastTerm, StartsAtEnd;
      if term > currentTerm {
        StepDownTo(term);
        return;
      }
      if role != Candidate || term != currentTerm || requestId == 0 || src !in voteRequest ||
         requestId != voteRequest[src] || !voteGranted
      {
        return;
      }
      if src in granted {
        assert granted + {src} == granted;
        return;
      }
      granted := granted + {src};
      if |granted| >= |peers| / 2 + 1 {
        BecomeLeader();
      }
    }

    // ----- AppendEntries --------------------------------------------------------

    /** One entry: skip it, refuse it, or put it in place of everything from its index on. */
    method AbsorbOne(index: nat, e: Entry) returns (ok: bool)
      requires Valid() && snapshotIndex < index <= LastIndex() + 1
      modifies this`log
      ensures Valid() && (ok <==> AbsorbStep(old(compacted + log), index - 1, e, commitIndex).Some?)
      ensures ok ==> Some(compacted + log) == AbsorbStep(old(compacted + log), index - 1, e, commitIndex)
      ensures !ok ==> log == old(log)
    {
      ghost var full := compacted + log;
      if index <= LastIndex() && TermOfIndex(index) != e.term {
        if index <= commitIndex {
          return false;
        }
        log := log[..index - snapshotIndex - 1];
        assert compacted + log == full[..index - 1];
      }
      if index > LastIndex() {
        log := log + [e];
        assert compacted + log == full[..index - 1] + [e];
      }
      ok := true;
    }

    /** The entry loop. With numbered entries it computes Absorb, and a refusal leaves the
        log as it was. */
    method AbsorbEntries(prev: nat, entries: seq<WireEntry>) returns (ok: bool)
      requires Valid() && snapshotIndex <= prev <= LastIndex()
      modifies this`log
      ensures Valid() && (ok ==> Numbered(prev, entries))
      ensures Numbered(prev, entries) ==>
                var r := Absorb(old(compacted + log), prev, Strip(entries), commitIndex);
                (ok <==> r.Some?) && compacted + log == if ok then r.value else old(compacted + log)
    {
      hide Absorb;
      ghost var was, all := compacted + log, Strip(entries);
      var k := 0;
      while k < |entries|
        invariant 0 <= k <= |entries| && prev + k <= LastIndex()
        invariant forall j :: 0 <= j < k ==> entries[j].index == prev + 1 + j
        invariant compacted + log == was || LastIndex() == prev + k
        invariant Absorb(was, prev, all, commitIndex) == Absorb(compacted + log, prev + k, all[k..], commitIndex)
      {
        if entries[k].index != prev + k + 1 {
          return false;
        }
        AbsorbUnfold(compacted + log, prev + k, all[k..], commitIndex);
        assert all[k..][0] == all[k] && all[k..][1..] == all[k + 1..];
        var one := AbsorbOne(prev + k + 1, Entry(entries[k].term, entries[k].command));
        if !one {
          return false;
        }
        k := k + 1;
      }
      AbsorbUnfold(compacted + log, prev + k, all[k..], commitIndex);
      ok := true;
    }

    /** The part of HandleAppendEntries after the consistency check. */
    method AcceptEntries(prev: nat, entries: seq<WireEntry>, leaderCommit: nat, ghost m: Msg)
      returns (success: bool, outcome: Outcome)
      requires Valid() && snapshotIndex <= prev <= LastIndex()
      requires m.AppendReq? && m.prev == prev && m.entries == Strip(entries) && m.commit == leaderCommit
      requires Consistent(View(Idle), m)
      modifies this`log, this`commitIndex, this`high, this`state, this`stateIndex, this`lastApplied, this`storedCommit
      modifies this`snapshotIndex, this`snapshotTerm, this`snapshotData, this`compacted
      ensures Valid() && (success ==> Numbered(prev, entries)) && (!success ==> outcome == Done)
      ensures Numbered(prev, entries) ==>
                var r := Merged(old(View(Idle)), m);
                && (success <==> r.Some?)
                && (!success ==> View(Idle) == old(View(Idle)))
                && (success ==> View(RestPhase(outcome)) == Settle(codec, AppendOk(old(View(Idle)), m, r.value)))
    {
      hide Absorb, Drain, Compact;
      outcome := Done;
      success := AbsorbEntries(prev, entries);
      if success {
        commitIndex := Min(leaderCommit, LastIndex());
        high := Max(high, commitIndex);
        assert View(Applying) == AppendOk(old(View(Idle)), m, compacted + log);
        outcome := ApplyCommitted();
      }
    }

    /** HandleAppendEntries. When applying throws, no reply is sent. */
    method HandleAppendEntries(src: Id, term: nat, prev: nat, prevTerm: nat, entries: seq<WireEntry>, leaderCommit: nat)
      returns (reply: Option<Msg>, outcome: Outcome)
      requires Valid()
      modifies this`currentTerm, this`votedFor, this`role, this`reading, this`pendingReads, this`answers
      modifies this`log, this`commitIndex, this`high, this`state, this`stateIndex, this`lastApplied, this`storedCommit
      modifies this`snapshotIndex, this`snapshotTerm, this`snapshotData, this`compacted
      ensures Valid()
      ensures old(Promises()) ==> Promises()
      ensures reply.Some? <==> outcome == Done
      ensures !Numbered(prev, entries) ==> reply.Some? && reply.value.AppendResp? && !reply.value.ok
      ensures Numbered(prev, entries) ==>
                var m := AppendReq(src, id, term, prev, prevTerm, Strip(entries), leaderCommit);
                && View(RestPhase(outcome)) == OnAppend(codec, old(View(Idle)), m)
                && (outcome == Done ==> reply == Some(AppendAnswer(id, old(View(Idle)), m)))
    {
      hide Absorb, Settle, AppendOk, Awaited, Waiting, Failed, LastTerm;
      outcome := Done;
      if term < currentTerm {
        reply := Some(AppendResp(id, src, currentTerm, false, LastIndex()));
        return;
      }
      if term > currentTerm || role != Follower {
        StepDownTo(term);
      }
      ghost var n1, m := View(Idle), AppendReq(src, id, term, prev, prevTerm, Strip(entries), leaderCommit);
      assert n1 == Yield(old(View(Idle)), term);
      var success := snapshotIndex <= prev <= LastIndex() && TermOfIndex(prev) == prevTerm;
      assert success <==> Consistent(n1, m);
      if success {
        success, outcome := AcceptEntries(prev, entries, leaderCommit, m);
      }
      if outcome != Done {
        return None, outcome;
      }
      reply := Some(AppendResp(id, src, currentTerm, success, if success then prev + |entries| else LastIndex()));
    }

    // ----- TryAdvanceCommit -----------------------------------------------------

    method IsCommitted(index: nat) returns (r: bool)
      requires Valid()
      ensures r <==> Counts(id, peers, View(Idle), index)
    {
      if TermOfIndex(index) != currentTerm {
        return false;
      }
      var others := CountAtLeast(matchIndex, index);
      assert Holders(id, View(Idle), index) == {id} + set q | q in matchIndex && matchIndex[q] >= index;
      r := 1 + others > |peers| / 2;
    }

    /** The search for the largest index of the current term that a majority holds. */
    method FindCommit() returns (r: Option<nat>)
      requires Valid()
      ensures r == Largest(id, peers, View(Idle), LastIndex())
    {
      hide Counts;
      var index: nat := LastIndex();
      while index > commitIndex
        invariant Largest(id, peers, View(Idle), LastIndex()) == Largest(id, peers, View(Idle), index)
        decreases index
      {
        var enough := IsCommitted(index);
        if enough {
          return Some(index);
        }
        index := index - 1;
      }
      r := None;
    }

    method TryAdvanceCommit() returns (outcome: Outcome)
      requires Valid()
      modifies this`commitIndex, this`high, this`state, this`stateIndex, this`lastApplied, this`storedCommit
      modifies this`snapshotIndex, this`snapshotTerm, this`snapshotData, this`log, this`compacted
      ensures Valid() && View(RestPhase(outcome)) == Advanced(codec, id, peers, old(View(Idle)))
      ensures old(role) == Leader && currentTerm > 0 ==> CommitsAll(id, peers, old(View(Idle)), commitIndex)
    {
      hide Largest, Settle, Drain, Compact, CommitsAll;
      if role == Leader && currentTerm > 0 { AdvanceCommits(codec, id, peers, View(Idle)); }
      outcome := Done;
      if role != Leader {
        return;
      }
      var found := FindCommit();
      if found.Some? {
        RaiseCommit(found.value);
        outcome := ApplyCommitted();
      }
    }

    method RaiseCommit(index: nat)
      requires Valid()
      modifies this`commitIndex, this`high
      ensures Valid() && View(Applying) == CommitTo(old(View(Idle)), index)
    {
      commitIndex := index;
      high := Max(high, index);
    }

    /** The part of Submit that runs in the event loop, up to the wait for the commit. */
    method SubmitCommand(command: Command) returns (answer: Admission, outcome: Outcome)
      requires Valid()
      modifies this`commitIndex, this`high, this`state, this`stateIndex, this`lastApplied, this`storedCommit
      modifies this`snapshotIndex, this`snapshotTerm, this`snapshotData, this`log, this`compacted
      ensures Valid() && answer == Admit(old(View(Idle)), command)
      ensures View(RestPhase(outcome)) == OnSubmit(codec, id, peers, old(View(Idle)), command)
      ensures answer == Appended && currentTerm > 0 ==>
                CommitsAll(id, peers, Extend(old(View(Idle)), command), commitIndex)
    {
      hide Advanced, Ending, Largest, CommitsAll;
      outcome := Done;
      if role != Leader {
        return Refused, Done;
      }
      if command.HasId() && command.Id() in state.dedup {
        return Known(state.dedup[command.Id()] == command), Done;
      }
      answer := Appended;
      ghost var full := compacted + log;
      log := log + [Entry(currentTerm, command)];
      assert compacted + log == full + [Entry(currentTerm, command)];
      assert View(Idle) == Extend(old(View(Idle)), command);
      outcome := TryAdvanceCommit();
    }

    method RecordSuccess(src: Id, index: nat) returns (outcome: Outcome)
      requires Valid() && src != id
      modifies this`matchIndex, this`nextIndex
      modifies this`commitIndex, this`high, this`state, this`stateIndex, this`lastApplied, this`storedCommit
      modifies this`snapshotIndex, this`snapshotTerm, this`snapshotData, this`log, this`compacted
      ensures Valid() && nextIndex == old(nextIndex)[src := index + 1]
      ensures View(RestPhase(outcome)) ==
              Advanced(codec, id, peers, old(View(Idle)).(matched := old(matchIndex)[src := index]))
      ensures old(role) == Leader && currentTerm > 0 ==>
                CommitsAll(id, peers, old(View(Idle)).(matched := old(matchIndex)[src := index]), commitIndex)
    {
      hide Advanced, Ending, Largest, CommitsAll;
      matchIndex := matchIndex[src := index];
      nextIndex := nextIndex[src := index + 1];
      assert View(Idle) == old(View(Idle)).(matched := old(matchIndex)[src := index]);
      outcome := TryAdvanceCommit();
    }

    /** HandleAppendEntriesResponse: only the answer a peer still owes is looked at. A
        success moves both indexes, a failure moves next_index_ back by one, never to the
        snapshot or below. */
    method HandleAppendEntriesResponse(src: Id, requestId: nat, term: nat, ok: bool, match_: nat)
      returns (outcome: Outcome)
      requires Valid()
      modifies this
      ensures Valid()
      ensures var owed := src in old(rpcRequest) && requestId != 0 && requestId == old(rpcRequest)[src];
              var m := AppendResp(src, id, term, ok, match_);
              View(RestPhase(outcome)) == if term > old(currentTerm) || owed
                                          then OnAppendReply(codec, id, peers, old(View(Idle)), m) else old(View(Idle))
      ensures old(Promises()) ==> Promises()
      ensures var owed := src in old(rpcRequest) && requestId != 0 && requestId == old(rpcRequest)[src];
              if term == old(currentTerm) && old(role) == Leader && owed
              then && nextIndex == NextIndex(old(View(Idle)), old(nextIndex), src, ok, match_)
                   && rpcRequest == old(rpcRequest)[src := 0]
              else nextIndex == old(nextIndex) && rpcRequest == old(rpcRequest)
    {
      hide Advanced, NextIndex, Awaited, Waiting, Failed, LastTerm;
      outcome := Done;
      if term > currentTerm {
        StepDownTo(term);
        return;
      }
      if role != Leader || term != currentTerm || src !in rpcRequest || requestId == 0 || requestId != rpcRequest[src] {
        return;
      }
      outcome := TakeResponse(src, ok, match_);
    }

    /** The response a leader waited for. */
    method TakeResponse(src: Id, ok: bool, match_: nat) returns (outcome: Outcome)
      requires Valid() && role == Leader && src != id
      modifies this`rpcRequest, this`matchIndex, this`nextIndex
      modifies this`commitIndex, this`high, this`state, this`stateIndex, this`lastApplied, this`storedCommit
      modifies this`snapshotIndex, this`snapshotTerm, this`snapshotData, this`log, this`compacted
      ensures Valid()
      ensures View(RestPhase(outcome)) ==
              OnAppendReply(codec, id, peers, old(View(Idle)), AppendResp(src, id, currentTerm, ok, match_))
      ensures nextIndex == NextIndex(old(View(Idle)), old(nextIndex), src, ok, match_)
      ensures rpcRequest == old(rpcRequest)[src := 0]
    {
      hide Advanced, LastTerm;
      outcome := Done;
      rpcRequest := rpcRequest[src := 0];
      if ok {
        outcome := RecordSuccess(src, Min(match_, LastIndex()));
      } else if src in nextIndex && nextIndex[src] > snapshotIndex + 1 {
        nextIndex := nextIndex[src := nextIndex[src] - 1];
      }
    }

    // ----- sending --------------------------------------------------------------

    /** The loop that copies at most sixty-four entries into a request. */
    method CollectEntries(next: nat) returns (entries: seq<WireEntry>)
      requires Valid() && snapshotIndex < next <= LastIndex() + 1
      ensures Numbered(next - 1, entries)
      ensures var upto := Min(next - 1 + MAX_ENTRIES_PER_RPC, LastIndex());
              Strip(entries) == (compacted + log)[next - 1..upto]
    {
      hide Strip, Numbered;
      entries := [];
      var index: nat := next;
      ghost var full := compacted + log;
      NothingStripped(next - 1);
      while index <= LastIndex() && index < next + MAX_ENTRIES_PER_RPC
        invariant next <= index <= LastIndex() + 1 && index <= next + MAX_ENTRIES_PER_RPC
        invariant |entries| == index - next && Numbered(next - 1, entries)
        invariant Strip(entries) == full[next - 1..index - 1]
      {
        var source := log[index - snapshotIndex - 1];
        assert full[index - 1] == source;
        StripStep(entries, WireEntry(index, source.term, source.command), full, next - 1);
        entries := entries + [WireEntry(index, source.term, source.command)];
        index := index + 1;
      }
    }

    /** SendAppend, for a peer that is not behind the snapshot. */
    method BuildAppend(peer: Id, requestId: nat) returns (prev: nat, prevTerm: nat, entries: seq<WireEntry>)
      requires Valid() && peer in nextIndex && peer != id && nextIndex[peer] > snapshotIndex
      modifies this`rpcRequest
      ensures Valid() && rpcRequest == old(rpcRequest)[peer := requestId]
      ensures var next := Max(1, Min(nextIndex[peer], LastIndex() + 1));
              AppendMsg(id, View(Idle), peer, next) ==
              AppendReq(id, peer, currentTerm, prev, prevTerm, Strip(entries), commitIndex)
      ensures Numbered(prev, entries) && |entries| <= MAX_ENTRIES_PER_RPC
    {
      var next: nat := Max(1, Min(nextIndex[peer], LastIndex() + 1));
      prev := next - 1;
      prevTerm := TermOfIndex(prev);
      entries := CollectEntries(next);
      rpcRequest := rpcRequest[peer := requestId];
    }

    /** SendSnapshot: the next chunk from the offset the peer last reported. */
    method BuildChunk(peer: Id, requestId: nat) returns (offset: nat, data: Bytes, done: bool)
      requires Valid() && peer != id
      modifies this`rpcRequest, this`rpcSnapshot
      ensures Valid() && rpcRequest == old(rpcRequest)[peer := requestId] && rpcSnapshot == old(rpcSnapshot)[peer := true]
      ensures offset <= |snapshotData|
      ensures offset == if peer in snapshotOffset && snapshotOffset[peer] <= |snapshotData| then snapshotOffset[peer] else 0
      ensures SnapMsg(id, View(Idle), peer, offset) ==
              SnapReq(id, peer, currentTerm, snapshotIndex, snapshotTerm, offset, data, done, compacted)
    {
      offset := if peer in snapshotOffset then snapshotOffset[peer] else 0;
      if offset > |snapshotData| {
        offset := 0;
      }
      var remaining := |snapshotData| - offset;
      var size := Min(remaining, CHUNK_SIZE);
      data := snapshotData[offset..offset + size];
      done := size == remaining;
      rpcRequest := rpcRequest[peer := requestId];
      rpcSnapshot := rpcSnapshot[peer := true];
      assert (compacted + log)[..snapshotIndex] == compacted;
      assert TermOfIndex(snapshotIndex) == snapshotTerm;
    }

    /** SendAppend: nothing while an answer is owed, the snapshot to a peer behind it, entries
        to any other peer. */
    method SendAppend(peer: Id, requestId: nat, connected: bool) returns (sent: Sending)
      requires Valid() && peer in nextIndex && peer != id
      modifies this`rpcRequest, this`rpcSnapshot
      ensures Valid()
      ensures sent == Nothing <==> role != Leader || !connected || (peer in old(rpcRequest) && old(rpcRequest)[peer] != 0)
      ensures sent == Nothing ==> unchanged(this)
      ensures sent != Nothing ==> rpcRequest == old(rpcRequest)[peer := requestId]
      ensures sent.Chunk? ==>
                && nextIndex[peer] <= snapshotIndex && sent.offset <= |snapshotData|
                && SnapMsg(id, View(Idle), peer, sent.offset) ==
                   SnapReq(id, peer, currentTerm, snapshotIndex, snapshotTerm, sent.offset, sent.data, sent.done, compacted)
      ensures sent.Entries? ==>
                && nextIndex[peer] > snapshotIndex && Numbered(sent.prev, sent.entries)
                && AppendMsg(id, View(Idle), peer, Max(1, Min(nextIndex[peer], LastIndex() + 1))) ==
                   AppendReq(id, peer, currentTerm, sent.prev, sent.prevTerm, Strip(sent.entries), commitIndex)
    {
      hide Strip, Numbered, AppendMsg, SnapMsg;
      if role != Leader || !connected || (peer in rpcRequest && rpcRequest[peer] != 0) {
        return Nothing;
      }
      if nextIndex[peer] <= snapshotIndex {
        var offset, data, done := BuildChunk(peer, requestId);
        return Chunk(offset, data, done);
      }
      var prev, prevTerm, entries := BuildAppend(peer, requestId);
      return Entries(prev, prevTerm, entries);
    }

    // ----- InstallSnapshot ------------------------------------------------------

    /** A chunk joins the buffer when it continues it, or starts a new one at offset 0. */
    method BufferChunk(m: Msg) returns (fits: bool)
      requires m.SnapReq?
      modifies this`incoming
      ensures fits <==> Buffered(old(incoming), m).Some?
      ensures incoming == if fits then Buffered(old(incoming), m).value else old(incoming)
    {
      if !incoming.active || incoming.index != m.index || incoming.term != m.indexTerm || m.offset == 0 {
        if m.offset != 0 {
          return false;
        }
        incoming := Incoming(true, m.index, m.indexTerm, []);
      }
      if m.offset != |incoming.data| {
        return false;
      }
      incoming := incoming.(data := incoming.data + m.data);
      fits := true;
    }

    /** The log after a snapshot: the suffix stays when the term at its end agrees. */
    method ReplaceLog(m: Msg)
      requires Valid() && m.SnapReq? && m.index > snapshotIndex
      requires |m.prefix| == m.index && LastTerm(m.prefix) == m.indexTerm
      modifies this`snapshotIndex, this`snapshotTerm, this`log, this`compacted, this`lastApplied
      ensures Valid() && snapshotIndex == m.index && lastApplied == m.index
      ensures compacted + log == if KeepsSuffix(old(View(Idle)), m) then old(compacted + log) else m.prefix
    {
      ghost var full := compacted + log;
      if m.index <= LastIndex() && TermOfIndex(m.index) == m.indexTerm {
        log := log[m.index - snapshotIndex..];
        compacted := full[..m.index];
        assert compacted + log == full;
      } else {
        log := [];
        compacted := m.prefix;
        assert compacted + log == m.prefix;
      }
      snapshotIndex := m.index;
      snapshotTerm := m.indexTerm;
      lastApplied := m.index;
    }

    /** Replacing the store and the log's beginning by a complete snapshot. */
    method InstallSnapshot(m: Msg, s: State) returns (outcome: Outcome)
      requires Valid() && m.SnapReq? && m.index > snapshotIndex
      requires |m.prefix| == m.index && LastTerm(m.prefix) == m.indexTerm
      modifies this`state, this`stateIndex, this`lastApplied, this`storedCommit, this`commitIndex, this`high
      modifies this`snapshotIndex, this`snapshotTerm, this`snapshotData, this`log, this`compacted, this`incoming
      ensures Valid()
      ensures var n := Install(old(View(Idle)), m, old(incoming).data, s);
              View(RestPhase(outcome)) == Settle(codec, n)
    {
      hide Drain, Compact, KeepsSuffix;
      ReplaceLog(m);
      ReplaceStore(m, s);
      assert View(Applying) == Install(old(View(Idle)), m, old(incoming).data, s);
      outcome := ApplyCommitted();
    }

    method ReplaceStore(m: Msg, s: State)
      requires Valid() && m.SnapReq?
      modifies this`state, this`stateIndex, this`storedCommit, this`commitIndex, this`high, this`snapshotData, this`incoming
      ensures Valid() && state == s && stateIndex == m.index && snapshotData == old(incoming).data
      ensures commitIndex == storedCommit == Max(old(commitIndex), m.index) && high == Max(old(high), m.index)
      ensures incoming == Incoming(false, m.index, m.indexTerm, [])
    {
      state, stateIndex, snapshotData := s, m.index, incoming.data;
      commitIndex, high := Max(commitIndex, m.index), Max(high, m.index);
      storedCommit := commitIndex;
      incoming := Incoming(false, m.index, m.indexTerm, []);
    }

    /** HandleInstallSnapshot on a message of the current term. */
    method TakeChunk(m: Msg) returns (reply: Msg, outcome: Outcome)
      requires Valid() && m.SnapReq? && m.term == currentTerm
      requires |m.prefix| == m.index && LastTerm(m.prefix) == m.indexTerm
      modifies this`state, this`stateIndex, this`lastApplied, this`storedCommit, this`commitIndex, this`high
      modifies this`snapshotIndex, this`snapshotTerm, this`snapshotData, this`log, this`compacted, this`incoming
      ensures Valid()
      ensures var cfg := Config(peers, codec); var n := old(View(Idle));
              && reply == (if outcome == Done then ChunkReply(cfg, id, n, m) else SnapResp(id, m.src, n.term, false, 0))
              && View(RestPhase(outcome)) ==
                 if Installs(cfg, n, m) then Settle(codec, ChunkNode(cfg, n, m)) else ChunkNode(cfg, n, m)
    {
      hide Settle, Ending, Install;
      outcome := Done;
      assert TermOfIndex(snapshotIndex) == snapshotTerm;
      if m.index == 0 || m.indexTerm == 0 || |m.data| > CHUNK_SIZE {
        reply := SnapResp(id, m.src, currentTerm, false, 0);
        return;
      }
      if m.index == snapshotIndex && m.indexTerm == snapshotTerm {
        reply := SnapResp(id, m.src, currentTerm, true, |snapshotData|);
        return;
      }
      if m.index <= snapshotIndex {
        reply := SnapResp(id, m.src, currentTerm, false, 0);
        return;
      }
      var fits := BufferChunk(m);
      if !fits {
        reply := SnapResp(id, m.src, currentTerm, false, 0);
        return;
      }
      reply := SnapResp(id, m.src, currentTerm, true, |incoming.data|);
      if m.done {
        var contents := codec.decode(incoming.data);
        if contents.None? {
          incoming := incoming.(active := false, data := []);
          reply := SnapResp(id, m.src, currentTerm, false, 0);
          return;
        }
        ghost var n, b := old(View(Idle)), incoming;
        assert Install(View(Idle), m, b.data, contents.value) == Install(n, m, b.data, contents.value) by {
          InstallIgnoresBuffer(n, View(Idle), m, b.data, contents.value);
        }
        outcome := InstallSnapshot(m, contents.value);
        if outcome != Done {
          reply := SnapResp(id, m.src, currentTerm, false, 0);
        }
      }
    }

    /** HandleInstallSnapshot. When applying throws after the installation, the reply is a
        failure. */
    method HandleInstallSnapshot(m: Msg) returns (reply: Msg, outcome: Outcome)
      requires Valid() && m.SnapReq?
      requires |m.prefix| == m.index && LastTerm(m.prefix) == m.indexTerm
      modifies this`currentTerm, this`votedFor, this`role, this`reading, this`pendingReads, this`answers
      modifies this`state, this`stateIndex, this`lastApplied, this`storedCommit, this`commitIndex, this`high
      modifies this`snapshotIndex, this`snapshotTerm, this`snapshotData, this`log, this`compacted, this`incoming
      ensures Valid()
      ensures old(Promises()) ==> Promises()
      ensures var cfg := Config(peers, codec); var n := old(View(Idle));
              && View(RestPhase(outcome)) == OnSnapshot(cfg, n, m)
              && reply == (if outcome == Done then SnapshotAnswer(cfg, id, n, m) else SnapResp(id, m.src, currentTerm, false, 0))
    {
      hide Settle, ChunkNode, Installs, Awaited, Waiting, Failed, LastTerm;
      outcome := Done;
      if m.term < currentTerm {
        reply := SnapResp(id, m.src, currentTerm, false, if incoming.active then |incoming.data| else 0);
        return;
      }
      if m.term > currentTerm || role != Follower {
        StepDownTo(m.term);
      }
      assert View(Idle) == Yield(old(View(Idle)), m.term);
      reply, outcome := TakeChunk(m);
    }

    /** HandleInstallSnapshotResponse: the match index moves only when the peer has taken
        exactly as many bytes as the snapshot has. */
    method HandleInstallSnapshotResponse(src: Id, requestId: nat, term: nat, ok: bool, next: nat)
      requires Valid()
      modifies this`currentTerm, this`votedFor, this`role, this`reading, this`pendingReads, this`answers
      modifies this`rpcRequest, this`rpcSnapshot, this`snapshotOffset, this`matchIndex, this`nextIndex
      ensures Valid() && (old(Promises()) ==> Promises())
      ensures var n := old(View(Idle));
              var owed := src in old(rpcRequest) && requestId != 0 && requestId == old(rpcRequest)[src] &&
                          src in old(rpcSnapshot) && old(rpcSnapshot)[src] && n.role == Leader && term == n.term;
              && View(Idle) == (if term > n.term || owed then OnSnapshotReply(n, SnapResp(src, id, term, ok, next)) else n)
              && (owed && ok && next == |n.snapData| ==> nextIndex == old(nextIndex)[src := n.snap + 1])
              && (owed ==> snapshotOffset == old(snapshotOffset)[src := OffsetAfter(|n.snapData|, ok, next)])
              && (owed ==> rpcRequest == old(rpcRequest)[src := 0])
    {
      hide Awaited, Waiting, Failed, LastTerm, OffsetAfter;
      if term > currentTerm {
        StepDownTo(term);
        return;
      }
      if role != Leader || term != currentTerm || src !in rpcRequest || requestId == 0 ||
         requestId != rpcRequest[src] || src !in rpcSnapshot || !rpcSnapshot[src]
      {
        return;
      }
      TakeTransfer(src, ok, next);
    }

    /** The chunk's answer that a leader waited for. */
    method TakeTransfer(src: Id, ok: bool, next: nat)
      requires Valid() && src != id && role == Leader
      modifies this`rpcRequest, this`rpcSnapshot, this`snapshotOffset, this`matchIndex, this`nextIndex
      ensures Valid() && View(Idle) == OnSnapshotReply(old(View(Idle)), SnapResp(src, id, currentTerm, ok, next))
      ensures nextIndex == if ok && next == |snapshotData| then old(nextIndex)[src := snapshotIndex + 1] else old(nextIndex)
      ensures snapshotOffset == old(snapshotOffset)[src := OffsetAfter(|snapshotData|, ok, next)]
      ensures rpcRequest == old(rpcRequest)[src := 0] && rpcSnapshot == old(rpcSnapshot)[src := false]
    {
      hide LastTerm, OffsetAfter;
      CloseTransfer(src, ok, next);
    }

    method CloseTransfer(src: Id, ok: bool, next: nat)
      requires Valid() && src != id
      modifies this`rpcRequest, this`rpcSnapshot, this`snapshotOffset, this`matchIndex, this`nextIndex
      ensures Valid()
      ensures ok && next == |snapshotData| ==>
                matchIndex == old(matchIndex)[src := snapshotIndex] && nextIndex == old(nextIndex)[src := snapshotIndex + 1]
      ensures !(ok && next == |snapshotData|) ==> matchIndex == old(matchIndex) && nextIndex == old(nextIndex)
      ensures snapshotOffset == old(snapshotOffset)[src := OffsetAfter(|snapshotData|, ok, next)]
      ensures rpcRequest == old(rpcRequest)[src := 0] && rpcSnapshot == old(rpcSnapshot)[src := false]
    {
      rpcRequest := rpcRequest[src := 0];
      rpcSnapshot := rpcSnapshot[src := false];
      if next > |snapshotData| {
        snapshotOffset := snapshotOffset[src := 0];
      } else if !ok || next < |snapshotData| {
        snapshotOffset := snapshotOffset[src := next];
      } else {
        snapshotOffset := snapshotOffset[src := 0];
        matchIndex := matchIndex[src := snapshotIndex];
        nextIndex := nextIndex[src := snapshotIndex + 1];
      }
    }

    // ----- ReadIndex ------------------------------------------------------------

    /** FailPendingReadIndexes. */
    method FailPendingReadIndexes()
      modifies this`reading, this`pendingReads, this`answers
      ensures reading == None && pendingReads == [] && Failed(answers, old(answers), old(Unanswered()))
    {
      ghost var all := Unanswered();
      if reading.Some? {
        answers := answers[reading.value.id := false];
        reading := None;
      }
      while pendingReads != []
        invariant reading == None && Unanswered() <= all && answers.Keys + Unanswered() == old(answers.Keys) + all
        invariant forall r :: r in answers ==> if r in all then r in Unanswered() || !answers[r] else r in old(answers) && answers[r] == old(answers)[r]
        decreases |pendingReads|
      {
        assert (set r | r in pendingReads) == {pendingReads[0]} + set r | r in pendingReads[1..];
        answers := answers[pendingReads[0] := false];
        pendingReads := pendingReads[1..];
      }
    }

    /** ReadIndex: a read is refused at once unless this node leads; otherwise it joins the
        queue, and no other read is lost or answered by that. */
    method RequestRead(r: nat) returns (outcome: Outcome)
      requires Valid() && Promises() && r !in answers && r > lastRead
      requires forall q :: q in pendingReads ==> q < r
      modifies this`reading, this`readTerm, this`pendingReads, this`answers, this`lastRead
      modifies this`state, this`stateIndex, this`lastApplied, this`storedCommit
      modifies this`snapshotIndex, this`snapshotTerm, this`snapshotData, this`log, this`compacted
      ensures Valid() && Promises()
      ensures old(role) != Leader ==> outcome == Done && answers == old(answers)[r := false] && View(Idle) == old(View(Idle))
      ensures old(role) == Leader ==>
                var next := Serve(codec, id, peers, old(View(Idle)), old(pendingReads) + [r]);
                && View(RestPhase(outcome)) == next.0 && pendingReads == next.1
                && KeptAnswers(answers, old(answers)) && (1 < |peers| ==> answers == old(answers))
      ensures role == Leader && outcome == Done ==> reading.Some? || pendingReads == []
      ensures role == Leader && outcome == Done && |peers| <= 1 && old(reading.None?) ==> r in answers && answers[r]
    {
      if role != Leader {
        answers := answers[r := false];
        return Done;
      }
      hide Awaited, Waiting, Serve, Settle;
      QueuedRead(lastRead, pendingReads, reading, answers, r);
      pendingReads := pendingReads + [r];
      outcome := StartNextReadIndex();
    }

    /** The read at the head of the queue takes the commit index as its own. */
    method OpenNextRead()
      requires Valid() && Promises() && reading == None && pendingReads != [] && role == Leader
      modifies this`reading, this`readTerm, this`pendingReads, this`lastRead
      ensures Valid() && Promises() && pendingReads == old(pendingReads)[1..] && Unanswered() == old(Unanswered())
      ensures View(Idle) == OpenRead(id, old(View(Idle)), old(pendingReads)[0])
    {
      hide Awaited, Waiting, LastTerm;
      var r := pendingReads[0];
      OpenedRead(lastRead, pendingReads, answers, Read(r, commitIndex, {id}));
      pendingReads := pendingReads[1..];
      readTerm := currentTerm;
      reading := Some(Read(r, commitIndex, {id}));
      lastRead := r;
    }

    /** StartNextReadIndex. */
    method StartNextReadIndex() returns (outcome: Outcome)
      requires Valid() && Promises()
      modifies this`reading, this`readTerm, this`pendingReads, this`answers, this`lastRead
      modifies this`state, this`stateIndex, this`lastApplied, this`storedCommit
      modifies this`snapshotIndex, this`snapshotTerm, this`snapshotData, this`log, this`compacted
      ensures Valid() && Promises()
      ensures var next := Serve(codec, id, peers, old(View(Idle)), old(pendingReads));
              View(RestPhase(outcome)) == next.0 && pendingReads == next.1
      ensures KeptAnswers(answers, old(answers))
      ensures old(role) == Leader && 1 < |peers| ==> answers == old(answers)
      ensures outcome == Done ==> answers.Keys + Unanswered() == old(answers.Keys + Unanswered())
      ensures outcome == Done ==> reading.Some? || pendingReads == []
      ensures role == Leader && 1 < |peers| && old(reading.None? && pendingReads != []) ==>
                && reading == Some(Read(old(pendingReads)[0], commitIndex, {id}))
                && pendingReads == old(pendingReads)[1..] && outcome == Done
      ensures role == Leader && outcome == Done && |peers| <= 1 && old(reading.None?) ==>
                reading == None && pendingReads == [] && AllTrue(answers, old(pendingReads))
      decreases |pendingReads|, 0
    {
      hide Awaited, Waiting, Failed, Settle, Closed, KeptAnswers;
      KeptSelf(answers);
      outcome := Done;
      if reading.Some? || pendingReads == [] {
        return;
      }
      if role != Leader {
        FailedKept(lastRead, pendingReads, reading, answers);
        FailPendingReadIndexes();
        NothingAwaited(lastRead, answers);
        return;
      }
      OpenNextRead();
      if |reading.value.acks| >= |peers| / 2 + 1 {
        ClosedApplies(codec, View(Idle));
        outcome := FinishReadIndex(true);
      }
    }

    /** FinishReadIndex: a confirmed read succeeds only once its index has been applied, and
        nothing but a confirmation makes one succeed. */
    method FinishReadIndex(confirmed: bool) returns (outcome: Outcome)
      requires Valid() && Promises() && reading.Some?
      modifies this`reading, this`readTerm, this`pendingReads, this`answers, this`lastRead
      modifies this`state, this`stateIndex, this`lastApplied, this`storedCommit
      modifies this`snapshotIndex, this`snapshotTerm, this`snapshotData, this`log, this`compacted
      ensures Valid() && Promises()
      ensures var next := Finish(codec, id, peers, old(View(Idle)), old(pendingReads), confirmed);
              View(RestPhase(outcome)) == next.0 && pendingReads == next.1
      ensures KeptAnswers(answers, old(answers))
      ensures var r := old(reading).value; var n := Closed(codec, old(View(Idle)), confirmed);
              && (n.phase == Idle ==> r.id in answers && answers[r.id] == (confirmed && r.index <= n.applied))
              && (n.phase == Idle && 1 < |peers| ==> answers == old(answers)[r.id := confirmed && r.index <= n.applied])
              && (n.phase != Idle ==> answers == old(answers))
      ensures outcome == Done ==> answers.Keys + Unanswered() == old(answers.Keys + Unanswered())
      ensures outcome == Done ==> reading.Some? || pendingReads == []
      ensures role == Leader && outcome == Done && |peers| <= 1 ==>
                reading == None && pendingReads == [] && AllTrue(answers, old(pendingReads))
      decreases |pendingReads|, 2
    {
      hide Awaited, Waiting, Settle, Closed, Serve, KeptAnswers, LastTerm;
      var active := reading.value;
      ghost var n := Closed(codec, View(Idle), confirmed);
      KeptSelf(answers);
      ClosedRead(lastRead, pendingReads, active, answers);
      outcome := CloseRead(confirmed);
      if outcome != Done {
        return;
      }
      outcome := ResolveRead(active, confirmed && lastApplied >= active.index, n);
    }

    /** The promise of a closed read is fulfilled and the next read opens. */
    method ResolveRead(active: Read, success: bool, ghost n: Node) returns (outcome: Outcome)
      requires Valid() && reading == None && n == View(Idle) && Awaited(lastRead, pendingReads, Some(active), answers)
      modifies this`reading, this`readTerm, this`pendingReads, this`answers, this`lastRead
      modifies this`state, this`stateIndex, this`lastApplied, this`storedCommit
      modifies this`snapshotIndex, this`snapshotTerm, this`snapshotData, this`log, this`compacted
      ensures Valid() && Promises()
      ensures var next := Serve(codec, id, peers, n, old(pendingReads));
              View(RestPhase(outcome)) == next.0 && pendingReads == next.1
      ensures KeptAnswers(answers, old(answers)) && active.id in answers && answers[active.id] == success
      ensures role == Leader && 1 < |peers| ==> answers == old(answers)[active.id := success]
      ensures outcome == Done ==>
                answers.Keys + Unanswered() == old(answers.Keys) + Waiting(old(pendingReads), Some(active))
      ensures outcome == Done ==> reading.Some? || pendingReads == []
      ensures role == Leader && outcome == Done && |peers| <= 1 ==>
                reading == None && pendingReads == [] && AllTrue(answers, old(pendingReads))
      decreases |pendingReads|, 1
    {
      hide Awaited, Waiting, Settle, Closed, Serve, LastTerm;
      AnsweredRead(lastRead, pendingReads, active, answers, success);
      answers := answers[active.id := success];
      outcome := StartNextReadIndex();
    }

    /** The active read leaves; a confirmed one waits for what is committed to be applied. */
    method CloseRead(confirmed: bool) returns (outcome: Outcome)
      requires Valid() && reading.Some?
      modifies this`reading, this`state, this`stateIndex, this`lastApplied, this`storedCommit
      modifies this`snapshotIndex, this`snapshotTerm, this`snapshotData, this`log, this`compacted
      ensures Valid() && reading == None && View(RestPhase(outcome)) == Closed(codec, old(View(Idle)), confirmed)
    {
      hide Settle;
      outcome := Done;
      reading := None;
      if confirmed && role == Leader && currentTerm == readTerm {
        assert View(Applying) == old(View(Idle)).(read := None, phase := Applying);
        outcome := ApplyCommitted();
      }
    }

    /** HandleReadIndexResponse: one more distinct peer confirms the term of the read; when
        they are a majority, the read is answered and the next one opens. */
    method HandleReadIndexResponse(src: Id, requestId: nat, term: nat, ok: bool) returns (outcome: Outcome)
      requires Valid() && Promises()
      modifies this
      ensures Valid() && Promises()
      ensures var n := old(View(Idle)); var m := ReadResp(src, id, term, ok, requestId);
              var next := OnReadReply(codec, id, peers, n, m, old(pendingReads));
              if term > n.term || src in old(nextIndex)
              then View(RestPhase(outcome)) == next.0 && (term <= n.term ==> pendingReads == next.1)
              else View(Idle) == n && pendingReads == old(pendingReads)
      ensures var n := old(View(Idle)); var m := ReadResp(src, id, term, ok, requestId);
              term <= n.term ==>
                if src in old(nextIndex) && Completes(peers, n, m)
                then ReadAnswered(codec, n, m, answers, old(answers))
                else answers == old(answers)
    {
      hide Finish, Serve, Settle, Closed, Awaited, Waiting, Failed;
      outcome := Done;
      if term > currentTerm {
        StepDownTo(term);
        return;
      }
      if reading.None? || role != Leader || term != currentTerm || requestId != reading.value.id {
        return;
      }
      if src !in nextIndex || !ok {
        return;
      }
      AckedRead(lastRead, pendingReads, reading.value, reading.value.(acks := reading.value.acks + {src}), answers);
      reading := Some(reading.value.(acks := reading.value.acks + {src}));
      assert View(Idle) == Acked(old(View(Idle)), src);
      if |reading.value.acks| >= |peers| / 2 + 1 {
        outcome := FinishReadIndex(true);
      }
    }

    /** HandleReadIndexRequest: a node confirms a term only while it is in it. */
    method HandleReadIndexRequest(src: Id, requestId: nat, term: nat) returns (reply: Msg)
      requires Valid()
      modifies this`currentTerm, this`votedFor, this`role, this`reading, this`pendingReads, this`answers
      ensures Valid() && (old(Promises()) ==> Promises())
      ensures var m := ReadReq(src, id, term, requestId);
              View(Idle) == OnReadRequest(old(View(Idle)), m) && reply == ReadAnswer(id, old(View(Idle)), m)
    {
      hide Awaited, Waiting, Failed;
      if term >= currentTerm && (term > currentTerm || role != Follower) {
        StepDownTo(term);
      }
      reply := ReadResp(id, src, currentTerm, term == currentTerm, requestId);
    }

    // ----- restart --------------------------------------------------------------

    /** LoadState: everything in memory is replaced by what was stored, both indexes are
        clamped to what the stored log and snapshot allow, and what is left is applied. `n` is
        the node that wrote the records, `s` what its store holds. */
    method LoadState(saved: Saved, s: State, ghost n: Node) returns (outcome: Outcome)
      requires SavedBy(saved, n) && s == n.state && Indexes(n)
      modifies this
      ensures Valid() && Promises() && View(RestPhase(outcome)) == OnRestart(codec, n)
    {
      hide Settle, Restart, Awaited, SavedBy, Indexes;
      Reload(saved, s, n);
      NothingAwaited(lastRead, answers);
      outcome := ApplyCommitted();
    }

    method Reload(saved: Saved, s: State, ghost n: Node)
      requires SavedBy(saved, n) && s == n.state && Indexes(n)
      modifies this
      ensures Valid() && reading == None && pendingReads == [] && View(Applying) == Restart(n)
    {
      hide Restart, SavedBy, Indexes, LastTerm, TermOf;
      Rebuilt(saved, s, n);
      ReloadRecords(saved);
      ReloadStore(s, n);
      ForgetVolatile();
    }

    /** The fields that come from the progress, log and snapshot records. */
    method ReloadRecords(saved: Saved)
      modifies this`currentTerm, this`votedFor, this`log, this`snapshotIndex, this`snapshotTerm, this`snapshotData
      modifies this`commitIndex, this`lastApplied, this`storedCommit
      ensures currentTerm == saved.term && votedFor == saved.vote && log == saved.log && storedCommit == saved.commit
      ensures snapshotIndex == saved.snapIndex && snapshotTerm == saved.snapTerm && snapshotData == saved.snapData
      ensures commitIndex == Min(Max(saved.commit, saved.snapIndex), saved.snapIndex + |saved.log|)
      ensures lastApplied == Min(Max(saved.applied, saved.snapIndex), commitIndex)
    {
      snapshotIndex, snapshotTerm, snapshotData := saved.snapIndex, saved.snapTerm, saved.snapData;
      currentTerm, votedFor, log, storedCommit := saved.term, saved.vote, saved.log, saved.commit;
      commitIndex := Max(saved.commit, snapshotIndex);
      lastApplied := Max(saved.applied, snapshotIndex);
      commitIndex := Min(commitIndex, snapshotIndex + |log|);
      lastApplied := Min(lastApplied, commitIndex);
    }

    /** The store is what the node finds on disk; the rest is bookkeeping. */
    method ReloadStore(s: State, ghost n: Node)
      requires n.snap <= |n.log|
      modifies this`state, this`compacted, this`stateIndex, this`high
      ensures state == s && compacted == n.log[..n.snap] && stateIndex == n.stateIndex && high == n.high
    {
      state := s;
      compacted, stateIndex, high := n.log[..n.snap], n.stateIndex, n.high;
    }

    method ForgetVolatile()
      modifies this`role, this`granted, this`matchIndex, this`nextIndex, this`rpcRequest, this`rpcSnapshot
      modifies this`snapshotOffset, this`incoming, this`reading, this`lastRead, this`pendingReads, this`answers
      ensures role == Follower && granted == {} && matchIndex == map[] && nextIndex == map[] && rpcRequest == map[]
      ensures incoming == Incoming(false, 0, 0, []) && reading == None && lastRead == 0 && pendingReads == []
    {
      role, granted, incoming := Follower, {}, Incoming(false, 0, 0, []);
      ForgetReads();
      ForgetPeers();
    }

    method ForgetReads()
      modifies this`reading, this`lastRead, this`pendingReads, this`answers
      ensures reading == None && lastRead == 0 && pendingReads == []
    {
      reading, lastRead, pendingReads, answers := None, 0, [], map[];
    }

    method ForgetPeers()
      modifies this`matchIndex, this`nextIndex, this`rpcRequest, this`rpcSnapshot, this`snapshotOffset
      ensures matchIndex == map[] && nextIndex == map[] && rpcRequest == map[]
    {
      matchIndex, nextIndex := map[], map[];
      rpcRequest, rpcSnapshot, snapshotOffset := map[], map[], map[];
    }
  }

  /** Every other peer's next index is just past the leader's log. */
  ghost predicate StartsAtEnd(id: Id, peers: set<Id>, next: map<Id, nat>, last: nat) {
    forall q :: q in peers && q != id ==> q in next && next[q] == last + 1
  }

  /** What a leader sends to one peer. */
  datatype Sending =
    | Nothing
    | Entries(prev: nat, prevTerm: nat, entries: seq<WireEntry>)
    | Chunk(offset: nat, data: Bytes, done: bool)

  /** Every read of the queue was answered true. */
  ghost predicate AllTrue(answers: map<nat, bool>, queue: seq<nat>) {
    forall r :: r in queue ==> r in answers && answers[r]
  }

  /** Answers once given are never changed. */
  ghost predicate KeptAnswers(answers: map<nat, bool>, before: map<nat, bool>) {
    forall r :: r in before ==> r in answers && answers[r] == before[r]
  }

  lemma KeptSelf(answers: map<nat, bool>)
    ensures KeptAnswers(answers, answers)
  {}

  /** The read a response completed is answered by whether its index has been applied. */
  ghost predicate ReadAnswered(codec: Codec, n: Node, m: Msg, answers: map<nat, bool>, before: map<nat, bool>)
    requires m.ReadResp? && Confirms(n, m)
  {
    var closed := Closed(codec, Acked(n, m.src), true);
    && KeptAnswers(answers, before)
    && (closed.phase == Idle ==> m.id in answers && answers[m.id] == (n.read.value.index <= closed.applied))
    && (closed.phase != Idle ==> answers == before)
  }

  lemma QueuedRead(last: nat, queue: seq<nat>, reading: Option<Read>, answers: map<nat, bool>, r: nat)
    requires Awaited(last, queue, reading, answers) && r !in answers && r > last && forall q :: q in queue ==> q < r
    ensures Awaited(last, queue + [r], reading, answers) && Waiting(queue + [r], reading) == Waiting(queue, reading) + {r}
  {
    assert forall i :: 0 <= i < |queue| ==> queue[i] in queue;
  }

  lemma OpenedRead(last: nat, queue: seq<nat>, answers: map<nat, bool>, read: Read)
    requires Awaited(last, queue, None, answers) && queue != [] && read.id == queue[0]
    ensures Awaited(queue[0], queue[1..], Some(read), answers) && Waiting(queue[1..], Some(read)) == Waiting(queue, None)
  {
    assert (set q | q in queue) == {queue[0]} + set q | q in queue[1..];
  }

  lemma AnsweredRead(last: nat, queue: seq<nat>, read: Read, answers: map<nat, bool>, b: bool)
    requires Awaited(last, queue, Some(read), answers)
    ensures Awaited(last, queue, None, answers[read.id := b]) && read.id !in answers
    ensures Waiting(queue, None) + {read.id} == Waiting(queue, Some(read))
  {
    assert read.id !in queue;
  }

  lemma FailedKept(last: nat, queue: seq<nat>, reading: Option<Read>, before: map<nat, bool>)
    requires Awaited(last, queue, reading, before)
    ensures forall answers :: Failed(answers, before, Waiting(queue, reading)) ==>
              KeptAnswers(answers, before) && answers.Keys == before.Keys + Waiting(queue, reading)
  {}

  lemma ClosedRead(last: nat, queue: seq<nat>, read: Read, answers: map<nat, bool>)
    requires Awaited(last, queue, Some(read), answers)
    ensures Awaited(last, queue, None, answers)
  {}

  lemma AckedRead(last: nat, queue: seq<nat>, read: Read, read': Read, answers: map<nat, bool>)
    requires Awaited(last, queue, Some(read), answers) && read'.id == read.id
    ensures Awaited(last, queue, Some(read'), answers) && Waiting(queue, Some(read')) == Waiting(queue, Some(read))
  {}

  lemma InstallIgnoresBuffer(n: Node, n': Node, m: Msg, data: Bytes, s: State)
    requires m.SnapReq? && n' == n.(incoming := n'.incoming)
    ensures Install(n', m, data, s) == Install(n, m, data, s)
  {}

  lemma NothingStripped(prev: nat)
    ensures Strip([]) == [] && Numbered(prev, [])
  {}

  lemma StripStep(entries: seq<WireEntry>, e: WireEntry, full: seq<Entry>, from: nat)
    requires Numbered(from, entries) && e.index == from + |entries| + 1 <= |full|
    requires Strip(entries) == full[from..from + |entries|] && full[from + |entries|] == Entry(e.term, e.command)
    ensures Numbered(from, entries + [e]) && Strip(entries + [e]) == full[from..from + |entries| + 1]
  {
    assert Strip(entries + [e]) == Strip(entries) + [Entry(e.term, e.command)];
  }
}
