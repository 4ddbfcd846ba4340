/** The protocol on disk: what the steps of a node do to its database, and what a restart
    finds there. */
module Recovery {
  import opened Commands
  import opened Quorums
  import opened Cluster
  import opened Steps
  import opened Invariant
  import opened Database
  import opened Applier
  import opened Handlers
  import opened Server
  import Disk
  import Keys
  import Persistence
  import Growth
  import Safety
  import SnapshotSteps
  type Durable = Persistence.Durable

  // ----- what a node has stored -------------------------------------------------

  /** The snapshot record lists exactly this state. */
  ghost predicate Describes(contents: Record, s: State) {
    exists requests :: Persistence.Holds(contents, s.user, requests) && TableOf(requests, s.dedup)
  }

  ghost predicate SnapshotStored(codec: Codec, d: Durable, n: Node) {
    if n.snap == 0 then d.snapshot == None && n.snapData == []
    else
      && d.snapshot.Some? && codec.decode(n.snapData).Some?
      && n.snapData == codec.encode(codec.decode(n.snapData).value)
      && Describes(d.snapshot.value, codec.decode(n.snapData).value)
  }

  /** last_applied in memory is the stored one, or what a restart made of it. */
  ghost predicate ProgressStored(d: Durable, n: Node) { d.commit == n.dcommit && ProgressOf(d.applied, n) }

  ghost predicate Stored(codec: Codec, d: Durable, n: Node) {
    && d.term == n.term && d.vote == n.vote
    && n.snap <= |n.log| && d.snapIndex == n.snap && d.snapTerm == TermOf(n.log, n.snap) && d.log == n.log[n.snap..]
    && StateAt(d, n.state)
    && SnapshotStored(codec, d, n)
    && ProgressStored(d, n)
  }

  // ----- restart ----------------------------------------------------------------

  lemma DescribesUnique(contents: Record, s: State, t: State)
    requires Describes(contents, s) && Describes(contents, t)
    ensures s == t
  {
    hide Persistence.Holds, TableOf;
    var r :| Persistence.Holds(contents, s.user, r) && TableOf(r, s.dedup);
    var q :| Persistence.Holds(contents, t.user, q) && TableOf(q, t.dedup);
    Persistence.ContentsDetermine(contents, s.user, r, t.user, q);
    Disk.TableUnique(r, s.dedup, t.dedup);
  }

  /** What Load returned, with the bytes of the snapshot it found. */
  function SavedOf(codec: Codec, loaded: Durable, snap: State): Saved {
    Saved(loaded.term, loaded.vote, loaded.commit, loaded.applied, loaded.snapIndex, loaded.snapTerm,
          if loaded.snapshot.None? then [] else codec.encode(snap), loaded.log)
  }

  /** Crash recovery, from the database alone: whatever durable state, store contents and
      snapshot a database of this node is read as, they are the node's. */
  lemma RecoveredIsNode(codec: Codec, db: Db, d: Durable, n: Node, e: Durable, s: State, snap: State)
    requires Persistence.Represents(db, d) && Stored(codec, d, n)
    requires Persistence.Represents(db, e) && Disk.StateIn(db, s)
    requires e.snapshot.Some? ==> Describes(e.snapshot.value, snap)
    ensures SavedBy(SavedOf(codec, Persistence.Loaded(e), snap), n) && s == n.state
  {
    hide Persistence.Represents, Describes, StateAt, Disk.StateIn;
    Disk.RepresentsUnique(db, d, e);
    Disk.StateHeld(db, d, n.state);
    Disk.StateInUnique(db, s, n.state);
    if n.snap > 0 { DescribesUnique(d.snapshot.value, snap, codec.decode(n.snapData).value); }
  }

  /** A restart that reads the database: Load, then LoadState on what it returned. */
  method Boot(storage: Persistence.RaftStorage, node: RaftNode, s: State, snap: State, ghost d: Durable, ghost n: Node)
    returns (outcome: Option<Outcome>)
    requires Persistence.Represents(storage.store.db, d) && Stored(node.codec, d, n) && Indexes(n)
    requires Disk.StateIn(storage.store.db, s) && (d.snapshot.Some? ==> Describes(d.snapshot.value, snap))
    modifies node
    ensures outcome.Some? && node.View(RestPhase(outcome.value)) == OnRestart(node.codec, n)
  {
    hide Persistence.Represents, Disk.StateIn, Stored, SavedBy, Describes, Indexes;
    var loaded := storage.Load(d);
    if loaded.None? {
      return None;
    }
    RecoveredIsNode(node.codec, storage.store.db, d, n, d, s, snap);
    var end := node.LoadState(SavedOf(node.codec, loaded.value, snap), s, n);
    outcome := Some(end);
  }

  // ----- snapshot records for a state -------------------------------------------

  /** Whatever a node holds can be written as one snapshot record. */
  lemma Listing(user: map<string, string>, requests: map<string, Command>) returns (contents: Record)
    requires (forall k :: k in user ==> !Reserved(k)) && (forall x :: x in requests ==> '/' in x)
    ensures Persistence.Holds(contents, user, requests) && Persistence.Parses(contents)
  {
    var names := Disk.Enumerate(user.Keys);
    var marks := Disk.Enumerate(requests.Keys);
    var entries := seq(|names|, i requires 0 <= i < |names| => (names[i], Bytes(user[names[i]])));
    var table := seq(|marks|, i requires 0 <= i < |marks| => (marks[i], Request(requests[marks[i]])));
    contents := Contents(entries, table);
    assert Persistence.ListsUsers(entries, user) by {
      forall k | k in user ensures exists i :: 0 <= i < |entries| && entries[i].0 == k {
        var i :| 0 <= i < |names| && names[i] == k;
        assert entries[i].0 == k;
      }
    }
    assert Persistence.ListsRequests(table, requests) by {
      forall x | x in requests ensures exists i :: 0 <= i < |table| && table[i].0 == x {
        var i :| 0 <= i < |marks| && marks[i] == x;
        assert table[i].0 == x;
      }
    }
    Persistence.HeldParses(contents, user, requests);
  }

  lemma {:induction false} FoldKeys(log: seq<Entry>)
    ensures forall k :: k in Fold(log).user ==> !Reserved(k)
  {
    if log != [] { FoldKeys(log[..|log| - 1]); }
  }

  lemma TableMarks(requests: map<string, Command>, dedup: map<(nat, nat), Command>)
    requires TableOf(requests, dedup)
    ensures forall x :: x in requests ==> '/' in x
  {
    hide Keys.Suffix;
    forall x | x in requests ensures '/' in x {
      var id :| id in dedup && x == Keys.Suffix(id);
      SlashInSuffix(id);
    }
  }

  lemma TableFor(dedup: map<(nat, nat), Command>) returns (requests: map<string, Command>)
    ensures TableOf(requests, dedup)
  {
    hide Keys.Suffix;
    forall a, b | Keys.Suffix(a) == Keys.Suffix(b) ensures a == b { Keys.SuffixInjective(a, b); }
    requests := map id | id in dedup :: Keys.Suffix(id) := dedup[id];
  }

  // ----- each kind of write -----------------------------------------------------

  /** PersistState, or no write at all. */
  lemma CountersStored(codec: Codec, d: Durable, n: Node, n': Node) returns (d': Durable)
    requires Stored(codec, d, n)
    requires n'.log == n.log && n'.snap == n.snap && n'.snapData == n.snapData && n'.state == n.state
    ensures d' == d.(term := n'.term, vote := n'.vote, commit := n'.dcommit, applied := n'.applied)
    ensures Stored(codec, d', n') && Disk.OneWrite(d, d')
  {
    hide Describes, TableOf;
    d' := d.(term := n'.term, vote := n'.vote, commit := n'.dcommit, applied := n'.applied);
  }

  /** PersistLog. */
  lemma LogStored(codec: Codec, d: Durable, n: Node, n': Node) returns (d': Durable)
    requires Stored(codec, d, n) && n.phase == Idle && n.log[..n.snap] <= n'.log
    requires n'.snap == n.snap && n'.snapData == n.snapData && n'.state == n.state
    requires n'.term == n.term && n'.vote == n.vote && n'.dcommit == n.dcommit && n'.applied == n.applied
    ensures Stored(codec, d', n') && Disk.OneWrite(d, d')
  {
    hide Describes, TableOf;
    d' := d.(log := n'.log[n.snap..]);
    assert n.snap > 0 ==> n.log[..n.snap][n.snap - 1] == n'.log[n.snap - 1];
  }

  /** ApplyAtomically. */
  lemma ApplyStored(codec: Codec, d: Durable, n: Node) returns (d': Durable)
    requires Stored(codec, d, n) && n.applied < |n.log| && Applicable(n.state, n.log[n.applied].command)
    ensures Stored(codec, d', ApplyOne(n)) && Disk.OneWrite(d, d')
  {
    hide Describes, StateAt, Execute, Applicable;
    var c := n.log[n.applied].command;
    d' := Applied(d, n.state, c, n.applied + 1, n.commit);
    AppliedState(d, n.state, c, n.applied + 1, n.commit);
  }

  lemma Witnessed(contents: Record, s: State, requests: map<string, Command>)
    requires Persistence.Holds(contents, s.user, requests) && TableOf(requests, s.dedup)
    ensures Describes(contents, s)
  {}

  /** Capture and PersistSnapshot. */
  lemma CompactStored(codec: Codec, d: Durable, n: Node) returns (d': Durable)
    requires Stored(codec, d, n) && codec.Lossless() && Indexes(n) && n.phase == Compacting && NeedsSnapshot(n)
    requires (forall k :: k in n.state.user ==> !Reserved(k)) && TermOf(n.log, n.commit) != 0
    ensures Stored(codec, d', Compact(codec, n)) && Disk.OneWrite(d, d')
  {
    hide Describes, TableOf, Persistence.Holds, Persistence.Parses;
    TableMarks(d.requests, n.state.dedup);
    var contents := Listing(d.user, d.requests);
    Witnessed(contents, n.state, d.requests);
    d' := Persistence.Durable(d.term, d.vote, n.commit, n.applied, n.commit, TermOf(n.log, n.commit), Some(contents),
                              n.log[n.commit..], d.user, d.requests);
    assert Persistence.SnapshotStep(d, d');
  }

  /** ApplySnapshot. */
  lemma InstallStored(codec: Codec, d: Durable, n: Node, m: Msg, data: Bytes, s: State) returns (d': Durable)
    requires Stored(codec, d, n) && m.SnapReq? && m.index != 0 && m.indexTerm != 0 && codec.decode(data) == Some(s) && data == codec.encode(s)
    requires |m.prefix| == m.index && TermOf(m.prefix, m.index) == m.indexTerm
    requires forall k :: k in s.user ==> !Reserved(k)
    ensures Stored(codec, d', Install(n, m, data, s)) && Disk.OneWrite(d, d')
  {
    hide Describes, TableOf, Persistence.Holds, Persistence.Parses;
    var n' := Install(n, m, data, s);
    var requests := TableFor(s.dedup);
    TableMarks(requests, s.dedup);
    var contents := Listing(s.user, requests);
    Witnessed(contents, s, requests);
    d' := Persistence.Durable(n.term, n.vote, n'.commit, m.index, m.index, m.indexTerm, Some(contents),
                              n'.log[m.index..], s.user, requests);
    assert Persistence.InstallStep(d');
  }

  /** A crash writes nothing, and what is stored is what the restarted node has. */
  lemma CrashStored(codec: Codec, d: Durable, n: Node)
    requires Stored(codec, d, n)
    ensures Stored(codec, d, Restart(n))
  {
    hide Describes, TableOf;
  }

  // ----- each step --------------------------------------------------------------

  lemma NodeFacts(c: World, p: Id)
    requires Inv(c) && p in c.nodes
    ensures var n := c.nodes[p];
            && Indexes(n)
            && (c.h.clean ==> n.state == Fold(n.log[..n.stateIndex]))
            && (0 < n.commit ==> TermOf(n.log, n.commit) != 0)
  {
    hide AckOk, Safe, ReadOk, BufferOk, MsgInv, HistInv, VoteOk, LeaderOk, OnLine, Ordered, Fold, Accepted;
    assert NodeInv(c.cfg, c.h, p, c.nodes[p]);
  }

  lemma {:induction false} AbsorbKeeps(log: seq<Entry>, at: nat, entries: seq<Entry>, commit: nat)
    requires at <= |log|
    ensures Absorb(log, at, entries, commit).Some? ==> log[..at] <= Absorb(log, at, entries, commit).value
    decreases |entries|
  {
    if entries != [] {
      if at < |log| && log[at].term == entries[0].term {
        AbsorbKeeps(log, at + 1, entries[1..], commit);
      } else if !(at < |log| && at + 1 <= commit) {
        AbsorbKeeps(log[..at] + [entries[0]], at + 1, entries[1..], commit);
      }
    }
  }

  lemma AppendStored(codec: Codec, d: Durable, n: Node, m: Msg) returns (d': Durable)
    requires Stored(codec, d, n) && n.phase == Idle && m.AppendReq? && Merged(n, m).Some?
    ensures Stored(codec, d', AppendOk(n, m, Merged(n, m).value)) && Disk.OneWrite(d, d')
  {
    hide Disk.OneWrite, SnapshotStored, ProgressStored, StateAt;
    AbsorbKeeps(n.log, m.prev, m.entries, n.commit);
    var log := Merged(n, m).value;
    assert n.log[..n.snap] <= log by { assert n.log[..m.prev][..n.snap] == n.log[..n.snap]; }
    hide Stored;
    d' := LogStored(codec, d, n, AppendOk(n, m, log));
  }

  lemma ChunkStored(c: World, p: Id, m: Msg, d: Durable) returns (d': Durable)
    requires Inv(c) && p in c.nodes && m in c.net && m.SnapReq? && m.term == c.nodes[p].term && c.h.clean
    requires Stored(c.cfg.codec, d, c.nodes[p])
    ensures Stored(c.cfg.codec, d', ChunkNode(c.cfg, c.nodes[p], m)) && Disk.OneWrite(d, d')
  {
    hide Inv, Stored, Disk.OneWrite, MsgInv, NodeInv;
    var n := c.nodes[p];
    if Installs(c.cfg, n, m) {
      var data := Buffered(n.incoming, m).value.data;
      ChunkFacts(c, p, m);
      FoldKeys(m.prefix);
      d' := InstallStored(c.cfg.codec, d, n, m, data, c.cfg.codec.decode(data).value);
    } else {
      Unchanged(c.cfg.codec, d, n, ChunkNode(c.cfg, n, m));
      d' := d;
    }
  }

  lemma ChunkFacts(c: World, p: Id, m: Msg)
    requires Inv(c) && p in c.nodes && m in c.net && m.SnapReq? && c.h.clean && Installs(c.cfg, c.nodes[p], m)
    ensures |m.prefix| == m.index && TermOf(m.prefix, m.index) == m.indexTerm
    ensures Buffered(c.nodes[p].incoming, m).value.data == c.cfg.codec.encode(Fold(m.prefix))
    ensures c.cfg.codec.decode(Buffered(c.nodes[p].incoming, m).value.data) == Some(Fold(m.prefix))
  {
    hide AckOk, Safe, ReadOk, BufferOk, VoteOk, LeaderOk, LogOk, StateOk, Indexes, Fold, Accepted;
    hide Candidacies, Ballots, Elections, VotersKept, Commits, Captures, Lines;
    assert NodeInv(c.cfg, c.h, p, c.nodes[p]) && MsgInv(c.cfg, c.h, m);
    SnapshotSteps.Reassembly(c.cfg, c.h, c.nodes[p], m);
  }

  lemma Unchanged(codec: Codec, d: Durable, n: Node, n': Node)
    requires Stored(codec, d, n) && n' == n.(incoming := n'.incoming)
    ensures Stored(codec, d, n') && Disk.OneWrite(d, d)
  {}

  /** The steps that touch neither the log, the snapshot nor the store. */
  predicate Light(s: Step) {
    !s.Submit? && !s.AnswerAppend? && !s.AnswerSnapshot? && !s.ApplyNext? && !s.CompactLog? && !s.Crash?
  }

  lemma LightKeeps(c: World, s: Step)
    requires Enabled(c, s) && Light(s)
    ensures s.p in Do(c, s).nodes
    ensures var n, n' := c.nodes[s.p], Do(c, s).nodes[s.p];
            n'.log == n.log && n'.snap == n.snap && n'.snapData == n.snapData && n'.state == n.state
  {
    hide Enabled, Sent, Trace, Grants;
  }

  /** Every step of a node is at most one atomic write, after which the database again holds
      exactly the node's durable state. */
  lemma StepStored(c: World, s: Step, d: Durable) returns (d': Durable)
    requires Inv(c) && Enabled(c, s) && Stored(c.cfg.codec, d, c.nodes[s.p]) && c.h.clean
    ensures s.p in Do(c, s).nodes && Stored(c.cfg.codec, d', Do(c, s).nodes[s.p]) && Disk.OneWrite(d, d')
    ensures s.Crash? ==> d' == d
  {
    hide Inv, Stored, Disk.OneWrite, Restart, Compact, ApplyOne, ChunkNode, ChunkReply, Merged, AppendOk, Installs;
    hide Sent, Trace, VoteNode, Campaign, Promote, StepDown, CommitTo, OpenRead, Persist, Indexes, Fold;
    var n := c.nodes[s.p];
    NodeFacts(c, s.p);
    if Light(s) {
      LightKeeps(c, s);
      d' := CountersStored(c.cfg.codec, d, n, Do(c, s).nodes[s.p]);
    } else {
      d' := d;
      Unchanged(c.cfg.codec, d, n, n);
      match s
      case Submit(p, command) => d' := LogStored(c.cfg.codec, d, n, Extend(n, command));
      case AnswerAppend(p, m) =>
        if m.term == n.term && Merged(n, m).Some? { d' := AppendStored(c.cfg.codec, d, n, m); }
      case AnswerSnapshot(p, m) =>
        if m.term == n.term { d' := ChunkStored(c, p, m, d); }
      case ApplyNext(p) => d' := ApplyStored(c.cfg.codec, d, n);
      case CompactLog(p) => d' := CompactStep(c, p, d);
      case Crash(p) => CrashStored(c.cfg.codec, d, n);
      case _ =>
    }
  }

  lemma CompactStep(c: World, p: Id, d: Durable) returns (d': Durable)
    requires Inv(c) && p in c.nodes && c.nodes[p].phase == Compacting && c.h.clean
    requires Stored(c.cfg.codec, d, c.nodes[p])
    ensures Stored(c.cfg.codec, d', Compact(c.cfg.codec, c.nodes[p])) && Disk.OneWrite(d, d')
  {
    hide Disk.OneWrite, NodeInv, MsgInv, HistInv, Describes, TableOf;
    var n := c.nodes[p];
    NodeFacts(c, p);
    if NeedsSnapshot(n) {
      FoldKeys(n.log[..n.stateIndex]);
      d' := CompactStored(c.cfg.codec, d, n);
    } else {
      d' := CountersStored(c.cfg.codec, d, n, Compact(c.cfg.codec, n));
    }
  }

  // ----- whole runs -------------------------------------------------------------

  lemma FirstStored(codec: Codec)
    ensures Stored(codec, Disk.NOTHING, FRESH_NODE)
  {
    hide Keys.Suffix;
    assert TableOf(map[], map[]);
    assert FRESH_NODE.log[0..] == [];
  }

  lemma OthersStand(c: World, s: Step, q: Id)
    requires Enabled(c, s) && q in c.nodes && q != s.p
    ensures q in Do(c, s).nodes && Do(c, s).nodes[q] == c.nodes[q]
  {
    hide Enabled, NodeAfter, Sent, Trace;
  }

  /** The durable state of a node along a run: it starts empty, each step of the cluster is
      at most one write to it, and at every moment it is that of the node. */
  lemma {:induction false} DurableFollows(cs: seq<World>, k: nat, p: Id) returns (ds: seq<Durable>)
    requires Run(cs) && k < |cs| && p in cs[0].nodes && cs[k].h.clean
    ensures |ds| == k + 1 && ds[0] == Disk.NOTHING
    ensures forall i :: 0 <= i < k ==> Disk.OneWrite(ds[i], ds[i + 1])
    ensures forall i :: 0 <= i <= k ==> p in cs[i].nodes && Stored(cs[i].cfg.codec, ds[i], cs[i].nodes[p])
    decreases k
  {
    hide Inv, Enabled, Do, Stored, Disk.OneWrite, Growth.Grows;
    if k == 0 {
      FirstStored(cs[0].cfg.codec);
      ds := [Disk.NOTHING];
    } else {
      Safety.InvariantHolds(cs, k - 1);
      Safety.RunGrows(cs, k - 1, k);
      Growth.CleanBefore(cs[k - 1].h, cs[k].h);
      assert Next(cs[k - 1], cs[k]);
      var s :| Enabled(cs[k - 1], s) && cs[k] == Do(cs[k - 1], s);
      var before := DurableFollows(cs, k - 1, p);
      var d := before[k - 1];
      if s.p == p {
        d := StepStored(cs[k - 1], s, d);
      } else {
        OthersStand(cs[k - 1], s, p);
        Unchanged(cs[k].cfg.codec, d, cs[k].nodes[p], cs[k].nodes[p]);
      }
      ds := before + [d];
    }
  }

  /** The database of a node along a run: it starts empty, every step of the cluster leaves
      it alone or applies one batch of the storage code to it, and at every moment it holds
      exactly the node's durable state. */
  lemma DiskFollows(cs: seq<World>, k: nat, p: Id) returns (dbs: seq<Db>, ds: seq<Durable>)
    requires Run(cs) && k < |cs| && p in cs[0].nodes && cs[k].h.clean
    ensures |dbs| == |ds| == k + 1 && dbs[0] == map[]
    ensures forall i :: 0 <= i < k ==> Disk.Written(dbs[i], ds[i], dbs[i + 1], ds[i + 1])
    ensures forall i :: 0 <= i <= k ==>
              p in cs[i].nodes && Persistence.Represents(dbs[i], ds[i]) && Stored(cs[i].cfg.codec, ds[i], cs[i].nodes[p])
  {
    hide Run, Stored, Disk.OneWrite, Disk.Written, Persistence.Represents;
    ds := DurableFollows(cs, k, p);
    dbs := Disk.DatabasesFollow(ds);
  }

  /** Whatever is read from this database is the node's: LoadState on it restarts the node. */
  ghost predicate Restores(codec: Codec, db: Db, n: Node) {
    forall e, s, snap ::
      Persistence.Represents(db, e) && Disk.StateIn(db, s) && (e.snapshot.Some? ==> Describes(e.snapshot.value, snap)) ==>
      SavedBy(SavedOf(codec, Persistence.Loaded(e), snap), n) && s == n.state
  }

  /** Crash recovery: at every moment of every clean run the database holds the fold of a
      committed prefix, it can be loaded, and loading it restarts the node. */
  lemma CrashRecovery(cs: seq<World>, k: nat, p: Id) returns (db: Db, d: Durable)
    requires Run(cs) && k < |cs| && p in cs[0].nodes && cs[k].h.clean
    ensures p in cs[k].nodes && Persistence.Represents(db, d) && Stored(cs[k].cfg.codec, d, cs[k].nodes[p])
    ensures var n := cs[k].nodes[p];
            && n.snap <= n.applied <= n.stateIndex <= n.high <= |n.log| && Indexes(n)
            && Disk.StateIn(db, Fold(n.log[..n.stateIndex]))
            && Restores(cs[k].cfg.codec, db, n)
  {
    hide Inv, Run, Fold, Disk.Written, Persistence.Represents, Disk.StateIn, Describes, SavedBy;
    var dbs, ds := DiskFollows(cs, k, p);
    db, d := dbs[k], ds[k];
    Safety.InvariantHolds(cs, k);
    NodeFacts(cs[k], p);
    var codec, n := cs[k].cfg.codec, cs[k].nodes[p];
    assert StateAt(d, n.state);
    Disk.StateHeld(db, d, n.state);
    forall e, s, snap |
      Persistence.Represents(db, e) && Disk.StateIn(db, s) && (e.snapshot.Some? ==> Describes(e.snapshot.value, snap))
      ensures SavedBy(SavedOf(codec, Persistence.Loaded(e), snap), n) && s == n.state
    {
      RecoveredIsNode(codec, db, d, n, e, s, snap);
    }
  }
}
