/** Any sequence of writes: the database holds one durable state after another, and what it
    holds determines that state. */
module Disk {
  import opened Commands
  import opened Quorums
  import opened Cluster
  import opened Keys
  import opened Database
  import opened Persistence
  import opened Applier

  const NOTHING := Durable(0, None, 0, 0, 0, 0, None, [], map[], map[])

  /** What one call of RaftStorage or CommandApplier, or none, does to the durable state. */
  ghost predicate OneWrite(d: Durable, d': Durable) {
    || d' == d
    || d' == d.(term := d'.term, vote := d'.vote, commit := d'.commit, applied := d'.applied)
    || d' == d.(log := d'.log)
    || SnapshotStep(d, d')
    || InstallStep(d')
    || exists s, c, index, commit :: StateAt(d, s) && Applicable(s, c) && d' == Applied(d, s, c, index, commit)
  }

  /** The same call on the database: nothing, or exactly its batch. */
  ghost predicate Written(db: Db, d: Durable, db': Db, d': Durable) {
    || (db' == db && d' == d)
    || StateWritten(db, d, db', d')
    || LogWritten(db, d, db', d')
    || SnapshotWritten(db, d, db', d')
    || InstallWritten(db, db', d')
    || exists s, c, index, commit :: CommandWritten(db, d, db', d', s, c, index, commit)
  }

  // ----- a write keeps the representation ---------------------------------------

  lemma StateRepresents(db: Db, d: Durable, db': Db, d': Durable)
    requires Represents(db, d) && StateWritten(db, d, db', d')
    ensures Represents(db', d')
  {
    hide Represents, Counters;
    CountersBatch(db, d, d'.term, d'.vote, d'.commit, d'.applied, d'.snapIndex, d'.snapTerm);
  }

  lemma LogRepresents(db: Db, d: Durable, db': Db, d': Durable)
    requires Represents(db, d) && LogWritten(db, d, db', d')
    ensures Represents(db', d')
  {
    hide Represents, LogIndexes, Batch;
    var deletes :| Stale(deletes, d, d') && db' == Batch(db, LogPuts(d'.snapIndex, d'.log), deletes);
    LogBatch(db, d, d.snapIndex, d'.log, deletes);
  }

  lemma SnapshotRepresents(db: Db, d: Durable, db': Db, d': Durable)
    requires Represents(db, d) && SnapshotWritten(db, d, db', d')
    ensures Represents(db', d')
  {
    hide Represents, LogIndexes, Batch, Parses, Counters, SnapshotPuts;
    var contents := d'.snapshot.value;
    var deletes :| Stale(deletes, d, d') &&
                   db' == Batch(db, SnapshotRecords(d', contents) + LogPuts(d'.snapIndex, d'.log), deletes);
    SnapshotBatch(db, d, d', contents, deletes);
  }

  lemma InstallRepresents(db: Db, db': Db, d': Durable)
    requires InstallWritten(db, db', d')
    ensures Represents(db', d')
  {
    assert d'.snapshot.value.Contents?;
    hide Represents, Batch, Parses, Counters, SnapshotPuts, Persistence.Holds, Wiped;
    var contents := d'.snapshot.value;
    var deletes :| Wipes(db, deletes) &&
                   db' == Batch(db, SnapshotRecords(d', contents) + contents.entries + Prefixed(contents.requests) +
                                    LogPuts(d'.snapIndex, d'.log), deletes);
    InstallBatch(db, d', contents, deletes);
  }

  /** Persisted-log agreement, one write: a represented state goes to the represented state
      the call stands for. */
  lemma WrittenRepresents(db: Db, d: Durable, db': Db, d': Durable)
    requires Represents(db, d) && Written(db, d, db', d')
    ensures Represents(db', d')
  {
    hide Represents, StateWritten, LogWritten, SnapshotWritten, InstallWritten, CommandWritten;
    if StateWritten(db, d, db', d') {
      StateRepresents(db, d, db', d');
    } else if LogWritten(db, d, db', d') {
      LogRepresents(db, d, db', d');
    } else if SnapshotWritten(db, d, db', d') {
      SnapshotRepresents(db, d, db', d');
    } else if InstallWritten(db, db', d') {
      InstallRepresents(db, db', d');
    } else if s, c, index, commit :| CommandWritten(db, d, db', d', s, c, index, commit) {
      CommandRepresents(db, d, db', d', s, c, index, commit);
    }
  }

  // ----- every write has its batch ----------------------------------------------

  function KeyRange(lo: nat, hi: nat): seq<string>
    decreases hi - lo
  {
    if hi <= lo then [] else KeyRange(lo, hi - 1) + [Text(Log(hi - 1))]
  }

  lemma OneMoreAbove(keys: seq<string>, lo: nat, hi: nat, lo': nat, hi': nat)
    requires LogIndexes(Names(keys), lo, hi, lo', hi') && lo' <= hi'
    ensures LogIndexes(Names(keys + [Text(Log(hi'))]), lo, hi, lo', hi' + 1)
  {
    hide Text;
    IndexAdded(keys, lo, hi, lo', hi', hi');
  }

  lemma OneMoreBelow(keys: seq<string>, lo: nat, hi: nat, lo': nat, hi': nat)
    requires LogIndexes(Names(keys), lo, hi, lo', hi') && lo <= hi
    ensures LogIndexes(Names(keys + [Text(Log(hi))]), lo, hi + 1, lo', hi')
  {
    hide Text;
    IndexAdded(keys, lo, hi, lo', hi', hi);
  }

  lemma NoKeys(lo: nat, lo': nat)
    ensures LogIndexes(Names([]), lo, lo, lo', lo')
  {}

  lemma {:induction false} StaleKeys(lo: nat, hi: nat, lo': nat, hi': nat)
    requires lo <= hi && lo' <= hi'
    ensures LogIndexes(Names(KeyRange(lo, hi) + KeyRange(lo', hi')), lo, hi, lo', hi')
    decreases hi - lo + hi' - lo'
  {
    hide Text, LogIndexes;
    if lo' < hi' {
      StaleKeys(lo, hi, lo', hi' - 1);
      OneMoreAbove(KeyRange(lo, hi) + KeyRange(lo', hi' - 1), lo, hi, lo', hi' - 1);
      assert KeyRange(lo, hi) + KeyRange(lo', hi') == (KeyRange(lo, hi) + KeyRange(lo', hi' - 1)) + [Text(Log(hi' - 1))];
    } else if lo < hi {
      StaleKeys(lo, hi - 1, lo', hi');
      OneMoreBelow(KeyRange(lo, hi - 1) + [], lo, hi - 1, lo', hi');
      assert KeyRange(lo, hi) + [] == (KeyRange(lo, hi - 1) + []) + [Text(Log(hi - 1))];
    } else {
      NoKeys(lo, lo');
      assert KeyRange(lo, hi) + KeyRange(lo', hi') == [];
    }
  }

  lemma StaleList(d: Durable, d': Durable) returns (deletes: seq<string>)
    ensures Stale(deletes, d, d')
  {
    hide LogIndexes;
    var top := Max(d'.LastIndex(), d.LastIndex());
    deletes := KeyRange(1, d'.snapIndex + 1) + KeyRange(d'.LastIndex() + 1, top + 1);
    StaleKeys(1, d'.snapIndex + 1, d'.LastIndex() + 1, top + 1);
  }

  lemma {:induction false} Enumerate(keys: set<string>) returns (names: seq<string>)
    ensures forall i :: 0 <= i < |names| ==> names[i] in keys
    ensures forall k :: k in keys ==> k in names
    ensures forall i, j :: 0 <= i < j < |names| ==> names[i] != names[j]
  {
    if keys == {} {
      names := [];
    } else {
      var k := Pick(keys);
      var down := Enumerate(keys - {k});
      names := down + [k];
    }
  }

  lemma WipeList(db: Db) returns (deletes: seq<string>)
    ensures Wipes(db, deletes)
  {
    hide Text;
    deletes := Enumerate(set k | k in db && (!Reserved(k) || CLIENT_PREFIX <= k || LOG_PREFIX <= k));
    forall x | Text(Client(x)) in db ensures Text(Client(x)) in Names(deletes) { ClientKey(x); }
    forall i: nat | Text(Log(i)) in db ensures Text(Log(i)) in Names(deletes) { LogText(i); }
  }

  lemma WriteExists(db: Db, d: Durable, d': Durable) returns (db': Db)
    requires OneWrite(d, d')
    ensures Written(db, d, db', d')
  {
    assert InstallStep(d') ==> d'.snapshot.value.Contents?;
    hide Parses, Persistence.Holds, Counters, SnapshotPuts, Batch, Applicable, StateAt, Applied, Stale, Wipes, FreshPuts, Progress;
    if d' == d {
      db' := db;
    } else if d' == d.(term := d'.term, vote := d'.vote, commit := d'.commit, applied := d'.applied) {
      db' := Batch(db, CountersOf(d'), []);
    } else if d' == d.(log := d'.log) {
      var deletes := StaleList(d, d');
      db' := Batch(db, LogPuts(d'.snapIndex, d'.log), deletes);
    } else if SnapshotStep(d, d') {
      var deletes := StaleList(d, d');
      db' := Batch(db, SnapshotRecords(d', d'.snapshot.value) + LogPuts(d'.snapIndex, d'.log), deletes);
    } else if InstallStep(d') {
      var deletes := WipeList(db);
      var contents := d'.snapshot.value;
      db' := Batch(db, SnapshotRecords(d', contents) + contents.entries + Prefixed(contents.requests) +
                       LogPuts(d'.snapIndex, d'.log), deletes);
    } else {
      var s, c, index, commit :| StateAt(d, s) && Applicable(s, c) && d' == Applied(d, s, c, index, commit);
      db' := if Judge(s, c) == Duplicate then Batch(db, Progress(commit, index), [])
             else Batch(db, FreshPuts(c, index, commit), if c.kind == Delete then [c.key] else []);
      assert CommandWritten(db, d, db', d', s, c, index, commit);
    }
  }

  // ----- any sequence of writes -------------------------------------------------

  lemma EmptyRepresents()
    ensures Represents(map[], NOTHING)
  {
    hide Text;
  }

  /** Persisted-log agreement: over every sequence of writes there is a sequence of
      databases, each the batch of its write applied to the one before, and every one of
      them holds exactly the durable state it should. */
  lemma {:induction false} DatabasesFollow(ds: seq<Durable>) returns (dbs: seq<Db>)
    requires |ds| > 0 && ds[0] == NOTHING && forall i :: 0 <= i < |ds| - 1 ==> OneWrite(ds[i], ds[i + 1])
    ensures |dbs| == |ds| && dbs[0] == map[]
    ensures forall i :: 0 <= i < |ds| - 1 ==> Written(dbs[i], ds[i], dbs[i + 1], ds[i + 1])
    ensures forall i :: 0 <= i < |ds| ==> Represents(dbs[i], ds[i])
  {
    hide OneWrite, Written, Represents;
    if |ds| == 1 {
      EmptyRepresents();
      dbs := [map[]];
    } else {
      var n := |ds| - 1;
      assert forall i :: 0 <= i < n ==> ds[..n][i] == ds[i];
      var before := DatabasesFollow(ds[..n]);
      var db := WriteExists(before[n - 1], ds[n - 1], ds[n]);
      WrittenRepresents(before[n - 1], ds[n - 1], db, ds[n]);
      dbs := before + [db];
    }
  }

  // ----- the database determines the state --------------------------------------

  lemma CountersUnique(db: Db, d: Durable, e: Durable)
    requires CountersAt(db, d) && CountersAt(db, e)
    ensures d.term == e.term && d.vote == e.vote && d.commit == e.commit && d.applied == e.applied
  {
    hide Text;
  }

  lemma SnapshotUnique(db: Db, d: Durable, e: Durable)
    requires SnapshotAt(db, d) && SnapshotAt(db, e)
    ensures d.snapIndex == e.snapIndex && d.snapTerm == e.snapTerm && d.snapshot == e.snapshot
  {
    hide Text, Parses;
  }

  lemma LogUnique(db: Db, d: Durable, e: Durable)
    requires LogAt(db, d) && LogAt(db, e) && d.snapIndex == e.snapIndex
    ensures d.log == e.log
  {
    hide Text;
    assert Text(Log(d.LastIndex())) in db <==> d.log != [];
    assert Text(Log(e.LastIndex())) in db <==> e.log != [];
    assert Text(Log(d.LastIndex() + 1)) !in db && Text(Log(e.LastIndex() + 1)) !in db;
    assert |d.log| == |e.log|;
    forall i | 0 <= i < |d.log| ensures d.log[i] == e.log[i] {
      assert Text(Log(d.snapIndex + i + 1)) in db;
    }
  }

  lemma UserUnique(db: Db, a: map<string, string>, b: map<string, string>)
    requires UserAt(db, a) && UserAt(db, b)
    ensures a == b
  {
    forall k ensures k in a <==> k in b { if !Reserved(k) { assert k in db <==> k in a; } }
  }

  lemma RequestsUnique(db: Db, a: map<string, Command>, b: map<string, Command>)
    requires RequestsAt(db, a) && RequestsAt(db, b)
    ensures a == b
  {
    hide Text;
    forall x ensures x in a <==> x in b { assert Text(Client(x)) in db <==> x in a; }
    forall x | x in a ensures a[x] == b[x] { assert Text(Client(x)) in db; }
  }

  /** A database holds at most one durable state. */
  lemma RepresentsUnique(db: Db, d: Durable, e: Durable)
    requires Represents(db, d) && Represents(db, e)
    ensures d == e
  {
    hide CountersAt, SnapshotAt, LogAt, UserAt, RequestsAt;
    CountersUnique(db, d, e);
    SnapshotUnique(db, d, e);
    LogUnique(db, d, e);
    UserUnique(db, d.user, e.user);
    RequestsUnique(db, d.requests, e.requests);
  }

  /** The state machine's state as it lies in a database. */
  ghost predicate StateIn(db: Db, s: State) {
    UserAt(db, s.user) && exists requests :: RequestsAt(db, requests) && TableOf(requests, s.dedup)
  }

  lemma TableUnique(requests: map<string, Command>, a: map<(nat, nat), Command>, b: map<(nat, nat), Command>)
    requires TableOf(requests, a) && TableOf(requests, b)
    ensures a == b
  {
    hide Suffix;
    forall id ensures id in a <==> id in b { assert id in a <==> Suffix(id) in requests; }
    forall id | id in a ensures a[id] == b[id] { assert requests[Suffix(id)] == a[id]; }
  }

  lemma StateInUnique(db: Db, s: State, t: State)
    requires StateIn(db, s) && StateIn(db, t)
    ensures s == t
  {
    hide UserAt, RequestsAt, TableOf;
    UserUnique(db, s.user, t.user);
    var r :| RequestsAt(db, r) && TableOf(r, s.dedup);
    var q :| RequestsAt(db, q) && TableOf(q, t.dedup);
    RequestsUnique(db, r, q);
    TableUnique(r, s.dedup, t.dedup);
  }

  lemma StateHeld(db: Db, d: Durable, s: State)
    requires Represents(db, d) && StateAt(d, s)
    ensures StateIn(db, s)
  {
    hide CountersAt, SnapshotAt, LogAt, UserAt, RequestsAt, TableOf;
  }
}
