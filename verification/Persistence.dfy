/** RaftStorage: how the durable state of a node lies in the database. */
module Persistence {
  import opened Commands
  import opened Cluster
  import opened Keys
  import opened Database

  /** What a node has on disk. `requests` is the request table by record suffix. */
  datatype Durable = Durable(
    term: nat, vote: Option<int>, commit: nat, applied: nat,
    snapIndex: nat, snapTerm: nat, snapshot: Option<Record>,
    log: seq<Entry>, user: map<string, string>, requests: map<string, Command>)
  {
    function LastIndex(): nat { snapIndex + |log| }
  }

  /** What Load returns: all but the user entries and the request table. */
  function Loaded(d: Durable): Durable { d.(user := map[], requests := map[]) }

  // ----- representation ---------------------------------------------------------

  ghost predicate NumberAt(db: Db, k: Key, n: nat) {
    if Text(k) in db then db[Text(k)] == Number(n) else n == 0
  }

  ghost predicate CountersAt(db: Db, d: Durable) {
    && NumberAt(db, CurrentTerm, d.term)
    && NumberAt(db, CommitIndex, d.commit)
    && NumberAt(db, LastApplied, d.applied)
    && (if Text(VotedFor) in db then db[Text(VotedFor)] == VoteRecord(d.vote) else d.vote == None)
  }

  ghost predicate SnapshotAt(db: Db, d: Durable) {
    match d.snapshot
    case None =>
      d.snapIndex == 0 && d.snapTerm == 0 && Text(SnapshotMetadata) !in db && Text(SnapshotData) !in db
    case Some(contents) =>
      && d.snapIndex != 0 && d.snapTerm != 0 && Parses(contents)
      && Text(SnapshotMetadata) in db && db[Text(SnapshotMetadata)] == Metadata(d.snapIndex, d.snapTerm)
      && Text(SnapshotData) in db && db[Text(SnapshotData)] == contents
  }

  /** The log keys are one block, right after the snapshot. */
  ghost predicate LogAt(db: Db, d: Durable) {
    forall i: nat ::
      && (Text(Log(i)) in db <==> d.snapIndex < i <= d.LastIndex())
      && (Text(Log(i)) in db ==> db[Text(Log(i))] == LogRecord(i, d.log[i - d.snapIndex - 1]))
  }

  ghost predicate UserAt(db: Db, user: map<string, string>) {
    && (forall k :: k in user ==> !Reserved(k))
    && (forall k :: !Reserved(k) ==> (k in db <==> k in user) && (k in db ==> db[k] == Bytes(user[k])))
  }

  ghost predicate RequestsAt(db: Db, requests: map<string, Command>) {
    (forall x :: x in requests ==> '/' in x) &&
    forall x :: (Text(Client(x)) in db <==> x in requests) &&
                (Text(Client(x)) in db ==> db[Text(Client(x))] == Request(requests[x]))
  }

  ghost predicate Represents(db: Db, d: Durable) {
    CountersAt(db, d) && SnapshotAt(db, d) && LogAt(db, d) && UserAt(db, d.user) && RequestsAt(db, d.requests)
  }

  // ----- what a batch leaves alone ----------------------------------------------

  ghost predicate SameAt(db: Db, db': Db, s: string) {
    (s in db <==> s in db') && (s in db ==> db[s] == db'[s])
  }

  ghost predicate SameLogs(db: Db, db': Db) { forall i: nat :: SameAt(db, db', Text(Log(i))) }

  ghost predicate SameRequests(db: Db, db': Db) { forall x :: SameAt(db, db', Text(Client(x))) }

  ghost predicate SameUsers(db: Db, db': Db) { forall k :: !Reserved(k) ==> SameAt(db, db', k) }

  ghost predicate SameSnapshot(db: Db, db': Db) {
    SameAt(db, db', Text(SnapshotMetadata)) && SameAt(db, db', Text(SnapshotData))
  }

  ghost predicate SameCounters(db: Db, db': Db) {
    SameAt(db, db', Text(CurrentTerm)) && SameAt(db, db', Text(VotedFor)) &&
    SameAt(db, db', Text(CommitIndex)) && SameAt(db, db', Text(LastApplied))
  }

  ghost predicate LogKeysOnly(keys: set<string>) {
    forall s :: s in keys ==> exists i: nat :: s == Text(Log(i))
  }

  ghost predicate FixedKeysOnly(keys: set<string>) {
    forall s :: s in keys ==> exists k :: Fixed(k) && s == Text(k)
  }

  lemma NotALogKey(keys: set<string>, k: Key)
    requires LogKeysOnly(keys) && Legal(k) && !k.Log?
    ensures Text(k) !in keys
  {
    if Text(k) in keys {
      var i: nat :| Text(k) == Text(Log(i));
      TextInjective(k, Log(i));
    }
  }

  lemma NotAFixedKey(keys: set<string>, k: Key)
    requires FixedKeysOnly(keys) && Legal(k) && !Fixed(k)
    ensures Text(k) !in keys
  {
    if Text(k) in keys {
      var f :| Fixed(f) && Text(k) == Text(f);
      TextInjective(k, f);
    }
  }

  // ----- the log's records ------------------------------------------------------

  function LogPuts(snap: nat, log: seq<Entry>): (r: seq<(string, Record)>) {
    if log == [] then []
    else LogPuts(snap, log[..|log| - 1]) + [(Text(Log(snap + |log|)), LogRecord(snap + |log|, log[|log| - 1]))]
  }

  lemma {:induction false} LogPutsAt(snap: nat, log: seq<Entry>, i: nat)
    ensures Text(Log(i)) in Puts(LogPuts(snap, log)) <==> snap < i <= snap + |log|
    ensures snap < i <= snap + |log| ==> Puts(LogPuts(snap, log))[Text(Log(i))] == LogRecord(i, log[i - snap - 1])
  {
    hide Text;
    if log != [] {
      var down, n := log[..|log| - 1], snap + |log|;
      LogPutsAt(snap, down, i);
      PutsStep(LogPuts(snap, down), Text(Log(n)), LogRecord(n, log[|log| - 1]));
      if Text(Log(i)) == Text(Log(n)) { TextInjective(Log(i), Log(n)); }
    }
  }

  lemma {:induction false} LogPutsKeys(snap: nat, log: seq<Entry>)
    ensures LogKeysOnly(Puts(LogPuts(snap, log)).Keys)
  {
    hide Text;
    if log != [] {
      var down, n := log[..|log| - 1], snap + |log|;
      LogPutsKeys(snap, down);
      PutsStep(LogPuts(snap, down), Text(Log(n)), LogRecord(n, log[|log| - 1]));
    }
  }

  /** SnapshotState as ParseSnapshotState accepts it. */
  ghost predicate Parses(r: Record) {
    r.Contents? && DistinctKeys(r.entries) && DistinctKeys(r.requests) &&
    (forall i :: 0 <= i < |r.entries| ==> !Reserved(r.entries[i].0) && r.entries[i].1.Bytes?) &&
    (forall i :: 0 <= i < |r.requests| ==> '/' in r.requests[i].0 && r.requests[i].1.Request?)
  }

  ghost predicate DistinctKeys(pairs: seq<(string, Record)>) {
    forall i, j :: 0 <= i < j < |pairs| ==> pairs[i].0 != pairs[j].0
  }

  // ----- the batches ------------------------------------------------------------

  /** PersistState: the six progress records. */
  ghost predicate StateWritten(db: Db, d: Durable, db': Db, d': Durable) {
    d' == d.(term := d'.term, vote := d'.vote, commit := d'.commit, applied := d'.applied) &&
    db' == Batch(db, CountersOf(d'), [])
  }

  /** Everything up to the snapshot and everything stored behind the new log. */
  ghost predicate Stale(deletes: seq<string>, d: Durable, d': Durable) {
    LogIndexes(Names(deletes), 1, d'.snapIndex + 1, d'.LastIndex() + 1, Max(d'.LastIndex(), d.LastIndex()) + 1)
  }

  /** PersistLog: the entries, and the stale records deleted. */
  ghost predicate LogWritten(db: Db, d: Durable, db': Db, d': Durable) {
    d' == d.(log := d'.log) &&
    exists deletes :: Stale(deletes, d, d') && db' == Batch(db, LogPuts(d'.snapIndex, d'.log), deletes)
  }

  function CountersOf(d: Durable): seq<(string, Record)> {
    Counters(d.term, d.vote, d.commit, d.applied, d.snapIndex, d.snapTerm)
  }

  function SnapshotRecords(d: Durable, contents: Record): seq<(string, Record)> {
    CountersOf(d) + SnapshotPuts(d.snapIndex, d.snapTerm, contents)
  }

  /** The state a snapshot write may lead to: tables unchanged, contents that parse. */
  ghost predicate SnapshotStep(d: Durable, d': Durable) {
    d.snapIndex <= d'.snapIndex && d'.snapIndex != 0 && d'.snapTerm != 0 && d'.user == d.user && d'.requests == d.requests &&
    d'.snapshot.Some? && Parses(d'.snapshot.value)
  }

  /** PersistSnapshot: progress, snapshot and the shortened log in one batch. */
  ghost predicate SnapshotWritten(db: Db, d: Durable, db': Db, d': Durable) {
    SnapshotStep(d, d') &&
    exists deletes :: Stale(deletes, d, d') &&
      db' == Batch(db, SnapshotRecords(d', d'.snapshot.value) + LogPuts(d'.snapIndex, d'.log), deletes)
  }

  /** All user entries, request records and log records, and nothing else. */
  ghost predicate Wipes(db: Db, deletes: seq<string>) {
    Wiped(db - Names(deletes)) &&
    forall k :: k in deletes ==> k in db && (!Reserved(k) || CLIENT_PREFIX <= k || LOG_PREFIX <= k)
  }

  ghost predicate InstallStep(d': Durable) {
    d'.snapIndex != 0 && d'.snapTerm != 0 && d'.snapshot.Some? && Parses(d'.snapshot.value) &&
    Holds(d'.snapshot.value, d'.user, d'.requests)
  }

  /** ApplySnapshot: the wiped store refilled from the snapshot, with the given log. */
  ghost predicate InstallWritten(db: Db, db': Db, d': Durable) {
    InstallStep(d') &&
    var contents := d'.snapshot.value;
    exists deletes :: Wipes(db, deletes) &&
      db' == Batch(db, SnapshotRecords(d', contents) + contents.entries + Prefixed(contents.requests) +
                       LogPuts(d'.snapIndex, d'.log), deletes)
  }

  // ----- the keys a persist call deletes ----------------------------------------

  /** The log indexes a set of keys stands for. */
  ghost predicate LogIndexes(keys: set<string>, lo: nat, hi: nat, lo': nat, hi': nat) {
    LogKeysOnly(keys) &&
    forall i: nat :: Text(Log(i)) in keys <==> (lo <= i < hi || lo' <= i < hi')
  }

  lemma IndexAdded(keys: seq<string>, lo: nat, hi: nat, lo': nat, hi': nat, n: nat)
    requires LogIndexes(Names(keys), lo, hi, lo', hi')
    ensures LogKeysOnly(Names(keys + [Text(Log(n))]))
    ensures forall i: nat :: Text(Log(i)) in Names(keys + [Text(Log(n))]) <==> (i == n || lo <= i < hi || lo' <= i < hi')
  {
    hide Text;
    NamesStep(keys, Text(Log(n)));
    forall i: nat ensures Text(Log(i)) in Names(keys + [Text(Log(n))]) <==> (i == n || lo <= i < hi || lo' <= i < hi') {
      if Text(Log(i)) == Text(Log(n)) { TextInjective(Log(i), Log(n)); }
    }
  }

  class RaftStorage {
    const store: Store

    constructor (store: Store)
      ensures this.store == store
    {
      this.store := store;
    }

    /** Keys to delete: everything up to the snapshot, and the old tail, walked only until
        the first missing key. */
    method StaleKeys(snap: nat, last: nat, ghost d: Durable) returns (deletes: seq<string>)
      requires LogAt(store.db, d) && d.snapIndex <= snap <= last
      ensures LogIndexes(Names(deletes), 1, snap + 1, last + 1, Max(last, d.LastIndex()) + 1)
    {
      hide Text;
      deletes := [];
      var index: nat := 1;
      while index <= snap
        invariant 1 <= index <= snap + 1 && LogIndexes(Names(deletes), 1, index, last + 1, last + 1)
      {
        IndexAdded(deletes, 1, index, last + 1, last + 1, index);
        deletes := deletes + [Text(Log(index))];
        index := index + 1;
      }
      index := last + 1;
      while Text(Log(index)) in store.db
        invariant last + 1 <= index <= Max(last, d.LastIndex()) + 1
        invariant LogIndexes(Names(deletes), 1, snap + 1, last + 1, index)
        decreases d.LastIndex() + 1 - index
      {
        IndexAdded(deletes, 1, snap + 1, last + 1, index, index);
        deletes := deletes + [Text(Log(index))];
        index := index + 1;
      }
    }

    method EntryPuts(snap: nat, log: seq<Entry>) returns (puts: seq<(string, Record)>)
      ensures puts == LogPuts(snap, log)
    {
      hide Text;
      puts := [];
      for offset := 0 to |log|
        invariant puts == LogPuts(snap, log[..offset])
      {
        assert log[..offset + 1][..offset] == log[..offset];
        puts := puts + [(Text(Log(snap + offset + 1)), LogRecord(snap + offset + 1, log[offset]))];
      }
      assert log[..|log|] == log;
    }

    /** PersistState. */
    method PersistState(term: nat, vote: Option<int>, commit: nat, applied: nat, snapIndex: nat, snapTerm: nat,
                        ghost d: Durable)
      requires Represents(store.db, d)
      modifies store
      ensures Represents(store.db, d.(term := term, vote := vote, commit := commit, applied := applied))
      ensures snapIndex == d.snapIndex && snapTerm == d.snapTerm ==>
                StateWritten(old(store.db), d, store.db, d.(term := term, vote := vote, commit := commit, applied := applied))
    {
      hide Represents, Counters;
      CountersBatch(store.db, d, term, vote, commit, applied, snapIndex, snapTerm);
      store.WriteAtomically(Counters(term, vote, commit, applied, snapIndex, snapTerm), []);
    }

    /** PersistSnapshot: progress, the snapshot and the shortened log in one batch. */
    method PersistSnapshot(term: nat, vote: Option<int>, commit: nat, applied: nat, snapIndex: nat, snapTerm: nat,
                           contents: Record, log: seq<Entry>, ghost d: Durable)
      requires Represents(store.db, d) && d.snapIndex <= snapIndex && snapIndex != 0 && snapTerm != 0 && Parses(contents)
      modifies store
      ensures var d' := Durable(term, vote, commit, applied, snapIndex, snapTerm, Some(contents), log, d.user, d.requests);
              Represents(store.db, d') && SnapshotWritten(old(store.db), d, store.db, d')
    {
      hide Represents, Counters, Parses, SnapshotPuts;
      var fixed := Counters(term, vote, commit, applied, snapIndex, snapTerm) + SnapshotPuts(snapIndex, snapTerm, contents);
      RepresentsLog(store.db, d);
      var deletes := StaleKeys(snapIndex, snapIndex + |log|, d);
      var puts := EntryPuts(snapIndex, log);
      ghost var d' := Durable(term, vote, commit, applied, snapIndex, snapTerm, Some(contents), log, d.user, d.requests);
      SnapshotBatch(store.db, d, d', contents, deletes);
      assert Stale(deletes, d, d');
      store.WriteAtomically(fixed + puts, deletes);
    }

    /** LoadSnapshot and the log loop of Load: exactly what was last persisted. */
    method Load(ghost d: Durable) returns (r: Option<Durable>)
      requires Represents(store.db, d)
      ensures r == Some(Loaded(d))
    {
      hide Text, UserAt, RequestsAt, Parses;
      var snapIndex, snapTerm, snapshot := 0, 0, None;
      var metadata, data := store.Get(Text(SnapshotMetadata)), store.Get(Text(SnapshotData));
      if metadata.Some? || data.Some? {
        if metadata.None? || data.None? || !metadata.value.Metadata? || metadata.value.index == 0 || metadata.value.term == 0 {
          return None;
        }
        var parsed := ParseSnapshotState(data.value);
        if !parsed {
          return None;
        }
        snapIndex, snapTerm, snapshot := metadata.value.index, metadata.value.term, Some(data.value);
      }
      assert snapIndex == d.snapIndex && snapTerm == d.snapTerm && snapshot == d.snapshot;
      var log := LoadLog(snapIndex, d);
      if log.None? {
        return None;
      }
      var term, commit, applied := ParseNumber(CurrentTerm), ParseNumber(CommitIndex), ParseNumber(LastApplied);
      var vote := store.Get(Text(VotedFor));
      if term.None? || commit.None? || applied.None? || (vote.Some? && !vote.value.VoteRecord?) {
        return None;
      }
      r := Some(Durable(term.value, if vote.Some? then vote.value.vote else None, commit.value, applied.value,
                        snapIndex, snapTerm, snapshot, log.value, map[], map[]));
    }

    function ParseNumber(k: Key): Option<nat>
      reads store
    {
      if Text(k) !in store.db then Some(0)
      else if store.db[Text(k)].Number? then Some(store.db[Text(k)].n)
      else None
    }

    /** The log is read from the snapshot on, until the first missing key. */
    method LoadLog(snapIndex: nat, ghost d: Durable) returns (log: Option<seq<Entry>>)
      requires LogAt(store.db, d) && snapIndex == d.snapIndex
      ensures log == Some(d.log)
    {
      hide Text;
      var entries: seq<Entry> := [];
      var index: nat := snapIndex + 1;
      while Text(Log(index)) in store.db
        invariant index == snapIndex + 1 + |entries| && |entries| <= |d.log| && entries == d.log[..|entries|]
        decreases |d.log| - |entries|
      {
        var r := store.db[Text(Log(index))];
        assert r == LogRecord(index, d.log[|entries|]);
        if !r.LogRecord? || r.index != index {
          return None;
        }
        entries := entries + [r.entry];
        index := index + 1;
      }
      assert !(d.snapIndex < index <= d.LastIndex());
      assert |entries| == |d.log| && entries == d.log[..|d.log|] == d.log;
      log := Some(entries);
    }

    /** GetAppliedRequests: the request table with the prefix cut off. */
    method GetAppliedRequests(keys: seq<string>, ghost requests: map<string, Command>) returns (pairs: seq<(string, Record)>)
      requires Walks(keys, store.db) && RequestsAt(store.db, requests)
      ensures ListsRequests(pairs, requests)
    {
      hide RequestsAt;
      var found := store.GetAllPrefixedEntries(CLIENT_PREFIX, keys);
      pairs := [];
      for i := 0 to |found|
        invariant |pairs| == i
        invariant forall j :: 0 <= j < i ==> found[j].0 == Text(Client(pairs[j].0)) && pairs[j].1 == found[j].1
      {
        ClientKey(found[i].0[|CLIENT_PREFIX|..]);
        pairs := pairs + [(found[i].0[|CLIENT_PREFIX|..], found[i].1)];
      }
      CutPrefix(found, pairs, store.db, requests);
    }

    /** What CreateSnapshotIfNeeded serializes. */
    method Capture(keys: seq<string>, ghost d: Durable) returns (contents: Record)
      requires Walks(keys, store.db) && Represents(store.db, d)
      ensures Holds(contents, d.user, d.requests) && Parses(contents)
    {
      hide Represents, ListsRequests, ListsUsers, RequestsAt, UserAt;
      RepresentsTables(store.db, d);
      var entries := store.GetAllUserEntries(keys);
      UserScanLists(entries, store.db, d.user);
      var requests := GetAppliedRequests(keys, d.requests);
      contents := Contents(entries, requests);
      HeldParses(contents, d.user, d.requests);
    }

    /** ApplySnapshot: whatever the database held before, afterwards it holds the snapshot's
        user entries and request table and exactly the given log. */
    method ApplySnapshot(contents: Record, term: nat, vote: Option<int>, commit: nat, applied: nat,
                         snapIndex: nat, snapTerm: nat, log: seq<Entry>, keys: seq<string>,
                         ghost user: map<string, string>, ghost requests: map<string, Command>)
      requires Walks(keys, store.db) && Holds(contents, user, requests) && Parses(contents)
      requires snapIndex != 0 && snapTerm != 0
      modifies store
      ensures var d' := Durable(term, vote, commit, applied, snapIndex, snapTerm, Some(contents), log, user, requests);
              Represents(store.db, d') && InstallWritten(old(store.db), store.db, d')
    {
      hide Represents, Counters, ListsUsers, ListsRequests, Parses, SnapshotPuts, Wiped;
      var fixed := Counters(term, vote, commit, applied, snapIndex, snapTerm) + SnapshotPuts(snapIndex, snapTerm, contents);
      var users := store.GetAllUserEntries(keys);
      var clients := store.GetAllPrefixedEntries(CLIENT_PREFIX, keys);
      var logs := store.GetAllPrefixedEntries(LOG_PREFIX, keys);
      var deletes := Firsts(users) + Firsts(clients) + Firsts(logs);
      var requestPuts := Prefixed(contents.requests);
      var puts := EntryPuts(snapIndex, log);
      ghost var d' := Durable(term, vote, commit, applied, snapIndex, snapTerm, Some(contents), log, user, requests);
      WipedClean(store.db, users, clients, logs);
      InstallBatch(store.db, d', contents, deletes);
      assert Wipes(store.db, deletes);
      store.WriteAtomically(fixed + contents.entries + requestPuts + puts, deletes);
    }

    /** PersistLog: the stored log becomes exactly this one. */
    method PersistLog(snap: nat, log: seq<Entry>, ghost d: Durable)
      requires Represents(store.db, d) && snap == d.snapIndex
      modifies store
      ensures Represents(store.db, d.(log := log)) && LogWritten(old(store.db), d, store.db, d.(log := log))
    {
      hide Represents;
      var puts := EntryPuts(snap, log);
      RepresentsLog(store.db, d);
      var deletes := StaleKeys(snap, snap + |log|, d);
      LogBatch(store.db, d, snap, log, deletes);
      assert Stale(deletes, d, d.(log := log));
      if puts != [] || deletes != [] {
        store.WriteAtomically(puts, deletes);
      } else {
        NothingToWrite(store.db);
      }
    }
  }

  lemma NothingToWrite(db: Db)
    ensures Batch(db, [], []) == db
  {}

  lemma RepresentsLog(db: Db, d: Durable)
    requires Represents(db, d)
    ensures LogAt(db, d)
  {}

  /** The log records after a batch that deletes the stale ones and puts the new ones. */
  lemma LogReplaced(db: Db, d: Durable, snap: nat, log: seq<Entry>, more: Db, deletes: set<string>, i: nat)
    requires LogAt(db, d) && d.snapIndex <= snap && FixedKeysOnly(more.Keys)
    requires LogIndexes(deletes, 1, snap + 1, snap + |log| + 1, Max(snap + |log|, d.LastIndex()) + 1)
    ensures var db' := (db - deletes) + more + Puts(LogPuts(snap, log));
            && (Text(Log(i)) in db' <==> snap < i <= snap + |log|)
            && (Text(Log(i)) in db' ==> db'[Text(Log(i))] == LogRecord(i, log[i - snap - 1]))
  {
    hide Text;
    LogPutsAt(snap, log, i);
    NotAFixedKey(more.Keys, Log(i));
  }

  lemma LogBatch(db: Db, d: Durable, snap: nat, log: seq<Entry>, deletes: seq<string>)
    requires Represents(db, d) && snap == d.snapIndex
    requires LogIndexes(Names(deletes), 1, snap + 1, snap + |log| + 1, Max(snap + |log|, d.LastIndex()) + 1)
    ensures Represents(Batch(db, LogPuts(snap, log), deletes), d.(log := log))
  {
    hide Text, LogAt, CountersAt, SnapshotAt, UserAt, RequestsAt, SameRequests, SameUsers, SameSnapshot, SameCounters;
    LogBatchLog(db, d, snap, log, deletes);
    LogBatchRest(db, snap, log, deletes, d);
    RestKept(db, Batch(db, LogPuts(snap, log), deletes), d, d.(log := log));
  }

  lemma LogBatchLog(db: Db, d: Durable, snap: nat, log: seq<Entry>, deletes: seq<string>)
    requires LogAt(db, d) && snap == d.snapIndex
    requires LogIndexes(Names(deletes), 1, snap + 1, snap + |log| + 1, Max(snap + |log|, d.LastIndex()) + 1)
    ensures LogAt(Batch(db, LogPuts(snap, log), deletes), d.(log := log))
  {
    hide Text, LogIndexes;
    var db' := Batch(db, LogPuts(snap, log), deletes);
    assert (db - Names(deletes)) + map[] + Puts(LogPuts(snap, log)) == db';
    forall i: nat
      ensures Text(Log(i)) in db' <==> snap < i <= snap + |log|
      ensures Text(Log(i)) in db' ==> db'[Text(Log(i))] == LogRecord(i, log[i - snap - 1])
    {
      LogReplaced(db, d, snap, log, map[], Names(deletes), i);
    }
  }

  lemma LogBatchRest(db: Db, snap: nat, log: seq<Entry>, deletes: seq<string>, d: Durable)
    requires LogKeysOnly(Names(deletes))
    ensures var db' := Batch(db, LogPuts(snap, log), deletes);
            SameRequests(db, db') && SameUsers(db, db') && SameSnapshot(db, db') && SameCounters(db, db')
  {
    hide Text;
    var db' := Batch(db, LogPuts(snap, log), deletes);
    LogPutsKeys(snap, log);
    forall k | Legal(k) && !k.Log? ensures SameAt(db, db', Text(k)) {
      NotALogKey(Names(deletes), k);
      NotALogKey(Puts(LogPuts(snap, log)).Keys, k);
    }
    forall x ensures SameAt(db, db', Text(Client(x))) { assert Legal(Client(x)); }
    forall k | !Reserved(k) ensures SameAt(db, db', k) { assert Legal(User(k)) && !User(k).Log?; UserText(k); }
    assert Legal(CurrentTerm) && Legal(VotedFor) && Legal(CommitIndex) && Legal(LastApplied);
    assert Legal(SnapshotMetadata) && Legal(SnapshotData);
  }

  lemma UserText(k: string)
    ensures Text(User(k)) == k
  {}

  lemma CountersKept(db: Db, db': Db, d: Durable, d': Durable)
    requires CountersAt(db, d) && SameCounters(db, db')
    requires d'.term == d.term && d'.vote == d.vote && d'.commit == d.commit && d'.applied == d.applied
    ensures CountersAt(db', d')
  {
    hide Text;
  }

  lemma SnapshotKept(db: Db, db': Db, d: Durable, d': Durable)
    requires SnapshotAt(db, d) && SameSnapshot(db, db')
    requires d'.snapIndex == d.snapIndex && d'.snapTerm == d.snapTerm && d'.snapshot == d.snapshot
    ensures SnapshotAt(db', d')
  {
    hide Text, Parses;
  }

  lemma LogKept(db: Db, db': Db, d: Durable, d': Durable)
    requires LogAt(db, d) && SameLogs(db, db') && d'.snapIndex == d.snapIndex && d'.log == d.log
    ensures LogAt(db', d')
  {
    hide Text;
    forall i: nat
      ensures Text(Log(i)) in db' <==> d.snapIndex < i <= d.LastIndex()
      ensures Text(Log(i)) in db' ==> db'[Text(Log(i))] == LogRecord(i, d.log[i - d.snapIndex - 1])
    {
      assert SameAt(db, db', Text(Log(i)));
    }
  }

  lemma UserKept(db: Db, db': Db, user: map<string, string>)
    requires UserAt(db, user) && SameUsers(db, db')
    ensures UserAt(db', user)
  {
    forall k | !Reserved(k) ensures (k in db' <==> k in user) && (k in db' ==> db'[k] == Bytes(user[k])) {
      assert SameAt(db, db', k);
    }
  }

  lemma RequestsKept(db: Db, db': Db, requests: map<string, Command>)
    requires RequestsAt(db, requests) && SameRequests(db, db')
    ensures RequestsAt(db', requests)
  {
    hide Text;
    forall x ensures (Text(Client(x)) in db' <==> x in requests) &&
                     (Text(Client(x)) in db' ==> db'[Text(Client(x))] == Request(requests[x])) {
      assert SameAt(db, db', Text(Client(x)));
    }
  }

  /** A batch that kept everything but the log keeps the rest of the representation. */
  lemma RestKept(db: Db, db': Db, d: Durable, d': Durable)
    requires Represents(db, d) && d' == d.(log := d'.log)
    requires SameRequests(db, db') && SameUsers(db, db') && SameSnapshot(db, db') && SameCounters(db, db')
    requires LogAt(db', d')
    ensures Represents(db', d')
  {
    hide LogAt, CountersAt, SnapshotAt, UserAt, RequestsAt, SameRequests, SameUsers, SameSnapshot, SameCounters;
    CountersKept(db, db', d, d');
    SnapshotKept(db, db', d, d');
    UserKept(db, db', d.user);
    RequestsKept(db, db', d.requests);
  }

  // ----- progress and snapshot records ------------------------------------------

  function Counters(term: nat, vote: Option<int>, commit: nat, applied: nat, snapIndex: nat, snapTerm: nat)
    : seq<(string, Record)>
  {
    [(Text(CurrentTerm), Number(term)), (Text(VotedFor), VoteRecord(vote)), (Text(CommitIndex), Number(commit)),
     (Text(LastApplied), Number(applied)), (Text(SnapshotIndex), Number(snapIndex)), (Text(SnapshotTerm), Number(snapTerm))]
  }

  function SnapshotPuts(snapIndex: nat, snapTerm: nat, contents: Record): seq<(string, Record)> {
    [(Text(SnapshotMetadata), Metadata(snapIndex, snapTerm)), (Text(SnapshotData), contents)]
  }

  lemma {:induction false} PutsConcat(a: seq<(string, Record)>, b: seq<(string, Record)>)
    ensures Puts(a + b) == Puts(a) + Puts(b)
  {
    if b == [] {
      assert a + b == a;
    } else {
      var down, last := b[..|b| - 1], b[|b| - 1];
      PutsConcat(a, down);
      assert a + b == (a + down) + [(last.0, last.1)] && b == down + [(last.0, last.1)];
      PutsStep(a + down, last.0, last.1);
      PutsStep(down, last.0, last.1);
    }
  }

  lemma PutsTwo(a: string, x: Record, b: string, y: Record)
    ensures Puts([(a, x), (b, y)]) == map[a := x][b := y]
  {
    assert [(a, x), (b, y)] == ([] + [(a, x)]) + [(b, y)];
    PutsStep([], a, x);
    PutsStep([] + [(a, x)], b, y);
  }

  lemma CountersMap(term: nat, vote: Option<int>, commit: nat, applied: nat, snapIndex: nat, snapTerm: nat)
    ensures Puts(Counters(term, vote, commit, applied, snapIndex, snapTerm)) ==
            map[Text(CurrentTerm) := Number(term)][Text(VotedFor) := VoteRecord(vote)] +
            map[Text(CommitIndex) := Number(commit)][Text(LastApplied) := Number(applied)] +
            map[Text(SnapshotIndex) := Number(snapIndex)][Text(SnapshotTerm) := Number(snapTerm)]
  {
    hide Text, Puts;
    var a := [(Text(CurrentTerm), Number(term)), (Text(VotedFor), VoteRecord(vote))];
    var b := [(Text(CommitIndex), Number(commit)), (Text(LastApplied), Number(applied))];
    var c := [(Text(SnapshotIndex), Number(snapIndex)), (Text(SnapshotTerm), Number(snapTerm))];
    assert Counters(term, vote, commit, applied, snapIndex, snapTerm) == (a + b) + c;
    PutsConcat(a, b);
    PutsConcat(a + b, c);
    PutsTwo(a[0].0, a[0].1, a[1].0, a[1].1);
    PutsTwo(b[0].0, b[0].1, b[1].0, b[1].1);
    PutsTwo(c[0].0, c[0].1, c[1].0, c[1].1);
  }

  /** The progress records hold what was put, and only fixed keys were written. */
  lemma CountersLookup(term: nat, vote: Option<int>, commit: nat, applied: nat, snapIndex: nat, snapTerm: nat)
    ensures var m := Puts(Counters(term, vote, commit, applied, snapIndex, snapTerm));
            && m.Keys == {Text(CurrentTerm), Text(VotedFor), Text(CommitIndex), Text(LastApplied),
                          Text(SnapshotIndex), Text(SnapshotTerm)}
            && m[Text(CurrentTerm)] == Number(term) && m[Text(VotedFor)] == VoteRecord(vote)
            && m[Text(CommitIndex)] == Number(commit) && m[Text(LastApplied)] == Number(applied)
  {
    hide Text, Puts, Counters;
    CountersMap(term, vote, commit, applied, snapIndex, snapTerm);
    EightKeys();
  }

  lemma CountersFixed()
    ensures FixedKeysOnly({Text(CurrentTerm), Text(VotedFor), Text(CommitIndex), Text(LastApplied),
                           Text(SnapshotIndex), Text(SnapshotTerm)})
    ensures FixedKeysOnly({Text(SnapshotMetadata), Text(SnapshotData)})
  {
    hide Text;
    assert Fixed(CurrentTerm) && Fixed(VotedFor) && Fixed(CommitIndex) && Fixed(LastApplied);
    assert Fixed(SnapshotIndex) && Fixed(SnapshotTerm) && Fixed(SnapshotMetadata) && Fixed(SnapshotData);
  }

  lemma TextsDiffer(a: Key, b: Key)
    requires Fixed(a) && Fixed(b) && a != b
    ensures Text(a) != Text(b)
  {
    hide Text;
    if Text(a) == Text(b) { FixedDistinct(a, b); }
  }

  lemma DiffersFromFour(k: Key)
    requires Fixed(k) && k !in {SnapshotIndex, SnapshotTerm, SnapshotMetadata, SnapshotData}
    ensures Text(k) !in {Text(SnapshotIndex), Text(SnapshotTerm), Text(SnapshotMetadata), Text(SnapshotData)}
  {
    hide Text;
    TextsDiffer(k, SnapshotIndex);
    TextsDiffer(k, SnapshotTerm);
    TextsDiffer(k, SnapshotMetadata);
    TextsDiffer(k, SnapshotData);
  }

  lemma DiffersFromTwo(k: Key, a: Key, b: Key)
    requires Fixed(k) && Fixed(a) && Fixed(b) && k != a && k != b
    ensures Text(k) !in {Text(a), Text(b)}
  {
    hide Text;
    TextsDiffer(k, a);
    TextsDiffer(k, b);
  }

  /** The eight fixed keys, none equal to another. */
  lemma EightKeys()
    ensures Text(CurrentTerm) != Text(VotedFor) && Text(CommitIndex) != Text(LastApplied)
    ensures Text(SnapshotIndex) != Text(SnapshotTerm) && Text(SnapshotMetadata) != Text(SnapshotData)
    ensures {Text(CurrentTerm), Text(VotedFor)} !! {Text(CommitIndex), Text(LastApplied)}
    ensures {Text(CurrentTerm), Text(VotedFor), Text(CommitIndex), Text(LastApplied)} !!
            {Text(SnapshotIndex), Text(SnapshotTerm), Text(SnapshotMetadata), Text(SnapshotData)}
    ensures {Text(SnapshotIndex), Text(SnapshotTerm)} !! {Text(SnapshotMetadata), Text(SnapshotData)}
  {
    hide Text;
    DiffersFromTwo(CurrentTerm, CommitIndex, LastApplied);
    DiffersFromTwo(VotedFor, CommitIndex, LastApplied);
    DiffersFromTwo(SnapshotIndex, SnapshotMetadata, SnapshotData);
    DiffersFromTwo(SnapshotTerm, SnapshotMetadata, SnapshotData);
    TextsDiffer(CurrentTerm, VotedFor);
    TextsDiffer(CommitIndex, LastApplied);
    TextsDiffer(SnapshotIndex, SnapshotTerm);
    TextsDiffer(SnapshotMetadata, SnapshotData);
    DiffersFromFour(CurrentTerm);
    DiffersFromFour(VotedFor);
    DiffersFromFour(CommitIndex);
    DiffersFromFour(LastApplied);
  }

  lemma FixedRest(db: Db, fixed: Db)
    requires FixedKeysOnly(fixed.Keys)
    ensures SameLogs(db, db + fixed) && SameRequests(db, db + fixed) && SameUsers(db, db + fixed)
  {
    hide Text;
    forall i: nat ensures SameAt(db, db + fixed, Text(Log(i))) { NotAFixedKey(fixed.Keys, Log(i)); }
    forall x ensures SameAt(db, db + fixed, Text(Client(x))) { NotAFixedKey(fixed.Keys, Client(x)); }
    forall k | !Reserved(k) ensures SameAt(db, db + fixed, k) {
      NotAFixedKey(fixed.Keys, User(k));
      UserText(k);
    }
  }

  lemma CountersPut(db: Db, d: Durable, term: nat, vote: Option<int>, commit: nat, applied: nat, snapIndex: nat, snapTerm: nat)
    ensures var m := Puts(Counters(term, vote, commit, applied, snapIndex, snapTerm));
            && CountersAt(db + m, d.(term := term, vote := vote, commit := commit, applied := applied))
            && SameSnapshot(db, db + m) && FixedKeysOnly(m.Keys)
  {
    hide Text, Puts, Counters;
    CountersLookup(term, vote, commit, applied, snapIndex, snapTerm);
    CountersFixed();
    EightKeys();
  }

  lemma CountersBatch(db: Db, d: Durable, term: nat, vote: Option<int>, commit: nat, applied: nat, snapIndex: nat, snapTerm: nat)
    requires Represents(db, d)
    ensures Represents(Batch(db, Counters(term, vote, commit, applied, snapIndex, snapTerm), []),
                       d.(term := term, vote := vote, commit := commit, applied := applied))
  {
    hide Text, LogAt, CountersAt, SnapshotAt, UserAt, RequestsAt, SameRequests, SameUsers, SameLogs, SameSnapshot, Puts, Counters;
    var m := Puts(Counters(term, vote, commit, applied, snapIndex, snapTerm));
    var d' := d.(term := term, vote := vote, commit := commit, applied := applied);
    assert Batch(db, Counters(term, vote, commit, applied, snapIndex, snapTerm), []) == db + m;
    CountersPut(db, d, term, vote, commit, applied, snapIndex, snapTerm);
    FixedRest(db, m);
    SnapshotKept(db, db + m, d, d');
    LogKept(db, db + m, d, d');
    UserKept(db, db + m, d.user);
    RequestsKept(db, db + m, d.requests);
  }

  lemma SnapshotPutsLookup(snapIndex: nat, snapTerm: nat, contents: Record)
    ensures var m := Puts(SnapshotPuts(snapIndex, snapTerm, contents));
            && m.Keys == {Text(SnapshotMetadata), Text(SnapshotData)}
            && m[Text(SnapshotMetadata)] == Metadata(snapIndex, snapTerm) && m[Text(SnapshotData)] == contents
  {
    hide Text, Puts;
    PutsTwo(Text(SnapshotMetadata), Metadata(snapIndex, snapTerm), Text(SnapshotData), contents);
    EightKeys();
  }

  /** The fixed records of a snapshot write. */
  ghost function FixedPart(d: Durable, contents: Record): Db {
    Puts(Counters(d.term, d.vote, d.commit, d.applied, d.snapIndex, d.snapTerm)) +
    Puts(SnapshotPuts(d.snapIndex, d.snapTerm, contents))
  }

  lemma FixedPartKeys(d: Durable, contents: Record)
    ensures FixedKeysOnly(FixedPart(d, contents).Keys)
  {
    hide Text, Puts, Counters, SnapshotPuts;
    CountersLookup(d.term, d.vote, d.commit, d.applied, d.snapIndex, d.snapTerm);
    SnapshotPutsLookup(d.snapIndex, d.snapTerm, contents);
    CountersFixed();
  }

  lemma FixedPartOk(db: Db, d: Durable, contents: Record)
    requires d.snapshot == Some(contents) && d.snapIndex != 0 && d.snapTerm != 0 && Parses(contents)
    ensures CountersAt(db + FixedPart(d, contents), d) && SnapshotAt(db + FixedPart(d, contents), d)
  {
    hide Text, Puts, Counters, SnapshotPuts, Parses;
    CountersLookup(d.term, d.vote, d.commit, d.applied, d.snapIndex, d.snapTerm);
    SnapshotPutsLookup(d.snapIndex, d.snapTerm, contents);
    EightKeys();
  }

  /** Log puts come last and touch no other record. */
  lemma LogPutsRest(db: Db, snap: nat, log: seq<Entry>, d: Durable)
    requires CountersAt(db, d) && SnapshotAt(db, d)
    ensures CountersAt(db + Puts(LogPuts(snap, log)), d) && SnapshotAt(db + Puts(LogPuts(snap, log)), d)
    ensures SameUsers(db, db + Puts(LogPuts(snap, log))) && SameRequests(db, db + Puts(LogPuts(snap, log)))
  {
    hide Text, CountersAt, SnapshotAt, Puts;
    var db' := db + Puts(LogPuts(snap, log));
    assert Batch(db, LogPuts(snap, log), []) == db';
    LogBatchRest(db, snap, log, [], d);
    CountersKept(db, db', d, d);
    SnapshotKept(db, db', d, d);
  }

  lemma LogDeletesRest(db: Db, deletes: set<string>)
    requires LogKeysOnly(deletes)
    ensures SameUsers(db, db - deletes) && SameRequests(db, db - deletes)
  {
    hide Text;
    forall x ensures SameAt(db, db - deletes, Text(Client(x))) { NotALogKey(deletes, Client(x)); }
    forall k | !Reserved(k) ensures SameAt(db, db - deletes, k) {
      NotALogKey(deletes, User(k));
      UserText(k);
    }
  }

  lemma SnapshotBatch(db: Db, d: Durable, d': Durable, contents: Record, deletes: seq<string>)
    requires Represents(db, d) && d.snapIndex <= d'.snapIndex && d'.snapIndex != 0 && d'.snapTerm != 0
    requires d'.snapshot == Some(contents) && Parses(contents) && d'.user == d.user && d'.requests == d.requests
    requires LogIndexes(Names(deletes), 1, d'.snapIndex + 1, d'.LastIndex() + 1, Max(d'.LastIndex(), d.LastIndex()) + 1)
    ensures var fixed := Counters(d'.term, d'.vote, d'.commit, d'.applied, d'.snapIndex, d'.snapTerm) +
                         SnapshotPuts(d'.snapIndex, d'.snapTerm, contents);
            Represents(Batch(db, fixed + LogPuts(d'.snapIndex, d'.log), deletes), d')
  {
    hide Text, CountersAt, SnapshotAt, UserAt, RequestsAt, SameRequests, SameUsers, SameLogs, Puts, Counters, SnapshotPuts, Parses;
    var counters := Counters(d'.term, d'.vote, d'.commit, d'.applied, d'.snapIndex, d'.snapTerm);
    var fixed := counters + SnapshotPuts(d'.snapIndex, d'.snapTerm, contents);
    PutsConcat(counters, SnapshotPuts(d'.snapIndex, d'.snapTerm, contents));
    PutsConcat(fixed, LogPuts(d'.snapIndex, d'.log));
    var db1 := db - Names(deletes);
    var db2 := db1 + FixedPart(d', contents);
    var db3 := db2 + Puts(LogPuts(d'.snapIndex, d'.log));
    assert Batch(db, fixed + LogPuts(d'.snapIndex, d'.log), deletes) == db3;
    FixedPartKeys(d', contents);
    FixedPartOk(db1, d', contents);
    LogPutsRest(db2, d'.snapIndex, d'.log, d');
    LogDeletesRest(db, Names(deletes));
    FixedRest(db1, FixedPart(d', contents));
    UserKept(db, db1, d.user);
    UserKept(db1, db2, d.user);
    UserKept(db2, db3, d.user);
    RequestsKept(db, db1, d.requests);
    RequestsKept(db1, db2, d.requests);
    RequestsKept(db2, db3, d.requests);
    SnapshotBatchLog(db, d, d', FixedPart(d', contents), Names(deletes));
  }

  lemma SnapshotBatchLog(db: Db, d: Durable, d': Durable, fixed: Db, deletes: set<string>)
    requires LogAt(db, d) && d.snapIndex <= d'.snapIndex && FixedKeysOnly(fixed.Keys)
    requires LogIndexes(deletes, 1, d'.snapIndex + 1, d'.LastIndex() + 1, Max(d'.LastIndex(), d.LastIndex()) + 1)
    ensures LogAt((db - deletes) + fixed + Puts(LogPuts(d'.snapIndex, d'.log)), d')
  {
    hide Text, LogIndexes, Puts;
    var db' := (db - deletes) + fixed + Puts(LogPuts(d'.snapIndex, d'.log));
    forall i: nat
      ensures Text(Log(i)) in db' <==> d'.snapIndex < i <= d'.LastIndex()
      ensures Text(Log(i)) in db' ==> db'[Text(Log(i))] == LogRecord(i, d'.log[i - d'.snapIndex - 1])
    {
      LogReplaced(db, d, d'.snapIndex, d'.log, fixed, deletes, i);
    }
  }

  // ----- snapshot contents ------------------------------------------------------

  /** The checks of ParseSnapshotState, with its two sets of keys seen. */
  method ParseSnapshotState(r: Record) returns (ok: bool)
    ensures ok <==> Parses(r)
  {
    if !r.Contents? {
      return false;
    }
    var seen: set<string> := {};
    for i := 0 to |r.entries|
      invariant seen == set j | 0 <= j < i :: r.entries[j].0
      invariant forall a, b :: 0 <= a < b < i ==> r.entries[a].0 != r.entries[b].0
      invariant forall a :: 0 <= a < i ==> !Reserved(r.entries[a].0) && r.entries[a].1.Bytes?
    {
      if Reserved(r.entries[i].0) || r.entries[i].0 in seen || !r.entries[i].1.Bytes? {
        return false;
      }
      seen := seen + {r.entries[i].0};
    }
    ok := ParseRequests(r.requests);
  }

  method ParseRequests(requests: seq<(string, Record)>) returns (ok: bool)
    ensures ok <==> DistinctKeys(requests) && forall i :: 0 <= i < |requests| ==> '/' in requests[i].0 && requests[i].1.Request?
  {
    var seen: set<string> := {};
    for i := 0 to |requests|
      invariant seen == set j | 0 <= j < i :: requests[j].0
      invariant forall a, b :: 0 <= a < b < i ==> requests[a].0 != requests[b].0
      invariant forall a :: 0 <= a < i ==> '/' in requests[a].0 && requests[a].1.Request?
    {
      if '/' !in requests[i].0 || requests[i].0 in seen || !requests[i].1.Request? {
        return false;
      }
      seen := seen + {requests[i].0};
    }
    ok := true;
  }

  ghost predicate ListsUsers(pairs: seq<(string, Record)>, user: map<string, string>) {
    && DistinctKeys(pairs)
    && (forall i :: 0 <= i < |pairs| ==> !Reserved(pairs[i].0) && pairs[i].0 in user && pairs[i].1 == Bytes(user[pairs[i].0]))
    && (forall k :: k in user ==> exists i :: 0 <= i < |pairs| && pairs[i].0 == k)
  }

  ghost predicate ListsRequests(pairs: seq<(string, Record)>, requests: map<string, Command>) {
    && DistinctKeys(pairs)
    && (forall i :: 0 <= i < |pairs| ==> '/' in pairs[i].0 && pairs[i].0 in requests && pairs[i].1 == Request(requests[pairs[i].0]))
    && (forall k :: k in requests ==> exists i :: 0 <= i < |pairs| && pairs[i].0 == k)
  }

  /** The contents list exactly these user entries and this request table. */
  ghost predicate Holds(r: Record, user: map<string, string>, requests: map<string, Command>) {
    r.Contents? && ListsUsers(r.entries, user) && ListsRequests(r.requests, requests)
  }

  lemma HeldParses(r: Record, user: map<string, string>, requests: map<string, Command>)
    requires Holds(r, user, requests)
    ensures Parses(r)
  {}

  /** A snapshot's contents determine what is installed: two stores that agree with the same
      contents hold the same user entries and the same request table. */
  lemma ContentsDetermine(r: Record, user: map<string, string>, requests: map<string, Command>,
                          user': map<string, string>, requests': map<string, Command>)
    requires Holds(r, user, requests) && Holds(r, user', requests')
    ensures user == user' && requests == requests'
  {
    forall k ensures k in user <==> k in user' {
      if k in user { var i :| 0 <= i < |r.entries| && r.entries[i].0 == k; }
      if k in user' { var i :| 0 <= i < |r.entries| && r.entries[i].0 == k; }
    }
    forall k | k in user ensures user[k] == user'[k] {
      var i :| 0 <= i < |r.entries| && r.entries[i].0 == k;
    }
    forall x ensures x in requests <==> x in requests' {
      if x in requests { var i :| 0 <= i < |r.requests| && r.requests[i].0 == x; }
      if x in requests' { var i :| 0 <= i < |r.requests| && r.requests[i].0 == x; }
    }
    forall x | x in requests ensures requests[x] == requests'[x] {
      var i :| 0 <= i < |r.requests| && r.requests[i].0 == x;
    }
  }

  lemma RepresentsTables(db: Db, d: Durable)
    requires Represents(db, d)
    ensures UserAt(db, d.user) && RequestsAt(db, d.requests)
  {}

  lemma UserScanLists(pairs: seq<(string, Record)>, db: Db, user: map<string, string>)
    requires UserScanOf(pairs, db) && UserAt(db, user)
    ensures ListsUsers(pairs, user)
  {
    forall k | k in user ensures exists i :: 0 <= i < |pairs| && pairs[i].0 == k {
      assert k in db && !Reserved(k);
    }
  }

  lemma ClientKey(x: string)
    ensures Text(Client(x)) == CLIENT_PREFIX + x && Text(Client(x))[|CLIENT_PREFIX|..] == x
    ensures CLIENT_PREFIX <= Text(Client(x))
  {}

  lemma CutPrefix(found: seq<(string, Record)>, pairs: seq<(string, Record)>, db: Db, requests: map<string, Command>)
    requires ScanOf(found, db, CLIENT_PREFIX) && RequestsAt(db, requests) && |pairs| == |found|
    requires forall j :: 0 <= j < |found| ==> found[j].0 == Text(Client(pairs[j].0)) && pairs[j].1 == found[j].1
    ensures ListsRequests(pairs, requests)
  {
    hide Text;
    forall i | 0 <= i < |pairs|
      ensures pairs[i].0 in requests && '/' in pairs[i].0 && pairs[i].1 == Request(requests[pairs[i].0])
    {
      assert found[i].0 in db && found[i].1 == db[found[i].0];
      assert Text(Client(pairs[i].0)) in db;
    }
    forall k | k in requests ensures exists i :: 0 <= i < |pairs| && pairs[i].0 == k {
      assert Text(Client(k)) in db;
      ClientKey(k);
      var i :| 0 <= i < |found| && found[i].0 == Text(Client(k));
      ClientKey(pairs[i].0);
    }
    assert DistinctKeys(pairs);
  }

  function Firsts(pairs: seq<(string, Record)>): (r: seq<string>)
    ensures |r| == |pairs| && forall i :: 0 <= i < |r| ==> r[i] == pairs[i].0
  {
    seq(|pairs|, i requires 0 <= i < |pairs| => pairs[i].0)
  }

  function Prefixed(pairs: seq<(string, Record)>): (r: seq<(string, Record)>)
    ensures |r| == |pairs| && forall i :: 0 <= i < |r| ==> r[i] == (CLIENT_PREFIX + pairs[i].0, pairs[i].1)
  {
    seq(|pairs|, i requires 0 <= i < |pairs| => (CLIENT_PREFIX + pairs[i].0, pairs[i].1))
  }

  // ----- installing a snapshot --------------------------------------------------

  lemma {:induction false} PutsDistinct(pairs: seq<(string, Record)>)
    requires DistinctKeys(pairs)
    ensures forall i :: 0 <= i < |pairs| ==> pairs[i].0 in Puts(pairs) && Puts(pairs)[pairs[i].0] == pairs[i].1
    ensures forall k :: k in Puts(pairs) ==> exists i :: 0 <= i < |pairs| && pairs[i].0 == k
  {
    if pairs != [] {
      var down := pairs[..|pairs| - 1];
      PutsDistinct(down);
      assert forall i :: 0 <= i < |down| ==> down[i] == pairs[i];
      forall k | k in Puts(pairs) ensures exists i :: 0 <= i < |pairs| && pairs[i].0 == k {
        if k in Puts(down) {
          var i :| 0 <= i < |down| && down[i].0 == k;
          assert pairs[i].0 == k;
        } else {
          assert pairs[|pairs| - 1].0 == k;
        }
      }
    }
  }

  lemma UserPuts(entries: seq<(string, Record)>, user: map<string, string>)
    requires ListsUsers(entries, user)
    ensures Puts(entries).Keys == user.Keys
    ensures forall k :: k in user ==> !Reserved(k) && Puts(entries)[k] == Bytes(user[k])
  {
    PutsDistinct(entries);
    forall k | k in user ensures k in Puts(entries) && !Reserved(k) && Puts(entries)[k] == Bytes(user[k]) {
      var i :| 0 <= i < |entries| && entries[i].0 == k;
    }
  }

  lemma RequestPuts(pairs: seq<(string, Record)>, requests: map<string, Command>)
    requires ListsRequests(pairs, requests)
    ensures forall x :: Text(Client(x)) in Puts(Prefixed(pairs)) <==> x in requests
    ensures forall x :: x in requests ==> '/' in x && Puts(Prefixed(pairs))[Text(Client(x))] == Request(requests[x])
    ensures ClientKeysOnly(Puts(Prefixed(pairs)).Keys)
  {
    hide Text, Puts;
    var r := Prefixed(pairs);
    forall i | 0 <= i < |r| ensures r[i].0 == Text(Client(pairs[i].0)) { ClientKey(pairs[i].0); }
    forall i, j | 0 <= i < j < |r| ensures r[i].0 != r[j].0 { ClientKey(pairs[i].0); ClientKey(pairs[j].0); }
    PutsDistinct(r);
    forall x ensures Text(Client(x)) in Puts(r) <==> x in requests {
      if Text(Client(x)) in Puts(r) {
        var i :| 0 <= i < |r| && r[i].0 == Text(Client(x));
        ClientKey(x);
        ClientKey(pairs[i].0);
      }
      if x in requests {
        var i :| 0 <= i < |pairs| && pairs[i].0 == x;
        assert r[i].0 == Text(Client(x));
      }
    }
    forall x | x in requests ensures '/' in x && Puts(r)[Text(Client(x))] == Request(requests[x]) {
      var i :| 0 <= i < |pairs| && pairs[i].0 == x;
      assert r[i].0 == Text(Client(x)) && r[i].1 == pairs[i].1;
    }
  }

  ghost predicate ClientKeysOnly(keys: set<string>) {
    forall s :: s in keys ==> exists x :: s == Text(Client(x))
  }

  lemma NotAClientKey(keys: set<string>, k: Key)
    requires ClientKeysOnly(keys) && Legal(k) && !k.Client?
    ensures Text(k) !in keys
  {
    if Text(k) in keys {
      var x :| Text(k) == Text(Client(x));
      TextInjective(k, Client(x));
    }
  }

  lemma NotAUserKey(keys: set<string>, k: Key)
    requires (forall s :: s in keys ==> !Reserved(s)) && !k.User?
    ensures Text(k) !in keys
  {
    TextReserved(k);
  }

  lemma UserPutsRest(db: Db, m: Db)
    requires forall s :: s in m ==> !Reserved(s)
    ensures SameLogs(db, db + m) && SameRequests(db, db + m) && SameSnapshot(db, db + m) && SameCounters(db, db + m)
  {
    hide Text;
    forall i: nat ensures SameAt(db, db + m, Text(Log(i))) { NotAUserKey(m.Keys, Log(i)); }
    forall x ensures SameAt(db, db + m, Text(Client(x))) { NotAUserKey(m.Keys, Client(x)); }
    forall k | Fixed(k) ensures SameAt(db, db + m, Text(k)) { NotAUserKey(m.Keys, k); }
    FixedFour();
  }

  lemma ClientPutsRest(db: Db, m: Db)
    requires ClientKeysOnly(m.Keys)
    ensures SameLogs(db, db + m) && SameUsers(db, db + m) && SameSnapshot(db, db + m) && SameCounters(db, db + m)
  {
    hide Text;
    forall i: nat ensures SameAt(db, db + m, Text(Log(i))) { NotAClientKey(m.Keys, Log(i)); }
    forall k | !Reserved(k) ensures SameAt(db, db + m, k) { NotAClientKey(m.Keys, User(k)); UserText(k); }
    forall k | Fixed(k) ensures SameAt(db, db + m, Text(k)) { NotAClientKey(m.Keys, k); }
    FixedFour();
  }

  lemma FixedFour()
    ensures Fixed(CurrentTerm) && Fixed(VotedFor) && Fixed(CommitIndex) && Fixed(LastApplied)
    ensures Fixed(SnapshotMetadata) && Fixed(SnapshotData)
  {}

  /** No user entry, request record or log record is left. */
  ghost predicate Wiped(db: Db) {
    (forall k :: !Reserved(k) ==> k !in db) && (forall x :: Text(Client(x)) !in db) && (forall i: nat :: Text(Log(i)) !in db)
  }

  lemma InFirsts(pairs: seq<(string, Record)>, k: string)
    requires exists i :: 0 <= i < |pairs| && pairs[i].0 == k
    ensures k in Firsts(pairs)
  {
    var i :| 0 <= i < |pairs| && pairs[i].0 == k;
    assert Firsts(pairs)[i] == k;
  }

  lemma WipedClean(db: Db, users: seq<(string, Record)>, clients: seq<(string, Record)>, logs: seq<(string, Record)>)
    requires UserScanOf(users, db) && ScanOf(clients, db, CLIENT_PREFIX) && ScanOf(logs, db, LOG_PREFIX)
    ensures Wipes(db, Firsts(users) + Firsts(clients) + Firsts(logs))
  {
    hide Text;
    var gone := Firsts(users) + Firsts(clients) + Firsts(logs);
    forall k | !Reserved(k) && k in db ensures k in Names(gone) { InFirsts(users, k); }
    forall x | Text(Client(x)) in db ensures Text(Client(x)) in Names(gone) {
      ClientKey(x);
      InFirsts(clients, Text(Client(x)));
    }
    forall i: nat | Text(Log(i)) in db ensures Text(Log(i)) in Names(gone) {
      LogText(i);
      InFirsts(logs, Text(Log(i)));
    }
  }

  lemma InstallUsers(db: Db, entries: seq<(string, Record)>, user: map<string, string>)
    requires ListsUsers(entries, user) && forall k :: !Reserved(k) ==> k !in db
    ensures UserAt(db + Puts(entries), user)
  {
    hide Puts, ListsUsers;
    UserPuts(entries, user);
  }

  lemma InstallRequests(db: Db, pairs: seq<(string, Record)>, requests: map<string, Command>)
    requires ListsRequests(pairs, requests) && forall x :: Text(Client(x)) !in db
    ensures RequestsAt(db + Puts(Prefixed(pairs)), requests)
  {
    hide Text, Puts, ListsRequests;
    RequestPuts(pairs, requests);
  }

  lemma InstallLog(db: Db, d: Durable)
    requires forall i: nat :: Text(Log(i)) !in db
    ensures LogAt(db + Puts(LogPuts(d.snapIndex, d.log)), d)
  {
    hide Text, Puts;
    var db' := db + Puts(LogPuts(d.snapIndex, d.log));
    forall i: nat
      ensures Text(Log(i)) in db' <==> d.snapIndex < i <= d.LastIndex()
      ensures Text(Log(i)) in db' ==> db'[Text(Log(i))] == LogRecord(i, d.log[i - d.snapIndex - 1])
    {
      LogPutsAt(d.snapIndex, d.log, i);
    }
  }

  lemma InstallBatch(db: Db, d': Durable, contents: Record, deletes: seq<string>)
    requires Wiped(db - Names(deletes)) && d'.snapIndex != 0 && d'.snapTerm != 0 && d'.snapshot == Some(contents)
    requires Holds(contents, d'.user, d'.requests) && Parses(contents)
    ensures var fixed := Counters(d'.term, d'.vote, d'.commit, d'.applied, d'.snapIndex, d'.snapTerm) +
                         SnapshotPuts(d'.snapIndex, d'.snapTerm, contents);
            Represents(Batch(db, fixed + contents.entries + Prefixed(contents.requests) + LogPuts(d'.snapIndex, d'.log), deletes), d')
  {
    hide Text, CountersAt, SnapshotAt, UserAt, RequestsAt, LogAt, SameRequests, SameUsers, SameLogs, SameSnapshot, SameCounters;
    hide Puts, Counters, SnapshotPuts, Parses, ListsUsers, ListsRequests, Wiped;
    var db1 := db - Names(deletes);
    var db2 := db1 + FixedPart(d', contents);
    var db3 := db2 + Puts(contents.entries);
    var db4 := db3 + Puts(Prefixed(contents.requests));
    var db5 := db4 + Puts(LogPuts(d'.snapIndex, d'.log));
    InstallPuts(db, d', contents, deletes, db5);
    FixedPartKeys(d', contents);
    FixedPartOk(db1, d', contents);
    FixedRest(db1, FixedPart(d', contents));
    WipedKept(db1, db2);
    UserPuts(contents.entries, d'.user);
    UserPutsRest(db2, Puts(contents.entries));
    WipedRest(db2, db3);
    InstallUsers(db2, contents.entries, d'.user);
    RequestPuts(contents.requests, d'.requests);
    ClientPutsRest(db3, Puts(Prefixed(contents.requests)));
    InstallRequests(db3, contents.requests, d'.requests);
    WipedLogs(db3, db4);
    InstallLog(db4, d');
    CountersKept(db2, db3, d', d');
    CountersKept(db3, db4, d', d');
    SnapshotKept(db2, db3, d', d');
    SnapshotKept(db3, db4, d', d');
    LogPutsRest(db4, d'.snapIndex, d'.log, d');
    UserKept(db3, db4, d'.user);
    UserKept(db4, db5, d'.user);
    RequestsKept(db4, db5, d'.requests);
  }

  lemma InstallPuts(db: Db, d': Durable, contents: Record, deletes: seq<string>, db5: Db)
    requires contents.Contents?
    requires db5 == db - Names(deletes) + FixedPart(d', contents) + Puts(contents.entries) +
                    Puts(Prefixed(contents.requests)) + Puts(LogPuts(d'.snapIndex, d'.log))
    ensures var fixed := Counters(d'.term, d'.vote, d'.commit, d'.applied, d'.snapIndex, d'.snapTerm) +
                         SnapshotPuts(d'.snapIndex, d'.snapTerm, contents);
            Batch(db, fixed + contents.entries + Prefixed(contents.requests) + LogPuts(d'.snapIndex, d'.log), deletes) == db5
  {
    hide Puts, Counters, SnapshotPuts, Text;
    var counters := Counters(d'.term, d'.vote, d'.commit, d'.applied, d'.snapIndex, d'.snapTerm);
    var fixed := counters + SnapshotPuts(d'.snapIndex, d'.snapTerm, contents);
    PutsConcat(counters, SnapshotPuts(d'.snapIndex, d'.snapTerm, contents));
    PutsConcat(fixed, contents.entries);
    PutsConcat(fixed + contents.entries, Prefixed(contents.requests));
    PutsConcat(fixed + contents.entries + Prefixed(contents.requests), LogPuts(d'.snapIndex, d'.log));
    var base, f, e := db - Names(deletes), FixedPart(d', contents), Puts(contents.entries);
    var r, l := Puts(Prefixed(contents.requests)), Puts(LogPuts(d'.snapIndex, d'.log));
    PlusAssociates(base, f + e + r, l);
    PlusAssociates(base, f + e, r);
    PlusAssociates(base, f, e);
  }

  lemma PlusAssociates(a: Db, b: Db, c: Db)
    ensures a + (b + c) == (a + b) + c
  {}

  lemma WipedKept(db: Db, db': Db)
    requires Wiped(db) && SameLogs(db, db') && SameRequests(db, db') && SameUsers(db, db')
    ensures Wiped(db')
  {
    hide Text;
    forall k | !Reserved(k) ensures k !in db' { assert SameAt(db, db', k); }
    forall x ensures Text(Client(x)) !in db' { assert SameAt(db, db', Text(Client(x))); }
    forall i: nat ensures Text(Log(i)) !in db' { assert SameAt(db, db', Text(Log(i))); }
  }

  lemma WipedRest(db: Db, db': Db)
    requires Wiped(db) && SameLogs(db, db') && SameRequests(db, db')
    ensures (forall x :: Text(Client(x)) !in db') && (forall i: nat :: Text(Log(i)) !in db')
    ensures forall k :: !Reserved(k) ==> k !in db
  {
    hide Text;
    forall x ensures Text(Client(x)) !in db' { assert SameAt(db, db', Text(Client(x))); }
    forall i: nat ensures Text(Log(i)) !in db' { assert SameAt(db, db', Text(Log(i))); }
  }

  lemma WipedLogs(db: Db, db': Db)
    requires SameLogs(db, db') && forall i: nat :: Text(Log(i)) !in db
    ensures forall i: nat :: Text(Log(i)) !in db'
  {
    hide Text;
    forall i: nat ensures Text(Log(i)) !in db' { assert SameAt(db, db', Text(Log(i))); }
  }
}
