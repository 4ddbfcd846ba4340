/** CommandApplier: one committed command, one atomic batch. */
module Applier {
  import opened Commands
  import opened Keys
  import opened Database
  import opened Persistence

  /** The request table by record suffix is the table by request id. */
  ghost predicate TableOf(requests: map<string, Command>, dedup: map<(nat, nat), Command>) {
    && (forall id :: id in dedup <==> Suffix(id) in requests)
    && (forall id :: id in dedup ==> requests[Suffix(id)] == dedup[id])
    && (forall x :: x in requests ==> exists id :: id in dedup && x == Suffix(id))
  }

  /** The database holds this state. */
  ghost predicate StateAt(d: Durable, s: State) { d.user == s.user && TableOf(d.requests, s.dedup) }

  /** The durable state after one applied command. */
  ghost function Applied(d: Durable, s: State, c: Command, index: nat, commit: nat): Durable {
    var d1 := d.(commit := commit, applied := index);
    if Judge(s, c) != Fresh then d1
    else d1.(user := Write(s.user, c), requests := if c.HasId() then d.requests[Suffix(c.Id()) := c] else d.requests)
  }

  lemma TableStep(requests: map<string, Command>, dedup: map<(nat, nat), Command>, c: Command)
    requires TableOf(requests, dedup)
    ensures TableOf(requests[Suffix(c.Id()) := c], dedup[c.Id() := c])
  {
    hide Suffix;
    forall id ensures id in dedup[c.Id() := c] <==> Suffix(id) in requests[Suffix(c.Id()) := c] {
      if Suffix(id) == Suffix(c.Id()) { SuffixInjective(id, c.Id()); }
    }
    forall id | id in dedup[c.Id() := c]
      ensures requests[Suffix(c.Id()) := c][Suffix(id)] == dedup[c.Id() := c][id]
    {
      if Suffix(id) == Suffix(c.Id()) { SuffixInjective(id, c.Id()); }
    }
    var after, table := requests[Suffix(c.Id()) := c], dedup[c.Id() := c];
    forall x | x in after ensures exists id :: id in table && x == Suffix(id) {
      if x == Suffix(c.Id()) {
        assert c.Id() in table;
      } else {
        var id :| id in dedup && x == Suffix(id);
        assert id in table;
      }
    }
  }

  /** One command's batch performs Execute on the state the database holds. */
  lemma AppliedState(d: Durable, s: State, c: Command, index: nat, commit: nat)
    requires StateAt(d, s)
    ensures StateAt(Applied(d, s, c, index, commit), Execute(s, c))
  {
    hide TableOf;
    if Judge(s, c) == Fresh && c.HasId() { TableStep(d.requests, s.dedup, c); }
  }

  // ----- the batch --------------------------------------------------------------

  function Progress(commit: nat, index: nat): seq<(string, Record)> {
    [(Text(CommitIndex), Number(commit)), (Text(LastApplied), Number(index))]
  }

  lemma ProgressBatch(db: Db, d: Durable, commit: nat, index: nat)
    requires Represents(db, d)
    ensures Represents(db + Puts(Progress(commit, index)), d.(commit := commit, applied := index))
    ensures Puts(Progress(commit, index)).Keys == {Text(CommitIndex), Text(LastApplied)}
  {
    hide Text, LogAt, SnapshotAt, UserAt, RequestsAt, SameRequests, SameUsers, SameLogs, Puts;
    PutsTwo(Text(CommitIndex), Number(commit), Text(LastApplied), Number(index));
    EightKeys();
    var m := Puts(Progress(commit, index));
    var d' := d.(commit := commit, applied := index);
    assert FixedKeysOnly(m.Keys) by { FixedFour(); }
    FixedRest(db, m);
    SnapshotKept(db, db + m, d, d');
    LogKept(db, db + m, d, d');
    UserKept(db, db + m, d.user);
    RequestsKept(db, db + m, d.requests);
  }

  lemma UserWrite(db: Db, d: Durable, c: Command)
    requires Represents(db, d) && !Reserved(c.key)
    ensures c.kind == Put ==> Represents(db[c.key := Bytes(c.value)], d.(user := Write(d.user, c)))
    ensures c.kind == Delete ==> Represents(db - {c.key}, d.(user := Write(d.user, c)))
  {
    hide Text, CountersAt, SnapshotAt, LogAt, RequestsAt, SameRequests, SameLogs, SameSnapshot, SameCounters;
    var d' := d.(user := Write(d.user, c));
    if c.kind == Put {
      var m := map[c.key := Bytes(c.value)];
      assert db[c.key := Bytes(c.value)] == db + m;
      UserPutsRest(db, m);
      OthersKept(db, db + m, d, d');
    } else if c.kind == Delete {
      UserDeleteRest(db, c.key);
      OthersKept(db, db - {c.key}, d, d');
    }
  }

  lemma UserDeleteRest(db: Db, key: string)
    requires !Reserved(key)
    ensures SameLogs(db, db - {key}) && SameRequests(db, db - {key}) && SameSnapshot(db, db - {key}) && SameCounters(db, db - {key})
  {
    hide Text;
    forall i: nat ensures SameAt(db, db - {key}, Text(Log(i))) { NotAUserKey({key}, Log(i)); }
    forall x ensures SameAt(db, db - {key}, Text(Client(x))) { NotAUserKey({key}, Client(x)); }
    forall k | Fixed(k) ensures SameAt(db, db - {key}, Text(k)) { NotAUserKey({key}, k); }
    FixedFour();
  }

  lemma OthersKept(db: Db, db': Db, d: Durable, d': Durable)
    requires Represents(db, d) && d' == d.(user := d'.user) && UserAt(db', d'.user)
    requires SameLogs(db, db') && SameRequests(db, db') && SameSnapshot(db, db') && SameCounters(db, db')
    ensures Represents(db', d')
  {
    hide CountersAt, SnapshotAt, LogAt, UserAt, RequestsAt, SameRequests, SameLogs, SameSnapshot, SameCounters;
    CountersKept(db, db', d, d');
    SnapshotKept(db, db', d, d');
    LogKept(db, db', d, d');
    RequestsKept(db, db', d.requests);
  }

  lemma RequestWrite(db: Db, d: Durable, c: Command)
    requires Represents(db, d)
    ensures Represents(db[Text(Client(Suffix(c.Id()))) := Request(c)], d.(requests := d.requests[Suffix(c.Id()) := c]))
  {
    hide Text, CountersAt, SnapshotAt, LogAt, UserAt, SameUsers, SameLogs, SameSnapshot, SameCounters, Suffix;
    var x := Suffix(c.Id());
    var m := map[Text(Client(x)) := Request(c)];
    var d' := d.(requests := d.requests[x := c]);
    assert db[Text(Client(x)) := Request(c)] == db + m;
    assert ClientKeysOnly(m.Keys);
    ClientPutsRest(db, m);
    assert RequestsAt(db + m, d'.requests) by { RequestAdded(db, d.requests, x, c); SlashInSuffix(c.Id()); }
    CountersKept(db, db + m, d, d');
    SnapshotKept(db, db + m, d, d');
    LogKept(db, db + m, d, d');
    UserKept(db, db + m, d.user);
  }

  lemma SlashInSuffix(id: (nat, nat))
    ensures '/' in Suffix(id)
  {
    assert Suffix(id)[|Decimal(id.0)|] == '/';
  }

  lemma RequestAdded(db: Db, requests: map<string, Command>, x: string, c: Command)
    requires RequestsAt(db, requests)
    ensures forall y :: (Text(Client(y)) in db[Text(Client(x)) := Request(c)] <==> y in requests[x := c]) &&
                        (Text(Client(y)) in db[Text(Client(x)) := Request(c)] ==>
                           db[Text(Client(x)) := Request(c)][Text(Client(y))] == Request(requests[x := c][y]))
  {
    hide Text;
    var db' := db[Text(Client(x)) := Request(c)];
    forall y ensures (Text(Client(y)) in db' <==> y in requests[x := c]) &&
                     (Text(Client(y)) in db' ==> db'[Text(Client(y))] == Request(requests[x := c][y])) {
      if Text(Client(y)) == Text(Client(x)) { TextInjective(Client(y), Client(x)); }
    }
  }

  // ----- one command ------------------------------------------------------------

  function FreshPuts(c: Command, index: nat, commit: nat): seq<(string, Record)> {
    Progress(commit, index) +
    (if c.kind == Put then [(c.key, Bytes(c.value))] else []) +
    (if c.HasId() then [(Text(Client(Suffix(c.Id()))), Request(c))] else [])
  }

  lemma FreshBatch(db: Db, c: Command, index: nat, commit: nat)
    requires c.kind == Put || c.kind == Delete
    ensures var db1 := (if c.kind == Delete then db - {c.key} else db) + Puts(Progress(commit, index));
            var db2 := if c.kind == Put then db1[c.key := Bytes(c.value)] else db1;
            var db3 := if c.HasId() then db2[Text(Client(Suffix(c.Id()))) := Request(c)] else db2;
            Batch(db, FreshPuts(c, index, commit), if c.kind == Delete then [c.key] else []) == db3
  {
    hide Text, Suffix, Puts, Progress;
    var p := Progress(commit, index);
    var request := Text(Client(Suffix(c.Id())));
    PutsStep(p, c.key, Bytes(c.value));
    PutsStep(p, request, Request(c));
    PutsStep(p + [(c.key, Bytes(c.value))], request, Request(c));
    assert p + [] + [] == p && p + [] + [(request, Request(c))] == p + [(request, Request(c))];
    assert p + [(c.key, Bytes(c.value))] + [] == p + [(c.key, Bytes(c.value))];
  }

  lemma FreshApplied(db: Db, d: Durable, s: State, c: Command, index: nat, commit: nat)
    requires Represents(db, d) && d.user == s.user && Judge(s, c) == Fresh
    ensures Represents(Batch(db, FreshPuts(c, index, commit), if c.kind == Delete then [c.key] else []),
                       Applied(d, s, c, index, commit))
  {
    hide Represents, Text, Suffix, Puts, Progress, FreshPuts;
    FreshBatch(db, c, index, commit);
    var db1, d1 := db + Puts(Progress(commit, index)), d.(commit := commit, applied := index);
    if c.kind == Put {
      ProgressBatch(db, d, commit, index);
      UserWrite(db1, d1, c);
      RequestWrite(db1[c.key := Bytes(c.value)], d1.(user := Write(d.user, c)), c);
    } else {
      UserWrite(db, d, c);
      var d2 := d.(user := Write(d.user, c));
      ProgressBatch(db - {c.key}, d2, commit, index);
      RequestWrite(db - {c.key} + Puts(Progress(commit, index)), d2.(commit := commit, applied := index), c);
    }
  }

  predicate IsRequestOf(key: string, c: Command) { c.HasId() && key == Text(Client(Suffix(c.Id()))) }

  /** The batch of one applied command. */
  ghost predicate CommandWritten(db: Db, d: Durable, db': Db, d': Durable, s: State, c: Command, index: nat, commit: nat) {
    StateAt(d, s) && Applicable(s, c) && d' == Applied(d, s, c, index, commit) &&
    db' == if Judge(s, c) == Duplicate then Batch(db, Progress(commit, index), [])
           else Batch(db, FreshPuts(c, index, commit), if c.kind == Delete then [c.key] else [])
  }

  lemma CommandRepresents(db: Db, d: Durable, db': Db, d': Durable, s: State, c: Command, index: nat, commit: nat)
    requires Represents(db, d) && CommandWritten(db, d, db', d', s, c, index, commit)
    ensures Represents(db', d')
  {
    hide Represents, Progress, FreshPuts, StateAt, Puts;
    if Judge(s, c) == Duplicate {
      ProgressBatch(db, d, commit, index);
      assert Batch(db, Progress(commit, index), []) == db + Puts(Progress(commit, index));
    } else {
      assert d.user == s.user by { SameUser(d, s); }
      FreshApplied(db, d, s, c, index, commit);
    }
  }

  lemma SameUser(d: Durable, s: State)
    requires StateAt(d, s)
    ensures d.user == s.user
  {}

  /** Of the reserved records a command touches only the progress and its own request. */
  ghost predicate LeavesReserved(db: Db, db': Db, c: Command) {
    forall k :: Reserved(k) && k != Text(CommitIndex) && k != Text(LastApplied) && !IsRequestOf(k, c) ==> SameAt(db, db', k)
  }

  lemma FreshLeaves(db: Db, c: Command, index: nat, commit: nat)
    requires !Reserved(c.key) && (c.kind == Put || c.kind == Delete)
    ensures LeavesReserved(db, Batch(db, FreshPuts(c, index, commit), if c.kind == Delete then [c.key] else []), c)
  {
    hide Text, Suffix, Puts;
    FreshBatch(db, c, index, commit);
    PutsTwo(Text(CommitIndex), Number(commit), Text(LastApplied), Number(index));
  }

  /** Every user entry but this key's is as before. */
  ghost predicate OtherUsersKept(db: Db, db': Db, key: string) {
    forall k :: !Reserved(k) && k != key ==> SameAt(db, db', k)
  }

  /** What a command that is not a repetition does to the records: the value under its key or
      no record there, its request recorded, every other user entry as before. */
  ghost predicate TakesEffect(db: Db, db': Db, c: Command) {
    && (c.kind == Put ==> c.key in db' && db'[c.key] == Bytes(c.value))
    && (c.kind == Delete ==> c.key !in db')
    && (c.HasId() ==> var r := Text(Client(Suffix(c.Id()))); r in db' && db'[r] == Request(c))
    && OtherUsersKept(db, db', c.key)
  }

  lemma FreshTakesEffect(db: Db, c: Command, index: nat, commit: nat)
    requires !Reserved(c.key) && (c.kind == Put || c.kind == Delete)
    ensures TakesEffect(db, Batch(db, FreshPuts(c, index, commit), if c.kind == Delete then [c.key] else []), c)
  {
    hide Text, Suffix, Puts;
    FreshBatch(db, c, index, commit);
    PutsTwo(Text(CommitIndex), Number(commit), Text(LastApplied), Number(index));
    TextReserved(CommitIndex);
    TextReserved(LastApplied);
    TextReserved(Client(Suffix(c.Id())));
  }

  lemma ProgressKeepsUsers(db: Db, index: nat, commit: nat)
    ensures SameUsers(db, db + Puts(Progress(commit, index)))
  {
    hide Text, Puts;
    PutsTwo(Text(CommitIndex), Number(commit), Text(LastApplied), Number(index));
    TextReserved(CommitIndex);
    TextReserved(LastApplied);
  }

  class CommandApplier {
    const store: Store

    constructor (store: Store)
      ensures this.store == store
    {
      this.store := store;
    }

    /** The applied request record of a command, if any. */
    function Previous(c: Command): Option<Record>
      reads store
    {
      store.Get(Text(Client(Suffix(c.Id()))))
    }

    lemma PreviousIs(c: Command, d: Durable, s: State)
      requires Represents(store.db, d) && StateAt(d, s)
      ensures Previous(c).Some? <==> c.Id() in s.dedup
      ensures Previous(c).Some? ==> Previous(c).value == Request(s.dedup[c.Id()])
    {
      hide Text, Suffix, CountersAt, SnapshotAt, LogAt, UserAt;
      assert c.Id() in s.dedup <==> Suffix(c.Id()) in d.requests;
    }

    /** ApplyAtomically; `ok` is false where the code throws. The request table and the
        user entries change exactly as Execute says, in one batch with the progress. */
    method ApplyAtomically(c: Command, index: nat, commit: nat, ghost d: Durable, ghost s: State) returns (ok: bool)
      requires Represents(store.db, d) && StateAt(d, s)
      modifies store
      ensures ok <==> Applicable(s, c)
      ensures !ok ==> store.db == old(store.db)
      ensures ok ==> Represents(store.db, Applied(d, s, c, index, commit))
      ensures ok ==> CommandWritten(old(store.db), d, store.db, Applied(d, s, c, index, commit), s, c, index, commit)
      ensures ok ==> StateAt(Applied(d, s, c, index, commit), Execute(s, c))
      ensures LeavesReserved(old(store.db), store.db, c)
      ensures var before := if c.HasId() then old(Previous(c)) else None;
              && (ok <==> !("__raft/" <= c.key) &&
                          if before.Some? then before.value == Request(c) else c.kind == Put || c.kind == Delete)
              && (ok && before.None? ==> TakesEffect(old(store.db), store.db, c))
              && (ok && before.Some? ==> SameUsers(old(store.db), store.db))
    {
      hide Represents, TableOf, Text, Suffix, Progress, FreshPuts, Puts, TakesEffect, SameUsers;
      if Reserved(c.key) {
        return false;
      }
      PreviousIs(c, d, s);
      AppliedState(d, s, c, index, commit);
      if c.HasId() {
        var previous := Previous(c);
        if previous.Some? && previous.value != Request(c) {
          return false;
        }
        if previous.Some? {
          ProgressBatch(store.db, d, commit, index);
          ProgressKeepsUsers(store.db, index, commit);
          store.WriteAtomically(Progress(commit, index), []);
          assert store.db == old(store.db) + Puts(Progress(commit, index));
          return true;
        }
      }
      if c.kind != Put && c.kind != Delete {
        return false;
      }
      FreshApplied(store.db, d, s, c, index, commit);
      FreshLeaves(store.db, c, index, commit);
      FreshTakesEffect(store.db, c, index, commit);
      store.WriteAtomically(FreshPuts(c, index, commit), if c.kind == Delete then [c.key] else []);
      ok := true;
    }
  }
}
