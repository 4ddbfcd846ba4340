/** The database: one map from keys to records, written in atomic batches. A record stands
    for the serialized message it holds. */
module Database {
  import opened Commands
  import opened Cluster

  datatype Record =
    | Number(n: nat)
    | VoteRecord(vote: Option<int>)
    | LogRecord(index: nat, entry: Entry)
    | Metadata(index: nat, term: nat)
    | Contents(entries: seq<(string, Record)>, requests: seq<(string, Record)>)
    | Bytes(text: string)
    | Request(command: Command)

  type Db = map<string, Record>

  function Puts(puts: seq<(string, Record)>): Db {
    if puts == [] then map[]
    else Puts(puts[..|puts| - 1])[puts[|puts| - 1].0 := puts[|puts| - 1].1]
  }

  function Names(keys: seq<string>): set<string> { set k | k in keys }

  /** What one batch leaves behind: deletes first, then puts in order. */
  function Batch(db: Db, puts: seq<(string, Record)>, deletes: seq<string>): Db {
    (db - Names(deletes)) + Puts(puts)
  }

  lemma NamesStep(keys: seq<string>, k: string)
    ensures Names(keys + [k]) == Names(keys) + {k}
  {}

  lemma PutsStep(puts: seq<(string, Record)>, k: string, v: Record)
    ensures Puts(puts + [(k, v)]) == Puts(puts)[k := v]
  {
    assert (puts + [(k, v)])[..|puts|] == puts;
  }

  // ----- key order --------------------------------------------------------------

  predicate Before(a: string, b: string) {
    b != [] && (a == [] || a[0] < b[0] || (a[0] == b[0] && Before(a[1..], b[1..])))
  }

  /** The iterator's view: all keys of the database, in byte order. */
  ghost predicate Walks(keys: seq<string>, db: Db) {
    (forall i, j :: 0 <= i < j < |keys| ==> Before(keys[i], keys[j])) && (set k | k in keys) == db.Keys
  }

  lemma {:induction false} PrefixNotBefore(prefix: string, a: string)
    requires prefix <= a
    ensures !Before(a, prefix)
  {
    if prefix != [] { PrefixNotBefore(prefix[1..], a[1..]); }
  }

  /** Keys with a prefix are one block: a key between the prefix and such a key has it too. */
  lemma {:induction false} PrefixBlock(prefix: string, a: string, b: string)
    requires !Before(a, prefix) && Before(a, b) && prefix <= b
    ensures prefix <= a
  {
    if prefix != [] {
      PrefixBlock(prefix[1..], a[1..], b[1..]);
      assert prefix == [prefix[0]] + prefix[1..] && a == [a[0]] + a[1..];
    }
  }

  /** The pairs are exactly the records under the prefix, each once. */
  ghost predicate ScanOf(pairs: seq<(string, Record)>, db: Db, prefix: string) {
    && (forall i, j :: 0 <= i < j < |pairs| ==> pairs[i].0 != pairs[j].0)
    && (forall i :: 0 <= i < |pairs| ==> prefix <= pairs[i].0 && pairs[i].0 in db && pairs[i].1 == db[pairs[i].0])
    && (forall k :: k in db && prefix <= k ==> exists i :: 0 <= i < |pairs| && pairs[i].0 == k)
  }

  /** The same for the keys outside the reserved prefix. */
  ghost predicate UserScanOf(pairs: seq<(string, Record)>, db: Db) {
    && (forall i, j :: 0 <= i < j < |pairs| ==> pairs[i].0 != pairs[j].0)
    && (forall i :: 0 <= i < |pairs| ==> !Reserved(pairs[i].0) && pairs[i].0 in db && pairs[i].1 == db[pairs[i].0])
    && (forall k :: k in db && !Reserved(k) ==> exists i :: 0 <= i < |pairs| && pairs[i].0 == k)
  }

  method DeleteAll(db: Db, deletes: seq<string>) returns (batch: Db)
    ensures batch == db - Names(deletes)
  {
    batch := db;
    for i := 0 to |deletes|
      invariant batch == db - Names(deletes[..i])
    {
      assert deletes[..i + 1] == deletes[..i] + [deletes[i]];
      NamesStep(deletes[..i], deletes[i]);
      batch := batch - {deletes[i]};
    }
    assert deletes[..|deletes|] == deletes;
  }

  method PutAll(db: Db, puts: seq<(string, Record)>) returns (batch: Db)
    ensures batch == db + Puts(puts)
  {
    batch := db;
    for i := 0 to |puts|
      invariant batch == db + Puts(puts[..i])
    {
      assert puts[..i + 1] == puts[..i] + [(puts[i].0, puts[i].1)];
      PutsStep(puts[..i], puts[i].0, puts[i].1);
      batch := batch[puts[i].0 := puts[i].1];
    }
    assert puts[..|puts|] == puts;
  }

  class Store {
    var db: Db

    function Get(key: string): Option<Record>
      reads this
    {
      if key in db then Some(db[key]) else None
    }

    /** One batch, committed in one write. */
    method WriteAtomically(puts: seq<(string, Record)>, deletes: seq<string>)
      modifies this
      ensures db == Batch(old(db), puts, deletes)
    {
      var batch := DeleteAll(db, deletes);
      batch := PutAll(batch, puts);
      db := batch;
    }

    /** Seek to the prefix and stop at the first key without it. */
    method GetAllPrefixedEntries(prefix: string, keys: seq<string>) returns (pairs: seq<(string, Record)>)
      requires Walks(keys, db)
      ensures ScanOf(pairs, db, prefix)
    {
      var i := 0;
      while i < |keys| && Before(keys[i], prefix)
        invariant 0 <= i <= |keys|
        invariant forall j :: 0 <= j < i ==> !(prefix <= keys[j])
      {
        if prefix <= keys[i] { PrefixNotBefore(prefix, keys[i]); }
        i := i + 1;
      }
      ghost var first := i;
      pairs := [];
      while i < |keys| && prefix <= keys[i]
        invariant first <= i <= |keys| && |pairs| == i - first
        invariant forall j :: 0 <= j < |pairs| ==>
                    pairs[j].0 == keys[first + j] && prefix <= pairs[j].0 && pairs[j].0 in db && pairs[j].1 == db[pairs[j].0]
      {
        assert keys[i] in db;
        pairs := pairs + [(keys[i], db[keys[i]])];
        i := i + 1;
      }
      assert i < |keys| ==> !Before(keys[i], prefix) by { if i < |keys| { NotBeforeFrom(keys, prefix, first, i); } }
      ScanComplete(prefix, keys, db, first, i, pairs);
    }

    /** Everything outside the reserved prefix. */
    method GetAllUserEntries(keys: seq<string>) returns (pairs: seq<(string, Record)>)
      requires Walks(keys, db)
      ensures UserScanOf(pairs, db)
    {
      var all := GetAllPrefixedEntries([], keys);
      pairs := [];
      for i := 0 to |all|
        invariant forall j :: 0 <= j < |pairs| ==> !Reserved(pairs[j].0) && pairs[j] in all[..i]
        invariant forall j :: 0 <= j < i && !Reserved(all[j].0) ==> all[j] in pairs
        invariant forall a, b :: 0 <= a < b < |pairs| ==> pairs[a].0 != pairs[b].0
      {
        if !Reserved(all[i].0) {
          pairs := pairs + [all[i]];
        }
      }
      forall k | k in db && !Reserved(k) ensures exists j :: 0 <= j < |pairs| && pairs[j].0 == k {
        assert [] <= k;
        var i :| 0 <= i < |all| && all[i].0 == k;
        assert all[i] in pairs;
      }
    }
  }

  lemma BeforeIrreflexive(a: string)
    ensures !Before(a, a)
  {}

  lemma {:induction false} BeforeTrans(a: string, b: string, c: string)
    requires Before(a, b) && Before(b, c)
    ensures Before(a, c)
  {
    if a != [] && a[0] == b[0] && b[0] == c[0] { BeforeTrans(a[1..], b[1..], c[1..]); }
  }

  lemma NotBeforeFrom(keys: seq<string>, prefix: string, first: nat, i: nat)
    requires first <= i < |keys| && forall a, b :: 0 <= a < b < |keys| ==> Before(keys[a], keys[b])
    requires !Before(keys[first], prefix)
    ensures !Before(keys[i], prefix)
  {
    if first < i && Before(keys[i], prefix) { BeforeTrans(keys[first], keys[i], prefix); }
  }

  lemma ScanComplete(prefix: string, keys: seq<string>, db: Db, first: nat, i: nat, pairs: seq<(string, Record)>)
    requires Walks(keys, db) && first <= i <= |keys| && |pairs| == i - first
    requires forall j :: 0 <= j < first ==> !(prefix <= keys[j])
    requires i < |keys| ==> !Before(keys[i], prefix) && !(prefix <= keys[i])
    requires forall j :: 0 <= j < |pairs| ==>
               pairs[j].0 == keys[first + j] && prefix <= pairs[j].0 && pairs[j].0 in db && pairs[j].1 == db[pairs[j].0]
    ensures ScanOf(pairs, db, prefix)
  {
    forall a, b | 0 <= a < b < |pairs| ensures pairs[a].0 != pairs[b].0 {
      BeforeIrreflexive(pairs[a].0);
      assert Before(keys[first + a], keys[first + b]);
    }
    forall k | k in db && prefix <= k ensures exists j :: 0 <= j < |pairs| && pairs[j].0 == k {
      assert k in (set x | x in keys);
      var at :| 0 <= at < |keys| && keys[at] == k;
      if at > i { PrefixBlock(prefix, keys[i], k); }
      assert pairs[at - first].0 == k;
    }
  }
}
