/** The replicated state machine: user entries plus the table of applied requests.
    A serialized command is represented by the command itself, so comparing serialized
    bytes is comparing commands. */
module Commands {

  datatype Option<+T> = None | Some(value: T)

  datatype Kind = Unspecified | Put | Get | Delete

  datatype Command = Command(kind: Kind, client: nat, request: nat, key: string, value: string)
  {
    predicate HasId() { request != 0 }

    function Id(): (nat, nat) { (client, request) }
  }

  /** One slot of the replicated log. */
  datatype Entry = Entry(term: nat, command: Command)

  /** `user` holds the keys outside `__raft/`; `dedup` holds the `__raft/client/` records. */
  datatype State = State(user: map<string, string>, dedup: map<(nat, nat), Command>)

  const RESERVED := "__raft/"

  const EMPTY := State(map[], map[])

  predicate Reserved(key: string) { RESERVED <= key }

  datatype Verdict = Rejected | Duplicate | Fresh

  /** The branches of the applier, in the order the code takes them. */
  function Judge(s: State, c: Command): Verdict {
    if Reserved(c.key) then Rejected
    else if c.HasId() && c.Id() in s.dedup then
      if s.dedup[c.Id()] != c then Rejected else Duplicate
    else if c.kind == Put || c.kind == Delete then Fresh
    else Rejected
  }

  predicate Applicable(s: State, c: Command) { Judge(s, c) != Rejected }

  /** A command's effect on user entries, ignoring request ids. */
  function Write(user: map<string, string>, c: Command): map<string, string> {
    match c.kind
    case Put => user[c.key := c.value]
    case Delete => user - {c.key}
    case _ => user
  }

  /** The state after one command; a rejected or repeated command leaves it alone. */
  function Execute(s: State, c: Command): State {
    if Judge(s, c) == Fresh then
      State(Write(s.user, c), if c.HasId() then s.dedup[c.Id() := c] else s.dedup)
    else s
  }

  /** The state after a whole log, from the empty store. */
  function Fold(log: seq<Entry>): State {
    if log == [] then EMPTY
    else Execute(Fold(log[..|log| - 1]), log[|log| - 1].command)
  }

  /** No command of the log is rejected when its turn comes. */
  predicate Accepted(log: seq<Entry>) {
    log == [] ||
    (Accepted(log[..|log| - 1]) && Applicable(Fold(log[..|log| - 1]), log[|log| - 1].command))
  }

  lemma FoldStep(log: seq<Entry>, n: nat)
    requires n < |log|
    ensures Fold(log[..n + 1]) == Execute(Fold(log[..n]), log[n].command)
    ensures Accepted(log[..n + 1]) <==> Accepted(log[..n]) && Applicable(Fold(log[..n]), log[n].command)
  {
    var up := log[..n + 1];
    assert up[..|up| - 1] == log[..n];
  }

  lemma {:induction false} AcceptedPrefix(log: seq<Entry>, n: nat)
    requires Accepted(log) && n <= |log|
    ensures Accepted(log[..n])
    decreases |log|
  {
    if n < |log| {
      var down := log[..|log| - 1];
      AcceptedPrefix(down, n);
      assert down[..n] == log[..n];
    } else {
      assert log[..n] == log;
    }
  }
}

/** What the request table buys: each identified request takes effect once, and replaying
    a suffix that was already applied does no more than its unidentified writes. */
module ExactlyOnce {
  import opened Commands

  ghost predicate Seen(log: seq<Entry>, id: (nat, nat)) {
    exists j :: 0 <= j < |log| && log[j].command.HasId() && log[j].command.Id() == id
  }

  /** The table holds exactly the identified requests of the log, each with its own command. */
  lemma {:induction false} TableIsExact(log: seq<Entry>)
    requires Accepted(log)
    ensures forall id :: id in Fold(log).dedup <==> Seen(log, id)
    ensures forall j :: 0 <= j < |log| && log[j].command.HasId() ==>
                        log[j].command.Id() in Fold(log).dedup &&
                        Fold(log).dedup[log[j].command.Id()] == log[j].command
  {
    if log != [] {
      var down, last := log[..|log| - 1], log[|log| - 1].command;
      TableIsExact(down);
      assert forall j :: 0 <= j < |down| ==> down[j] == log[j];
      forall id ensures id in Fold(log).dedup <==> Seen(log, id) {
        if Seen(down, id) {
          var j :| 0 <= j < |down| && down[j].command.HasId() && down[j].command.Id() == id;
          assert log[j].command.Id() == id;
        }
        if last.HasId() && last.Id() == id {
          assert log[|log| - 1].command.Id() == id;
        }
        if Seen(log, id) {
          var j :| 0 <= j < |log| && log[j].command.HasId() && log[j].command.Id() == id;
          if j < |down| { assert down[j].command.Id() == id; }
        }
      }
    }
  }

  /** The log with every repetition of an identified request struck out. */
  ghost function FirstOnly(log: seq<Entry>): seq<Entry> {
    if log == [] then []
    else
      var down, last := log[..|log| - 1], log[|log| - 1];
      if last.command.HasId() && Seen(down, last.command.Id())
      then FirstOnly(down) else FirstOnly(down) + [last]
  }

  /** Plain replay of a log's writes, with no request table at all. */
  function Writes(log: seq<Entry>): map<string, string> {
    if log == [] then map[]
    else Write(Writes(log[..|log| - 1]), log[|log| - 1].command)
  }

  lemma WritesStep(log: seq<Entry>, e: Entry)
    ensures Writes(log + [e]) == Write(Writes(log), e.command)
  {
    assert (log + [e])[..|log|] == log;
  }

  /** Exactly-once: deduplicated application equals plain replay of first occurrences. */
  lemma {:induction false} ExactlyOnceApplication(log: seq<Entry>)
    requires Accepted(log)
    ensures Fold(log).user == Writes(FirstOnly(log))
  {
    if log != [] {
      var down, last := log[..|log| - 1], log[|log| - 1];
      ExactlyOnceApplication(down);
      TableIsExact(down);
      WritesStep(FirstOnly(down), last);
    }
  }

  /** Applying an identified command again, at any later time, changes nothing. */
  lemma RepeatIsNoOp(log: seq<Entry>, j: nat)
    requires Accepted(log) && j < |log| && log[j].command.HasId()
    ensures Judge(Fold(log), log[j].command) == Duplicate
    ensures Execute(Fold(log), log[j].command) == Fold(log)
  {
    TableIsExact(log);
    NotReserved(log, j);
  }

  lemma {:induction false} NotReserved(log: seq<Entry>, j: nat)
    requires Accepted(log) && j < |log|
    ensures !Reserved(log[j].command.key)
    ensures log[j].command.kind == Put || log[j].command.kind == Delete
  {
    AcceptedPrefix(log, j + 1);
    AcceptedPrefix(log, j);
    FoldStep(log, j);
    if log[j].command.HasId() && log[j].command.Id() in Fold(log[..j]).dedup {
      var id := log[j].command.Id();
      TableIsExact(log[..j]);
      var i :| 0 <= i < j && log[..j][i].command.HasId() && log[..j][i].command.Id() == id;
      assert log[..j][i] == log[i];
      NotReserved(log, i);
    }
  }

  function Lookup(user: map<string, string>, k: string): Option<string> {
    if k in user then Some(user[k]) else None
  }

  /** A log can be continued by exactly these commands: a PUT or a DELETE of a user key whose
      request id, if it has one, no other command of the log carries. */
  lemma AcceptsIff(log: seq<Entry>, e: Entry)
    requires Accepted(log)
    ensures Accepted(log + [e]) <==>
            (&& !("__raft/" <= e.command.key)
             && (e.command.kind == Put || e.command.kind == Delete)
             && (e.command.request != 0 ==>
                   forall j :: 0 <= j < |log| && log[j].command.Id() == (e.command.client, e.command.request) ==>
                               log[j].command == e.command))
  {
    hide Fold;
    assert (log + [e])[..|log|] == log;
    TableIsExact(log);
    if e.command.HasId() && Seen(log, e.command.Id()) {
      var j :| 0 <= j < |log| && log[j].command.HasId() && log[j].command.Id() == e.command.Id();
      NotReserved(log, j);
      ReusedIdIsRejected(log, j, e.command);
    }
  }

  /** A command whose id is new, or that has none, takes effect: a PUT leaves its value under
      its key, a DELETE leaves nothing there, and every other key is as before. */
  lemma NewCommandTakesEffect(log: seq<Entry>, e: Entry)
    requires Accepted(log + [e])
    requires e.command.HasId() ==> !Seen(log, e.command.Id())
    ensures forall k :: Lookup(Fold(log + [e]).user, k) ==
                        if k != e.command.key then Lookup(Fold(log).user, k)
                        else if e.command.kind == Put then Some(e.command.value)
                        else None
  {
    assert (log + [e])[..|log|] == log;
    AcceptedPrefix(log + [e], |log|);
    TableIsExact(log);
    NotReserved(log + [e], |log|);
  }

  /** The store after replaying `again` on top of `s`. */
  function Replay(s: State, again: seq<Entry>): State {
    if again == [] then s
    else Execute(Replay(s, again[..|again| - 1]), again[|again| - 1].command)
  }

  /** The last write to `k` by a command without a request id, if there is one. */
  function LastBareWrite(again: seq<Entry>, k: string): Option<Option<string>> {
    if again == [] then None
    else
      var c := again[|again| - 1].command;
      if !c.HasId() && c.key == k then Some(if c.kind == Put then Some(c.value) else None)
      else LastBareWrite(again[..|again| - 1], k)
  }

  /** What a restart that lowers last_applied does: commands with an id are skipped, bare
      commands write again, so each key ends with its last bare write of the suffix. */
  lemma {:induction false} ReplayEffect(log: seq<Entry>, from: nat, n: nat)
    requires Accepted(log) && from <= n <= |log|
    ensures Replay(Fold(log), log[from..n]).dedup == Fold(log).dedup
    ensures forall k :: Lookup(Replay(Fold(log), log[from..n]).user, k) ==
                        if LastBareWrite(log[from..n], k).Some?
                        then LastBareWrite(log[from..n], k).value
                        else Lookup(Fold(log).user, k)
    decreases n
  {
    if from < n {
      var again := log[from..n];
      assert again[..|again| - 1] == log[from..n - 1];
      ReplayEffect(log, from, n - 1);
      NotReserved(log, n - 1);
      TableIsExact(log);
      var before := Replay(Fold(log), log[from..n - 1]);
      var c := log[n - 1].command;
      assert again[|again| - 1].command == c;
      assert Replay(Fold(log), again) == Execute(before, c);
      if c.HasId() {
        assert Judge(before, c) == Duplicate;
      } else {
        assert Judge(before, c) == Fresh;
      }
    }
  }

  /** Replaying an applied suffix is invisible exactly when, for every key, the last bare
      write of the suffix is also the key's final value. */
  lemma ReplayInvisibleIff(log: seq<Entry>, from: nat)
    requires Accepted(log) && from <= |log|
    ensures Replay(Fold(log), log[from..]) == Fold(log) <==>
            forall k :: LastBareWrite(log[from..], k).Some? ==>
                        LastBareWrite(log[from..], k).value == Lookup(Fold(log).user, k)
  {
    ReplayEffect(log, from, |log|);
    assert log[from..|log|] == log[from..];
    var a, b := Replay(Fold(log), log[from..]).user, Fold(log).user;
    if forall k :: Lookup(a, k) == Lookup(b, k) {
      forall k ensures (k in a <==> k in b) && (k in a ==> a[k] == b[k]) {
        assert Lookup(a, k) == Lookup(b, k);
      }
      assert a == b;
    }
    assert a == b ==> forall k :: Lookup(a, k) == Lookup(b, k);
  }

  /** A suffix of identified commands replays invisibly at every point, not just at its end. */
  lemma {:induction false} IdentifiedReplayIsNoOp(log: seq<Entry>, from: nat, n: nat)
    requires Accepted(log) && from <= n <= |log|
    requires forall j :: from <= j < n ==> log[j].command.HasId()
    ensures Replay(Fold(log), log[from..n]) == Fold(log)
    decreases n
  {
    if from < n {
      var again := log[from..n];
      assert again[..|again| - 1] == log[from..n - 1];
      IdentifiedReplayIsNoOp(log, from, n - 1);
      RepeatIsNoOp(log, n - 1);
    }
  }

  /** Replay is not invisible in general: a bare PUT followed by an identified PUT of the
      same key ends, after the replay, with the older value. */
  lemma MixedReplayDiverges()
    ensures exists log: seq<Entry> ::
              Accepted(log) && |log| == 2 && Replay(Fold(log), log) != Fold(log)
  {
    var bare := Command(Put, 1, 0, "k", "old");
    var named := Command(Put, 1, 7, "k", "new");
    var log := [Entry(1, bare), Entry(1, named)];
    assert log[..1] == [Entry(1, bare)] && log[..0] == [];
    FoldStep(log, 0);
    FoldStep(log, 1);
    assert log[..2] == log;
    assert Fold(log[..1]) == State(map["k" := "old"], map[]);
    assert Fold(log).user["k"] == "new";
    ReplayEffect(log, 0, 2);
    assert log[0..2] == log;
    assert LastBareWrite(log, "k") == LastBareWrite(log[..1], "k");
    assert LastBareWrite(log[..1], "k") == Some(Some("old"));
  }

  /** A client that reuses an id for a different command while the first is still in the
      log makes the second one unapplicable: every replica stops there. */
  lemma ReusedIdIsRejected(log: seq<Entry>, j: nat, c: Command)
    requires Accepted(log) && j < |log| && log[j].command.HasId()
    requires c.Id() == log[j].command.Id()
    ensures Applicable(Fold(log), c) <==> c == log[j].command
  {
    TableIsExact(log);
    NotReserved(log, j);
  }
}
