/** Log matching and leader completeness, derived from the history alone. */
module Completeness {
  import opened Commands
  import opened Quorums
  import opened Cluster
  import opened Invariant

  lemma Shorter<T>(a: seq<T>, b: seq<T>, c: seq<T>)
    requires a <= c && b <= c && |a| <= |b|
    ensures a <= b
  {}

  /** Every prefix of a log lies on the line of its own last term. */
  lemma OwnLine(h: History, log: seq<Entry>, i: nat)
    requires Lines(h) && OnLine(h, log) && i < |log|
    ensures log[i].term in h.lines && log[..i + 1] <= h.lines[log[i].term]
    ensures 1 <= log[i].term <= LastTerm(log)
  {
    var t := LastTerm(log);
    var line := h.lines[t];
    assert LineOk(h, t);
    assert line[i] == log[i] && line[..i + 1] == log[..i + 1];
    assert line[|log| - 1] == log[|log| - 1];
    if i < |h.won[t].log| { assert h.won[t].log[i] == line[i]; }
  }

  /** Log matching: equal terms at an index mean equal logs up to it. */
  lemma LogMatching(h: History, a: seq<Entry>, b: seq<Entry>, i: nat)
    requires Lines(h) && OnLine(h, a) && OnLine(h, b)
    requires i < |a| && i < |b| && a[i].term == b[i].term
    ensures a[..i + 1] == b[..i + 1]
  {
    OwnLine(h, a, i);
    OwnLine(h, b, i);
  }

  lemma LineIsOnLine(h: History, t: nat, i: nat)
    requires Lines(h) && t in h.lines && i <= |h.lines[t]|
    ensures OnLine(h, h.lines[t][..i])
  {
    if i > 0 {
      var log := h.lines[t][..i];
      assert LineOk(h, t);
      assert log[|log| - 1] == h.lines[t][i - 1];
      assert h.lines[t][..i - 1 + 1] == log;
    }
  }

  /** A leader's own entries come after the log it won with. */
  lemma OwnTermIsPastStart(h: History, t: nat, k: nat)
    requires t in h.won && t in h.lines && LineOk(h, t) && k < |h.lines[t]| && h.lines[t][k].term == t
    ensures |h.won[t].log| <= k
  {}

  /** If a voter held committed entries, so does the candidate it found up to date. */
  lemma CandidateHolds(h: History, t: nat, i: nat, u: nat, run: seq<Entry>, voter: seq<Entry>)
    requires Lines(h) && OnLine(h, run) && OnLine(h, voter) && 1 <= u && TermsWithin(run, u - 1)
    requires t in h.lines && 1 <= i <= |h.lines[t]| && h.lines[t][i - 1].term == t
    requires Holds(h, voter, t, i) && UpToDate(|run|, LastTerm(run), voter)
    requires forall s :: s in h.won && t < s < u ==> Holds(h, h.won[s].log, t, i)
    ensures Holds(h, run, t, i)
  {
    assert voter[i - 1] == h.lines[t][i - 1];
    OwnLine(h, voter, i - 1);
    var s := LastTerm(run);
    assert run != [] && s in h.lines && run[|run| - 1].term == s;
    if s == LastTerm(voter) {
      Shorter(voter, run, h.lines[s]);
    } else {
      assert LineOk(h, s) && t < s < u && s in h.won;
      var start := h.won[s].log;
      assert Holds(h, start, t, i);
      OwnTermIsPastStart(h, s, |run| - 1);
      Shorter(h.lines[t][..i], run, h.lines[s]);
    }
  }

  /** Leader completeness: whatever a leader commits is in the log of every later leader
      from the moment it wins. */
  lemma {:induction false} LeaderCompleteness(cfg: Config, h: History, t: nat, i: nat, u: nat)
    requires HistInv(cfg, h) && (t, i) in h.commits && u in h.won && t < u
    ensures Holds(h, h.won[u].log, t, i)
    decreases u
  {
    forall s | s in h.won && t < s < u ensures Holds(h, h.won[s].log, t, i) {
      LeaderCompleteness(cfg, h, t, i, s);
    }
    assert CommitOk(cfg, h, t, i) && WonBy(cfg, h, u) && CandidacyOk(cfg, h, (u, h.won[u].leader));
    var x := Overlap(h.commits[(t, i)], h.won[u].voters, cfg.peers);
    VoterHolds(cfg, h, t, i, u, x);
    assert BallotOk(cfg, h, (u, x)) && h.ballots[(u, x)].candidate == h.won[u].leader;
    CandidateHolds(h, t, i, u, h.won[u].log, h.ballots[(u, x)].log);
  }

  lemma VoterHolds(cfg: Config, h: History, t: nat, i: nat, u: nat, x: Id)
    requires Elections(cfg, h) && VotersKept(h)
    requires u in h.won && t < u && x in h.won[u].voters && (t, x) in h.acks && i <= h.acks[(t, x)]
    requires forall s :: s in h.won && t < s < u ==> Holds(h, h.won[s].log, t, i)
    ensures (u, x) in h.ballots && Holds(h, h.ballots[(u, x)].log, t, i)
  {
    assert WonBy(cfg, h, u);
    assert VoterKept(h, t, u, x, i);
  }

  lemma CommitOnLaterLine(cfg: Config, h: History, t: nat, i: nat, u: nat)
    requires HistInv(cfg, h) && (t, i) in h.commits && t <= u && u in h.lines
    ensures t in h.lines && 1 <= i <= |h.lines[t]| && h.lines[t][..i] <= h.lines[u]
  {
    hide VotersKept, Captures, Ballots, Candidacies, Elections;
    assert CommitOk(cfg, h, t, i) && LineOk(h, u);
    if t < u { LeaderCompleteness(cfg, h, t, i, u); }
  }

  /** A committed prefix known at some term lies on the line of every term from then on. */
  lemma SafeOnLaterLine(cfg: Config, h: History, log: seq<Entry>, c: nat, t: nat, u: nat)
    requires HistInv(cfg, h) && Safe(h, log, c, t) && t <= u && u in h.lines
    ensures c <= |log| && log[..c] <= h.lines[u]
  {
    hide HistInv;
    if c > 0 {
      var s: nat, i: nat :| SafeBy(h, log, c, t, s, i);
      CommitOnLaterLine(cfg, h, s, i, u);
      assert h.lines[s][..c] == h.lines[s][..i][..c];
    }
  }

  /** State machine safety for two logs of one moment: committed prefixes never disagree. */
  lemma SafePrefixesAgree(cfg: Config, h: History, a: seq<Entry>, c: nat, t: nat, b: seq<Entry>, d: nat, u: nat)
    requires HistInv(cfg, h) && Safe(h, a, c, t) && Safe(h, b, d, u)
    ensures c <= |a| && d <= |b| && a[..Min(c, d)] == b[..Min(c, d)]
  {
    hide HistInv;
    if c > 0 && d > 0 {
      var s: nat, i: nat :| SafeBy(h, a, c, t, s, i);
      var r: nat, j: nat :| SafeBy(h, b, d, u, r, j);
      assert SafeBy(h, a, c, s, s, i) && SafeBy(h, b, d, r, r, j);
      var top := Max(s, r);
      SafeOnLaterLine(cfg, h, a, c, s, top);
      SafeOnLaterLine(cfg, h, b, d, r, top);
      BothPrefixes(a[..c], b[..d], h.lines[top], Min(c, d));
      assert a[..c][..Min(c, d)] == a[..Min(c, d)] && b[..d][..Min(c, d)] == b[..Min(c, d)];
    }
  }

  lemma BothPrefixes<T>(a: seq<T>, b: seq<T>, c: seq<T>, k: nat)
    requires a <= c && b <= c && k <= |a| && k <= |b|
    ensures a[..k] == b[..k]
  {}
}
