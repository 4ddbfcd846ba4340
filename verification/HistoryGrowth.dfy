/** The history's own invariant survives growth once the new items are in order. */
module HistoryGrowth {
  import opened Commands
  import opened Quorums
  import opened Cluster
  import opened Invariant
  import opened Growth

  lemma LineKept(h: History, h': History, t: nat)
    requires Grows(h, h') && t in h.won && t in h.lines && LineOk(h, t) && h'.lines[t] == h.lines[t]
    ensures LineOk(h', t)
  {
    var line := h.lines[t];
    forall i | 0 <= i < |line| ensures line[i].term in h'.lines && line[..i + 1] <= h'.lines[line[i].term] {
      assert line[i].term in h.lines && line[..i + 1] <= h.lines[line[i].term];
      assert h.lines[line[i].term] <= h'.lines[line[i].term];
    }
  }

  lemma CandidaciesGrow(cfg: Config, h: History, h': History)
    requires Grows(h, h') && Candidacies(cfg, h)
    requires forall k :: k in h'.candidacy && k !in h.candidacy ==> CandidacyOk(cfg, h', k)
    ensures Candidacies(cfg, h')
  {
    forall k | k in h'.candidacy ensures CandidacyOk(cfg, h', k) {
      if k in h.candidacy {
        assert CandidacyOk(cfg, h, k);
        OnLineGrows(h, h', h.candidacy[k]);
      }
    }
  }

  lemma BallotsGrow(cfg: Config, h: History, h': History)
    requires Grows(h, h') && Ballots(cfg, h)
    requires forall k :: k in h'.ballots && k !in h.ballots ==> BallotOk(cfg, h', k)
    ensures Ballots(cfg, h')
  {
    forall k | k in h'.ballots ensures BallotOk(cfg, h', k) {
      if k in h.ballots {
        assert BallotOk(cfg, h, k);
        OnLineGrows(h, h', h.ballots[k].log);
      }
    }
  }

  lemma ElectionsGrow(cfg: Config, h: History, h': History)
    requires Grows(h, h') && Elections(cfg, h)
    requires forall t :: t in h'.won && t !in h.won ==> WonBy(cfg, h', t)
    ensures Elections(cfg, h')
  {
    forall t | t in h'.won ensures WonBy(cfg, h', t) {
      if t in h.won { assert WonBy(cfg, h, t); }
    }
  }

  lemma VoterKeptGrows(h: History, h': History, t: nat, u: nat, q: Id, j: nat)
    requires Grows(h, h') && (u, q) in h.ballots && t in h.lines && j <= |h.lines[t]|
    requires VoterKept(h, t, u, q, j)
    ensures VoterKept(h', t, u, q, j)
  {
    var log := h.ballots[(u, q)].log;
    HoldsGrows(h, h', log, t, j);
    if u >= 1 && Lost(h, t, j, u - 1) { LostGrows(h, h', t, j, u - 1, u - 1); }
  }

  lemma VotersKeptGrow(h: History, h': History)
    requires Grows(h, h') && AcksFit(h) && VotersKept(h)
    requires forall t: nat, u: nat, q, j: nat ::
               (t, q) in h'.acks && (u, q) in h'.ballots && t < u && j <= h'.acks[(t, q)] &&
               !((t, q) in h.acks && j <= h.acks[(t, q)] && (u, q) in h.ballots) ==>
               VoterKept(h', t, u, q, j)
    ensures VotersKept(h')
  {
    forall t: nat, u: nat, q, j: nat | (t, q) in h'.acks && (u, q) in h'.ballots && t < u && j <= h'.acks[(t, q)]
      ensures VoterKept(h', t, u, q, j)
    {
      if (t, q) in h.acks && j <= h.acks[(t, q)] && (u, q) in h.ballots {
        assert VoterKept(h, t, u, q, j);
        assert (t, q).0 in h.lines && j <= |h.lines[t]|;
        VoterKeptGrows(h, h', t, u, q, j);
      }
    }
  }

  lemma CommitsGrow(cfg: Config, h: History, h': History)
    requires Grows(h, h') && Commits(cfg, h)
    requires forall t, i :: (t, i) in h'.commits && (t, i) !in h.commits ==> CommitOk(cfg, h', t, i)
    ensures Commits(cfg, h')
  {
    forall t, i | (t, i) in h'.commits ensures CommitOk(cfg, h', t, i) {
      if (t, i) in h.commits {
        assert CommitOk(cfg, h, t, i);
        assert h.lines[t] <= h'.lines[t];
      }
    }
  }

  lemma CapturesGrow(cfg: Config, h: History, h': History)
    requires Grows(h, h') && Captures(cfg, h)
    requires forall t, id :: (t, id) in h'.captures && (t, id) !in h.captures ==> CaptureOk(cfg, h', t, id)
    ensures Captures(cfg, h')
  {
    forall t, id | (t, id) in h'.captures ensures CaptureOk(cfg, h', t, id) {
      if (t, id) in h.captures { assert CaptureOk(cfg, h, t, id); }
    }
  }

  lemma LinesKept(h: History, h': History)
    requires Grows(h, h') && Lines(h) && h'.lines == h.lines && h'.won == h.won
    ensures Lines(h')
  {
    forall t | t in h'.won ensures LineOk(h', t) { LineKept(h, h', t); }
  }

  ghost predicate NewItemsOk(cfg: Config, h: History, h': History) {
    && (forall k :: k in h'.candidacy && k !in h.candidacy ==> CandidacyOk(cfg, h', k))
    && (forall k :: k in h'.ballots && k !in h.ballots ==> BallotOk(cfg, h', k))
    && (forall t :: t in h'.won && t !in h.won ==> WonBy(cfg, h', t))
    && (forall t, i :: (t, i) in h'.commits && (t, i) !in h.commits ==> CommitOk(cfg, h', t, i))
    && (forall t, id :: (t, id) in h'.captures && (t, id) !in h.captures ==> CaptureOk(cfg, h', t, id))
  }

  lemma HistExtends(cfg: Config, h: History, h': History)
    requires HistInv(cfg, h) && Grows(h, h') && NewItemsOk(cfg, h, h')
    requires Lines(h') && AcksFit(h') && VotersKept(h')
    ensures HistInv(cfg, h')
  {
    hide Lines, VotersKept, AcksFit, Candidacies, Ballots, Elections, Commits, Captures, Grows;
    hide CandidacyOk, BallotOk, WonBy, CommitOk, CaptureOk;
    CandidaciesGrow(cfg, h, h');
    BallotsGrow(cfg, h, h');
    ElectionsGrow(cfg, h, h');
    CommitsGrow(cfg, h, h');
    CapturesGrow(cfg, h, h');
  }
}
