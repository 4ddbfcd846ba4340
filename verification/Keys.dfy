/** The key space of the one database that user data and Raft records share. */
module Keys {
  import opened Commands

  // ----- std::to_string ---------------------------------------------------------

  function Digit(d: nat): char
    requires d < 10
  {
    "0123456789"[d]
  }

  function Decimal(n: nat): (s: string)
    ensures |s| > 0 && '/' !in s
  {
    if n < 10 then [Digit(n)] else Decimal(n / 10) + [Digit(n % 10)]
  }

  function DigitValue(c: char): nat {
    if '0' <= c <= '9' then c as nat - '0' as nat else 0
  }

  /** std::stoull on a string of digits. */
  function ParseDecimal(s: string): nat {
    if s == [] then 0 else 10 * ParseDecimal(s[..|s| - 1]) + DigitValue(s[|s| - 1])
  }

  lemma DigitRoundTrip(d: nat)
    requires d < 10
    ensures DigitValue(Digit(d)) == d
  {}

  lemma {:induction false} DecimalRoundTrip(n: nat)
    ensures ParseDecimal(Decimal(n)) == n
  {
    var s := Decimal(n);
    DigitRoundTrip(n % 10);
    if n >= 10 {
      DecimalRoundTrip(n / 10);
      assert s[..|s| - 1] == Decimal(n / 10);
    } else {
      assert s[..0] == [] && ParseDecimal(s[..0]) == 0;
    }
  }

  lemma DecimalInjective(a: nat, b: nat)
    requires Decimal(a) == Decimal(b)
    ensures a == b
  {
    DecimalRoundTrip(a);
    DecimalRoundTrip(b);
  }

  // ----- request suffixes -------------------------------------------------------

  /** What follows `__raft/client/` in the record of a request. */
  function Suffix(id: (nat, nat)): string { Decimal(id.0) + "/" + Decimal(id.1) }

  lemma FirstSlash(a: string, b: string)
    requires '/' !in a
    ensures (a + "/" + b)[|a|] == '/' && forall i :: 0 <= i < |a| ==> (a + "/" + b)[i] != '/'
  {}

  lemma SplitAtSlash(a: string, b: string, c: string, d: string)
    requires '/' !in a && '/' !in c && a + "/" + b == c + "/" + d
    ensures a == c && b == d
  {
    FirstSlash(a, b);
    FirstSlash(c, d);
    var s, t := a + "/" + b, c + "/" + d;
    assert |a| == |c|;
    assert a == s[..|a|] == t[..|c|] == c;
    assert b == s[|a| + 1..] == t[|c| + 1..] == d;
  }

  lemma SuffixInjective(x: (nat, nat), y: (nat, nat))
    requires Suffix(x) == Suffix(y)
    ensures x == y
  {
    SplitAtSlash(Decimal(x.0), Decimal(x.1), Decimal(y.0), Decimal(y.1));
    DecimalInjective(x.0, y.0);
    DecimalInjective(x.1, y.1);
  }

  // ----- keys -------------------------------------------------------------------

  datatype Key =
    | CurrentTerm | VotedFor | CommitIndex | LastApplied
    | SnapshotIndex | SnapshotTerm | SnapshotMetadata | SnapshotData
    | Log(index: nat)
    | Client(suffix: string)
    | User(name: string)

  const LOG_PREFIX := "__raft/log/"

  const CLIENT_PREFIX := "__raft/client/"

  function Text(k: Key): string {
    match k
    case CurrentTerm => "__raft/current_term"
    case VotedFor => "__raft/voted_for"
    case CommitIndex => "__raft/commit_index"
    case LastApplied => "__raft/last_applied"
    case SnapshotIndex => "__raft/snapshot_index"
    case SnapshotTerm => "__raft/snapshot_term"
    case SnapshotMetadata => "__raft/snapshot_metadata"
    case SnapshotData => "__raft/snapshot_data"
    case Log(i) => LOG_PREFIX + Decimal(i)
    case Client(x) => CLIENT_PREFIX + x
    case User(name) => name
  }

  /** A user key is one outside the reserved prefix. */
  predicate Legal(k: Key) { k.User? ==> !Reserved(k.name) }

  lemma TextReserved(k: Key)
    requires !k.User?
    ensures Reserved(Text(k))
  {
    var s := Text(k);
    assert s[..7] == "__raft/";
  }

  lemma LogText(i: nat)
    ensures Text(Log(i))[7] == 'l' && Text(Log(i))[8] == 'o' && LOG_PREFIX <= Text(Log(i))
  {}

  lemma ClientText(x: string)
    ensures Text(Client(x))[7] == 'c' && Text(Client(x))[8] == 'l' && CLIENT_PREFIX <= Text(Client(x))
  {}

  predicate Fixed(k: Key) { !k.Log? && !k.Client? && !k.User? }

  lemma FixedDistinct(a: Key, b: Key)
    requires Fixed(a) && Fixed(b) && Text(a) == Text(b)
    ensures a == b
  {
    var s, t := Text(a), Text(b);
    assert s[7] == t[7] && s[8] == t[8] && s[9] == t[9] && s[|s| - 1] == t[|t| - 1];
  }

  /** No two records share a key. */
  lemma TextInjective(a: Key, b: Key)
    requires Legal(a) && Legal(b) && Text(a) == Text(b)
    ensures a == b
  {
    var s, t := Text(a), Text(b);
    if a.User? || b.User? {
      if !a.User? { TextReserved(a); }
      if !b.User? { TextReserved(b); }
    } else if Fixed(a) && Fixed(b) {
      FixedDistinct(a, b);
    } else {
      if a.Log? { LogText(a.index); }
      if b.Log? { LogText(b.index); }
      if a.Client? { ClientText(a.suffix); }
      if b.Client? { ClientText(b.suffix); }
      assert s[7] == t[7] && s[8] == t[8];
      if a.Log? && b.Log? {
        assert Decimal(a.index) == s[|LOG_PREFIX|..] == t[|LOG_PREFIX|..] == Decimal(b.index);
        DecimalInjective(a.index, b.index);
      } else if a.Client? && b.Client? {
        assert a.suffix == s[|CLIENT_PREFIX|..] == t[|CLIENT_PREFIX|..] == b.suffix;
      }
    }
  }
}
