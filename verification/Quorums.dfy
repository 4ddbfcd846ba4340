/** Majorities of a fixed peer set. */
module Quorums {

  type Id = int

  /** `peers_.size() / 2 + 1` or more distinct configured peers. */
  predicate Majority(q: set<Id>, peers: set<Id>) {
    q <= peers && |q| >= |peers| / 2 + 1
  }

  lemma Pick<T>(a: set<T>) returns (x: T)
    requires a != {}
    ensures x in a
  {
    x :| x in a;
  }

  lemma {:induction false} SizeBound(a: set<Id>, b: set<Id>)
    requires a <= b
    ensures |a| <= |b|
  {
    if a != {} {
      var x := Pick(a);
      SizeBound(a - {x}, b - {x});
    }
  }

  /** Two majorities share a peer. */
  lemma Overlap(a: set<Id>, b: set<Id>, peers: set<Id>) returns (x: Id)
    requires Majority(a, peers) && Majority(b, peers)
    ensures x in a && x in b
  {
    if a * b == {} {
      assert |a + b| == |a| + |b|;
      SizeBound(a + b, peers);
      assert false;
    }
    x := Pick(a * b);
  }
}
