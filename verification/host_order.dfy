/** The order Go's `<` puts on strings, used to break the tie when two hosts
    dial each other at the same time (messenger/messenger.go:195).

    Go compares strings byte by byte; Dafny's `<` on sequences is the
    proper-prefix order, so the lexicographic order is defined here. On the
    characters of a host address (ASCII) byte order and character order agree. */
module HostOrder {

  /** `a` sorts strictly before `b`. */
  predicate Less(a: string, b: string)
    ensures Less(a, b) ==> a != b
    decreases |a|
  {
    if |a| == 0 then |b| > 0
    else if |b| == 0 then false
    else if a[0] != b[0] then a[0] < b[0]
    else Less(a[1..], b[1..])
  }

  lemma {:induction false} LessIrreflexive(a: string)
    ensures !Less(a, a)
    decreases |a|
  {
    if |a| > 0 {
      LessIrreflexive(a[1..]);
    }
  }

  /** Two different strings are always ordered one way or the other. */
  lemma {:induction false} LessTotal(a: string, b: string)
    ensures a == b || Less(a, b) || Less(b, a)
    decreases |a|
  {
    if |a| > 0 && |b| > 0 && a[0] == b[0] {
      LessTotal(a[1..], b[1..]);
      if a[1..] == b[1..] {
        assert a == [a[0]] + a[1..] && b == [b[0]] + b[1..];
      }
    }
  }

  lemma {:induction false} LessAsymmetric(a: string, b: string)
    ensures Less(a, b) ==> !Less(b, a)
    decreases |a|
  {
    if |a| > 0 && |b| > 0 && a[0] == b[0] {
      LessAsymmetric(a[1..], b[1..]);
    }
  }

  lemma {:induction false} LessTransitive(a: string, b: string, c: string)
    requires Less(a, b) && Less(b, c)
    ensures Less(a, c)
    decreases |a|
  {
    if |a| > 0 && a[0] == b[0] && b[0] == c[0] {
      LessTransitive(a[1..], b[1..], c[1..]);
    }
  }

  /** For two distinct hosts exactly one of them is the smaller: the
      tie-break never lets both sides (or neither side) replace. */
  lemma ExactlyOneIsSmaller(a: string, b: string)
    requires a != b
    ensures Less(a, b) != Less(b, a)
  {
  }

  /** The lexicographic order extends Dafny's proper-prefix order. */
  lemma {:induction false} ProperPrefixIsLess(a: string, b: string)
    requires a < b
    ensures Less(a, b)
    decreases |a|
  {
    if |a| > 0 {
      assert a[1..] < b[1..];
      ProperPrefixIsLess(a[1..], b[1..]);
    }
  }
}
