/** Options, results, and parts of sequences. */
module Basics {
  datatype Option<+T> = None | Some(value: T)

  datatype Result<+T, +E> = Ok(value: T) | Err(error: E)

  // ----- Parts of a sequence -----

  /** part stands in s at i. */
  ghost predicate Here<T>(s: seq<T>, i: nat, part: seq<T>) {
    i + |part| <= |s| && s[i..i + |part|] == part
  }

  lemma HereSplits<T>(s: seq<T>, i: nat, a: seq<T>, b: seq<T>)
    requires Here(s, i, a + b)
    ensures Here(s, i, a) && Here(s, i + |a|, b)
  {
    var part := s[i..i + |a + b|];
    assert part[..|a|] == a && part[|a|..] == b;
    assert s[i..i + |a|] == part[..|a|];
    assert s[i + |a|..i + |a| + |b|] == part[|a|..];
  }

  lemma HereAt<T>(s: seq<T>, i: nat, part: seq<T>, k: nat)
    requires Here(s, i, part) && k < |part|
    ensures i + k < |s| && s[i + k] == part[k]
  {
    assert s[i..i + |part|][k] == part[k];
  }

  lemma CountPush<T>(s: seq<T>, x: T, y: T)
    ensures multiset(s + [x])[y] == multiset(s)[y] + if y == x then 1 else 0
  {
  }
}
