// Option and Result, and the few sequence facts the other modules share.
module Common {
  datatype Option<+T> = None | Some(value: T) {
    function GetOr(default: T): T {
      match this
      case Some(v) => v
      case None => default
    }
  }

  datatype Result<+T, +E> = Ok(value: T) | Err(error: E)

  function Last<T>(s: seq<T>): (x: T)
    requires s != []
  {
    s[|s| - 1]
  }

  function ButLast<T>(s: seq<T>): seq<T>
    requires s != []
  {
    s[..|s| - 1]
  }

  // The last k elements of s, or all of s when it is shorter.
  function Suffix<T>(s: seq<T>, k: nat): (r: seq<T>)
    ensures |r| == (if |s| <= k then |s| else k) && forall i | 0 <= i < |r| :: r[i] == s[|s| - |r| + i]
  {
    if |s| <= k then s else s[|s| - k..]
  }

  // Pushing onto a kept suffix and trimming again keeps the suffix of the whole.
  lemma SuffixPush<T>(s: seq<T>, x: T, k: nat)
    ensures Suffix(Suffix(s, k) + [x], k) == Suffix(s + [x], k)
  {
  }

  lemma SuffixOfSuffix<T>(s: seq<T>, k: nat, j: nat)
    ensures Suffix(Suffix(s, k), j) == Suffix(s, if j <= k then j else k)
  {
  }

  predicate Distinct<T(==)>(s: seq<T>) {
    forall i, j | 0 <= i < j < |s| :: s[i] != s[j]
  }

  function CountOf<T(==)>(s: seq<T>, x: T): nat {
    if s == [] then 0 else (if s[0] == x then 1 else 0) + CountOf(s[1..], x)
  }
}
