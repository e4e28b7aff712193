/** Small helpers shared by the map and indicator models. */
module Common {

  datatype Option<T> = None | Some(value: T)

  function Min(a: int, b: int): int { if a <= b then a else b }

  function Max(a: int, b: int): int { if a >= b then a else b }

  function MinReal(a: real, b: real): real { if a <= b then a else b }

  function MaxReal(a: real, b: real): real { if a >= b then a else b }

  function AbsReal(a: real): real { if a < 0.0 then -a else a }

  /** Sum of a sequence of elapsed-time samples. */
  function Sum(es: seq<nat>): nat
  {
    if es == [] then 0 else es[0] + Sum(es[1..])
  }

  /** A prefix one longer is the prefix and the next element. */
  lemma PrefixGrows<T>(s: seq<T>, n: nat)
    requires n < |s|
    ensures s[..n + 1] == s[..n] + [s[n]]
  {
  }

  /** Appending the next element of `s` to `base + s[..n]` gives `base + s[..n + 1]`. */
  lemma AppendNext<T>(base: seq<T>, s: seq<T>, n: nat)
    requires n < |s|
    ensures (base + s[..n]) + [s[n]] == base + s[..n + 1]
  {
    PrefixGrows(s, n);
  }
}
