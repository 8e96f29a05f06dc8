/**
 * The free helper functions at the top of node_helper.js: `shuffle`, `pick`,
 * `z` and `b62decode`. `Math.random()` is replaced by a supplied sequence of
 * draws: the k-th call `Math.floor(Math.random() * i)` yields `draws[k] % i`
 * (0 once the draws run out), so an in-range draw is used unchanged and every
 * choice the source can make is reachable.
 */
module Helpers {
  import opened Js

  type Draws = seq<nat>

  /** The index the k-th random draw picks among `i` candidates. */
  function Draw(draws: Draws, k: nat, i: nat): (j: nat)
    requires i > 0
    ensures j < i
    ensures k < |draws| && draws[k] < i ==> j == draws[k]
  {
    if k < |draws| then draws[k] % i else 0
  }

  // ---------------------------------------------------------------------------
  // shuffle

  /**
   * Swap-remove shuffle of the live prefix `live`, using draws from index `k` on:
   * the drawn element is emitted and the last live element moves into its slot.
   */
  function ShuffleFrom<T>(live: seq<T>, draws: Draws, k: nat): seq<T>
    decreases |live|
  {
    if live == [] then []
    else
      var i := |live|;
      var j := Draw(draws, k, i);
      [live[j]] + ShuffleFrom(live[j := live[i - 1]][..i - 1], draws, k + 1)
  }

  /** The list `shuffle(a)` returns for the given draws. */
  function Shuffled<T>(a: seq<T>, draws: Draws): seq<T> {
    ShuffleFrom(a, draws, 0)
  }

  /** Removing the drawn element from the live prefix leaves the rest of its multiset. */
  lemma SwapRemove<T>(live: seq<T>, j: nat)
    requires j < |live|
    ensures multiset(live[j := live[|live| - 1]][..|live| - 1]) + multiset{live[j]} == multiset(live)
  {
    var i := |live|;
    var t := live[j := live[i - 1]];
    assert t == t[..i - 1] + [t[i - 1]];
    assert t[i - 1] == live[i - 1];
    assert multiset(t) == multiset(live) - multiset{live[j]} + multiset{live[i - 1]};
  }

  lemma {:induction false} ShuffleFromPermutes<T>(live: seq<T>, draws: Draws, k: nat)
    ensures |ShuffleFrom(live, draws, k)| == |live|
    ensures multiset(ShuffleFrom(live, draws, k)) == multiset(live)
    decreases |live|
  {
    if live != [] {
      var i := |live|;
      var j := Draw(draws, k, i);
      var rest := live[j := live[i - 1]][..i - 1];
      ShuffleFromPermutes(rest, draws, k + 1);
      SwapRemove(live, j);
    }
  }

  /** One step of the swap-remove: the drawn element first, then the shuffle of what is left. */
  lemma ShuffleStep<T>(live: seq<T>, draws: Draws, k: nat)
    requires live != []
    ensures var i := |live|;
      var j := Draw(draws, k, i);
      ShuffleFrom(live, draws, k) == [live[j]] + ShuffleFrom(live[j := live[i - 1]][..i - 1], draws, k + 1)
  {
  }

  /** `shuffle` returns a permutation of its input: same length, same multiset of elements. */
  lemma ShuffledIsPermutation<T>(a: seq<T>, draws: Draws)
    ensures |Shuffled(a, draws)| == |a|
    ensures multiset(Shuffled(a, draws)) == multiset(a)
  {
    ShuffleFromPermutes(a, draws, 0);
  }

  /** Every element of the shuffled list comes from the input and vice versa. */
  lemma ShuffledMembers<T>(a: seq<T>, draws: Draws, x: T)
    ensures x in Shuffled(a, draws) <==> x in a
  {
    ShuffledIsPermutation(a, draws);
    assert x in Shuffled(a, draws) <==> x in multiset(Shuffled(a, draws));
    assert x in a <==> x in multiset(a);
  }

  /**
   * `shuffle(a)`: copies `a` (`a.slice(0)`), then for i = |a| down to 1 draws j < i,
   * pushes `source[j]` and moves `source[i - 1]` into slot j. The input array is
   * only read.
   */
  method Shuffle<T>(a: array<T>, draws: Draws) returns (result: seq<T>)
    ensures result == Shuffled(a[..], draws)
    ensures |result| == a.Length && multiset(result) == multiset(a[..])
  {
    var n := a.Length;
    ghost var input := a[..];
    var source := new T[n](k requires 0 <= k < n reads a => a[k]);
    assert source[..n] == input;
    result := [];
    var i := n;
    while i > 0
      invariant 0 <= i <= n == source.Length
      invariant result + ShuffleFrom(source[..i], draws, n - i) == Shuffled(input, draws)
    {
      var j := Draw(draws, n - i, i);
      ghost var full := source[..];
      LoopStep(full, i, j, draws, n - i, result);
      var x := source[j];
      source[j] := source[i - 1];
      assert source[..] == full[j := full[i - 1]];
      result := result + [x];
      i := i - 1;
    }
    assert source[..0] == [];
    ShuffledIsPermutation(input, draws);
  }

  /** One pass of the loop: the drawn element moves from the shuffle of the live prefix to the result. */
  lemma LoopStep<T>(full: seq<T>, i: nat, j: nat, draws: Draws, k: nat, result: seq<T>)
    requires 0 < i <= |full| && j == Draw(draws, k, i)
    ensures result + ShuffleFrom(full[..i], draws, k) ==
      (result + [full[j]]) + ShuffleFrom(full[j := full[i - 1]][..i - 1], draws, k + 1)
  {
    var live := full[..i];
    ShuffleStep(live, draws, k);
    PrefixOfUpdate(full, i, j);
    AppendAssoc(result, [full[j]], ShuffleFrom(full[j := full[i - 1]][..i - 1], draws, k + 1));
  }

  /** Moving the last live element into slot j touches only the live prefix. */
  lemma PrefixOfUpdate<T>(full: seq<T>, i: nat, j: nat)
    requires j < i <= |full|
    ensures full[j := full[i - 1]][..i - 1] == full[..i][j := full[i - 1]][..i - 1]
  {
  }

  lemma AppendAssoc<T>(x: seq<T>, y: seq<T>, z: seq<T>)
    ensures x + (y + z) == (x + y) + z
  {
  }

  // ---------------------------------------------------------------------------
  // pick

  /** A configured source: one descriptor, or an array of alternatives. */
  datatype Source = Single(descriptor: string) | Alternatives(options: seq<string>)

  /** `pick(a)`: a random element of an array (undefined when it is empty), or the value itself. */
  function Pick(source: Source, draws: Draws): (r: Option<string>)
    ensures source.Single? ==> r == Some(source.descriptor)
    ensures source.Alternatives? ==> (r.Some? <==> source.options != [])
    ensures source.Alternatives? && r.Some? ==> r.value in source.options
  {
    match source
    case Single(s) => Some(s)
    case Alternatives(xs) => if xs == [] then None else Some(xs[Draw(draws, 0, |xs|)])
  }

  // ---------------------------------------------------------------------------
  // z

  /** `z(n)`: a number below ten gets a leading zero. */
  function Z(n: int): string {
    (if 0 <= n < 10 then "0" else "") + IntToString(n)
  }

  /** A month or day number (0..99) is written with exactly two digits and reads back as itself. */
  lemma ZTwoDigits(n: int)
    requires 0 <= n < 100
    ensures |Z(n)| == 2
    ensures forall i :: 0 <= i < 2 ==> IsDigit(Z(n)[i])
    ensures DecimalValue(Z(n)) == n
  {
    DecimalOfNatToString(n);
    if n < 10 {
      var d := NatToString(n);
      assert Z(n) == "0" + d;
      assert Z(n)[..1] == "0";
    }
  }

  // ---------------------------------------------------------------------------
  // b62decode

  /**
   * `alphabet.indexOf(c)` for the alphabet "0-9A-Za-z": digits 0..9, upper-case
   * letters 10..35, lower-case letters 36..61, and -1 for any other character.
   */
  function B62Index(c: char): (r: int)
    ensures -1 <= r < 62
  {
    if '0' <= c <= '9' then c as int - '0' as int
    else if 'A' <= c <= 'Z' then c as int - 'A' as int + 10
    else if 'a' <= c <= 'z' then c as int - 'a' as int + 36
    else -1
  }

  /** The character at position d of the base-62 alphabet. */
  function B62Char(d: nat): (c: char)
    requires d < 62
    ensures B62Index(c) == d
  {
    if d < 10 then ('0' as int + d) as char
    else if d < 36 then ('A' as int + d - 10) as char
    else ('a' as int + d - 36) as char
  }

  /**
   * `b62decode(s)`: the left fold `result * 62 + alphabet.indexOf(c)` from 0.
   * The result is a number, so the padding test on its `.length` never holds and
   * the number is returned as it is.
   */
  function B62Decode(s: string): int {
    if s == [] then 0 else B62Decode(s[..|s| - 1]) * 62 + B62Index(s[|s| - 1])
  }

  /** Base-62 text of a natural number, the inverse of B62Decode. */
  function B62Encode(n: nat): (r: string)
    ensures |r| >= 1
  {
    if n < 62 then [B62Char(n)] else B62Encode(n / 62) + [B62Char(n % 62)]
  }

  lemma {:induction false} B62RoundTrip(n: nat)
    ensures B62Decode(B62Encode(n)) == n
  {
    if n >= 62 {
      var r := B62Encode(n);
      B62RoundTrip(n / 62);
      assert r[..|r| - 1] == B62Encode(n / 62);
    }
  }

  /** A fragment of alphabet characters decodes to a value in [0, 62^|s|). */
  lemma {:induction false} B62DecodeBounds(s: string)
    requires forall i :: 0 <= i < |s| ==> B62Index(s[i]) >= 0
    ensures 0 <= B62Decode(s) < Pow62(|s|)
  {
    if s != [] {
      B62DecodeBounds(s[..|s| - 1]);
      assert B62Index(s[|s| - 1]) >= 0;
    }
  }

  function Pow62(k: nat): (r: nat)
    ensures r >= 1
  {
    if k == 0 then 1 else 62 * Pow62(k - 1)
  }
}
