/** Bytes, and the few sequence operations that every component uses. */
module Common {
  newtype byte = x: int | 0 <= x < 0x100

  datatype Option<+T> = None | Some(value: T)

  function Min(a: int, b: int): int { if a < b then a else b }

  function Max(a: int, b: int): int { if a < b then b else a }

  /** What a `write` or `read` of at most `room` units may report: at least one, at most `room`. */
  function Clip(k: nat, room: nat): (r: nat)
    requires room > 0
  {
    if k == 0 then 1 else Min(k, room)
  }

  lemma ClipFits(k: nat, room: nat)
    requires room > 0
    ensures 1 <= Clip(k, room) <= room
  {
  }

  /** The first `n` elements, or all of them when there are fewer. */
  function Take<T>(s: seq<T>, n: nat): seq<T> { if |s| <= n then s else s[..n] }

  lemma TakeTwice<T>(a: seq<T>, b: seq<T>, n: nat)
    ensures Take(Take(a, n) + b, n) == Take(a + b, n)
  {
  }

  /** `memcpy(s + at, d, |d|)`. */
  function Blit<T>(s: seq<T>, at: nat, d: seq<T>): (r: seq<T>)
    requires at + |d| <= |s|
    ensures |r| == |s|
  {
    s[..at] + d + s[at + |d|..]
  }

  /** Copying to the end of what is filled extends it. */
  lemma BlitExtends<T>(s: seq<T>, start: nat, at: nat, d: seq<T>)
    requires start <= at && at + |d| <= |s|
    ensures Blit(s, at, d)[start..at + |d|] == s[start..at] + d
  {
  }

  function Concat<T>(ss: seq<seq<T>>): seq<T> {
    if ss == [] then [] else Concat(ss[..|ss| - 1]) + ss[|ss| - 1]
  }

  function Pow2(k: nat): (r: nat)
    ensures r >= 1
  {
    if k == 0 then 1 else 2 * Pow2(k - 1)
  }

  lemma SubSlice<T>(s: seq<T>, a: nat, b: nat, i: nat, k: nat)
    requires a <= b <= |s| && a + i + k <= b
    ensures s[a + i..a + i + k] == s[a..b][i..i + k]
  {
    var t := s[a..b];
    var u, v := s[a + i..a + i + k], t[i..i + k];
    forall j | 0 <= j < k
      ensures u[j] == v[j]
    {
      assert t[i + j] == s[a + i + j];
    }
  }

  lemma SliceJoin<T>(s: seq<T>, a: nat, b: nat, c: nat)
    requires a <= b <= c <= |s|
    ensures s[a..b] + s[b..c] == s[a..c]
  {
  }

  lemma Regroup<T>(a: seq<T>, b: seq<T>, c: seq<T>)
    ensures a + (b + c) == a + b + c
  {
  }
}
