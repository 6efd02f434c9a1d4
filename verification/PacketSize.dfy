/**
 The packet size exponent (cfgfile.c): `paclen`, `faclen` and the configuration line Pacsize_in.  The
 exponent is the flow control parameter of section 7.2.2.1 of ITU-T X.25.
 */
module PacketSize {
  import opened Common
  import opened Text

  const MIN_EXPONENT := 4
  const MAX_EXPONENT := 12

  function Paclen(k: nat): nat { Pow2(k) }

  /** `n >> 1`; the shift of a negative number is arithmetic. */
  function Shr(n: int): int { n / 2 }

  function Shifted(n: int, k: nat): int
    decreases k
  {
    if k == 0 then n else Shifted(Shr(n), k - 1)
  }

  /** `faclen` of a non-negative number: how often it can be halved before it is 0, less one. */
  function Faclen(n: nat): nat { if n < 2 then 0 else 1 + Faclen(n / 2) }

  /** The loop; on a negative number it would never end. */
  method FaclenLoop(packetLen: int) returns (i: nat)
    requires packetLen >= 0
    ensures i == Faclen(packetLen)
  {
    i := 0;
    var p := Shr(packetLen);
    while p != 0
      invariant p >= 0 && i + (if p == 0 then 0 else 1 + Faclen(p)) == Faclen(packetLen)
      decreases p
    {
      i := i + 1;
      p := Shr(p);
    }
  }

  /** The loop of `faclen` ends, by some shift yielding 0, exactly for non-negative numbers. */
  lemma LoopEndsIffNonNegative(n: int)
    ensures (exists k: nat :: k >= 1 && Shifted(n, k) == 0) <==> n >= 0
  {
    if n >= 0 {
      ShiftsToZero(n);
    } else {
      forall k: nat
        ensures Shifted(n, k) != 0
      {
        StaysNegative(n, k);
      }
    }
  }

  /** The configured size "-1" is read as a negative number, and no shift of it is ever 0. */
  lemma NegativeSizeHangs(k: nat)
    ensures Atoi("-1") == -1 && Shifted(Atoi("-1"), k) != 0
  {
    assert "-1"[1..] == "1" && "1"[1..] == "";
    assert DigitSpan("1") == 1 + DigitSpan("");
    assert Leading("1") == "1" && "1"[..0] == "";
    StaysNegative(-1, k);
  }

  lemma {:induction false} ShiftsToZero(n: nat)
    ensures Shifted(n, 1 + Faclen(n)) == 0
  {
    if n >= 2 {
      ShiftsToZero(n / 2);
    } else {
      assert Shifted(n, 1) == Shifted(Shr(n), 0);
    }
  }

  lemma {:induction false} StaysNegative(n: int, k: nat)
    requires n < 0
    ensures Shifted(n, k) < 0
    decreases k
  {
    if k > 0 {
      StaysNegative(Shr(n), k - 1);
    }
  }

  /** The exponent stands for the largest power of two that is not larger than the size. */
  lemma {:induction false} ExponentIsLargest(n: nat)
    requires n >= 1
    ensures Paclen(Faclen(n)) <= n < 2 * Paclen(Faclen(n))
  {
    if n >= 2 {
      ExponentIsLargest(n / 2);
    }
  }

  lemma {:induction false} FaclenOfPaclen(k: nat)
    ensures Faclen(Paclen(k)) == k
  {
    if k > 0 {
      FaclenOfPaclen(k - 1);
    }
  }

  lemma {:induction false} FaclenMonotone(m: nat, n: nat)
    requires m <= n
    ensures Faclen(m) <= Faclen(n)
  {
    if m >= 2 {
      FaclenMonotone(m / 2, n / 2);
    }
  }

  // ---------------------------------------------------------------------------------------------
  // The configuration line.

  /** What a Pacsize_in line stores. */
  function Read(val: string): (k: nat)
    requires Atoi(val) >= 0
    ensures MIN_EXPONENT <= k <= MAX_EXPONENT
  {
    Max(MIN_EXPONENT, Min(Faclen(Atoi(val)), MAX_EXPONENT))
  }

  /** What a new configuration file says for a stored exponent. */
  function Write(k: nat): string { Dec(Paclen(k)) }

  /** A stored exponent survives being written and read again. */
  lemma ConfigRoundTrip(k: nat)
    requires 4 <= k <= 12
    ensures Atoi(Write(k)) >= 0 && Read(Write(k)) == k
  {
    AtoiOfDec(Paclen(k));
    FaclenOfPaclen(k);
  }

  /** The stored size is the largest power of two not above the configured one, exactly within the range of sizes. */
  lemma ConfiguredSize(val: string)
    requires Atoi(val) >= 0
    ensures Paclen(Read(val)) <= Atoi(val) < 2 * Paclen(Read(val))
            <==> 16 <= Atoi(val) < 8192
    ensures Atoi(val) < 16 ==> Paclen(Read(val)) == 16
    ensures Atoi(val) >= 8192 ==> Paclen(Read(val)) == 4096
  {
    var n := Atoi(val);
    Powers();
    if n < 16 {
      SmallExponent(n);
    } else if n >= 8192 {
      FaclenMonotone(8192, n);
      FaclenOfPaclen(13);
    } else {
      FaclenMonotone(16, n);
      FaclenOfPaclen(4);
      FaclenMonotone(n, 8191);
      FaclenBelow(13, 8191);
      ExponentIsLargest(n);
    }
    hide Pow2, Faclen, Atoi;
  }

  lemma Powers()
    ensures Pow2(4) == 16 && Pow2(12) == 4096 && Pow2(13) == 8192
  {
    assert Pow2(4) == 16;
    assert Pow2(8) == 256;
    assert Pow2(12) == 4096;
  }

  /** A number below a power of two has a smaller exponent. */
  lemma FaclenBelow(k: nat, n: nat)
    requires k >= 1 && n < Pow2(k)
    ensures Faclen(n) < k
  {
    if n >= 1 {
      ExponentIsLargest(n);
      if Faclen(n) >= k { PowMonotone(k, Faclen(n)); }
    }
  }

  lemma SmallExponent(n: nat)
    requires n < 16
    ensures Faclen(n) < 4
  {
    Powers();
    FaclenBelow(4, n);
  }

  lemma {:induction false} PowMonotone(a: nat, b: nat)
    requires a <= b
    ensures Pow2(a) <= Pow2(b)
  {
    if a < b {
      PowMonotone(a, b - 1);
    }
  }
}
