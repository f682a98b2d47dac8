/** Sizing of an isothermal continuously stirred tank reactor (CSTR) and a
    plug-flow reactor (PFR) for one first-order irreversible reaction.

    Parameters, as the input widgets bound them:
      F   volumetric feed rate (L/min),      at least 0.1
      k   first-order rate constant (1/min), at least 0.001
      CAi inlet concentration (mol/L),       at least 0.1
      X   target fractional conversion,      between 0 and 0.99
    The model asks only for F, k, CAi > 0 and 0 <= X < 1; arithmetic is over
    the mathematical reals, not IEEE doubles. */
module Cstr {
  import opened Numerics
  import opened RealArith

  /** An undefined result: the volume ratio where Python divides 0 by 0. */
  datatype Option<T> = None | Some(value: T)

  /** Mole balance on a perfectly mixed tank: V = F X / (k CAi (1 - X)). */
  function CstrVolume(F: real, k: real, CAi: real, X: real): (V: real)
    requires 0.0 < F && 0.0 < k && 0.0 < CAi && 0.0 <= X < 1.0
    ensures 0.0 <= V
    ensures V == 0.0 <==> X == 0.0
  {
    ProductPositive(k, CAi);
    ProductPositive(k * CAi, 1.0 - X);
    ProductSign(F, X);
    QuotientSign(F * X, k * CAi * (1.0 - X));
    F * X / (k * CAi * (1.0 - X))
  }

  /** Integrated plug-flow balance: V = -(F / (k CAi)) ln(1 - X). */
  function PfrVolume(np: LogExp, F: real, k: real, CAi: real, X: real): (V: real)
    requires np.Natural()
    requires 0.0 < F && 0.0 < k && 0.0 < CAi && 0.0 <= X < 1.0
    ensures 0.0 <= V
    ensures V == 0.0 <==> X == 0.0
  {
    LogAtMostOne(np, 1.0 - X);
    PfrVolumeScaled(np, F, k, CAi, X);
    ProductPositive(k, CAi);
    QuotientSign(F, k * CAi);
    ProductSign(F / (k * CAi), -np.log(1.0 - X));
    -F / (k * CAi) * np.log(1.0 - X)
  }

  /** Conversion reached by a PFR of volume V: X = 1 - exp(-k CAi V / F). */
  function PfrConversionProfile(np: LogExp, V: real, F: real, k: real, CAi: real): (X: real)
    requires np.Natural()
    requires 0.0 <= V && 0.0 < F && 0.0 < k && 0.0 < CAi
    ensures 0.0 <= X < 1.0
    ensures X == 0.0 <==> V == 0.0
  {
    PfrExponentSign(F, k, CAi, V);
    ExpNonPositive(np, -k * CAi * V / F);
    1.0 - np.exp(-k * CAi * V / F)
  }

  /** Conversion reached by a CSTR of volume V: X = k CAi V / (F + k CAi V). */
  function CstrConversionProfile(V: real, F: real, k: real, CAi: real): (X: real)
    requires 0.0 <= V && 0.0 < F && 0.0 < k && 0.0 < CAi
    ensures 0.0 <= X < 1.0
    ensures X == 0.0 <==> V == 0.0
  {
    ProductPositive(k, CAi);
    ProductSign(k * CAi, V);
    QuotientSign(k * CAi * V, F + k * CAi * V);
    QuotientBelowOne(k * CAi * V, F + k * CAi * V);
    k * CAi * V / (F + k * CAi * V)
  }

  /** The PFR/CSTR volume ratio that the calculator displays. At X = 0 both
      volumes are 0 and the quotient is undefined (NaN in Python): None. */
  function VolumeRatio(np: LogExp, F: real, k: real, CAi: real, X: real): (r: Option<real>)
    requires np.Natural()
    requires 0.0 < F && 0.0 < k && 0.0 < CAi && 0.0 <= X < 1.0
    ensures r.None? <==> X == 0.0
    ensures r.Some? ==> 0.0 < r.value < 1.0
  {
    var cstr := CstrVolume(F, k, CAi, X);
    if cstr == 0.0 then None
    else
      PfrBelowCstr(np, F, k, CAi, X);
      QuotientSign(PfrVolume(np, F, k, CAi, X), cstr);
      QuotientBelowOne(PfrVolume(np, F, k, CAi, X), cstr);
      Some(PfrVolume(np, F, k, CAi, X) / cstr)
  }

  /** The PFR curve: the profile applied to each sampled volume, in order. */
  function SamplePfrProfile(np: LogExp, Vs: seq<real>, F: real, k: real, CAi: real): (Xs: seq<real>)
    requires np.Natural()
    requires forall i :: 0 <= i < |Vs| ==> 0.0 <= Vs[i]
    requires 0.0 < F && 0.0 < k && 0.0 < CAi
    ensures |Xs| == |Vs|
    ensures forall i :: 0 <= i < |Vs| ==> Xs[i] == PfrConversionProfile(np, Vs[i], F, k, CAi)
  {
    if Vs == [] then []
    else [PfrConversionProfile(np, Vs[0], F, k, CAi)] + SamplePfrProfile(np, Vs[1..], F, k, CAi)
  }

  /** The CSTR curve: the profile applied to each sampled volume, in order. */
  function SampleCstrProfile(Vs: seq<real>, F: real, k: real, CAi: real): (Xs: seq<real>)
    requires forall i :: 0 <= i < |Vs| ==> 0.0 <= Vs[i]
    requires 0.0 < F && 0.0 < k && 0.0 < CAi
    ensures |Xs| == |Vs|
    ensures forall i :: 0 <= i < |Vs| ==> Xs[i] == CstrConversionProfile(Vs[i], F, k, CAi)
  {
    if Vs == [] then []
    else [CstrConversionProfile(Vs[0], F, k, CAi)] + SampleCstrProfile(Vs[1..], F, k, CAi)
  }

  /** -(F / (k CAi)) ln(1 - X) rewritten as (F / (k CAi)) (-ln(1 - X)). */
  lemma PfrVolumeScaled(np: LogExp, F: real, k: real, CAi: real, X: real)
    requires 0.0 < F && 0.0 < k && 0.0 < CAi && X < 1.0
    ensures -F / (k * CAi) * np.log(1.0 - X) == F / (k * CAi) * -np.log(1.0 - X)
  {
    ProductPositive(k, CAi);
    assert -F / (k * CAi) == -(F / (k * CAi));
  }

  /** The exponent -k CAi V / F is -(k CAi V) / F, non-positive, and zero
      only at V = 0. */
  lemma PfrExponentSign(F: real, k: real, CAi: real, V: real)
    requires 0.0 < F && 0.0 < k && 0.0 < CAi && 0.0 <= V
    ensures -k * CAi * V / F == -(k * CAi * V / F)
    ensures -k * CAi * V / F <= 0.0
    ensures -k * CAi * V / F == 0.0 <==> V == 0.0
  {
    ProductPositive(k, CAi);
    ProductSign(k * CAi, V);
    QuotientSign(k * CAi * V, F);
    assert -k * CAi * V == -(k * CAi * V);
  }

  /** The two PFR formulas are inverse as real arithmetic: for the volume
      -(F / (k CAi)) L the profile's exponent -k CAi V / F is L again. */
  lemma PfrExponentAtVolume(F: real, k: real, CAi: real, L: real)
    requires 0.0 < F && 0.0 < k && 0.0 < CAi
    ensures var V := -F / (k * CAi) * L; -k * CAi * V / F == L
  {
    var c := k * CAi;
    ProductPositive(k, CAi);
    var V := -F / c * L;
    assert (-F / c) * c == -F;
    assert c * V == -F * L;
    assert -k * CAi * V == F * L;
    QuotientOfMultiple(L, F);
  }

  /** The PFR profile at a volume whose exponent is known to be z. */
  lemma PfrProfileAtExponent(np: LogExp, V: real, F: real, k: real, CAi: real, z: real)
    requires np.Natural()
    requires 0.0 <= V && 0.0 < F && 0.0 < k && 0.0 < CAi
    requires -k * CAi * V / F == z
    ensures PfrConversionProfile(np, V, F, k, CAi) == 1.0 - np.exp(z)
  {
  }

  /** The converse: for the exponent z = -k CAi V / F, the volume
      -(F / (k CAi)) z is V again. */
  lemma PfrVolumeAtExponent(F: real, k: real, CAi: real, V: real)
    requires 0.0 < F && 0.0 < k && 0.0 < CAi
    ensures var z := -k * CAi * V / F; -F / (k * CAi) * z == V
  {
    var c := k * CAi;
    ProductPositive(k, CAi);
    var z := -k * CAi * V / F;
    assert z * F == -(c * V);
    assert (-F / c) * c == -F;
    assert (-F / c * z) * c == -F * z;
    assert (-F / c * z) * c == V * c;
    CancelFactor(-F / c * z, V, c);
  }

  // ---------------------------------------------------------------------
  // CSTR: monotonicity and the exact two-way inverse

  /** More conversion needs strictly more tank volume. */
  lemma CstrVolumeIncreasing(F: real, k: real, CAi: real, X1: real, X2: real)
    requires 0.0 < F && 0.0 < k && 0.0 < CAi && 0.0 <= X1 < X2 < 1.0
    ensures CstrVolume(F, k, CAi, X1) < CstrVolume(F, k, CAi, X2)
  {
    var c := k * CAi;
    ProductPositive(k, CAi);
    // X / (1 - X) is increasing: X1 (1 - X2) < X2 (1 - X1)
    ProductPositive(F, c);
    ScaleStrict(F * c, X1 * (1.0 - X2), X2 * (1.0 - X1));
    assert (F * X1) * (c * (1.0 - X2)) == (F * c) * (X1 * (1.0 - X2));
    assert (F * X2) * (c * (1.0 - X1)) == (F * c) * (X2 * (1.0 - X1));
    ProductPositive(c, 1.0 - X1);
    ProductPositive(c, 1.0 - X2);
    QuotientLess(F * X1, c * (1.0 - X1), F * X2, c * (1.0 - X2));
    assert CstrVolume(F, k, CAi, X1) == F * X1 / (c * (1.0 - X1));
    assert CstrVolume(F, k, CAi, X2) == F * X2 / (c * (1.0 - X2));
  }

  /** A larger tank converts strictly more. */
  lemma CstrProfileIncreasing(F: real, k: real, CAi: real, V1: real, V2: real)
    requires 0.0 < F && 0.0 < k && 0.0 < CAi && 0.0 <= V1 < V2
    ensures CstrConversionProfile(V1, F, k, CAi) < CstrConversionProfile(V2, F, k, CAi)
  {
    var c := k * CAi;
    ProductPositive(k, CAi);
    var a1, a2 := c * V1, c * V2;
    ScaleStrict(c, V1, V2);
    ProductSign(c, V1);
    // a / (F + a) is increasing: a1 (F + a2) < a2 (F + a1)
    ScaleStrict(F, a1, a2);
    assert a1 * (F + a2) == F * a1 + a1 * a2;
    assert a2 * (F + a1) == F * a2 + a1 * a2;
    QuotientLess(a1, F + a1, a2, F + a2);
  }

  /** The CSTR profile inverts the sizing formula: the tank sized for X
      converts exactly X. */
  lemma CstrRoundTrip(F: real, k: real, CAi: real, X: real)
    requires 0.0 < F && 0.0 < k && 0.0 < CAi && 0.0 <= X < 1.0
    ensures CstrConversionProfile(CstrVolume(F, k, CAi, X), F, k, CAi) == X
  {
    var c := k * CAi;
    ProductPositive(k, CAi);
    ProductPositive(c, 1.0 - X);
    var V := CstrVolume(F, k, CAi, X);
    assert V * (c * (1.0 - X)) == F * X;
    // c V = X (F + c V), so the profile's quotient is X
    assert c * V == X * (F + c * V);
    ProductSign(c, V);
    QuotientOfMultiple(X, F + c * V);
  }

  /** Conversely, sizing for the conversion a tank of volume V reaches gives
      back V. */
  lemma CstrVolumeRoundTrip(F: real, k: real, CAi: real, V: real)
    requires 0.0 < F && 0.0 < k && 0.0 < CAi && 0.0 <= V
    ensures CstrVolume(F, k, CAi, CstrConversionProfile(V, F, k, CAi)) == V
  {
    var c := k * CAi;
    ProductPositive(k, CAi);
    ProductSign(c, V);
    var s := F + c * V;
    var X := CstrConversionProfile(V, F, k, CAi);
    assert X * s == c * V;
    assert (1.0 - X) * s == F;
    assert (F * X) * s == (V * (c * (1.0 - X))) * s;
    CancelFactor(F * X, V * (c * (1.0 - X)), s);
    ProductPositive(c, 1.0 - X);
    QuotientOfMultiple(V, c * (1.0 - X));
  }

  /** The CSTR volume diverges as X approaches 1: any volume is exceeded by
      some conversion below 1 (and, by CstrVolumeIncreasing, by every larger
      one). */
  lemma CstrVolumeUnbounded(F: real, k: real, CAi: real, M: real)
    requires 0.0 < F && 0.0 < k && 0.0 < CAi && 0.0 <= M
    ensures exists X :: 0.0 <= X < 1.0 && M < CstrVolume(F, k, CAi, X)
  {
    var X := CstrConversionProfile(M + 1.0, F, k, CAi);
    CstrVolumeRoundTrip(F, k, CAi, M + 1.0);
    assert M < CstrVolume(F, k, CAi, X);
  }

  // ---------------------------------------------------------------------
  // PFR: the same facts, from the laws of log and exp

  /** More conversion needs strictly more plug-flow volume. */
  lemma PfrVolumeIncreasing(np: LogExp, F: real, k: real, CAi: real, X1: real, X2: real)
    requires np.Natural()
    requires 0.0 < F && 0.0 < k && 0.0 < CAi && 0.0 <= X1 < X2 < 1.0
    ensures PfrVolume(np, F, k, CAi, X1) < PfrVolume(np, F, k, CAi, X2)
  {
    var q := F / (k * CAi);
    var L1, L2 := np.log(1.0 - X1), np.log(1.0 - X2);
    assert 0.0 < q by {
      ProductPositive(k, CAi);
      QuotientSign(F, k * CAi);
    }
    assert L2 < L1 by { LogIncreasing(np, 1.0 - X2, 1.0 - X1); }
    assert PfrVolume(np, F, k, CAi, X1) == q * -L1 by { PfrVolumeScaled(np, F, k, CAi, X1); }
    assert PfrVolume(np, F, k, CAi, X2) == q * -L2 by { PfrVolumeScaled(np, F, k, CAi, X2); }
    NamedProductsOrdered(q, -L1, -L2, PfrVolume(np, F, k, CAi, X1), PfrVolume(np, F, k, CAi, X2));
  }

  /** A longer plug-flow reactor converts strictly more. */
  lemma PfrProfileIncreasing(np: LogExp, F: real, k: real, CAi: real, V1: real, V2: real)
    requires np.Natural()
    requires 0.0 < F && 0.0 < k && 0.0 < CAi && 0.0 <= V1 < V2
    ensures PfrConversionProfile(np, V1, F, k, CAi) < PfrConversionProfile(np, V2, F, k, CAi)
  {
    ProductPositive(k, CAi);
    ScaleStrict(k * CAi, V1, V2);
    QuotientMonotone(k * CAi * V1, k * CAi * V2, F);
    PfrExponentSign(F, k, CAi, V1);
    PfrExponentSign(F, k, CAi, V2);
    ExpIncreasing(np, -k * CAi * V2 / F, -k * CAi * V1 / F);
  }

  /** The PFR profile inverts the sizing formula: the reactor sized for X
      converts exactly X. */
  lemma PfrRoundTrip(np: LogExp, F: real, k: real, CAi: real, X: real)
    requires np.Natural()
    requires 0.0 < F && 0.0 < k && 0.0 < CAi && 0.0 <= X < 1.0
    ensures PfrConversionProfile(np, PfrVolume(np, F, k, CAi, X), F, k, CAi) == X
  {
    var L := np.log(1.0 - X);
    var V := PfrVolume(np, F, k, CAi, X);
    assert -k * CAi * V / F == L by {
      assert V == -F / (k * CAi) * L;
      PfrExponentAtVolume(F, k, CAi, L);
    }
    PfrProfileAtExponent(np, V, F, k, CAi, L);
    assert np.exp(np.log(1.0 - X)) == 1.0 - X;
  }

  /** Conversely, sizing for the conversion a reactor of volume V reaches
      gives back V. */
  lemma PfrVolumeRoundTrip(np: LogExp, F: real, k: real, CAi: real, V: real)
    requires np.Natural()
    requires 0.0 < F && 0.0 < k && 0.0 < CAi && 0.0 <= V
    ensures PfrVolume(np, F, k, CAi, PfrConversionProfile(np, V, F, k, CAi)) == V
  {
    PfrExponentSign(F, k, CAi, V);
    var z := -k * CAi * V / F;
    PfrVolumeAtExponent(F, k, CAi, V);
    var X := PfrConversionProfile(np, V, F, k, CAi);
    assert 1.0 - X == np.exp(z);
    assert np.log(np.exp(z)) == z;
  }

  /** The PFR volume diverges as X approaches 1. */
  lemma PfrVolumeUnbounded(np: LogExp, F: real, k: real, CAi: real, M: real)
    requires np.Natural()
    requires 0.0 < F && 0.0 < k && 0.0 < CAi && 0.0 <= M
    ensures exists X :: 0.0 <= X < 1.0 && M < PfrVolume(np, F, k, CAi, X)
  {
    var X := PfrConversionProfile(np, M + 1.0, F, k, CAi);
    PfrVolumeRoundTrip(np, F, k, CAi, M + 1.0);
    assert M < PfrVolume(np, F, k, CAi, X);
  }

  // ---------------------------------------------------------------------
  // Comparing the two reactor types

  /** For the same positive conversion, the PFR needs strictly less volume
      than the CSTR, which runs entirely at the outlet concentration. */
  lemma PfrBelowCstr(np: LogExp, F: real, k: real, CAi: real, X: real)
    requires np.Natural()
    requires 0.0 < F && 0.0 < k && 0.0 < CAi && 0.0 < X < 1.0
    ensures PfrVolume(np, F, k, CAi, X) < CstrVolume(F, k, CAi, X)
  {
    var y := 1.0 - X;
    LogLowerBound(np, y);
    // -ln y < 1/y - 1 = X / (1 - X)
    assert 1.0 / y - 1.0 == X / y;
    var c := k * CAi;
    ProductPositive(k, CAi);
    QuotientSign(F, c);
    ScaleStrict(F / c, -np.log(y), X / y);
    PfrVolumeScaled(np, F, k, CAi, X);
    // F X / (c y) == (F / c) (X / y)
    ProductPositive(c, y);
    assert ((F / c) * (X / y)) * (c * y) == F * X;
    QuotientOfMultiple((F / c) * (X / y), c * y);
  }

  /** For the same positive volume, the CSTR converts strictly less than the
      PFR: the volume comparison read through the two inverses. */
  lemma CstrProfileBelowPfr(np: LogExp, F: real, k: real, CAi: real, V: real)
    requires np.Natural()
    requires 0.0 < F && 0.0 < k && 0.0 < CAi && 0.0 < V
    ensures CstrConversionProfile(V, F, k, CAi) < PfrConversionProfile(np, V, F, k, CAi)
  {
    var Xc := CstrConversionProfile(V, F, k, CAi);
    var Xp := PfrConversionProfile(np, V, F, k, CAi);
    CstrVolumeRoundTrip(F, k, CAi, V);
    PfrVolumeRoundTrip(np, F, k, CAi, V);
    PfrBelowCstr(np, F, k, CAi, Xc);
    // PfrVolume(Xc) < CstrVolume(Xc) == V == PfrVolume(Xp), so Xc < Xp
    if Xp <= Xc {
      if Xp < Xc {
        PfrVolumeIncreasing(np, F, k, CAi, Xp, Xc);
      }
      assert false;
    }
  }

  // ---------------------------------------------------------------------
  // Sampled curves

  /** An increasing sample range gives an increasing PFR curve. */
  lemma {:induction false} SamplePfrIncreasing(np: LogExp, Vs: seq<real>, F: real, k: real, CAi: real)
    requires np.Natural()
    requires forall i :: 0 <= i < |Vs| ==> 0.0 <= Vs[i]
    requires forall i, j :: 0 <= i < j < |Vs| ==> Vs[i] < Vs[j]
    requires 0.0 < F && 0.0 < k && 0.0 < CAi
    ensures var Xs := SamplePfrProfile(np, Vs, F, k, CAi);
      forall i, j :: 0 <= i < j < |Xs| ==> Xs[i] < Xs[j]
  {
    var Xs := SamplePfrProfile(np, Vs, F, k, CAi);
    forall i, j | 0 <= i < j < |Xs| ensures Xs[i] < Xs[j] {
      PfrProfileIncreasing(np, F, k, CAi, Vs[i], Vs[j]);
    }
  }

  /** An increasing sample range gives an increasing CSTR curve. */
  lemma {:induction false} SampleCstrIncreasing(Vs: seq<real>, F: real, k: real, CAi: real)
    requires forall i :: 0 <= i < |Vs| ==> 0.0 <= Vs[i]
    requires forall i, j :: 0 <= i < j < |Vs| ==> Vs[i] < Vs[j]
    requires 0.0 < F && 0.0 < k && 0.0 < CAi
    ensures var Xs := SampleCstrProfile(Vs, F, k, CAi);
      forall i, j :: 0 <= i < j < |Xs| ==> Xs[i] < Xs[j]
  {
    var Xs := SampleCstrProfile(Vs, F, k, CAi);
    forall i, j | 0 <= i < j < |Xs| ensures Xs[i] < Xs[j] {
      CstrProfileIncreasing(F, k, CAi, Vs[i], Vs[j]);
    }
  }

  /** F = 10, k = 0.1, CAi = 1, X = 0.8: the CSTR needs 400 L, and a 400 L
      CSTR converts 0.8. */
  lemma CstrWorkedExample()
    ensures CstrVolume(10.0, 0.1, 1.0, 0.8) == 400.0
    ensures CstrConversionProfile(400.0, 10.0, 0.1, 1.0) == 0.8
  {
  }
}
