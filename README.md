# CSTR / PFR reactor sizing, modelled in Dafny

The calculator sizes two ideal reactors for one first-order, irreversible,
isothermal reaction. The two reactors are a continuously stirred tank
reactor (CSTR) and a plug-flow reactor (PFR). Its inputs are the feed rate
F, the rate constant k, the inlet concentration CAi and a target conversion
X. For each reactor type it gives the volume needed to reach X, the
PFR/CSTR volume ratio, and the conversion-versus-volume curve over a
sampled range of volumes.

The model has three modules:

- `Cstr` (`cstr.dfy`) holds the four closed-form formulas of `cstr.py`
  (`cstr_volume`, `pfr_volume`, `pfr_conversion_profile`,
  `cstr_conversion_profile`). It also holds the ratio that `main` displays
  and the elementwise sampling of the two profiles. Every property is
  proved about these.
- `Numerics` (`numerics.dfy`) stands in for `np.log` and `np.exp`. Dafny
  has no logarithm or exponential, so the PFR functions take a value
  `np: LogExp` that carries two functions `log` and `exp` on `real`.
  `np.Natural()` lists six laws that the real `ln` and `exp` satisfy:
  - exp is positive;
  - log undoes exp;
  - exp undoes log on the positive reals;
  - log 1 = 0;
  - log is strictly increasing;
  - the tangent-line bound e^w > 1 + w, written as exp(z) < 1/(1 - z) for
    z < 0.

  Everything else the PFR proofs use about log and exp is derived from
  these laws in that module: exp 0 = 1, exp is strictly increasing,
  0 < exp(z) <= 1 for z <= 0, and ln y > 1 - 1/y on (0, 1).
- `RealArith` (`real_arith.dfy`) holds the ordered-field facts (signs of
  products and quotients, cross-multiplication, cancellation) that the
  solver does not find unaided.

All arithmetic is over Dafny's mathematical `real`. The pure-arithmetic
(CSTR) facts are exact, with no floating-point tolerance. The PFR facts are
exact relative to the stated laws of log and exp.

Input bounds. The widgets in `main` (cstr.py:33-36) enforce F >= 0.1,
k >= 0.001, CAi >= 0.1 and 0 <= X <= 0.99. The functions require the
weaker F, k, CAi > 0 and 0 <= X < 1, which every input the widgets allow
meets. The two profile functions also require V >= 0. The calculator only
samples them on `np.linspace(0, 1.2 * V, 100)` with V >= 0.

The volume ratio at X = 0. The X slider starts at 0. At X = 0 both volumes
are 0, and `V_pfr/V_cstr` (cstr.py:46) is 0/0. In numpy that is NaN. The
model does not forbid X = 0. `VolumeRatio` returns `None` there and
`Some(r)` with 0 < r < 1 for every X in (0, 1).

On the formulas themselves. Both volume formulas divide by k·CAi, exactly
as the source does. In a textbook first-order mole balance
(F·CAi·X = k·CAi·(1 - X)·V) the inlet concentration cancels. The source's
CAi factor only matters when CAi ≠ 1 (the default is 1). The model keeps
the source's formulas. Every property below holds for every positive CAi.

## Model

| member | source | states |
|---|---|---|
| `Cstr.CstrVolume` | cstr.py:13-15 | The CSTR volume is non-negative, and it is 0 exactly when the target conversion is 0. |
| `Cstr.PfrVolume` | cstr.py:17-19 | The PFR volume is non-negative, and it is 0 exactly when X = 0. This follows from log 1 = 0 and log < 0 on (0, 1). |
| `Cstr.PfrConversionProfile` | cstr.py:21-23 | For V >= 0 the PFR conversion lies in [0, 1), and it is 0 exactly at V = 0. |
| `Cstr.CstrConversionProfile` | cstr.py:25-27 | For V >= 0 the CSTR conversion lies in [0, 1), and it is 0 exactly at V = 0. |
| `Cstr.VolumeRatio` | cstr.py:39-46 | The PFR/CSTR ratio is undefined (`None`, NaN in the source) exactly when X = 0. Otherwise it lies strictly between 0 and 1. |
| `Cstr.SamplePfrProfile` | cstr.py:52-53 | The sampled PFR curve has the same length and order as the volume range. Element i is the PFR conversion at volume i. |
| `Cstr.SampleCstrProfile` | cstr.py:61-62 | The sampled CSTR curve has the same length and order as the volume range. Element i is the CSTR conversion at volume i. |
| `Cstr.CstrVolumeIncreasing` | cstr.py:15 | The CSTR volume is strictly increasing in X on [0, 1). |
| `Cstr.CstrProfileIncreasing` | cstr.py:27 | The CSTR conversion is strictly increasing in V on [0, ∞). |
| `Cstr.CstrRoundTrip` | cstr.py:25-27 | `cstr_conversion_profile` inverts `cstr_volume` exactly: the tank sized for X converts X. |
| `Cstr.CstrVolumeRoundTrip` | cstr.py:13-15 | `cstr_volume` inverts `cstr_conversion_profile` exactly: sizing for the conversion a tank of volume V >= 0 reaches gives back V. |
| `Cstr.CstrVolumeUnbounded` | cstr.py:15 | The CSTR volume diverges as X approaches 1: every volume M >= 0 is exceeded at some X < 1. |
| `Cstr.PfrVolumeIncreasing` | cstr.py:19 | The PFR volume is strictly increasing in X on [0, 1). This follows from log being strictly increasing. |
| `Cstr.PfrProfileIncreasing` | cstr.py:23 | The PFR conversion is strictly increasing in V on [0, ∞). |
| `Cstr.PfrRoundTrip` | cstr.py:21-23 | `pfr_conversion_profile` inverts `pfr_volume` exactly: the reactor sized for X converts X, for 0 <= X < 1. |
| `Cstr.PfrVolumeRoundTrip` | cstr.py:17-19 | `pfr_volume` inverts `pfr_conversion_profile` exactly for every V >= 0. |
| `Cstr.PfrVolumeUnbounded` | cstr.py:19 | The PFR volume diverges as X approaches 1: every volume M >= 0 is exceeded at some X < 1. |
| `Cstr.PfrBelowCstr` | cstr.py:13-19 | For every X in (0, 1) the PFR needs strictly less volume than the CSTR. |
| `Cstr.CstrProfileBelowPfr` | cstr.py:21-27 | For every V > 0 the CSTR converts strictly less than the PFR. This is derived from PfrBelowCstr through the two round trips and monotonicity. |
| `Cstr.SamplePfrIncreasing` | cstr.py:52-53 | A strictly increasing sample range gives a strictly increasing PFR curve. |
| `Cstr.SampleCstrIncreasing` | cstr.py:61-62 | A strictly increasing sample range gives a strictly increasing CSTR curve. |
| `Cstr.CstrWorkedExample` | cstr.py:33-39 | At the widgets' default inputs (F = 10, k = 0.1, CAi = 1, X = 0.8) the CSTR needs 400 L, and a 400 L CSTR converts 0.8. |

## Left out

- Streamlit widgets, titles and text output (cstr.py:30-45): user interface. Only the widgets' bounds are kept, as preconditions.
- Matplotlib figures and plotting (cstr.py:49-69): rendering, with no logic.
- The `odeint` import (cstr.py:10): unused.
- `np.linspace` (cstr.py:52, cstr.py:61): its spacing is not modelled. A sample range is any sequence of non-negative volumes, given as input.
- IEEE-754 rounding, NaN and ±inf: the model works over mathematical reals. The one NaN a valid input produces (the ratio at X = 0) is modelled as `None`.
- The implementations of `np.log` and `np.exp`: foreign numeric routines, represented by a pair of functions that satisfy the laws stated in `Numerics.LogExp.Natural`.
- Numpy broadcasting of the profile functions over arrays: modelled by the two sampling functions over `seq<real>`.
- The numeric PFR scenario F = 10, k = 0.1, CAi = 1, X = 0.8 (about 160.94 L) is not stated as a lemma, because it depends on the numeric value of ln 0.2, which the laws of log do not fix.
