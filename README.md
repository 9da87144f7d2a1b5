# fbos delay line and biquad, modelled in Dafny

The fbos oscillator makes its sound from two header-only primitives. This project models both.

- **The power-of-two circular delay line** (`delay_line.h`). It is a caller-supplied sample array with a `size` that is a power of two and `mask = size - 1`. It also holds a `uint32_t` write index `wr_idx` that steps back by one slot on every write, and a one-sample memory `fracz`. Offset `pos` addresses slot `(wr_idx + pos) & mask` in 32-bit wrap-around arithmetic.
  - The model is the class `Delay.DelayLine` over an `array<real>`.
  - A ghost field `written` lists every sample written since the last clear.
  - The invariant `Valid()` says that offset `k` (with `1 <= k <= size`) holds the sample written `k` writes ago, or 0 if fewer writes happened.
  - A write stores at the old index and then decrements. So `read(1)` is the sample just written, and `read(0)` is the oldest sample, the one the next write overwrites.
- **The biquad section** (`inc/biquad.h`). It has fifteen closed-form setters. Each maps one or two design parameters to the five coefficients `ff0, ff1, ff2, fb1, fb2`. There is also `biquad_flush`, plus the per-sample transposed direct form II updates `biquad_process_so` and `biquad_process_fo` of the registers `mZ1` and `mZ2`.
  - Every setter writes all five coefficients and nothing else. So each setter is a pure function returning a `Coeffs` value, and `Biquad.SetCoeffs` stores it without touching the registers.
  - The registers live in the class `BiquadFilter.Biquad`, whose methods update them step by step as the C code does.
  - `RunSo` and `RunFo` are the outputs of calling the per-sample update once per input from flushed registers. The lemmas about them prove that the transposed structure computes the textbook direct-form difference equation.

Samples and coefficients are exact reals. `uint32_t` arithmetic is explicit: `IntMath.Wrap32` is reduction modulo 2^32, and `IntMath.BitAnd` is bitwise AND on naturals. `IntMath.MaskIsMod` proves that masking with `size - 1` is reduction modulo `size`.

Modules:
- `IntMath`: `uint32_t` wrap-around, AND, powers of two, and `nextpow2_u32`.
- `FloatMath`: `linintf` and the `(uint32_t)` conversion of a float.
- `Delay`: the delay line.
- `BiquadFilter`: the biquad.

## Model

| member | source | states |
|---|---|---|
| IntMath.Wrap32 | delay_line.h:46 | A `uint32_t` result of exact integer arithmetic: it is left alone when already in [0, 2^32) and otherwise differs from the exact value by a multiple of 2^32, the C wrap-around of `wr_idx--` and `wr_idx + pos`. |
| IntMath.BitAnd | delay_line.h:58 | C's `&` on naturals: the result is at most either operand, and its low bit is set exactly when both operands' low bits are. |
| IntMath.NextPow2 | delay_line.h:33 | The result is a power of two `r` with `n <= r < 2n`, the value `nextpow2_u32` stands for. |
| IntMath.NextPow2IsSmallest | delay_line.h:33 | No power of two that is at least `n` is smaller than `NextPow2(n)`, so the capacity is the smallest power of two that holds the requested size. |
| IntMath.NextPow2OfPow2 | delay_line.h:33 | A requested size that is already a power of two is kept unchanged. |
| IntMath.MaskIsMod | delay_line.h:34 | For a power-of-two `n`, `x & (n - 1)` equals `x mod n`, for every natural `x`. |
| IntMath.Pow2DividesU32 | delay_line.h:34 | Every power of two up to 2^32 divides 2^32. |
| IntMath.WrapThenMod | delay_line.h:58 | Reducing modulo 2^32 first does not change the remainder modulo a power of two `n <= 2^32`. |
| FloatMath.Linint | delay_line.h:74 | `linintf(fr, x0, x1)` is `x0` at `fr = 0`, `x1` at `fr = 1`, and the midpoint at `fr = 1/2`. For `fr` in [0, 1] it lies between `x0` and `x1`. |
| FloatMath.TruncToU32 | delay_line.h:70 | `(uint32_t)x` truncates toward zero: for x >= 0 the result is the integer part, with `b <= x < b + 1`, and for -1 < x < 0 it is 0. |
| Delay.Slot | delay_line.h:58 | The slot `(wrIdx + pos) & mask` is at most `mask` for every `uint32_t` `wrIdx` and `pos`, including when the sum wraps. |
| Delay.SlotIsMod | delay_line.h:58 | With `mask = size - 1` and a power-of-two `size`, the slot addressed is `(wrIdx + pos) mod size`, even across the 2^32 wrap. |
| Delay.SlotZero | delay_line.h:46 | Offset 0 addresses `wrIdx & mask`, the slot a write stores to. |
| Delay.SlotCongruent | delay_line.h:58 | Offsets with the same remainder modulo `size` address the same slot. |
| Delay.SlotAliases | delay_line.h:58 | Offsets `pos` and `pos + size` (in `uint32_t`) address the same slot. |
| Delay.StepBackMod | delay_line.h:46 | Decrementing the index with wrap-around and then adding `k` gives the same slot as adding `k - 1` to the old index. |
| Delay.Age | delay_line.h:58 | An offset read, counted in writes ago, is in 1..size and has the offset's remainder modulo `size`. Offsets 1..size are their own age; offset 0 is `size` writes ago. |
| Delay.WriteKeepsHistory | delay_line.h:46 | Storing `s` at `wrIdx mod size` and stepping the index back by one turns a buffer holding history `h` into one holding `h + [s]`. |
| Delay.PastOfAppend | delay_line.h:46 | After one more write, the sample `k` writes ago is the one that was `k - 1` writes ago, and `s` is the one 1 write ago. |
| Delay.ZeroesHoldEmptyHistory | delay_line.h:19 | A line whose first `size` slots are 0 holds the empty history: every offset reads 0. |
| Delay.HostLineSizeKept | main.c:29 | The 2048 samples the oscillator asks for form a power of two, so `delay_line_init` keeps that length. |
| Delay.DelayLine.constructor | delay_line.h:30-37 | `delay_line_init` has six outcomes. (1) The line is bound to `ram`. (2) `size` is `nextpow2_u32(lineSize)`: a power of two in [lineSize, 2·lineSize), equal to `lineSize` when that is already a power of two. (3) `mask == size - 1`. (4) `wrIdx == 0` and `fracz == 0`. (5) Slots [0, size) are 0 and slots past `size` are unchanged. (6) The history invariant holds with nothing written. |
| Delay.DelayLine.Clear | delay_line.h:18-20 | `delay_line_clear` zeroes slots [0, size), leaves the rest of the array alone, and restores the invariant with an empty history. |
| Delay.DelayLine.Write | delay_line.h:45-47 | `delay_line_write` changes only slot `old wrIdx mod size`, to `s`. `wrIdx` becomes `old wrIdx - 1` mod 2^32. `line`, `size`, `mask` and `fracz` are unchanged. Afterwards `Read(1) == s`, and `Read(k)` is what `Read(k - 1)` was before, for 2 <= k <= size. The invariant is kept with `s` appended to the history. |
| Delay.DelayLine.ShiftedByWrite | delay_line.h:46 | Between two valid states one write of `s` apart, offset 1 reads `s` and offset `k` reads what offset `k - 1` read before. |
| Delay.DelayLine.Read | delay_line.h:57-59 | `delay_line_read(pos)` returns the sample written `Age(pos)` writes ago, or 0 if fewer writes happened. A function of the state, so it changes nothing. |
| Delay.DelayLine.ReadIsPast | delay_line.h:57-59 | For 1 <= k <= size, `Read(k)` is the sample written exactly `k` writes ago (0 if fewer). |
| Delay.DelayLine.ReadAliases | delay_line.h:58 | `Read(pos) == Read(pos + size)`, with the `uint32_t` wrap, for every `pos`. |
| Delay.DelayLine.ReadZeroIsOldest | delay_line.h:58 | `Read(0) == Read(size)`, the oldest sample in the line. |
| Delay.DelayLine.ReadFrac | delay_line.h:69-75 | It takes `base = (uint32_t)pos` and `frac = pos - base`, and returns `linintf(frac, ...)` of the samples at offsets `base` and `base + 1`. For pos >= 0 the result lies between those two samples. For an integer `pos` it equals `Read(pos)`. For pos in (-1, 0) it is `linintf(pos, Read(0), Read(1))`. |
| Delay.DelayLine.ReadFracz | delay_line.h:86-93 | `delay_line_read_fracz` returns `linintf(frac, Read(pos), old fracz)` and then sets `fracz` to `Read(pos)`. It changes nothing else, and the invariant is kept. |
| BiquadFilter.Wc | inc/biquad.h:24-26 | `biquad_wc` scales a frequency by the reciprocal sample rate; dividing the result by that reciprocal gives the frequency back. |
| BiquadFilter.PoleLp | inc/biquad.h:34-38 | This is first order (`ff2 = fb2 = 0`) with `ff1 = 0` and `fb1 = -pole`. Its numerator equals its denominator at DC (gain 1 wherever the denominator is non-zero). |
| BiquadFilter.PoleHp | inc/biquad.h:46-50 | This is first order with `ff1 = 0` and `fb1 = pole`. Its numerator equals its denominator at Nyquist (gain 1 wherever the denominator is non-zero). |
| BiquadFilter.FoDc | inc/biquad.h:58-63 | This is first order with `ff0 = 1` and `fb1 = -pole`. Its numerator has a zero at DC. |
| BiquadFilter.FoLp | inc/biquad.h:71-77 | This is first order with `ff0 == ff1 == k/(k+1)` and `fb1 == (k-1)/(k+1)`. Its numerator equals its denominator at DC (gain 1 wherever the denominator is non-zero), and it has a zero at Nyquist. Requires `k + 1 != 0`. |
| BiquadFilter.FoHp | inc/biquad.h:85-93 | This is first order with `ff0 == 1/(k+1)`, `ff1 == -ff0` and `fb1 == (k-1)/(k+1)`. It has a zero at DC, and its numerator equals its denominator at Nyquist (gain 1 wherever the denominator is non-zero). Requires `k + 1 != 0`. |
| BiquadFilter.FoAp | inc/biquad.h:101-108 | This has the first-order all-pass shape `ff0 == fb1 == (k-1)/(k+1)`, `ff1 == 1`. At DC its numerator equals its denominator and at Nyquist it is the denominator negated, so the gain is +1 and -1 wherever the denominator is non-zero. Requires `k + 1 != 0`. |
| BiquadFilter.FoAp2 | inc/biquad.h:118-125 | This is first order with `ff0 == -fb1 == 1 - wc` and `ff1 == -1`. At DC its numerator is the denominator negated and at Nyquist it equals the denominator, so the gain is -1 and +1 wherever the denominator is non-zero. |
| BiquadFilter.SoDc | inc/biquad.h:133-138 | As written, it has a double pole `(1 - pole·w)²` over the numerator `(1 + w)²`. That numerator vanishes at Nyquist, not at DC. |
| BiquadFilter.SoDcBlock | inc/biquad.h:133-138 | Corrected second-order DC filter. It has the same poles as the as-written setter over the numerator `(1 - w)²`, so it has a zero at DC. |
| BiquadFilter.SoLp | inc/biquad.h:147-156 | With `D = q·k² + k + q != 0`, it sets `fb1 = 2(q·k² - q)/D` and `fb2 = (q·k² - k + q)/D`, and `ff0 == ff2 == q·k²/D`, `ff1 == 2·ff0`. Its numerator equals its denominator at DC (gain 1 wherever the denominator is non-zero), with a zero at Nyquist. |
| BiquadFilter.SoHp | inc/biquad.h:165-174 | It has the same `fb1` and `fb2` over `D`, with `ff0 == ff2 == q/D` and `ff1 == -2·ff0`. It has a zero at DC, and its numerator equals its denominator at Nyquist (gain 1 wherever the denominator is non-zero). |
| BiquadFilter.SoBp | inc/biquad.h:183-193 | It has the same `fb1` and `fb2` over `D`, with `ff0 == k/D`, `ff1 == 0` and `ff2 == -ff0`. It has zeros at DC and at Nyquist. |
| BiquadFilter.SoBr | inc/biquad.h:202-210 | It has the same `fb1` and `fb2` over `D`, with `ff0 == ff2 == (q·k² + q)/D` and `ff1 == fb1`. Its numerator equals its denominator at DC and at Nyquist (gain 1 wherever the denominator is non-zero). |
| BiquadFilter.SoAp | inc/biquad.h:219-227 | It has the same `fb1` and `fb2` over `D`, and the all-pass shape `ff0 == fb2`, `ff1 == fb1`, `ff2 == 1`. |
| BiquadFilter.SoAp2 | inc/biquad.h:239-247 | It has the all-pass shape with `fb2 == (1 - gamma)/(1 + gamma)` and `fb1 == -2·delta/(1 + gamma)`. Requires `gamma + 1 != 0`. |
| BiquadFilter.SoAp3 | inc/biquad.h:258-266 | It has the all-pass shape with `fb2 == radius²` and `fb1 == -2·radius·delta`. For a `delta` in [-1, 1], `fb1² <= 4·fb2`, so the poles are complex conjugates (or a double pole). |
| BiquadFilter.ConjugatePoles | inc/biquad.h:261-262 | For `delta` in [-1, 1], `(2·radius·delta)² <= 4·radius²`. |
| BiquadFilter.SecondOrderAllPassMirrors | inc/biquad.h:224-226 | For the second-order all-pass shape, `Num(w) == w²·Den(1/w)`: the numerator is the denominator reversed. |
| BiquadFilter.FirstOrderAllPassMirrors | inc/biquad.h:105-106 | For the first-order all-pass shape, `Num(w) == w·Den(1/w)`. |
| BiquadFilter.SoLpPlusHpIsBr | inc/biquad.h:147-210 | Low pass and high pass share the band reject's poles, and their numerators add up tap by tap to the band reject's numerator. |
| BiquadFilter.SoBrPlusBpIsIdentity | inc/biquad.h:183-210 | The band reject and band pass numerators add up to the shared denominator, so their sum is the identity filter. |
| BiquadFilter.SoApIsBrMinusBp | inc/biquad.h:183-227 | The (k, q) all pass has the band reject's poles, and its numerator is band reject minus band pass. |
| BiquadFilter.FoLpPlusHpIsIdentity | inc/biquad.h:71-93 | The first-order low pass and high pass share their pole, and their numerators add up to the denominator. |
| BiquadFilter.FoApIsLpMinusHp | inc/biquad.h:71-108 | The first-order all pass is low pass minus high pass, with the same pole. |
| BiquadFilter.SoDcPassesDc | inc/biquad.h:133-138 | As written `biquad_so_dc` has numerator 4 at DC. A cascade of two `biquad_fo_dc` has 0 there, so the setter has no zero at DC. |
| BiquadFilter.SoDcBlockIsFoDcSquared | inc/biquad.h:58-63 | The corrected second-order DC filter's numerator and denominator are the squares of `biquad_fo_dc`'s, for every `w`. |
| BiquadFilter.RunSo | inc/biquad.h:284-291 | The outputs and final registers of calling `biquad_process_so` once per input from flushed registers, one output per input. |
| BiquadFilter.RunFo | inc/biquad.h:301-306 | The outputs and final registers of calling `biquad_process_fo` once per input from flushed registers, one output per input. |
| BiquadFilter.SoStepKeepsPending | inc/biquad.h:284-291 | Suppose the registers hold what the last two inputs and outputs contribute to the next output. Then one update gives the direct-form output, and the registers afterwards hold the same thing for the shifted history. |
| BiquadFilter.SoRegisters | inc/biquad.h:284-291 | After any run from flushed registers, `mZ1 = ff1·x[n-1] + ff2·x[n-2] - fb1·y[n-1] - fb2·y[n-2]` and `mZ2 = ff2·x[n-1] - fb2·y[n-1]`. |
| BiquadFilter.SoLastOutput | inc/biquad.h:284-291 | The newest output of a run follows the difference equation from the inputs and outputs before it. |
| BiquadFilter.SoDifferenceEquation | inc/biquad.h:284-291 | Repeated `biquad_process_so` from flushed registers gives `y[n] = ff0·x[n] + ff1·x[n-1] + ff2·x[n-2] - fb1·y[n-1] - fb2·y[n-2]` at every `n`, with samples before the start taken as 0. |
| BiquadFilter.RunSoPrefix | inc/biquad.h:284-291 | The outputs for a prefix of the input are the same prefix of the outputs; later input does not change earlier output. |
| BiquadFilter.RunFoPrefix | inc/biquad.h:301-306 | The same prefix property holds for the first-order run. |
| BiquadFilter.FoStepKeepsPending | inc/biquad.h:301-306 | One first-order update gives the first-order output, keeps `mZ1` holding the last input's and output's share, and leaves `mZ2` alone. |
| BiquadFilter.FoRegisters | inc/biquad.h:301-306 | After any first-order run from flushed registers, `mZ1 = ff1·x[n-1] - fb1·y[n-1]` and `mZ2` is still 0. |
| BiquadFilter.FoLastOutput | inc/biquad.h:301-306 | The newest first-order output follows the first-order difference equation. |
| BiquadFilter.FoDifferenceEquation | inc/biquad.h:301-306 | Repeated `biquad_process_fo` from flushed registers gives `y[n] = ff0·x[n] + ff1·x[n-1] - fb1·y[n-1]` at every `n`. |
| BiquadFilter.FirstOrderRunsAgree | inc/biquad.h:284-306 | With first-order coefficients (`ff2 = fb2 = 0`), the second-order and first-order runs give the same outputs and registers, and `mZ2` stays 0. |
| BiquadFilter.SoSilenceInSilenceOut | inc/biquad.h:284-291 | A zero input stream from flushed registers gives an all-zero output and leaves the registers flushed. |
| BiquadFilter.FoSilenceInSilenceOut | inc/biquad.h:301-306 | The same holds for `biquad_process_fo`. |
| BiquadFilter.ZeroCoeffsSilence | inc/biquad.h:284-291 | All-zero coefficients give an all-zero output for every input, and the registers stay flushed. |
| BiquadFilter.PoleLpZeroIsWire | inc/biquad.h:34-38 | `biquad_pole_lp(0)` gives `ff0 = 1` and the other coefficients 0. From flushed registers, `biquad_process_so` then returns every input unchanged. |
| BiquadFilter.Biquad.constructor | inc/biquad.h:11-15 | A biquad in zero-initialised storage has all coefficients and both registers 0. |
| BiquadFilter.Biquad.SetCoeffs | inc/biquad.h:34-38 | Storing a setter's result replaces all five coefficients and leaves `mZ1` and `mZ2` unchanged; this holds for every setter in lines 34-266. |
| BiquadFilter.Biquad.Flush | inc/biquad.h:272-274 | `biquad_flush` sets `mZ1 = mZ2 = 0` and keeps the coefficients. |
| BiquadFilter.Biquad.ProcessSo | inc/biquad.h:284-291 | `biquad_process_so` returns `ff0·x + mZ1`. It sets `mZ1` to `ff1·x + mZ2 - fb1·y` and `mZ2` to `ff2·x - fb2·y` (one `SoStep`). The coefficients are kept. |
| BiquadFilter.Biquad.FlushAndProcessSo | inc/biquad.h:272-291 | Flushing and then calling `biquad_process_so` once per input gives exactly the outputs and the final registers of `RunSo`, so the difference-equation lemmas hold for the method's outputs. The coefficients are kept. |
| BiquadFilter.Biquad.FlushAndProcessFo | inc/biquad.h:272-306 | Flushing and then calling `biquad_process_fo` once per input gives exactly the outputs and final registers of `RunFo`. The coefficients are kept. |
| BiquadFilter.Biquad.ProcessFo | inc/biquad.h:301-306 | `biquad_process_fo` returns `ff0·x + mZ1` and sets `mZ1` to `ff1·x - fb1·y` (one `FoStep`). `mZ2` and the coefficients are untouched. |

## Left out

- The host shell in `main.c` is not modelled: the `OSC_*` callbacks, the SDK calls, the static engine state, pitch-to-tap conversion and saturation. They depend on an SDK that is not shown, and the feedback loop's boundedness is a question of float dynamics. Only the line length it passes to `delay_line_init` is checked (`Delay.HostLineSizeKept`).
- IEEE-754 behaviour is not modelled: rounding, `-Ofast`, denormals, and NaN/Inf from near-zero denominators. Samples and coefficients are exact reals.
- `Delay.DelayLine.ReadFrac`: `(uint32_t)pos` is modelled as truncation toward zero (`FloatMath.TruncToU32`). That conversion is defined only when the truncated value fits in `uint32_t`, that is for -1 < pos < 2^32, so the function requires that range. For pos in (-1, 0) the base is 0 and `frac` is negative, so the result extrapolates past offset 0 and the between-the-samples bound is stated only for pos >= 0.
- Frequency-response and stability claims ("flat response at q = sqrt(2)", all-pass magnitude at every frequency, pole radius and stability) are not stated. The model proves the coefficient algebra, the DC and Nyquist gains, the mirrored all-pass polynomials, and for `biquad_so_ap3` only the discriminant bound `fb1² <= 4·fb2`.
- `int_math.h`, `float_math.h` and `buffer_ops.h` are not part of this model.
  - `nextpow2_u32` is modelled by its result, the smallest power of two that is at least `n`. Its result for 0 is not known, so the constructor requires `lineSize >= 1`.
  - The constructor also requires `lineSize <= 2^31`, so that the rounded size fits in `uint32_t`.
  - `linintf` is modelled as `x0 + fr·(x1 - x0)`.
  - `buf_clr_f32` is modelled as a zero-fill loop over the first `size` slots.
- The caller's ownership of `ram` becomes the precondition `NextPow2(lineSize) <= ram.Length`, which the C code never checks.
- Memory-placement and inlining attributes (`__sdram`, `always_inline`, `optimize`) are not modelled.
- `Delay.DelayLine.Clear`: its ghost history restarts empty, so the read history after a clear counts writes since that clear. The C function only zeroes the samples; the index is kept, as in the source.
- `BiquadFilter.RunSo`, `BiquadFilter.RunFo`: the difference-equation lemmas start from flushed registers, as the property is stated for zero initial conditions. `Biquad.ProcessSo` and `Biquad.ProcessFo` themselves are specified for any register state.
- The setters store into `bq->c` in the C code. Here they return a `Coeffs` value that `Biquad.SetCoeffs` stores, because each one overwrites all five fields and reads no field it has not already written in the same call (`biquad_fo_hp`, `biquad_so_lp`, `biquad_so_hp` and `biquad_so_bp` read back the `ff0` they just stored).

## Findings

| source | as written | input that shows it | evidently intended | confidence | as-written member | corrected member |
|---|---|---|---|---|---|---|
| inc/biquad.h:135 | `biquad_so_dc` sets `ff1 = 2`, giving the numerator `(1 + w)²`: a double zero at Nyquist, and gain `4/(1 - pole)²` at DC | `pole = 0`: coefficients (1, 2, 1, 0, 0), numerator 4 at DC, so a DC input is amplified four times instead of removed | `ff1 = -2`, the numerator `(1 - w)²` of two `biquad_fo_dc` sections in cascade, a double zero at DC (the doc-comment "second order DC filter" at inc/biquad.h:128, and its first-order sibling `biquad_fo_dc` at inc/biquad.h:58-63, whose numerator squared is `(1 - w)²`) | medium, not executed (main.c:82, the only use of the filter's output, is commented out) | BiquadFilter.SoDcPassesDc | BiquadFilter.SoDcBlockIsFoDcSquared |
