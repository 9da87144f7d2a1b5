/** The biquad section: a record of five coefficients, the closed-form
    setters that derive it for each filter shape, and the per-sample
    transposed direct form II updates of the two state registers. Samples and
    coefficients are exact reals. */
module BiquadFilter {
  import opened FloatMath

  /** `biquad_coeffs`: the gains of
      y[n] = ff0·x[n] + ff1·x[n-1] + ff2·x[n-2] - fb1·y[n-1] - fb2·y[n-2]. */
  datatype Coeffs = Coeffs(ff0: real, ff1: real, ff2: real, fb1: real, fb2: real)

  // ----- the transfer function H(w) = Num(w) / Den(w), with w = 1/z --------

  /** The numerator ff0 + ff1·w + ff2·w². */
  function Num(c: Coeffs, w: real): real {
    c.ff0 + c.ff1 * w + c.ff2 * w * w
  }

  /** The denominator 1 + fb1·w + fb2·w². */
  function Den(c: Coeffs, w: real): real {
    1.0 + c.fb1 * w + c.fb2 * w * w
  }

  /** Only the first-order taps are used. */
  predicate FirstOrder(c: Coeffs) {
    c.ff2 == 0.0 && c.fb2 == 0.0
  }

  /** Numerator equals denominator at DC (z = 1): gain 1 wherever
      Den(c, 1) != 0. */
  predicate UnityAtDc(c: Coeffs) {
    Num(c, 1.0) == Den(c, 1.0)
  }

  /** Numerator equals denominator at the Nyquist frequency (z = -1): gain 1
      wherever Den(c, -1) != 0. */
  predicate UnityAtNyquist(c: Coeffs) {
    Num(c, -1.0) == Den(c, -1.0)
  }

  /** A zero of the numerator at DC. */
  predicate ZeroAtDc(c: Coeffs) {
    Num(c, 1.0) == 0.0
  }

  /** A zero of the numerator at the Nyquist frequency. */
  predicate ZeroAtNyquist(c: Coeffs) {
    Num(c, -1.0) == 0.0
  }

  /** Second-order all-pass shape: the numerator is the denominator reversed. */
  predicate SecondOrderAllPass(c: Coeffs) {
    c.ff0 == c.fb2 && c.ff1 == c.fb1 && c.ff2 == 1.0
  }

  /** First-order all-pass shape: the numerator is the denominator reversed. */
  predicate FirstOrderAllPass(c: Coeffs) {
    FirstOrder(c) && c.ff0 == c.fb1 && c.ff1 == 1.0
  }

  /** Two coefficient sets with the same poles. */
  predicate SameDen(a: Coeffs, b: Coeffs) {
    a.fb1 == b.fb1 && a.fb2 == b.fb2
  }

  /** The denominator q·k² + k + q that every two-pole (k, q) setter divides by. */
  function TwoPoleDen(k: real, q: real): real {
    q * k * k + k + q
  }

  lemma Reciprocal(d: real)
    requires d != 0.0
    ensures d * (1.0 / d) == 1.0
  {
  }

  /** x times the reciprocal of d is x / d. */
  lemma TimesReciprocal(x: real, d: real)
    requires d != 0.0
    ensures x * (1.0 / d) == x / d
  {
  }

  // ----- parameters -------------------------------------------------------

  /** `biquad_wc`: a frequency in Hz as a fraction of the sample rate, given
      the reciprocal of the sample rate. */
  function Wc(fc: real, fsrecip: real): (r: real)
    ensures fsrecip != 0.0 ==> r / fsrecip == fc
  {
    fc * fsrecip
  }

  // ----- first-order setters ------------------------------------------------

  /** `biquad_pole_lp`: one pole at z = pole, no zero, unity gain at DC. */
  function PoleLp(pole: real): (r: Coeffs)
    ensures FirstOrder(r) && r.ff1 == 0.0
    ensures r.fb1 == -pole && UnityAtDc(r)
  {
    Coeffs(1.0 - pole, 0.0, 0.0, -pole, 0.0)
  }

  /** `biquad_pole_hp`: one pole at z = -pole, no zero, unity gain at Nyquist. */
  function PoleHp(pole: real): (r: Coeffs)
    ensures FirstOrder(r) && r.ff1 == 0.0
    ensures r.fb1 == pole && UnityAtNyquist(r)
  {
    Coeffs(1.0 - pole, 0.0, 0.0, pole, 0.0)
  }

  /** `biquad_fo_dc`: DC blocker, a zero at DC and a pole at z = pole. */
  function FoDc(pole: real): (r: Coeffs)
    ensures FirstOrder(r) && r.ff0 == 1.0 && ZeroAtDc(r)
    ensures r.fb1 == -pole
  {
    Coeffs(1.0, -1.0, 0.0, -pole, 0.0)
  }

  /** `biquad_fo_lp`: first-order low pass from k = tan(pi·wc): equal
      feed-forward taps, unity gain at DC and a zero at Nyquist. */
  function FoLp(k: real): (r: Coeffs)
    requires k + 1.0 != 0.0
    ensures FirstOrder(r) && r.ff0 == r.ff1 == k / (k + 1.0)
    ensures r.fb1 == (k - 1.0) / (k + 1.0)
    ensures UnityAtDc(r) && ZeroAtNyquist(r)
  {
    var kp1 := k + 1.0;
    var km1 := k - 1.0;
    Coeffs(k / kp1, k / kp1, 0.0, km1 / kp1, 0.0)
  }

  /** `biquad_fo_hp`: first-order high pass from k = tan(pi·wc): opposite
      feed-forward taps, a zero at DC and unity gain at Nyquist. */
  function FoHp(k: real): (r: Coeffs)
    requires k + 1.0 != 0.0
    ensures FirstOrder(r) && r.ff0 == 1.0 / (k + 1.0) && r.ff1 == -r.ff0
    ensures r.fb1 == (k - 1.0) / (k + 1.0)
    ensures ZeroAtDc(r) && UnityAtNyquist(r)
  {
    var kp1 := k + 1.0;
    var km1 := k - 1.0;
    var ff0 := 1.0 / kp1;
    Coeffs(ff0, -ff0, 0.0, km1 / kp1, 0.0)
  }

  /** `biquad_fo_ap`: first-order all pass from k = tan(pi·wc). */
  function FoAp(k: real): (r: Coeffs)
    requires k + 1.0 != 0.0
    ensures FirstOrderAllPass(r) && r.fb1 == (k - 1.0) / (k + 1.0)
    ensures UnityAtDc(r) && Num(r, -1.0) == -Den(r, -1.0)
  {
    var kp1 := k + 1.0;
    var km1 := k - 1.0;
    Coeffs(km1 / kp1, 1.0, 0.0, km1 / kp1, 0.0)
  }

  /** `biquad_fo_ap2`: the tangent-free all pass used in phasers; the
      negated first-order all pass with its pole at z = 1 - wc. */
  function FoAp2(wc: real): (r: Coeffs)
    ensures FirstOrder(r) && r.ff0 == -r.fb1 && r.ff1 == -1.0
    ensures -r.fb1 == 1.0 - wc
    ensures Num(r, 1.0) == -Den(r, 1.0) && UnityAtNyquist(r)
  {
    var g1 := 1.0 - wc;
    Coeffs(g1, -1.0, 0.0, -g1, 0.0)
  }

  // ----- second-order setters -----------------------------------------------

  /** `biquad_so_dc` as written: a double pole at z = pole over the numerator
      (1 + w)², whose double zero sits at Nyquist, so DC passes with gain
      4 / (1 - pole)². */
  function SoDc(pole: real): (r: Coeffs)
    ensures r.ff0 == r.ff2 == 1.0 && r.ff1 == 2.0
    ensures r.fb1 == -2.0 * pole && r.fb2 == pole * pole
    ensures forall w :: Num(r, w) == (1.0 + w) * (1.0 + w)
    ensures forall w :: Den(r, w) == (1.0 - pole * w) * (1.0 - pole * w)
    ensures ZeroAtNyquist(r)
  {
    Coeffs(1.0, 2.0, 1.0, -2.0 * pole, pole * pole)
  }

  /** The second-order DC filter the name describes: the same double pole
      over (1 - w)², a double zero at DC. */
  function SoDcBlock(pole: real): (r: Coeffs)
    ensures r.ff0 == r.ff2 == 1.0 && r.ff1 == -2.0
    ensures SameDen(r, SoDc(pole))
    ensures forall w :: Num(r, w) == (1.0 - w) * (1.0 - w)
    ensures ZeroAtDc(r)
  {
    Coeffs(1.0, -2.0, 1.0, -2.0 * pole, pole * pole)
  }

  /** `biquad_so_lp`: second-order low pass from k = tan(pi·wc) and q. */
  function SoLp(k: real, q: real): (r: Coeffs)
    requires TwoPoleDen(k, q) != 0.0
    ensures r.fb1 == 2.0 * (q * k * k - q) / TwoPoleDen(k, q)
    ensures r.fb2 == (q * k * k - k + q) / TwoPoleDen(k, q)
    ensures r.ff0 == r.ff2 == q * k * k / TwoPoleDen(k, q) && r.ff1 == 2.0 * r.ff0
    ensures UnityAtDc(r) && ZeroAtNyquist(r)
  {
    var qk2 := q * k * k;
    var qk2KQR := 1.0 / (qk2 + k + q);
    var ff0 := qk2 * qk2KQR;
    TwoPoleFacts(k, q, qk2, qk2KQR);
    TimesReciprocal(qk2, TwoPoleDen(k, q));
    Coeffs(ff0, 2.0 * ff0, ff0, 2.0 * (qk2 - q) * qk2KQR, (qk2 - k + q) * qk2KQR)
  }

  /** `biquad_so_hp`: second-order high pass from k = tan(pi·wc) and q. */
  function SoHp(k: real, q: real): (r: Coeffs)
    requires TwoPoleDen(k, q) != 0.0
    ensures r.fb1 == 2.0 * (q * k * k - q) / TwoPoleDen(k, q)
    ensures r.fb2 == (q * k * k - k + q) / TwoPoleDen(k, q)
    ensures r.ff0 == r.ff2 == q / TwoPoleDen(k, q) && r.ff1 == -2.0 * r.ff0
    ensures ZeroAtDc(r) && UnityAtNyquist(r)
  {
    var qk2 := q * k * k;
    var qk2KQR := 1.0 / (qk2 + k + q);
    var ff0 := q * qk2KQR;
    TwoPoleFacts(k, q, qk2, qk2KQR);
    TimesReciprocal(q, TwoPoleDen(k, q));
    Coeffs(ff0, -2.0 * ff0, ff0, 2.0 * (qk2 - q) * qk2KQR, (qk2 - k + q) * qk2KQR)
  }

  /** `biquad_so_bp`: second-order band pass from k = tan(pi·wc) and q. */
  function SoBp(k: real, q: real): (r: Coeffs)
    requires TwoPoleDen(k, q) != 0.0
    ensures r.fb1 == 2.0 * (q * k * k - q) / TwoPoleDen(k, q)
    ensures r.fb2 == (q * k * k - k + q) / TwoPoleDen(k, q)
    ensures r.ff0 == k / TwoPoleDen(k, q) && r.ff1 == 0.0 && r.ff2 == -r.ff0
    ensures ZeroAtDc(r) && ZeroAtNyquist(r)
  {
    var qk2 := q * k * k;
    var qk2KQR := 1.0 / (qk2 + k + q);
    var ff0 := k * qk2KQR;
    TwoPoleFacts(k, q, qk2, qk2KQR);
    TimesReciprocal(k, TwoPoleDen(k, q));
    Coeffs(ff0, 0.0, -ff0, 2.0 * (qk2 - q) * qk2KQR, (qk2 - k + q) * qk2KQR)
  }

  /** `biquad_so_br`: second-order band reject from k = tan(pi·wc) and q. */
  function SoBr(k: real, q: real): (r: Coeffs)
    requires TwoPoleDen(k, q) != 0.0
    ensures r.fb1 == 2.0 * (q * k * k - q) / TwoPoleDen(k, q)
    ensures r.fb2 == (q * k * k - k + q) / TwoPoleDen(k, q)
    ensures r.ff0 == r.ff2 == (q * k * k + q) / TwoPoleDen(k, q) && r.ff1 == r.fb1
    ensures UnityAtDc(r) && UnityAtNyquist(r)
  {
    var qk2 := q * k * k;
    var qk2KQR := 1.0 / (qk2 + k + q);
    var ff0 := (qk2 + q) * qk2KQR;
    var fb1 := 2.0 * (qk2 - q) * qk2KQR;
    TwoPoleFacts(k, q, qk2, qk2KQR);
    TimesReciprocal(qk2 + q, TwoPoleDen(k, q));
    Coeffs(ff0, fb1, ff0, fb1, (qk2 - k + q) * qk2KQR)
  }

  /** `biquad_so_ap`: second-order all pass from k = tan(pi·wc) and q. */
  function SoAp(k: real, q: real): (r: Coeffs)
    requires TwoPoleDen(k, q) != 0.0
    ensures r.fb1 == 2.0 * (q * k * k - q) / TwoPoleDen(k, q)
    ensures r.fb2 == (q * k * k - k + q) / TwoPoleDen(k, q)
    ensures SecondOrderAllPass(r)
  {
    var qk2 := q * k * k;
    var qk2KQR := 1.0 / (qk2 + k + q);
    var fb2 := (qk2 - k + q) * qk2KQR;
    var fb1 := 2.0 * (qk2 - q) * qk2KQR;
    TwoPoleFacts(k, q, qk2, qk2KQR);
    Coeffs(fb2, fb1, 1.0, fb1, fb2)
  }

  /** `biquad_so_ap2`: the "tunable" all pass from delta = cos(2pi·wc) and
      gamma = tan(pi·wb). */
  function SoAp2(delta: real, gamma: real): (r: Coeffs)
    requires gamma + 1.0 != 0.0
    ensures SecondOrderAllPass(r)
    ensures r.fb2 == (1.0 - gamma) / (1.0 + gamma)
    ensures r.fb1 == -2.0 * delta / (1.0 + gamma)
  {
    var c := (gamma - 1.0) / (gamma + 1.0);
    var d := -delta;
    TunableFacts(delta, gamma, c);
    Coeffs(-c, d * (1.0 - c), 1.0, d * (1.0 - c), -c)
  }

  /** `biquad_so_ap3`: the all pass from delta = cos(2pi·wc) and a pole
      radius; for |delta| <= 1 its poles are a conjugate pair (or a double
      pole) whose product is radius². */
  function SoAp3(delta: real, radius: real): (r: Coeffs)
    ensures SecondOrderAllPass(r)
    ensures r.fb2 == radius * radius && r.fb1 == -2.0 * radius * delta
    ensures -1.0 <= delta <= 1.0 ==> r.fb1 * r.fb1 <= 4.0 * r.fb2
  {
    var a1 := -2.0 * radius * delta;
    var a2 := radius * radius;
    ConjugatePoles(delta, radius, a1, a2);
    Coeffs(a2, a1, 1.0, a1, a2)
  }

  // ----- algebra behind the setters ----------------------------------------

  /** The shared denominator of the (k, q) setters, through its reciprocal. */
  lemma TwoPoleFacts(k: real, q: real, qk2: real, rd: real)
    requires qk2 == q * k * k && TwoPoleDen(k, q) != 0.0 && rd == 1.0 / (qk2 + k + q)
    ensures (qk2 + k + q) * rd == 1.0
    ensures 2.0 * (qk2 - q) * rd == 2.0 * (q * k * k - q) / TwoPoleDen(k, q)
    ensures (qk2 - k + q) * rd == (q * k * k - k + q) / TwoPoleDen(k, q)
  {
    Reciprocal(TwoPoleDen(k, q));
    TimesReciprocal(2.0 * (qk2 - q), TwoPoleDen(k, q));
    TimesReciprocal(qk2 - k + q, TwoPoleDen(k, q));
  }

  lemma TunableFacts(delta: real, gamma: real, c: real)
    requires gamma + 1.0 != 0.0 && c == (gamma - 1.0) / (gamma + 1.0)
    ensures -c == (1.0 - gamma) / (1.0 + gamma)
    ensures -delta * (1.0 - c) == -2.0 * delta / (1.0 + gamma)
  {
    assert 1.0 - c == 2.0 / (1.0 + gamma);
  }

  /** delta² <= 1 makes (2·radius·delta)² at most 4·radius². */
  lemma ConjugatePoles(delta: real, radius: real, a1: real, a2: real)
    requires a1 == -2.0 * radius * delta && a2 == radius * radius
    ensures -1.0 <= delta <= 1.0 ==> a1 * a1 <= 4.0 * a2
  {
    if -1.0 <= delta <= 1.0 {
      var r2 := radius * radius;
      MulNonneg(1.0 - delta, 1.0 + delta);
      assert (1.0 - delta) * (1.0 + delta) == 1.0 - delta * delta;
      MulNonneg(r2, 1.0 - delta * delta);
      assert r2 * (1.0 - delta * delta) == r2 - r2 * (delta * delta);
      assert a1 * a1 == 4.0 * (r2 * (delta * delta));
    }
  }

  // ----- how the shapes relate ------------------------------------------------

  /** Second-order all pass: the numerator is w² times the denominator at
      1/w, which is what makes the gain 1 at every frequency. */
  lemma SecondOrderAllPassMirrors(c: Coeffs, w: real)
    requires SecondOrderAllPass(c) && w != 0.0
    ensures Num(c, w) == w * w * Den(c, 1.0 / w)
  {
    var v := 1.0 / w;
    assert w * v == 1.0;
    assert w * w * (c.fb1 * v) == c.fb1 * w * (w * v);
    assert w * w * (c.fb2 * v * v) == c.fb2 * (w * v) * (w * v);
  }

  /** First-order all pass: the numerator is w times the denominator at 1/w. */
  lemma FirstOrderAllPassMirrors(c: Coeffs, w: real)
    requires FirstOrderAllPass(c) && w != 0.0
    ensures Num(c, w) == w * Den(c, 1.0 / w)
  {
    var v := 1.0 / w;
    assert w * v == 1.0;
    assert w * (c.fb1 * v) == c.fb1 * (w * v);
  }

  /** Low pass plus high pass is band reject: same poles, and the
      numerators add tap by tap. */
  lemma SoLpPlusHpIsBr(k: real, q: real)
    requires TwoPoleDen(k, q) != 0.0
    ensures var lp, hp, br := SoLp(k, q), SoHp(k, q), SoBr(k, q);
      SameDen(lp, br) && SameDen(hp, br) &&
      lp.ff0 + hp.ff0 == br.ff0 && lp.ff1 + hp.ff1 == br.ff1 && lp.ff2 + hp.ff2 == br.ff2
  {
    var d := TwoPoleDen(k, q);
    var qk2 := q * k * k;
    assert qk2 / d + q / d == (qk2 + q) / d;
    assert 2.0 * (qk2 / d) - 2.0 * (q / d) == 2.0 * (qk2 - q) / d;
  }

  /** Band reject plus band pass is the identity: their numerators add up to
      the shared denominator. */
  lemma SoBrPlusBpIsIdentity(k: real, q: real)
    requires TwoPoleDen(k, q) != 0.0
    ensures var br, bp := SoBr(k, q), SoBp(k, q);
      SameDen(br, bp) &&
      br.ff0 + bp.ff0 == 1.0 && br.ff1 + bp.ff1 == br.fb1 && br.ff2 + bp.ff2 == br.fb2
  {
    var d := TwoPoleDen(k, q);
    var qk2 := q * k * k;
    assert (qk2 + q) / d + k / d == d / d == 1.0;
    assert (qk2 + q) / d - k / d == (qk2 - k + q) / d;
  }

  /** The (k, q) all pass is band reject minus band pass: 1 - 2·band pass. */
  lemma SoApIsBrMinusBp(k: real, q: real)
    requires TwoPoleDen(k, q) != 0.0
    ensures var ap, br, bp := SoAp(k, q), SoBr(k, q), SoBp(k, q);
      SameDen(ap, br) &&
      ap.ff0 == br.ff0 - bp.ff0 && ap.ff1 == br.ff1 - bp.ff1 && ap.ff2 == br.ff2 - bp.ff2
  {
    var d := TwoPoleDen(k, q);
    var qk2 := q * k * k;
    assert (qk2 + q) / d - k / d == (qk2 - k + q) / d;
    assert (qk2 + q) / d + k / d == d / d == 1.0;
  }

  /** First-order low pass plus high pass is the identity. */
  lemma FoLpPlusHpIsIdentity(k: real)
    requires k + 1.0 != 0.0
    ensures var lp, hp := FoLp(k), FoHp(k);
      SameDen(lp, hp) && lp.ff0 + hp.ff0 == 1.0 && lp.ff1 + hp.ff1 == lp.fb1
  {
  }

  /** The first-order all pass is low pass minus high pass. */
  lemma FoApIsLpMinusHp(k: real)
    requires k + 1.0 != 0.0
    ensures var ap, lp, hp := FoAp(k), FoLp(k), FoHp(k);
      SameDen(ap, lp) && ap.ff0 == lp.ff0 - hp.ff0 && ap.ff1 == lp.ff1 - hp.ff1
  {
  }

  /** `biquad_so_dc` as written passes DC: its numerator at DC is 4, so it
      is not the cascade of two first-order DC filters, whose numerator
      there is 0. */
  lemma SoDcPassesDc(pole: real)
    ensures Num(SoDc(pole), 1.0) == 4.0
    ensures Num(FoDc(pole), 1.0) * Num(FoDc(pole), 1.0) == 0.0
    ensures !ZeroAtDc(SoDc(pole))
  {
  }

  /** The corrected second-order DC filter is two first-order DC filters in
      cascade: numerator and denominator are the squares of theirs. */
  lemma SoDcBlockIsFoDcSquared(pole: real, w: real)
    ensures Num(SoDcBlock(pole), w) == Num(FoDc(pole), w) * Num(FoDc(pole), w)
    ensures Den(SoDcBlock(pole), w) == Den(FoDc(pole), w) * Den(FoDc(pole), w)
  {
  }

  // ----- processing ---------------------------------------------------------

  /** The two state registers mZ1, mZ2 of the transposed structure. */
  datatype Regs = Regs(z1: real, z2: real)

  /** One processed sample: the output and the registers after it. */
  datatype Step = Step(y: real, regs: Regs)

  /** The update `biquad_process_so` performs for input x. */
  function SoStep(c: Coeffs, z: Regs, x: real): Step {
    var acc := c.ff0 * x + z.z1;
    Step(acc, Regs(c.ff1 * x + z.z2 - c.fb1 * acc, c.ff2 * x - c.fb2 * acc))
  }

  /** The update `biquad_process_fo` performs for input x; mZ2 is untouched. */
  function FoStep(c: Coeffs, z: Regs, x: real): Step {
    var acc := c.ff0 * x + z.z1;
    Step(acc, Regs(c.ff1 * x - c.fb1 * acc, z.z2))
  }

  /** The outputs of a run and the registers at its end. */
  datatype Trace = Trace(ys: seq<real>, regs: Regs)

  const Flushed: Regs := Regs(0.0, 0.0)

  /** `biquad_process_so` called once per input of xs, from flushed registers,
      with fixed coefficients. */
  function RunSo(c: Coeffs, xs: seq<real>): (t: Trace)
    ensures |t.ys| == |xs|
    decreases |xs|
  {
    if xs == [] then Trace([], Flushed)
    else
      var t := RunSo(c, xs[..|xs| - 1]);
      var st := SoStep(c, t.regs, xs[|xs| - 1]);
      Trace(t.ys + [st.y], st.regs)
  }

  /** `biquad_process_fo` called once per input of xs, from flushed registers. */
  function RunFo(c: Coeffs, xs: seq<real>): (t: Trace)
    ensures |t.ys| == |xs|
    decreases |xs|
  {
    if xs == [] then Trace([], Flushed)
    else
      var t := RunFo(c, xs[..|xs| - 1]);
      var st := FoStep(c, t.regs, xs[|xs| - 1]);
      Trace(t.ys + [st.y], st.regs)
  }

  /** s[i], with every sample before the start (or past the end) taken as 0. */
  function At(s: seq<real>, i: int): real {
    if 0 <= i < |s| then s[i] else 0.0
  }

  /** The outputs of a prefix of the input are the prefix of the outputs. */
  lemma {:induction false} RunSoPrefix(c: Coeffs, xs: seq<real>, m: nat)
    requires m <= |xs|
    ensures RunSo(c, xs[..m]).ys == RunSo(c, xs).ys[..m]
    decreases |xs|
  {
    if m < |xs| {
      var pre := xs[..|xs| - 1];
      assert xs[..m] == pre[..m];
      RunSoPrefix(c, pre, m);
    } else {
      assert xs[..m] == xs;
    }
  }

  lemma {:induction false} RunFoPrefix(c: Coeffs, xs: seq<real>, m: nat)
    requires m <= |xs|
    ensures RunFo(c, xs[..m]).ys == RunFo(c, xs).ys[..m]
    decreases |xs|
  {
    if m < |xs| {
      var pre := xs[..|xs| - 1];
      assert xs[..m] == pre[..m];
      RunFoPrefix(c, pre, m);
    } else {
      assert xs[..m] == xs;
    }
  }

  /** The direct-form difference equation of a biquad: the output for input
      x0, given the two previous inputs x1, x2 and outputs y1, y2. */
  function SoRecurrence(c: Coeffs, x0: real, x1: real, x2: real, y1: real, y2: real): (y0: real)
    ensures y0 + c.fb1 * y1 + c.fb2 * y2 == c.ff0 * x0 + c.ff1 * x1 + c.ff2 * x2
  {
    c.ff0 * x0 + c.ff1 * x1 + c.ff2 * x2 - c.fb1 * y1 - c.fb2 * y2
  }

  /** The first-order difference equation: y0 from x0 and the previous x1, y1. */
  function FoRecurrence(c: Coeffs, x0: real, x1: real, y1: real): (y0: real)
    ensures y0 + c.fb1 * y1 == c.ff0 * x0 + c.ff1 * x1
  {
    c.ff0 * x0 + c.ff1 * x1 - c.fb1 * y1
  }

  /** The registers hold what the transposed structure owes the next output,
      given the last two inputs x1, x2 and outputs y1, y2. */
  predicate SoPending(c: Coeffs, z: Regs, x1: real, x2: real, y1: real, y2: real) {
    z.z1 == c.ff1 * x1 + c.ff2 * x2 - c.fb1 * y1 - c.fb2 * y2 &&
    z.z2 == c.ff2 * x1 - c.fb2 * y1
  }

  /** One second-order step computes the difference equation and keeps the
      registers owing what they should. */
  lemma SoStepKeepsPending(c: Coeffs, z: Regs, x1: real, x2: real, y1: real, y2: real, x: real)
    requires SoPending(c, z, x1, x2, y1, y2)
    ensures var st := SoStep(c, z, x);
      st.y == SoRecurrence(c, x, x1, x2, y1, y2) && SoPending(c, st.regs, x, x1, st.y, y1)
  {
  }

  /** What the registers hold after a run: mZ1 is the part of the next
      output due to the last two inputs and outputs, mZ2 the part due to
      the last one. Only the last two steps of the run decide this. */
  lemma {:induction false} SoRegisters(c: Coeffs, xs: seq<real>)
    ensures var t, n := RunSo(c, xs), |xs|;
      SoPending(c, t.regs, At(xs, n - 1), At(xs, n - 2), At(t.ys, n - 1), At(t.ys, n - 2))
    decreases |xs|
  {
    if xs != [] {
      var n := |xs|;
      var pre, x := xs[..n - 1], xs[n - 1];
      SoRegisters(c, pre);
      var t0 := RunSo(c, pre);
      SoStepKeepsPending(c, t0.regs, At(pre, n - 2), At(pre, n - 3),
                      At(t0.ys, n - 2), At(t0.ys, n - 3), x);
      var st := SoStep(c, t0.regs, x);
      var ys := t0.ys + [st.y];
      assert RunSo(c, xs) == Trace(ys, st.regs);
      assert At(xs, n - 1) == x && At(ys, n - 1) == st.y;
      assert At(xs, n - 2) == At(pre, n - 2) && At(ys, n - 2) == At(t0.ys, n - 2);
    }
  }

  /** The newest output of a run, from the inputs and outputs before it. */
  lemma SoLastOutput(c: Coeffs, xs: seq<real>)
    requires xs != []
    ensures var n, ys := |xs|, RunSo(c, xs).ys;
      ys[n - 1] == SoRecurrence(c, xs[n - 1], At(xs, n - 2), At(xs, n - 3),
                                At(ys, n - 2), At(ys, n - 3))
  {
    var n := |xs|;
    var pre, x := xs[..n - 1], xs[n - 1];
    SoRegisters(c, pre);
    var t0 := RunSo(c, pre);
    SoStepKeepsPending(c, t0.regs, At(pre, n - 2), At(pre, n - 3),
                    At(t0.ys, n - 2), At(t0.ys, n - 3), x);
    var st := SoStep(c, t0.regs, x);
    var ys := t0.ys + [st.y];
    assert RunSo(c, xs) == Trace(ys, st.regs);
    assert At(xs, n - 2) == At(pre, n - 2) && At(xs, n - 3) == At(pre, n - 3);
    assert At(ys, n - 2) == At(t0.ys, n - 2) && At(ys, n - 3) == At(t0.ys, n - 3);
  }

  /** Repeated `biquad_process_so` from flushed registers computes the
      direct-form difference equation at every sample, with the samples
      before the start taken as 0. */
  lemma SoDifferenceEquation(c: Coeffs, xs: seq<real>, n: nat)
    requires n < |xs|
    ensures var ys := RunSo(c, xs).ys;
      ys[n] == SoRecurrence(c, xs[n], At(xs, n - 1), At(xs, n - 2), At(ys, n - 1), At(ys, n - 2))
  {
    var ws := xs[..n + 1];
    var ys, vs := RunSo(c, xs).ys, RunSo(c, ws).ys;
    SoLastOutput(c, ws);
    RunSoPrefix(c, xs, n + 1);
    assert vs == ys[..n + 1];
    assert vs[n] == ys[n] && ws[n] == xs[n];
    assert At(ws, n - 1) == At(xs, n - 1) && At(ws, n - 2) == At(xs, n - 2);
    assert At(vs, n - 1) == At(ys, n - 1) && At(vs, n - 2) == At(ys, n - 2);
  }

  /** mZ1 holds what the first-order structure owes the next output. */
  predicate FoPending(c: Coeffs, z: Regs, x1: real, y1: real) {
    z.z1 == c.ff1 * x1 - c.fb1 * y1
  }

  lemma FoStepKeepsPending(c: Coeffs, z: Regs, x1: real, y1: real, x: real)
    requires FoPending(c, z, x1, y1)
    ensures var st := FoStep(c, z, x);
      st.y == FoRecurrence(c, x, x1, y1) && FoPending(c, st.regs, x, st.y) && st.regs.z2 == z.z2
  {
  }

  /** After a first-order run mZ1 holds the part of the next output due to
      the last input and output, and mZ2 was never touched. */
  lemma {:induction false} FoRegisters(c: Coeffs, xs: seq<real>)
    ensures var t, n := RunFo(c, xs), |xs|;
      FoPending(c, t.regs, At(xs, n - 1), At(t.ys, n - 1)) && t.regs.z2 == 0.0
    decreases |xs|
  {
    if xs != [] {
      var n := |xs|;
      var pre, x := xs[..n - 1], xs[n - 1];
      FoRegisters(c, pre);
      var t0 := RunFo(c, pre);
      FoStepKeepsPending(c, t0.regs, At(pre, n - 2), At(t0.ys, n - 2), x);
      var st := FoStep(c, t0.regs, x);
      var ys := t0.ys + [st.y];
      assert RunFo(c, xs) == Trace(ys, st.regs);
      assert At(xs, n - 1) == x && At(ys, n - 1) == st.y;
    }
  }

  /** The newest first-order output, from the input and output before it. */
  lemma FoLastOutput(c: Coeffs, xs: seq<real>)
    requires xs != []
    ensures var n, ys := |xs|, RunFo(c, xs).ys;
      ys[n - 1] == FoRecurrence(c, xs[n - 1], At(xs, n - 2), At(ys, n - 2))
  {
    var n := |xs|;
    var pre, x := xs[..n - 1], xs[n - 1];
    FoRegisters(c, pre);
    var t0 := RunFo(c, pre);
    FoStepKeepsPending(c, t0.regs, At(pre, n - 2), At(t0.ys, n - 2), x);
    var st := FoStep(c, t0.regs, x);
    var ys := t0.ys + [st.y];
    assert RunFo(c, xs) == Trace(ys, st.regs);
    assert At(xs, n - 2) == At(pre, n - 2) && At(ys, n - 2) == At(t0.ys, n - 2);
  }

  /** Repeated `biquad_process_fo` from flushed registers computes the
      first-order difference equation at every sample. */
  lemma FoDifferenceEquation(c: Coeffs, xs: seq<real>, n: nat)
    requires n < |xs|
    ensures var ys := RunFo(c, xs).ys;
      ys[n] == FoRecurrence(c, xs[n], At(xs, n - 1), At(ys, n - 1))
  {
    var ws := xs[..n + 1];
    var ys, vs := RunFo(c, xs).ys, RunFo(c, ws).ys;
    FoLastOutput(c, ws);
    RunFoPrefix(c, xs, n + 1);
    assert vs == ys[..n + 1];
    assert vs[n] == ys[n] && ws[n] == xs[n];
    assert At(ws, n - 1) == At(xs, n - 1) && At(vs, n - 1) == At(ys, n - 1);
  }

  /** With first-order coefficients the two process variants agree. */
  lemma {:induction false} FirstOrderRunsAgree(c: Coeffs, xs: seq<real>)
    requires FirstOrder(c)
    ensures RunSo(c, xs) == RunFo(c, xs) && RunSo(c, xs).regs.z2 == 0.0
    decreases |xs|
  {
    if xs != [] {
      FirstOrderRunsAgree(c, xs[..|xs| - 1]);
    }
  }

  /** A silent input from flushed registers gives a silent output and
      leaves the registers flushed. */
  lemma {:induction false} SoSilenceInSilenceOut(c: Coeffs, xs: seq<real>)
    requires forall i :: 0 <= i < |xs| ==> xs[i] == 0.0
    ensures var t := RunSo(c, xs);
      t.regs == Flushed && forall i :: 0 <= i < |t.ys| ==> t.ys[i] == 0.0
    decreases |xs|
  {
    if xs != [] {
      SoSilenceInSilenceOut(c, xs[..|xs| - 1]);
    }
  }

  lemma {:induction false} FoSilenceInSilenceOut(c: Coeffs, xs: seq<real>)
    requires forall i :: 0 <= i < |xs| ==> xs[i] == 0.0
    ensures var t := RunFo(c, xs);
      t.regs == Flushed && forall i :: 0 <= i < |t.ys| ==> t.ys[i] == 0.0
    decreases |xs|
  {
    if xs != [] {
      FoSilenceInSilenceOut(c, xs[..|xs| - 1]);
    }
  }

  /** All-zero coefficients give a silent output whatever the input. */
  lemma {:induction false} ZeroCoeffsSilence(xs: seq<real>)
    ensures var t := RunSo(Coeffs(0.0, 0.0, 0.0, 0.0, 0.0), xs);
      t.regs == Flushed && forall i :: 0 <= i < |t.ys| ==> t.ys[i] == 0.0
    decreases |xs|
  {
    if xs != [] {
      ZeroCoeffsSilence(xs[..|xs| - 1]);
    }
  }

  /** `biquad_pole_lp` at pole 0 is a plain wire: ff0 = 1 and every other
      coefficient 0, so from flushed registers every input comes out as it
      went in. */
  lemma {:induction false} PoleLpZeroIsWire(xs: seq<real>)
    ensures PoleLp(0.0) == Coeffs(1.0, 0.0, 0.0, 0.0, 0.0)
    ensures RunSo(PoleLp(0.0), xs) == Trace(xs, Flushed)
    decreases |xs|
  {
    var c := PoleLp(0.0);
    assert c == Coeffs(1.0, 0.0, 0.0, 0.0, 0.0);
    if xs != [] {
      var n := |xs|;
      var pre, x := xs[..n - 1], xs[n - 1];
      PoleLpZeroIsWire(pre);
      var st := SoStep(c, Flushed, x);
      assert st == Step(x, Flushed);
      assert pre + [x] == xs;
      assert RunSo(c, xs) == Trace(pre + [x], Flushed);
    }
  }

  /** `biquad`: the coefficients and the two registers. */
  class Biquad {
    var c: Coeffs
    var z1: real
    var z2: real

    /** A biquad in zero-initialised storage: all coefficients and registers 0. */
    constructor ()
      ensures c == Coeffs(0.0, 0.0, 0.0, 0.0, 0.0) && z1 == 0.0 && z2 == 0.0
    {
      c := Coeffs(0.0, 0.0, 0.0, 0.0, 0.0);
      z1, z2 := 0.0, 0.0;
    }

    /** Store the result of a coefficient setter; the registers keep their values. */
    method SetCoeffs(k: Coeffs)
      modifies this`c
      ensures c == k && z1 == old(z1) && z2 == old(z2)
    {
      c := k;
    }

    /** `biquad_flush`: zero both registers; the coefficients are kept. */
    method Flush()
      modifies this`z1, this`z2
      ensures z1 == 0.0 && z2 == 0.0 && Regs(z1, z2) == Flushed
      ensures c == old(c)
    {
      z1 := 0.0;
      z2 := 0.0;
    }

    /** `biquad_process_so`: one second-order sample; the coefficients are kept. */
    method ProcessSo(xn: real) returns (y: real)
      modifies this`z1, this`z2
      ensures Step(y, Regs(z1, z2)) == SoStep(c, Regs(old(z1), old(z2)), xn)
      ensures c == old(c)
    {
      var acc := c.ff0 * xn + z1;
      z1 := c.ff1 * xn + z2;
      z2 := c.ff2 * xn;
      z1 := z1 - c.fb1 * acc;
      z2 := z2 - c.fb2 * acc;
      y := acc;
    }

    /** Flush, then call `biquad_process_so` once per input, as a caller's
        per-sample loop does: the outputs and final registers are those of
        `RunSo`, so the difference-equation lemmas apply to them. */
    method FlushAndProcessSo(xs: seq<real>) returns (ys: seq<real>)
      modifies this`z1, this`z2
      ensures ys == RunSo(c, xs).ys && Regs(z1, z2) == RunSo(c, xs).regs
      ensures c == old(c)
    {
      Flush();
      ys := [];
      var i := 0;
      while i < |xs|
        invariant 0 <= i <= |xs| && c == old(c)
        invariant Trace(ys, Regs(z1, z2)) == RunSo(c, xs[..i])
      {
        var y := ProcessSo(xs[i]);
        assert xs[..i + 1][..i] == xs[..i];
        ys := ys + [y];
        i := i + 1;
      }
      assert xs[..i] == xs;
    }

    /** Flush, then call `biquad_process_fo` once per input: the outputs and
        final registers are those of `RunFo`. */
    method FlushAndProcessFo(xs: seq<real>) returns (ys: seq<real>)
      modifies this`z1, this`z2
      ensures ys == RunFo(c, xs).ys && Regs(z1, z2) == RunFo(c, xs).regs
      ensures c == old(c)
    {
      Flush();
      ys := [];
      var i := 0;
      while i < |xs|
        invariant 0 <= i <= |xs| && c == old(c)
        invariant Trace(ys, Regs(z1, z2)) == RunFo(c, xs[..i])
      {
        var y := ProcessFo(xs[i]);
        assert xs[..i + 1][..i] == xs[..i];
        ys := ys + [y];
        i := i + 1;
      }
      assert xs[..i] == xs;
    }

    /** `biquad_process_fo`: one first-order sample; mZ2 and the
        coefficients are kept. */
    method ProcessFo(xn: real) returns (y: real)
      modifies this`z1
      ensures Step(y, Regs(z1, z2)) == FoStep(c, Regs(old(z1), old(z2)), xn)
      ensures z2 == old(z2) && c == old(c)
    {
      var acc := c.ff0 * xn + z1;
      z1 := c.ff1 * xn;
      z1 := z1 - c.fb1 * acc;
      y := acc;
    }
  }
}
