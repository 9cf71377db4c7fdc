/**
 * The temperature conversion of an RTD channel: the divider voltage gives the
 * RTD resistance, lead-wire resistance is subtracted, and the
 * Callendar-Van Dusen relation R(T) = R0 (1 + A T + B T^2) is solved for T
 * with the quadratic formula. The square root is not computed here: the
 * solve takes the root as an argument and `IsSqrt` says which root it is.
 */
module Convert {
  import opened Options

  const RFixed: real := 1000.0
  const VRef: real := 2.5
  const R0: real := 100.0
  const A: real := 0.0039083
  const B: real := -0.0000005775

  /** RTD resistance from the divider voltage; None where the division by the voltage fails. */
  function RtdResistance(voltage: real): (r: Option<real>)
    ensures r.None? <==> voltage == 0.0
    ensures 0.0 < voltage <= VRef ==> r.Some? && r.value >= 0.0
  {
    if voltage == 0.0 then None else Some(RFixed * (VRef - voltage) / voltage)
  }

  /** RTD resistance with one and a half lead-wire resistances subtracted. */
  function LeadCorrected(voltage: real, lead: real): (r: Option<real>)
    ensures r.None? <==> voltage == 0.0
  {
    match RtdResistance(voltage)
    case None => None
    case Some(rtd) => Some(rtd - 1.5 * lead)
  }

  /** The divider voltage at which a resistance `res` (after lead correction) is read. */
  function VoltageFor(res: real, lead: real): real
    requires res + 1.5 * lead + RFixed > 0.0
  {
    RFixed * VRef / (res + 1.5 * lead + RFixed)
  }

  /** The resistance read back from the voltage of a resistance is that resistance. */
  lemma ResistanceRoundTrip(res: real, lead: real)
    requires res + 1.5 * lead + RFixed > 0.0
    ensures VoltageFor(res, lead) > 0.0
    ensures LeadCorrected(VoltageFor(res, lead), lead) == Some(res)
  {
    var d := res + 1.5 * lead + RFixed;
    var v := VoltageFor(res, lead);
    assert v * d == RFixed * VRef;
    assert VRef - v == VRef * (d - RFixed) / d;
    assert RFixed * (VRef - v) / v == d - RFixed;
  }

  /** The Callendar-Van Dusen resistance of a PT100 at temperature t. */
  function CvdResistance(t: real): real {
    R0 * (1.0 + A * t + B * t * t)
  }

  /** The discriminant of the quadratic that the conversion solves for T. */
  function Discriminant(res: real): real {
    A * A - 4.0 * B * (1.0 - res / R0)
  }

  predicate IsSqrt(root: real, x: real) {
    root >= 0.0 && root * root == x
  }

  /** The root of the quadratic that the conversion takes, given sqrt(Discriminant). */
  function CvdSolve(root: real): real {
    (-A + root) / (2.0 * B)
  }

  /** At the resistance of a temperature t the discriminant is the square of A + 2 B t. */
  lemma DiscriminantIsSquare(t: real)
    ensures Discriminant(CvdResistance(t)) == (A + 2.0 * B * t) * (A + 2.0 * B * t)
  {
    assert CvdResistance(t) / R0 == 1.0 + A * t + B * t * t;
  }

  lemma DifferenceOfSquares(x: real, y: real)
    ensures (x - y) * (x + y) == x * x - y * y
  {
  }

  lemma ZeroProduct(a: real, b: real)
    requires a * b == 0.0
    ensures a == 0.0 || b == 0.0
  {
  }

  /** Two non-negative numbers with the same square are equal. */
  lemma SquareRootUnique(x: real, y: real)
    requires x >= 0.0 && y >= 0.0 && x * x == y * y
    ensures x == y
  {
    DifferenceOfSquares(x, y);
    ZeroProduct(x - y, x + y);
  }

  /**
   * Converting the divider voltage of a temperature t below the turning point
   * of the quadratic (about 3383 degrees, far above the sensor's range) gives
   * back t, whatever the lead resistance, as long as the voltage is positive.
   */
  lemma TemperatureRoundTrip(t: real, lead: real, root: real)
    requires A + 2.0 * B * t >= 0.0
    requires CvdResistance(t) + 1.5 * lead + RFixed > 0.0
    requires IsSqrt(root, Discriminant(CvdResistance(t)))
    ensures LeadCorrected(VoltageFor(CvdResistance(t), lead), lead) == Some(CvdResistance(t))
    ensures CvdSolve(root) == t
  {
    ResistanceRoundTrip(CvdResistance(t), lead);
    DiscriminantIsSquare(t);
    var q := A + 2.0 * B * t;
    SquareRootUnique(root, q);
    assert -A + root == 2.0 * B * t;
  }
}
