/** The value checks wcmParseOptions applies to individual options, on values
    already read from the option list (the sscanf and integer parsing of the
    option text are not modelled).  Keywords are compared with SameName, the
    model of xf86NameCmp. */
module Validators {
  import opened Wrappers
  import opened OptionStore

  // Suppression bounds of xf86Wacom.h.
  const DEFAULT_SUPPRESS: int := 2
  const MAX_SUPPRESS: int := 100

  /** Suppress: 0 turns suppression off; any other value is clamped to
      [DEFAULT_SUPPRESS, MAX_SUPPRESS]. */
  function ClampSuppress(v: int): (r: int)
    ensures v == 0 ==> r == 0
    ensures v != 0 ==> DEFAULT_SUPPRESS <= r <= MAX_SUPPRESS
    ensures DEFAULT_SUPPRESS <= v <= MAX_SUPPRESS ==> r == v
    ensures v > MAX_SUPPRESS ==> r == MAX_SUPPRESS
    ensures v != 0 && v < DEFAULT_SUPPRESS ==> r == DEFAULT_SUPPRESS
  {
    if v == 0 then 0
    else
      var capped := if v > MAX_SUPPRESS then MAX_SUPPRESS else v;
      if capped < DEFAULT_SUPPRESS then DEFAULT_SUPPRESS else capped
  }

  /** Clamping a clamped value changes nothing. */
  lemma ClampSuppressIdempotent(v: int)
    ensures ClampSuppress(ClampSuppress(v)) == ClampSuppress(v)
  {
  }

  /** Four integers read from an option with sscanf. */
  datatype Quad = Quad(a: int, b: int, c: int, d: int)

  /** An option scanned for four integers: absent, present but not yielding
      four numbers, or four numbers. */
  datatype Scan = Absent | Unreadable | Read(q: Quad)

  predicate CurvePoint(x: int) {
    0 <= x <= 100
  }

  predicate CurveInRange(q: Quad) {
    CurvePoint(q.a) && CurvePoint(q.b) && CurvePoint(q.c) && CurvePoint(q.d)
  }

  /** PressCurve: the control points handed to the pressure-curve setter, or
      `current` when the option is absent, does not apply to this tool
      (cursor and touch), cannot be read, or has a point outside 0..100. */
  function PressCurve(s: Scan, applies: bool, current: Option<Quad>): (r: Option<Quad>)
    ensures r != current ==> s.Read? && applies && CurveInRange(s.q) && r == Some(s.q)
    ensures s.Read? && applies && CurveInRange(s.q) ==> r == Some(s.q)
  {
    if s.Read? && applies && CurveInRange(s.q) then Some(s.q) else current
  }

  /** Whatever PressCurve keeps in range stays in range. */
  lemma PressCurveKeepsRange(s: Scan, applies: bool, current: Option<Quad>)
    requires current.Some? ==> CurveInRange(current.value)
    ensures PressCurve(s, applies, current).Some? ==> CurveInRange(PressCurve(s, applies, current).value)
  {
  }

  predicate AllPositive(q: Quad) {
    q.a > 0 && q.b > 0 && q.c > 0 && q.d > 0
  }

  /** TVResolution: the two monitor sizes are taken only when all four numbers
      were read and are positive. */
  function TvResolution(s: Scan, current: Quad): (r: Quad)
    ensures r != current ==> s.Read? && AllPositive(s.q) && r == s.q
    ensures s.Read? && AllPositive(s.q) ==> r == s.q
  {
    if s.Read? && AllPositive(s.q) then s.q else current
  }

  predicate LegalSpeed(v: int) {
    v == 9600 || v == 19200 || v == 38400
  }

  /** BaudRate (serial ISDV4 only): one of 9600, 19200, 38400 replaces the
      current speed; anything else leaves it. */
  function Isdv4Speed(v: int, current: int): (r: int)
    ensures LegalSpeed(v) ==> r == v
    ensures !LegalSpeed(v) ==> r == current
  {
    if LegalSpeed(v) then v else current
  }

  /** A legal speed stays legal whatever the option says. */
  lemma Isdv4SpeedStaysLegal(v: int, current: int)
    requires LegalSpeed(current)
    ensures LegalSpeed(Isdv4Speed(v, current))
  {
  }

  /** Mode: the ABSOLUTE_FLAG after the option.  An unknown keyword falls back
      to relative for a cursor and absolute for every other tool. */
  function ModeAbsolute(s: Option<string>, current: bool, isCursor: bool): (r: bool)
    ensures s.None? ==> r == current
  {
    match s
    case None => current
    case Some(m) =>
      if SameName(m, "absolute") then true
      else if SameName(m, "relative") then false
      else !isCursor
  }

  /** Every spelling of either keyword sets the flag it names, whatever the
      tool; any other value gives the tool's default. */
  lemma ModeKeywords(s: string, current: bool, isCursor: bool)
    ensures SameName(s, "absolute") ==> ModeAbsolute(Some(s), current, isCursor)
    ensures SameName(s, "relative") ==> !ModeAbsolute(Some(s), current, isCursor)
    ensures !SameName(s, "absolute") && !SameName(s, "relative") ==>
      ModeAbsolute(Some(s), current, isCursor) == !isCursor
  {
    SameNameHead(s, "absolute");
    SameNameHead(s, "relative");
  }

  /** ForceDevice: the only accepted value is ISDV4; any other is an error. */
  predicate ForcesIsdv4(s: string) {
    SameName(s, "ISDV4")
  }

  datatype Rotation = RotateNone | RotateCw | RotateCcw | RotateHalf

  /** What the Rotate option does: set a rotation, leave the current one
      (keyword NONE, which the source does not write), or fail. */
  datatype RotateVerdict = SetRotation(rotation: Rotation) | KeepRotation | RotateInvalid

  function RotateOption(s: string): (r: RotateVerdict)
    ensures r.SetRotation? ==> r.rotation != RotateNone
  {
    if SameName(s, "CW") then SetRotation(RotateCw)
    else if SameName(s, "CCW") then SetRotation(RotateCcw)
    else if SameName(s, "HALF") then SetRotation(RotateHalf)
    else if SameName(s, "NONE") then KeepRotation
    else RotateInvalid
  }

  /** The keyword that names a rotation. */
  function RotateKeyword(r: Rotation): string {
    match r
    case RotateNone => "NONE"
    case RotateCw => "CW"
    case RotateCcw => "CCW"
    case RotateHalf => "HALF"
  }

  /** Every spelling of a rotation's keyword selects that rotation; NONE keeps
      the current one, and no other value is accepted. */
  lemma RotateRoundTrip(r: Rotation, s: string)
    ensures SameName(s, RotateKeyword(r)) ==>
      RotateOption(s) == if r == RotateNone then KeepRotation else SetRotation(r)
    ensures RotateOption(s) != RotateInvalid ==> exists q :: SameName(s, RotateKeyword(q))
  {
    SameNameHead(s, "CW");
    SameNameHead(s, "CCW");
    SameNameHead(s, "HALF");
    SameNameHead(s, "NONE");
    NotBoth(s, "CW", "CCW");
    if RotateOption(s) != RotateInvalid {
      if SameName(s, "CW") { assert SameName(s, RotateKeyword(RotateCw)); }
      else if SameName(s, "CCW") { assert SameName(s, RotateKeyword(RotateCcw)); }
      else if SameName(s, "HALF") { assert SameName(s, RotateKeyword(RotateHalf)); }
      else { assert SameName(s, RotateKeyword(RotateNone)); }
    }
  }

  /** The twinview layouts: TV_NONE, TV_LEFT_RIGHT, TV_ABOVE_BELOW,
      TV_RIGHT_LEFT, TV_BELOW_ABOVE. */
  datatype Twinview = TvNone | TvLeftRight | TvAboveBelow | TvRightLeft | TvBelowAbove

  /** Twinview: absent leaves the layout; an unknown keyword gives TV_NONE. */
  function TwinviewOption(s: Option<string>, current: Twinview): (r: Twinview)
    ensures s.None? ==> r == current
  {
    match s
    case None => current
    case Some(t) =>
      if SameName(t, "none") then TvNone
      else if SameName(t, "horizontal") || SameName(t, "rightof") then TvLeftRight
      else if SameName(t, "vertical") || SameName(t, "belowof") then TvAboveBelow
      else if SameName(t, "leftof") then TvRightLeft
      else if SameName(t, "aboveof") then TvBelowAbove
      else TvNone
  }

  /** The keyword that names a layout. */
  function TwinviewKeyword(t: Twinview): string {
    match t
    case TvNone => "none"
    case TvLeftRight => "horizontal"
    case TvAboveBelow => "vertical"
    case TvRightLeft => "leftof"
    case TvBelowAbove => "aboveof"
  }

  /** Every spelling of a layout's keyword selects it, and the synonyms
      rightof and belowof select the same layouts as horizontal and vertical. */
  lemma TwinviewRoundTrip(t: Twinview, s: string, current: Twinview)
    ensures SameName(s, TwinviewKeyword(t)) ==> TwinviewOption(Some(s), current) == t
    ensures SameName(s, "rightof") ==> TwinviewOption(Some(s), current) == TvLeftRight
    ensures SameName(s, "belowof") ==> TwinviewOption(Some(s), current) == TvAboveBelow
    ensures (&& !SameName(s, "none") && !SameName(s, "horizontal") && !SameName(s, "rightof")
             && !SameName(s, "vertical") && !SameName(s, "belowof") && !SameName(s, "leftof")
             && !SameName(s, "aboveof"))
        ==> TwinviewOption(Some(s), current) == TvNone
  {
    SameNameHead(s, "none");
    SameNameHead(s, "horizontal");
    SameNameHead(s, "rightof");
    SameNameHead(s, "vertical");
    SameNameHead(s, "belowof");
    SameNameHead(s, "leftof");
    SameNameHead(s, "aboveof");
  }

  /** The keyword mappings depend on a spelling only up to case and separators. */
  lemma KeywordsIgnoreSpelling(s: string, t: string, current: Twinview, absolute: bool, isCursor: bool)
    requires SameName(s, t)
    ensures RotateOption(s) == RotateOption(t)
    ensures TwinviewOption(Some(s), current) == TwinviewOption(Some(t), current)
    ensures ModeAbsolute(Some(s), absolute, isCursor) == ModeAbsolute(Some(t), absolute, isCursor)
    ensures ForcesIsdv4(s) == ForcesIsdv4(t)
  {
    SameNameSwap(s, t, "ISDV4");
    SameNameSwap(s, t, "CW");
    SameNameSwap(s, t, "CCW");
    SameNameSwap(s, t, "HALF");
    SameNameSwap(s, t, "NONE");
    SameNameSwap(s, t, "absolute");
    SameNameSwap(s, t, "relative");
    SameNameSwap(s, t, "none");
    SameNameSwap(s, t, "horizontal");
    SameNameSwap(s, t, "rightof");
    SameNameSwap(s, t, "vertical");
    SameNameSwap(s, t, "belowof");
    SameNameSwap(s, t, "leftof");
    SameNameSwap(s, t, "aboveof");
  }

  /** The maximum coordinates of the pen and of the touch sensor
      (wcmMaxX, wcmMaxY, wcmMaxTouchX, wcmMaxTouchY). */
  datatype Axes = Axes(maxX: int, maxY: int, maxTouchX: int, maxTouchY: int)

  /** MaxX and MaxY as lines 547-560 write them: for a touch device the MaxY
      option (defaulting to wcmMaxTouchY) is stored in the pen's wcmMaxY. */
  function AxisRangesAsWritten(isTouch: bool, maxX: Option<int>, maxY: Option<int>, a: Axes): Axes {
    var b := if !isTouch then a.(maxX := maxX.GetOr(a.maxX)) else a.(maxTouchX := maxX.GetOr(a.maxTouchX));
    if !isTouch then b.(maxY := maxY.GetOr(b.maxY)) else b.(maxY := maxY.GetOr(b.maxTouchY))
  }

  /** For a touch device the code as written overwrites the pen's maximum Y
      even when no MaxY option is given, and never sets the touch maximum Y. */
  lemma AsWrittenTouchClobbersPenMaxY(a: Axes, maxY: Option<int>)
    requires a.maxY != a.maxTouchY
    ensures AxisRangesAsWritten(true, None, None, a).maxY != a.maxY
    ensures AxisRangesAsWritten(true, None, maxY, a).maxTouchY == a.maxTouchY
  {
  }

  /** MaxX and MaxY as the parallel MaxX branch evidently intends: a touch
      device reads both options into the touch ranges, every other device into
      the pen ranges. */
  function AxisRanges(isTouch: bool, maxX: Option<int>, maxY: Option<int>, a: Axes): Axes {
    if !isTouch then a.(maxX := maxX.GetOr(a.maxX), maxY := maxY.GetOr(a.maxY))
    else a.(maxTouchX := maxX.GetOr(a.maxTouchX), maxTouchY := maxY.GetOr(a.maxTouchY))
  }

  /** Each device changes only its own sensor's ranges, and an absent option
      leaves its range as it was. */
  lemma AxisRangesKeepOtherSensor(isTouch: bool, maxX: Option<int>, maxY: Option<int>, a: Axes)
    ensures var r := AxisRanges(isTouch, maxX, maxY, a);
      && (isTouch ==> r.maxX == a.maxX && r.maxY == a.maxY)
      && (!isTouch ==> r.maxTouchX == a.maxTouchX && r.maxTouchY == a.maxTouchY)
      && (maxX.None? && maxY.None? ==> r == a)
  {
  }
}
