/** Decimal quantities held to four places, the unit registry, and arithmetic within a dimension. */
module Units {
  import opened Common

  // --- Rounding: to the nearest ten-thousandth, ties to even ---

  function RoundHalfEven(y: real): int {
    var f := y.Floor;
    var d := y - f as real;
    if d < 0.5 then f else if d > 0.5 then f + 1 else if f % 2 == 0 then f else f + 1
  }

  function RoundTicks(x: real): int {
    RoundHalfEven(x * 10000.0)
  }

  function FromTicks(n: int): real {
    n as real / 10000.0
  }

  function Round4(x: real): real {
    FromTicks(RoundTicks(x))
  }

  predicate FourDecimals(x: real) {
    x == FromTicks(RoundTicks(x))
  }

  /** Within half a tick there is only one choice. */
  lemma NearestIsUnique(x: real, n: int)
    requires -0.5 < x * 10000.0 - n as real < 0.5
    ensures RoundTicks(x) == n
  {
    var y := x * 10000.0;
    var f := y.Floor;
    assert f as real <= y < f as real + 1.0;
    if f != n {
      assert f == n - 1;
    }
  }

  lemma RoundingError(x: real)
    ensures -0.00005 <= Round4(x) - x <= 0.00005
  {
    var y := x * 10000.0;
    var n := RoundTicks(x);
    assert -0.5 <= n as real - y <= 0.5;
    assert Round4(x) - x == (n as real - y) / 10000.0;
  }

  lemma TicksAreFixed(n: int)
    ensures RoundTicks(FromTicks(n)) == n && FourDecimals(FromTicks(n))
  {
    NearestIsUnique(FromTicks(n), n);
  }

  /** Rounding lands on the grid, moves nothing on the grid, and breaks ties to the even tick. */
  lemma RoundingIsStable(x: real)
    ensures FourDecimals(Round4(x)) && Round4(Round4(x)) == Round4(x)
    ensures FourDecimals(x) ==> Round4(x) == x
    ensures x * 10000.0 - (x * 10000.0).Floor as real == 0.5 ==> RoundTicks(x) % 2 == 0
  {
    TicksAreFixed(RoundTicks(x));
  }

  lemma FloorOfNegation(y: real)
    ensures (-y).Floor == if y == y.Floor as real then -y.Floor else -y.Floor - 1
  {
    var f := y.Floor;
    var g := (-y).Floor;
    assert f as real <= y < f as real + 1.0 && g as real <= -y < g as real + 1.0;
  }

  lemma HalfEvenIsSymmetric(y: real)
    ensures RoundHalfEven(-y) == -RoundHalfEven(y)
  {
    FloorOfNegation(y);
  }

  /** Negative quantities round as their mirror images. */
  lemma RoundingIsSymmetric(x: real)
    ensures Round4(-x) == -Round4(x)
  {
    HalfEvenIsSymmetric(x * 10000.0);
    assert (-x) * 10000.0 == -(x * 10000.0);
  }

  lemma SumsStayOnTheGrid(x: real, y: real)
    requires FourDecimals(x) && FourDecimals(y)
    ensures FourDecimals(x + y) && FourDecimals(x - y)
  {
    var m, n := RoundTicks(x), RoundTicks(y);
    assert x + y == FromTicks(m + n);
    assert x - y == FromTicks(m - n);
    TicksAreFixed(m + n);
    TicksAreFixed(m - n);
  }

  // --- The registry ---

  datatype Dimension = MassDim | VolumeDim | CountDim | AnomalousDim

  function BaseUnit(d: Dimension): string {
    match d
    case MassDim => "g"
    case VolumeDim => "ml"
    case CountDim => "units"
    case AnomalousDim => "misc"
  }

  datatype Unit = Unit(symbol: string, dimension: Dimension, multiplier: real, contextual: bool)

  predicate IsWhite(c: char) {
    var k := c as int;
    9 <= k <= 13 || k == 32 || k == 0x85 || k == 0xA0 || k == 0x1680 || 0x2000 <= k <= 0x200A
    || k == 0x2028 || k == 0x2029 || k == 0x202F || k == 0x205F || k == 0x3000
  }

  function TrimStart(s: string): string {
    if s != [] && IsWhite(s[0]) then TrimStart(s[1..]) else s
  }

  function TrimEnd(s: string): string {
    if s != [] && IsWhite(s[|s| - 1]) then TrimEnd(s[..|s| - 1]) else s
  }

  function FoldChar(c: char): char {
    if 'A' <= c <= 'Z' then c - 'A' + 'a' else if c == '-' || c == ' ' then '_' else c
  }

  function FoldAll(s: string): (r: string)
    ensures |r| == |s| && forall i :: 0 <= i < |s| ==> r[i] == FoldChar(s[i])
  {
    if s == [] then [] else [FoldChar(s[0])] + FoldAll(s[1..])
  }

  /** Trimmed, lower-cased, hyphens and spaces as underscores. */
  function NormalizeSymbol(symbol: string): string {
    FoldAll(TrimEnd(TrimStart(symbol)))
  }

  function LookUp(s: string): Option<Unit> {
    if s in {"g", "gram", "grams"} then Some(Unit("g", MassDim, 1.0, false))
    else if s in {"kg", "kilogram", "kilograms"} then Some(Unit("kg", MassDim, 1000.0, false))
    else if s in {"lb", "lbs", "pound", "pounds"} then Some(Unit("lb", MassDim, 453.59237, false))
    else if s in {"oz", "ounce", "ounces"} then Some(Unit("oz", MassDim, 28.34952, false))
    else if s in {"ml", "milliliter", "milliliters", "millilitre", "millilitres"} then Some(Unit("ml", VolumeDim, 1.0,
          false))
    else if s in {"l", "liter", "liters", "litre", "litres"} then Some(Unit("L", VolumeDim, 1000.0, false))
    else if s in {"gal", "gallon", "gallons"} then Some(Unit("gal", VolumeDim, 3785.41178, false))
    else if s in {"fl_oz", "fluid_ounce", "fluid_ounces"} then Some(Unit("fl_oz", VolumeDim, 29.57353, false))
    else if s in {"units", "unit", "pc", "pcs"} then Some(Unit("units", CountDim, 1.0, false))
    else if s in {"dozens", "dozen"} then Some(Unit("dozens", CountDim, 12.0, false))
    else if s in {"packs", "pack"} then Some(Unit("packs", CountDim, 1.0, true))
    else if s in {"misc", "handful", "bunch", "handfuls", "bunches"} then Some(Unit("misc", AnomalousDim, 1.0, true))
    else None
  }

  function Resolve(symbol: string): Option<Unit> {
    LookUp(NormalizeSymbol(symbol))
  }

  /** No registered multiplier shrinks a quantity, so the grid of the base unit is the finer one. */
  lemma MultipliersAreAtLeastOne(symbol: string)
    requires Resolve(symbol).Some?
    ensures Resolve(symbol).value.multiplier >= 1.0
  {
  }

  lemma PlainSymbolsAreNormal(s: string)
    requires s != [] && forall i :: 0 <= i < |s| ==> 'a' <= s[i] <= 'z' || s[i] == '_'
    ensures NormalizeSymbol(s) == s
  {
    assert TrimStart(s) == s;
    assert TrimEnd(s) == s;
    assert FoldAll(s) == s;
  }

  lemma BaseUnitsAreListed(d: Dimension)
    ensures LookUp(BaseUnit(d)).Some? && LookUp(BaseUnit(d)).value.dimension == d
    ensures LookUp(BaseUnit(d)).value.multiplier == 1.0
  {
  }

  lemma BaseUnitsAreNormal(d: Dimension)
    ensures NormalizeSymbol(BaseUnit(d)) == BaseUnit(d)
  {
    PlainSymbolsAreNormal(BaseUnit(d));
  }

  /** Every base unit resolves to its own dimension with multiplier one. */
  lemma BaseUnitsResolveToThemselves(d: Dimension)
    ensures Resolve(BaseUnit(d)).Some? && Resolve(BaseUnit(d)).value.dimension == d
    ensures Resolve(BaseUnit(d)).value.multiplier == 1.0
  {
    BaseUnitsAreNormal(d);
    BaseUnitsAreListed(d);
  }

  // --- The laws of the registry ---

  /** A symbol of lower-case letters and underscores is looked up as it is. */
  lemma PlainResolves(s: string)
    requires s != [] && forall i :: 0 <= i < |s| ==> 'a' <= s[i] <= 'z' || s[i] == '_'
    ensures Resolve(s) == LookUp(s)
  {
    PlainSymbolsAreNormal(s);
  }

  /** So many base units of the dimension make one of the unit. */
  predicate Weighs(s: string, d: Dimension, multiplier: real) {
    LookUp(s).Some? && LookUp(s).value.dimension == d && LookUp(s).value.multiplier == multiplier
  }

  function Factor(s: string): real {
    match LookUp(s) case Some(u) => u.multiplier case None => 0.0
  }

  /** A kilogram is 1000 grams, a pound 453.59237 grams and, to the stated digits, 16 ounces. */
  lemma MassLaws()
    ensures Weighs("g", MassDim, 1.0) && Weighs("kg", MassDim, 1000.0) && Weighs("lb", MassDim, 453.59237)
    ensures Weighs("oz", MassDim, Factor("oz")) && -0.0001 <= Factor("lb") - 16.0 * Factor("oz") <= 0.0001
    ensures LookUp("gram") == LookUp("grams") == LookUp("g")
    ensures LookUp("kilogram") == LookUp("kilograms") == LookUp("kg")
    ensures LookUp("pound") == LookUp("pounds") == LookUp("lbs") == LookUp("lb")
    ensures LookUp("ounce") == LookUp("ounces") == LookUp("oz")
  {
  }

  /** A liter is 1000 milliliters; to the stated digits a gallon is 3.785411784 liters and 128 fluid ounces. */
  lemma VolumeLaws()
    ensures Weighs("ml", VolumeDim, 1.0) && Weighs("l", VolumeDim, 1000.0)
    ensures Weighs("gal", VolumeDim, Factor("gal")) && -0.00001 <= Factor("gal") - 3785.411784 <= 0.00001
    ensures Weighs("fl_oz", VolumeDim, Factor("fl_oz")) && -0.0001 <= Factor("gal") - 128.0 * Factor("fl_oz") <= 0.0001
    ensures LookUp("milliliter") == LookUp("milliliters") == LookUp("millilitre") == LookUp("millilitres")
            == LookUp("ml")
    ensures LookUp("liter") == LookUp("liters") == LookUp("litre") == LookUp("litres") == LookUp("l")
    ensures LookUp("gallon") == LookUp("gallons") == LookUp("gal")
    ensures LookUp("fluid_ounce") == LookUp("fluid_ounces") == LookUp("fl_oz")
  {
  }

  /** A dozen is 12 units. */
  lemma CountLaws()
    ensures Weighs("units", CountDim, 1.0) && Weighs("dozen", CountDim, 12.0)
    ensures LookUp("packs").Some? && LookUp("packs").value.dimension == CountDim
    ensures LookUp("unit") == LookUp("pc") == LookUp("pcs") == LookUp("units") && LookUp("dozens") == LookUp("dozen")
    ensures LookUp("pack") == LookUp("packs")
  {
  }

  lemma AnomalousLaws()
    ensures LookUp("misc").Some? && LookUp("misc").value.dimension == AnomalousDim
    ensures LookUp("handful") == LookUp("handfuls") == LookUp("bunch") == LookUp("bunches") == LookUp("misc")
  {
  }

  /** What a pack or a handful comes to is for the oracle to say, and of nothing else. */
  lemma ContextualLaw(s: string)
    requires LookUp(s).Some?
    ensures LookUp(s).value.contextual <==> LookUp(s) == LookUp("packs") || LookUp(s) == LookUp("misc")
  {
  }

  /** Two characters that a symbol does not tell apart: the cases of a letter; hyphen, space and underscore. */
  predicate Alike(c: char, d: char) {
    c == d || ('A' <= c <= 'Z' && d == c - 'A' + 'a') || ('A' <= d <= 'Z' && c == d - 'A' + 'a')
    || (c in {'-', ' ', '_'} && d in {'-', ' ', '_'})
  }

  predicate Trimmed(s: string) {
    s != [] ==> !IsWhite(s[0]) && !IsWhite(s[|s| - 1])
  }

  lemma TrimmedIsFolded(s: string)
    requires Trimmed(s)
    ensures NormalizeSymbol(s) == FoldAll(s)
  {
    assert TrimStart(s) == s;
    assert TrimEnd(s) == s;
  }

  lemma AlikeFolds(c: char, d: char)
    requires Alike(c, d)
    ensures FoldChar(c) == FoldChar(d)
  {
  }

  /** The case of letters does not matter, nor whether words are parted by hyphens, spaces or underscores. */
  lemma AlikeResolvesAlike(s: string, t: string)
    requires |s| == |t| && Trimmed(s) && Trimmed(t) && forall i :: 0 <= i < |s| ==> Alike(s[i], t[i])
    ensures Resolve(s) == Resolve(t)
  {
    TrimmedIsFolded(s);
    TrimmedIsFolded(t);
    forall i | 0 <= i < |s| ensures FoldChar(s[i]) == FoldChar(t[i]) {
      AlikeFolds(s[i], t[i]);
    }
    assert FoldAll(s) == FoldAll(t);
  }

  lemma {:induction false} TrimStartOfMore(s: string, c: char)
    requires IsWhite(c)
    ensures TrimEnd(TrimStart(s + [c])) == TrimEnd(TrimStart(s))
    decreases |s|
  {
    if s == [] {
      assert [] + [c] == [c] && TrimStart([c]) == [];
    } else if IsWhite(s[0]) {
      assert (s + [c])[1..] == s[1..] + [c];
      TrimStartOfMore(s[1..], c);
    } else {
      assert (s + [c])[..|s|] == s;
    }
  }

  /** White space around a symbol does not matter. */
  lemma OuterSpaceIsIgnored(s: string, c: char)
    requires IsWhite(c)
    ensures Resolve([c] + s) == Resolve(s) && Resolve(s + [c]) == Resolve(s)
  {
    assert ([c] + s)[1..] == s;
    TrimStartOfMore(s, c);
  }

  // --- Conversions ---

  function ToBase(quantity: real, multiplier: real): real {
    Round4(quantity * multiplier)
  }

  function Product(quantity: real, multiplier: real): real {
    quantity * multiplier
  }

  /** A conversion is the product, on the grid, and within half a tick of it. */
  lemma ConversionIsNear(q: real, m: real)
    ensures ToBase(q, m) == Round4(Product(q, m)) && FourDecimals(ToBase(q, m))
    ensures -0.00005 <= ToBase(q, m) - Product(q, m) <= 0.00005
  {
    RoundingIsStable(q * m);
    RoundingError(q * m);
  }

  /** Back to a display unit; contextual units cannot be reversed. */
  function ToDisplay(base: real, symbol: string): Option<real> {
    match Resolve(symbol)
    case Some(u) => if u.contextual || u.multiplier == 0.0 then None else Some(Round4(base / u.multiplier))
    case None => None
  }

  /** A display value exists for physical units, and for them alone. */
  lemma DisplayIsPhysical(base: real, symbol: string)
    ensures ToDisplay(base, symbol).Some? <==> Resolve(symbol).Some? && !Resolve(symbol).value.contextual
  {
    if Resolve(symbol).Some? { MultipliersAreAtLeastOne(symbol); }
  }

  lemma ErrorShrinks(r: real, x: real, m: real)
    requires m >= 1.0 && -0.00005 <= r - x * m <= 0.00005
    ensures -0.00005 / m <= r / m - x <= 0.00005 / m
  {
    var e := r - x * m;
    assert r / m - x == e / m;
    ScaleDown(e, m);
  }

  lemma ScaleDown(e: real, m: real)
    requires m >= 1.0 && -0.00005 <= e <= 0.00005
    ensures -0.00005 / m <= e / m <= 0.00005 / m
  {
    DivMonotone(e, 0.00005, m);
    DivMonotone(-0.00005, e, m);
    assert -0.00005 / m == (-0.00005) / m;
  }

  lemma DivMonotone(a: real, b: real, m: real)
    requires a <= b && m >= 1.0
    ensures a / m <= b / m
  {
    var p, q := a / m, b / m;
    assert p * m == a && q * m == b;
    if p > q { MulStrict(p - q, m); }
  }

  lemma MulStrict(d: real, m: real)
    requires d > 0.0 && m >= 1.0
    ensures d * m > 0.0
  {
  }

  lemma QuotientBelow(m: real)
    requires m > 1.0
    ensures 0.00005 / m < 0.00005
  {
    var p := 0.00005 / m;
    assert p * m == 0.00005;
    if p >= 0.00005 { MulGrows(p, m); }
  }

  lemma MulGrows(p: real, m: real)
    requires p > 0.0 && m > 1.0
    ensures p * m > p
  {
    assert p * m - p == p * (m - 1.0);
    MulPositive(p, m - 1.0);
  }

  lemma MulPositive(p: real, d: real)
    requires p > 0.0 && d > 0.0
    ensures p * d > 0.0
  {
  }

  lemma RoundTripAt(q: real, m: real)
    requires FourDecimals(q) && m >= 1.0
    ensures Round4(ToBase(q, m) / m) == q
  {
    var r := ToBase(q, m);
    if m == 1.0 {
      RoundingIsStable(q);
      assert q * m == q && r / m == q;
    } else {
      RoundingError(q * m);
      ErrorShrinks(r, q, m);
      QuotientBelow(m);
      assert -0.00005 / m == -(0.00005 / m);
      NearestIsUnique(r / m, RoundTicks(q));
    }
  }

  /** A quantity of at most four decimals survives the conversion to base and back, in every physical unit. */
  lemma DisplayRoundTrip(q: real, symbol: string)
    requires FourDecimals(q) && Resolve(symbol).Some? && !Resolve(symbol).value.contextual
    ensures ToDisplay(ToBase(q, Resolve(symbol).value.multiplier), symbol) == Some(q)
  {
    MultipliersAreAtLeastOne(symbol);
    RoundTripAt(q, Resolve(symbol).value.multiplier);
  }

  lemma DisplayErrorAt(q: real, m: real)
    requires m >= 1.0
    ensures -(0.00005 / m + 0.00005) <= Round4(ToBase(q, m) / m) - q <= 0.00005 / m + 0.00005
  {
    RoundingError(q * m);
    ErrorShrinks(ToBase(q, m), q, m);
    RoundingError(ToBase(q, m) / m);
    assert -0.00005 / m == -(0.00005 / m);
  }

  /** For any quantity the displayed value is within the two rounding errors. */
  lemma DisplayError(q: real, symbol: string)
    requires Resolve(symbol).Some? && !Resolve(symbol).value.contextual
    ensures var m := Resolve(symbol).value.multiplier;
            var shown := ToDisplay(ToBase(q, m), symbol);
            shown.Some? && -(0.00005 / m + 0.00005) <= shown.value - q <= 0.00005 / m + 0.00005
  {
    MultipliersAreAtLeastOne(symbol);
    DisplayErrorAt(q, Resolve(symbol).value.multiplier);
  }

  // --- The dimensional fence ---

  datatype PhysicalQuantity = PhysicalQuantity(dimension: Dimension, value: real)

  datatype UnitError = InvalidSymbol | InvalidQuantity | DimensionalMismatch

  datatype Checked<+T> = Fine(value: T) | Failed(error: UnitError)

  function Plus(a: PhysicalQuantity, b: PhysicalQuantity): Checked<PhysicalQuantity> {
    if a.dimension == b.dimension then Fine(a.(value := a.value + b.value)) else Failed(DimensionalMismatch)
  }

  function Minus(a: PhysicalQuantity, b: PhysicalQuantity): Checked<PhysicalQuantity> {
    if a.dimension == b.dimension then Fine(a.(value := a.value - b.value)) else Failed(DimensionalMismatch)
  }

  /** Subtraction undoes addition; both leave the grid and the dimension alone and refuse exactly a mismatch. */
  lemma FenceArithmetic(a: PhysicalQuantity, b: PhysicalQuantity)
    ensures Plus(a, b).Fine? <==> a.dimension == b.dimension
    ensures Minus(a, b).Fine? <==> a.dimension == b.dimension
    ensures Plus(a, b).Fine? ==> Minus(Plus(a, b).value, b) == Fine(a)
    ensures FourDecimals(a.value) && FourDecimals(b.value) && a.dimension == b.dimension ==>
              FourDecimals(Plus(a, b).value.value) && FourDecimals(Minus(a, b).value.value)
  {
    if FourDecimals(a.value) && FourDecimals(b.value) { SumsStayOnTheGrid(a.value, b.value); }
  }

  /** Resolve the unit, convert with its multiplier; a malformed quantity arrives as `None`. */
  function ParseAndConvert(quantity: Option<real>, symbol: string): Checked<PhysicalQuantity> {
    match Resolve(symbol)
    case None => Failed(InvalidSymbol)
    case Some(u) => Convert(quantity, u.dimension, u.multiplier)
  }

  /** The same with a multiplier supplied from outside. */
  function ParseAndConvertWith(quantity: Option<real>, symbol: string, multiplier: real): Checked<PhysicalQuantity> {
    match Resolve(symbol)
    case None => Failed(InvalidSymbol)
    case Some(u) => Convert(quantity, u.dimension, multiplier)
  }

  function Convert(quantity: Option<real>, d: Dimension, multiplier: real): Checked<PhysicalQuantity> {
    match quantity
    case None => Failed(InvalidQuantity)
    case Some(q) => Fine(PhysicalQuantity(d, ToBase(q, multiplier)))
  }

  /** Reading back a stored base quantity is the identity. */
  lemma StoredQuantityRereads(p: PhysicalQuantity)
    requires FourDecimals(p.value)
    ensures ParseAndConvert(Some(p.value), BaseUnit(p.dimension)) == Fine(p)
  {
    BaseUnitsResolveToThemselves(p.dimension);
    RoundingIsStable(p.value);
    assert p.value * 1.0 == p.value;
  }
}
