/** The gateway's physical checks: what may be proposed, given an oracle's reading of a request. */
module Stabilizer {
  import opened Common
  import opened FsmTypes
  import opened Units
  import opened Slugs

  datatype Operation = Add | Subtract | Set | Delete

  /** The request's quantity text: absent, not a decimal, or a decimal. */
  datatype Given = Missing | Malformed | Amount(value: real)

  datatype Intent = Intent(operation: Operation, quantity: Given)

  /** The oracle's reading; a multiplier that is not a decimal is `None`. */
  datatype Veto = Veto(
    approved: bool, category: string, itemKey: string, displayName: string,
    resolvedUnit: string, multiplier: Option<real>, justification: string)

  datatype Stabilized = Stabilized(
    itemKey: string, displayName: string, quantity: real, baseUnit: string,
    displayUnit: string, category: string, justification: string)

  datatype Reason =
    | UnknownCategory | KeyNotASlug | QuantityMissing | UnknownUnit | BadMultiplier | BadQuantity | NotPositive
    | ExistingUnitInvalid | DimensionFence | ExistingUnreadable | ArithmeticMismatch | WouldBeNegative

  datatype Verdict<+T> = Taken(value: T) | Denied(reason: Reason)

  // --- The category registry ---

  /** The registered names, with and without their spaces. */
  const CATEGORIES: map<string, string> := map[
    "primary flora" := "Primary Flora", "primaryflora" := "Primary Flora",
    "animal secretions" := "Animal Secretions", "animalsecretions" := "Animal Secretions",
    "flesh and marrow" := "Flesh And Marrow", "fleshandmarrow" := "Flesh And Marrow",
    "shelf stable carbohydrates" := "Shelf Stable Carbohydrates",
    "shelfstablecarbohydrates" := "Shelf Stable Carbohydrates",
    "cultured doughs" := "Cultured Doughs", "cultureddoughs" := "Cultured Doughs",
    "liquefied hydration" := "Liquefied Hydration", "liquefiedhydration" := "Liquefied Hydration",
    "condiments and catalysts" := "Condiments And Catalysts",
    "condimentsandcatalysts" := "Condiments And Catalysts",
    "nutrient sparse commodities" := "Nutrient Sparse Commodities",
    "nutrientsparsecommodities" := "Nutrient Sparse Commodities",
    "ethanol solutions" := "Ethanol Solutions", "ethanolsolutions" := "Ethanol Solutions",
    "biomedical maintenance" := "Biomedical Maintenance", "biomedicalmaintenance" := "Biomedical Maintenance",
    "sanitization and utility" := "Sanitization And Utility",
    "sanitizationandutility" := "Sanitization And Utility",
    "anomalous inputs" := "Anomalous Inputs", "anomalousinputs" := "Anomalous Inputs"]

  /** Names compare without regard to ASCII case, with or without their spaces. */
  function CategoryNamed(lower: string): Option<string> {
    if lower in CATEGORIES then Some(CATEGORIES[lower]) else None
  }

  function ParseCategory(s: string): Option<string> {
    CategoryNamed(LowerAll(s))
  }

  // --- Stabilization ---

  /** The unit must be registered, the multiplier a decimal even where it is not used, the result positive. */
  function StabilizeUnit(quantity: Option<real>, symbol: string, multiplier: Option<real>): Verdict<PhysicalQuantity> {
    match Resolve(symbol)
    case None => Denied(UnknownUnit)
    case Some(u) =>
      match multiplier
      case None => Denied(BadMultiplier)
      case Some(m) =>
        match (if u.contextual then ParseAndConvertWith(quantity, symbol, m) else ParseAndConvert(quantity, symbol))
        case Failed(_) => Denied(BadQuantity)
        case Fine(p) => if p.value <= 0.0 then Denied(NotPositive) else Taken(p)
  }

  function Find(inventory: seq<GroceryItem>, key: string): Option<GroceryItem> {
    if inventory == [] then None
    else if inventory[0].itemKey == key then Some(inventory[0])
    else Find(inventory[1..], key)
  }

  /** Add and Subtract need an existing item of the same dimension, if there is one. */
  function Fence(op: Operation, existing: Option<GroceryItem>, p: PhysicalQuantity): Option<Reason> {
    if !(op.Add? || op.Subtract?) || existing == None then None
    else match Resolve(existing.value.unit)
      case None => Some(ExistingUnitInvalid)
      case Some(u) => if u.dimension != p.dimension then Some(DimensionFence) else None
  }

  function Accumulate(op: Operation, existing: Option<GroceryItem>, p: PhysicalQuantity): Verdict<PhysicalQuantity> {
    if !(op.Add? || op.Subtract?) || existing == None then Taken(p)
    else match ParseAndConvert(Some(existing.value.quantity), existing.value.unit)
      case Failed(_) => Denied(ExistingUnreadable)
      case Fine(held) =>
        match (if op.Add? then Plus(held, p) else Minus(held, p))
        case Failed(_) => Denied(ArithmeticMismatch)
        case Fine(r) => if r.value < 0.0 then Denied(WouldBeNegative) else Taken(r)
  }

  /** The fence, then the sum. */
  function Combine(op: Operation, existing: Option<GroceryItem>, p: PhysicalQuantity): Verdict<PhysicalQuantity> {
    match Fence(op, existing, p)
    case Some(why) => Denied(why)
    case None => Accumulate(op, existing, p)
  }

  function AsOption(q: Given): Option<real> {
    match q case Amount(v) => Some(v) case _ => None
  }

  /** The stored amount a request leads to. */
  function StabilizeAmount(intent: Intent, veto: Veto, inventory: seq<GroceryItem>): Verdict<PhysicalQuantity> {
    if intent.quantity.Missing? then Denied(QuantityMissing)
    else match StabilizeUnit(AsOption(intent.quantity), veto.resolvedUnit, veto.multiplier)
      case Denied(why) => Denied(why)
      case Taken(p) => Combine(intent.operation, Find(inventory, veto.itemKey), p)
  }

  /** The order of the checks: category, key, then the amount; a deletion needs no amount. */
  function Assemble(category: Option<string>, intent: Intent, veto: Veto,
      inventory: seq<GroceryItem>): Verdict<Stabilized> {
    if category == None then Denied(UnknownCategory)
    else if Slug(veto.itemKey) != veto.itemKey then Denied(KeyNotASlug)
    else if intent.operation.Delete? then
      Taken(Stabilized(veto.itemKey, veto.displayName, 0.0, "units", veto.resolvedUnit, category.value,
            veto.justification))
    else match StabilizeAmount(intent, veto, inventory)
      case Denied(why) => Denied(why)
      case Taken(r) =>
        Taken(Stabilized(veto.itemKey, veto.displayName, r.value, BaseUnit(r.dimension),
                         veto.resolvedUnit, category.value, veto.justification))
  }

  function ValidateAndStabilize(intent: Intent, veto: Veto, inventory: seq<GroceryItem>): Verdict<Stabilized> {
    Assemble(ParseCategory(veto.category), intent, veto, inventory)
  }

  // --- The amount asked for ---

  /** The multiplier in force: the oracle's for contextual units, else the registry's. */
  function Multiplier(v: Veto): real {
    match Resolve(v.resolvedUnit)
    case None => 0.0
    case Some(u) => if u.contextual then (match v.multiplier case Some(m) => m case None => 0.0) else u.multiplier
  }

  function Asked(q: Given): real {
    match q case Amount(value) => value case _ => 0.0
  }

  /** The amount asked for, in the base unit, before rounding and after it. */
  function Raw(intent: Intent, v: Veto): real {
    Product(Asked(intent.quantity), Multiplier(v))
  }

  function Rounded(intent: Intent, v: Veto): real {
    ToBase(Asked(intent.quantity), Multiplier(v))
  }

  lemma RoundedIsNearRaw(intent: Intent, v: Veto)
    ensures Rounded(intent, v) == Round4(Raw(intent, v)) && FourDecimals(Rounded(intent, v))
    ensures -0.00005 <= Rounded(intent, v) - Raw(intent, v) <= 0.00005
  {
    ConversionIsNear(Asked(intent.quantity), Multiplier(v));
  }

  /** The request states an amount in a known unit, and it is positive once rounded. */
  predicate HasAmount(intent: Intent, v: Veto) {
    && intent.quantity.Amount? && Resolve(v.resolvedUnit).Some? && v.multiplier.Some?
    && Rounded(intent, v) > 0.0
  }

  function AmountDimension(v: Veto): Dimension {
    match Resolve(v.resolvedUnit) case Some(u) => u.dimension case None => AnomalousDim
  }

  lemma UnitConverts(intent: Intent, v: Veto)
    requires intent.quantity.Amount? && Resolve(v.resolvedUnit).Some? && v.multiplier.Some?
    ensures var x := Rounded(intent, v);
            StabilizeUnit(AsOption(intent.quantity), v.resolvedUnit, v.multiplier)
            == if x <= 0.0 then Denied(NotPositive) else Taken(PhysicalQuantity(AmountDimension(v), x))
  {
    var u := Resolve(v.resolvedUnit).value;
    var m := if u.contextual then v.multiplier.value else u.multiplier;
    assert Multiplier(v) == m && Asked(intent.quantity) == intent.quantity.value;
  }

  lemma UnitTakesExactly(intent: Intent, v: Veto)
    requires !intent.quantity.Missing?
    ensures var r := StabilizeUnit(AsOption(intent.quantity), v.resolvedUnit, v.multiplier);
            && (r.Taken? <==> HasAmount(intent, v))
            && (r.Taken? ==>
                  r.value == PhysicalQuantity(AmountDimension(v), Rounded(intent, v)) && FourDecimals(r.value.value))
            && (r.Denied? ==> r.reason in {UnknownUnit, BadMultiplier, BadQuantity, NotPositive})
  {
    if intent.quantity.Amount? && Resolve(v.resolvedUnit).Some? && v.multiplier.Some? {
      UnitConverts(intent, v);
      RoundedIsNearRaw(intent, v);
    }
  }

  // --- Well-formed inventories ---

  predicate IsBaseUnit(s: string) {
    s == "g" || s == "ml" || s == "units" || s == "misc"
  }

  /** A slug for a key, a base unit, and a non-negative quantity of at most four decimals. */
  predicate WellFormedItem(item: GroceryItem) {
    IsSlug(item.itemKey) && IsBaseUnit(item.unit) && item.quantity >= 0.0 && FourDecimals(item.quantity)
  }

  predicate AllWellFormed(items: seq<GroceryItem>) {
    forall i :: 0 <= i < |items| ==> WellFormedItem(items[i])
  }

  lemma {:induction false} FoundIsWellFormed(items: seq<GroceryItem>, key: string)
    requires AllWellFormed(items) && Find(items, key).Some?
    ensures WellFormedItem(Find(items, key).value) && Find(items, key).value.itemKey == key
  {
    if items[0].itemKey != key {
      assert forall i :: 0 <= i < |items[1..]| ==> items[1..][i] == items[i + 1];
      FoundIsWellFormed(items[1..], key);
    }
  }

  function DimensionOf(s: string): Dimension
    requires IsBaseUnit(s)
  {
    if s == "g" then MassDim else if s == "ml" then VolumeDim else if s == "units" then CountDim else AnomalousDim
  }

  /** A stored item reads back as exactly what it holds. */
  lemma StoredItemRereads(item: GroceryItem)
    requires WellFormedItem(item)
    ensures Resolve(item.unit).Some? && Resolve(item.unit).value.dimension == DimensionOf(item.unit)
    ensures ParseAndConvert(Some(item.quantity), item.unit) == Fine(PhysicalQuantity(DimensionOf(item.unit),
          item.quantity))
  {
    var p := PhysicalQuantity(DimensionOf(item.unit), item.quantity);
    assert BaseUnit(p.dimension) == item.unit;
    BaseUnitsResolveToThemselves(p.dimension);
    StoredQuantityRereads(p);
  }

  /** Against a well-formed item the accumulation is the plain sum or difference, refused only below zero. */
  lemma AccumulateExactly(op: Operation, item: GroceryItem, p: PhysicalQuantity)
    requires WellFormedItem(item) && (op.Add? || op.Subtract?) && FourDecimals(p.value)
    ensures Fence(op, Some(item), p) == if p.dimension == DimensionOf(item.unit) then None else Some(DimensionFence)
    ensures p.dimension == DimensionOf(item.unit) ==>
              var total := if op.Add? then item.quantity + p.value else item.quantity - p.value;
              Accumulate(op, Some(item), p)
              == (if total < 0.0 then Denied(WouldBeNegative) else Taken(PhysicalQuantity(p.dimension, total)))
              && FourDecimals(total)
  {
    StoredItemRereads(item);
    SumsStayOnTheGrid(item.quantity, p.value);
  }

  lemma CombineIsWellFormed(op: Operation, existing: Option<GroceryItem>, p: PhysicalQuantity)
    requires existing.Some? ==> WellFormedItem(existing.value)
    requires p.value > 0.0 && FourDecimals(p.value)
    ensures match Combine(op, existing, p)
            case Taken(r) => r.value >= 0.0 && FourDecimals(r.value)
            case Denied(why) => why == DimensionFence || why == WouldBeNegative
  {
    if existing.Some? && (op.Add? || op.Subtract?) {
      AccumulateExactly(op, existing.value, p);
    }
  }

  predicate WellFormedResult(s: Stabilized) {
    IsSlug(s.itemKey) && IsBaseUnit(s.baseUnit) && s.quantity >= 0.0 && FourDecimals(s.quantity)
  }

  /** The refusals that would blame the stored item. */
  predicate BlamesStoredItem(why: Reason) {
    why.ExistingUnitInvalid? || why.ExistingUnreadable? || why.ArithmeticMismatch?
  }

  lemma AmountIsWellFormed(intent: Intent, veto: Veto, inventory: seq<GroceryItem>)
    requires AllWellFormed(inventory)
    ensures match StabilizeAmount(intent, veto, inventory)
            case Taken(r) => r.value >= 0.0 && FourDecimals(r.value)
            case Denied(why) => !BlamesStoredItem(why)
  {
    var existing := Find(inventory, veto.itemKey);
    if existing.Some? { FoundIsWellFormed(inventory, veto.itemKey); }
    if !intent.quantity.Missing? {
      UnitTakesExactly(intent, veto);
      match StabilizeUnit(AsOption(intent.quantity), veto.resolvedUnit, veto.multiplier)
      case Denied(_) =>
      case Taken(p) => CombineIsWellFormed(intent.operation, existing, p);
    }
  }

  lemma AssembledIsWellFormed(category: Option<string>, intent: Intent, veto: Veto, inventory: seq<GroceryItem>)
    requires AllWellFormed(inventory)
    ensures match Assemble(category, intent, veto, inventory)
            case Taken(s) => WellFormedResult(s) && s.itemKey == veto.itemKey
            case Denied(why) => !BlamesStoredItem(why)
  {
    if category.Some? && Slug(veto.itemKey) == veto.itemKey {
      FixedPointsAreTheSlugs(veto.itemKey);
      if intent.operation.Delete? {
        TicksAreFixed(0);
      } else {
        AmountIsWellFormed(intent, veto, inventory);
        AssembledAmount(category.value, intent, veto, inventory);
      }
    }
  }

  lemma AssembledAmount(category: string, intent: Intent, veto: Veto, inventory: seq<GroceryItem>)
    requires Slug(veto.itemKey) == veto.itemKey && IsSlug(veto.itemKey) && !intent.operation.Delete?
    ensures match StabilizeAmount(intent, veto, inventory)
            case Denied(why) => Assemble(Some(category), intent, veto, inventory) == Denied(why)
            case Taken(r) =>
              var v := Assemble(Some(category), intent, veto, inventory);
              v.Taken? && v.value.itemKey == veto.itemKey && IsBaseUnit(v.value.baseUnit) && v.value.quantity == r.value
  {
  }

  /**
   Against well-formed items a stabilized request is again well-formed, and the refusals that blame
   the stored item for its unit, its text or its dimension in the sum itself cannot occur.
   */
  lemma StabilizedIsWellFormed(intent: Intent, veto: Veto, inventory: seq<GroceryItem>)
    requires AllWellFormed(inventory)
    ensures match ValidateAndStabilize(intent, veto, inventory)
            case Taken(s) => WellFormedResult(s) && s.itemKey == veto.itemKey
            case Denied(why) => !BlamesStoredItem(why)
  {
    AssembledIsWellFormed(ParseCategory(veto.category), intent, veto, inventory);
  }

  // --- Exactly what is accepted, and what comes of it ---

  /** What is held afterwards; a first subtraction creates the item, a Set replaces it. */
  function Total(op: Operation, held: Option<GroceryItem>, amount: real): real {
    match op
    case Add => (match held case Some(item) => item.quantity + amount case None => amount)
    case Subtract => (match held case Some(item) => item.quantity - amount case None => amount)
    case Set => amount
    case Delete => 0.0
  }

  /** Only an addition to, or a subtraction from, a held item depends on it. */
  predicate Combines(op: Operation, held: Option<GroceryItem>, d: Dimension, amount: real) {
    (op.Add? || op.Subtract?) && held.Some? ==>
      held.value.unit == BaseUnit(d) && Total(op, held, amount) >= 0.0
  }

  predicate WellHeld(held: Option<GroceryItem>) {
    held.Some? ==> WellFormedItem(held.value)
  }

  lemma BaseUnitsDiffer(s: string, d: Dimension)
    requires IsBaseUnit(s)
    ensures DimensionOf(s) == d <==> s == BaseUnit(d)
  {
    assert "g" != "ml" && "g" != "units" && "g" != "misc" && "ml" != "units" && "ml" != "misc" && "units" != "misc";
  }

  lemma CombineTakesExactly(op: Operation, held: Option<GroceryItem>, p: PhysicalQuantity)
    requires WellHeld(held) && p.value > 0.0 && FourDecimals(p.value) && !op.Delete?
    ensures Combine(op, held, p).Taken? <==> Combines(op, held, p.dimension, p.value)
    ensures Combine(op, held, p).Taken? ==>
              Combine(op, held, p).value == PhysicalQuantity(p.dimension, Total(op, held, p.value))
    ensures Combines(op, held, p.dimension, p.value) ==>
              FourDecimals(Total(op, held, p.value)) && Total(op, held, p.value) >= 0.0
  {
    if held.Some? && (op.Add? || op.Subtract?) {
      AccumulateExactly(op, held.value, p);
      BaseUnitsDiffer(held.value.unit, p.dimension);
    }
  }

  lemma AmountTakesExactly(intent: Intent, v: Veto, inventory: seq<GroceryItem>)
    requires WellHeld(Find(inventory, v.itemKey)) && !intent.operation.Delete?
    ensures var op, held, x := intent.operation, Find(inventory, v.itemKey), Rounded(intent, v);
            var r := StabilizeAmount(intent, v, inventory);
            && (r.Taken? <==> HasAmount(intent, v) && Combines(op, held, AmountDimension(v), x))
            && (r.Taken? ==> r.value == PhysicalQuantity(AmountDimension(v), Total(op, held, x))
                             && FourDecimals(r.value.value) && r.value.value >= 0.0)
  {
    if !intent.quantity.Missing? {
      UnitTakesExactly(intent, v);
      var unit := StabilizeUnit(AsOption(intent.quantity), v.resolvedUnit, v.multiplier);
      if unit.Taken? { CombineTakesExactly(intent.operation, Find(inventory, v.itemKey), unit.value); }
    }
  }

  /**
   A request is accepted if and only if its category is registered, its key is a slug, and, unless it
   deletes, its amount is positive and, where it adds to or subtracts from a held item, of that item's
   dimension and not more than is there to subtract.
   */
  lemma AcceptedExactly(intent: Intent, v: Veto, inventory: seq<GroceryItem>)
    requires WellHeld(Find(inventory, v.itemKey))
    ensures ValidateAndStabilize(intent, v, inventory).Taken?
            <==> ParseCategory(v.category).Some? && IsSlug(v.itemKey)
                 && (intent.operation.Delete?
                     || (HasAmount(intent, v)
                         && Combines(intent.operation, Find(inventory, v.itemKey), AmountDimension(v),
                                     Rounded(intent, v))))
  {
    FixedPointsAreTheSlugs(v.itemKey);
    if !intent.operation.Delete? { AmountTakesExactly(intent, v, inventory); }
  }

  /**
   What is accepted carries the oracle's key, names, unit and justification and the registered category;
   a Set stores the rounded amount whatever was held, an addition or subtraction the sum or difference,
   a deletion nothing.
   */
  lemma AcceptedResult(intent: Intent, v: Veto, inventory: seq<GroceryItem>)
    requires WellHeld(Find(inventory, v.itemKey)) && ValidateAndStabilize(intent, v, inventory).Taken?
    ensures var s := ValidateAndStabilize(intent, v, inventory).value;
            && s.itemKey == v.itemKey && s.displayName == v.displayName && s.displayUnit == v.resolvedUnit
            && s.justification == v.justification && Some(s.category) == ParseCategory(v.category)
            && s.quantity == Total(intent.operation, Find(inventory, v.itemKey), Rounded(intent, v))
            && s.quantity >= 0.0 && FourDecimals(s.quantity)
            && s.baseUnit == if intent.operation.Delete? then "units" else BaseUnit(AmountDimension(v))
  {
    TicksAreFixed(0);
    if !intent.operation.Delete? { AmountTakesExactly(intent, v, inventory); }
  }

  /** The fault a refusal names: of the request, of the oracle's reading, or of the two against what is held. */
  predicate IsFault(why: Reason, intent: Intent, v: Veto, held: Option<GroceryItem>) {
    match why
    case UnknownCategory => ParseCategory(v.category) == None
    case KeyNotASlug => !IsSlug(v.itemKey)
    case QuantityMissing => intent.quantity.Missing?
    case UnknownUnit => Resolve(v.resolvedUnit) == None
    case BadMultiplier => v.multiplier == None
    case BadQuantity => intent.quantity.Malformed?
    case NotPositive => intent.quantity.Amount? && Rounded(intent, v) <= 0.0
    case DimensionFence =>
      (intent.operation.Add? || intent.operation.Subtract?) && held.Some?
      && held.value.unit != BaseUnit(AmountDimension(v))
    case WouldBeNegative =>
      intent.operation.Subtract? && held.Some? && held.value.quantity < Rounded(intent, v)
    case _ => false
  }

  lemma UnitFault(intent: Intent, v: Veto, held: Option<GroceryItem>)
    requires !intent.quantity.Missing?
    ensures var r := StabilizeUnit(AsOption(intent.quantity), v.resolvedUnit, v.multiplier);
            r.Denied? ==> IsFault(r.reason, intent, v, held)
  {
    if intent.quantity.Amount? && Resolve(v.resolvedUnit).Some? && v.multiplier.Some? { UnitConverts(intent, v); }
  }

  lemma CombineFault(intent: Intent, v: Veto, held: Option<GroceryItem>, p: PhysicalQuantity)
    requires WellHeld(held) && p == PhysicalQuantity(AmountDimension(v), Rounded(intent, v))
    requires p.value > 0.0 && FourDecimals(p.value)
    ensures var r := Combine(intent.operation, held, p); r.Denied? ==> IsFault(r.reason, intent, v, held)
  {
    if held.Some? && (intent.operation.Add? || intent.operation.Subtract?) {
      AccumulateExactly(intent.operation, held.value, p);
      BaseUnitsDiffer(held.value.unit, p.dimension);
    }
  }

  lemma RefusalsAreFaults(intent: Intent, v: Veto, inventory: seq<GroceryItem>)
    requires WellHeld(Find(inventory, v.itemKey))
    ensures var r := ValidateAndStabilize(intent, v, inventory);
            r.Denied? ==> IsFault(r.reason, intent, v, Find(inventory, v.itemKey))
  {
    FixedPointsAreTheSlugs(v.itemKey);
    if !intent.quantity.Missing? {
      UnitFault(intent, v, Find(inventory, v.itemKey));
      UnitTakesExactly(intent, v);
      var unit := StabilizeUnit(AsOption(intent.quantity), v.resolvedUnit, v.multiplier);
      if unit.Taken? {
        CombineFault(intent, v, Find(inventory, v.itemKey), unit.value);
      }
    }
  }

  /** A lookup finds the first item listed under the key, if there is one. */
  lemma {:induction false} FindsTheFirst(items: seq<GroceryItem>, key: string)
    ensures Find(items, key) == None <==> forall i :: 0 <= i < |items| ==> items[i].itemKey != key
    ensures forall i :: 0 <= i < |items| && items[i].itemKey == key
                        && (forall j :: 0 <= j < i ==> items[j].itemKey != key)
              ==> Find(items, key) == Some(items[i])
  {
    if items != [] {
      FindsTheFirst(items[1..], key);
      assert forall i :: 0 < i < |items| ==> items[i] == items[1..][i - 1];
      assert forall i :: 0 <= i < |items[1..]| ==> items[1..][i] == items[i + 1];
    }
  }
}
