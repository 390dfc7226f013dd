/**
 * The closed cable catalogue, its descriptions, the size normalisation and the tag-gated
 * price table (src/prices/item_prices.rs).
 *
 * `normalize_decimal` (parsing a size as a float and printing it back) is not part of this
 * model: every operation that needs it takes it as the parameter `norm`.
 */
module ItemPrices {

  import opened Wrappers
  import opened Text

  datatype Conductor = Copper | Aluminium
  datatype FlexibleType = FR | FRLSH | HRFR | ZHFR
  datatype SolarType = BS | EN
  datatype CoaxialType = RG6 | RG11 | RG59

  datatype LtCable = LtCable(conductor: Conductor, coreSize: string, sqmm: string, armoured: bool)
  datatype HtCable = HtCable(conductor: Conductor, voltageGrade: string, coreSize: string, sqmm: string)
  datatype FlexibleCable = FlexibleCable(coreSize: string, sqmm: string, flexibleType: FlexibleType)

  datatype PowerControl = LT(lt: LtCable) | HT(ht: HtCable) | Flexible(flexible: FlexibleCable)

  datatype Cable =
    | PowerControl(pc: PowerControl)
    | Telephone(pairSize: string, conductorMm: string)
    | Coaxial(coaxialType: CoaxialType)
    | Submersible(coreSize: string, sqmm: string)
    | Solar(solarType: SolarType, sqmm: string)

  datatype Product = Cable(cable: Cable)

  /** The extra words (such as "pvc" or "frls") a quotation passes to the descriptions. */
  type Extras = seq<string>

  // ---------------------------------------------------------------- descriptions

  function ConductorDescription(c: Conductor): string
  {
    match c
    case Aluminium => "Aluminium"
    case Copper => "Copper"
  }

  function ConductorBrief(c: Conductor): string
  {
    match c
    case Aluminium => "Al"
    case Copper => "Cu"
  }

  function SolarDescription(t: SolarType): string
  {
    match t
    case BS => "BS"
    case EN => "EN"
  }

  function CoaxialDescription(t: CoaxialType): string
  {
    match t
    case RG6 => "RG6"
    case RG11 => "RG11"
    case RG59 => "RG59"
  }

  function FlexibleTypeDescription(t: FlexibleType): string
  {
    match t
    case FR => "FR"
    case FRLSH => "FRLSH"
    case HRFR => "HRFR"
    case ZHFR => "ZHFR"
  }

  /** The opening of every full LT description: core count and cross-section. */
  function LtHead(c: LtCable): string
  {
    c.coreSize + " C x " + c.sqmm + " sq. mm "
  }

  /** The closing of every full LT description: the conductor's name. */
  function LtTail(c: LtCable): string
  {
    ConductorDescription(c.conductor) + " Cable"
  }

  /** The phrases the full LT descriptions are made of. */
  const PvcInsulated := "PVC Insulated, "
  const XlpeInsulated := "XLPE Insulated, "
  const FrlsPvcSheathed := "FRLS PVC Sheathed "
  const PvcSheathed := "PVC Sheathed "
  const Armoured := "Armoured "
  const Unarmoured := "Unarmoured "

  /** The middle of the full LT description: eight cases over armouring, "pvc" and "frls". */
  function LtBody(armoured: bool, pvc: bool, frls: bool): string
  {
    if armoured then
      if pvc && !frls then PvcInsulated + PvcSheathed + Armoured
      else if pvc && frls then PvcInsulated + FrlsPvcSheathed + Armoured
      else if !pvc && frls then XlpeInsulated + FrlsPvcSheathed + Armoured
      else XlpeInsulated + PvcSheathed + Armoured
    else
      if pvc && !frls then PvcInsulated + PvcSheathed + Unarmoured
      else if pvc && frls then PvcInsulated + FrlsPvcSheathed + Unarmoured
      else if !pvc && frls then XlpeInsulated + FrlsPvcSheathed + Unarmoured
      else XlpeInsulated + PvcSheathed + Unarmoured
  }

  /** The full LT description. */
  function LtDescription(c: LtCable, extras: Extras): string
  {
    LtHead(c) + LtBody(c.armoured, "pvc" in extras, "frls" in extras) + LtTail(c)
  }

  /** Insulation word of the brief LT description. */
  function Insulation(extras: Extras): string
  {
    if "pvc" in extras then "PVC" else "XLPE"
  }

  /** Sheath word of the brief LT description. */
  function Sheath(extras: Extras): string
  {
    if "frls" in extras then "FRLS" else ""
  }

  /** Armour word of the brief LT description. */
  function Armour(armoured: bool): string
  {
    if armoured then "Armd" else "UnArm"
  }

  function LtBrief(c: LtCable, extras: Extras): string
  {
    c.coreSize + "C x " + c.sqmm + "mm² " + ConductorBrief(c.conductor) + " "
    + Insulation(extras) + " " + Sheath(extras) + " " + Armour(c.armoured)
  }

  /**
   * The eight LT cases are one sentence whose insulation word depends only on "pvc", whose
   * sheath word depends only on "frls" and whose armour word depends only on `armoured`.
   */
  lemma LtBodyComposed(armoured: bool, pvc: bool, frls: bool)
    ensures LtBody(armoured, pvc, frls)
      == (if pvc then PvcInsulated else XlpeInsulated)
         + (if frls then FrlsPvcSheathed else PvcSheathed)
         + (if armoured then Armoured else Unarmoured)
  {
  }

  /**
   * The brief LT description picks its insulation, sheath and armour words from the same three
   * inputs as the full one: "PVC" exactly when the full one says "PVC Insulated", "FRLS" exactly
   * when it says "FRLS PVC Sheathed", "Armd" exactly when it says "Armoured".
   */
  lemma LtBriefAgreesWithFull(c: LtCable, extras: Extras)
    ensures LtDescription(c, extras) == LtHead(c) + LtBody(c.armoured, "pvc" in extras, "frls" in extras) + LtTail(c)
    ensures Insulation(extras) == (if "pvc" in extras then "PVC" else "XLPE")
    ensures Sheath(extras) == (if "frls" in extras then "FRLS" else "")
    ensures Armour(c.armoured) == (if c.armoured then "Armd" else "UnArm")
    ensures LtBody(c.armoured, "pvc" in extras, "frls" in extras)
      == (if Insulation(extras) == "PVC" then PvcInsulated else XlpeInsulated)
         + (if Sheath(extras) == "FRLS" then FrlsPvcSheathed else PvcSheathed)
         + (if Armour(c.armoured) == "Armd" then Armoured else Unarmoured)
  {
    LtBodyComposed(c.armoured, "pvc" in extras, "frls" in extras);
  }

  function HtDescription(c: HtCable): string
  {
    c.coreSize + " C x " + c.sqmm + " sq. mm " + c.voltageGrade + " grade Armoured "
    + ConductorDescription(c.conductor) + " Cable "
  }

  function HtBrief(c: HtCable): string
  {
    c.coreSize + "C x " + c.sqmm + "mm² " + ConductorBrief(c.conductor) + " " + c.voltageGrade + "kV Arm"
  }

  function FlexibleDescription(c: FlexibleCable): string
  {
    c.coreSize + " C x " + c.sqmm + " sq. mm Copper Flex. " + FlexibleTypeDescription(c.flexibleType)
  }

  function FlexibleBrief(c: FlexibleCable): string
  {
    c.coreSize + "C x " + c.sqmm + "mm² Cu Flex " + FlexibleTypeDescription(c.flexibleType)
  }

  /** `Description::get_description` of a product. */
  function Description(p: Product, extras: Extras): string
  {
    match p.cable
    case Coaxial(t) => CoaxialDescription(t)
    case Solar(t, sqmm) => "1 C x " + sqmm + " sq. mm " + SolarDescription(t)
    case Submersible(core, sqmm) => core + " C x " + sqmm + " sq. mm Submersible cable"
    case Telephone(pair, mm) => pair + " P x " + mm + " mm Unarmoured Tel Cable"
    case PowerControl(pc) =>
      match pc
      case LT(c) => LtDescription(c, extras)
      case HT(c) => HtDescription(c)
      case Flexible(c) => FlexibleDescription(c)
  }

  /** `Description::get_brief_description` of a product. */
  function BriefDescription(p: Product, extras: Extras): string
  {
    match p.cable
    case Coaxial(t) => CoaxialDescription(t)
    case Solar(t, sqmm) => sqmm + "mm² Solar " + SolarDescription(t)
    case Submersible(core, sqmm) => core + "C x " + sqmm + "mm² Flat Flex"
    case Telephone(pair, mm) => pair + "P x " + mm + "mm Tel"
    case PowerControl(pc) =>
      match pc
      case LT(c) => LtBrief(c, extras)
      case HT(c) => HtBrief(c)
      case Flexible(c) => FlexibleBrief(c)
  }

  /** Only an LT cable's descriptions look at the extras, and only at "pvc" and "frls". */
  lemma DescriptionDependsOnlyOnFlags(p: Product, e1: Extras, e2: Extras)
    requires ("pvc" in e1 <==> "pvc" in e2) && ("frls" in e1 <==> "frls" in e2)
    ensures Description(p, e1) == Description(p, e2)
    ensures BriefDescription(p, e1) == BriefDescription(p, e2)
  {
  }

  predicate IsLt(p: Product)
  {
    p.cable.PowerControl? && p.cable.pc.LT?
  }

  /** Every product other than an LT cable is described the same whatever the extras. */
  lemma DescriptionIgnoresExtras(p: Product, e1: Extras, e2: Extras)
    requires !IsLt(p)
    ensures Description(p, e1) == Description(p, e2)
    ensures BriefDescription(p, e1) == BriefDescription(p, e2)
  {
  }

  /** Coaxial cables are described by their type name alone, briefly and in full. */
  lemma CoaxialBriefIsFull(t: CoaxialType, extras: Extras)
    ensures BriefDescription(Cable(Coaxial(t)), extras) == Description(Cable(Coaxial(t)), extras)
    ensures Description(Cable(Coaxial(t)), extras) in {"RG6", "RG11", "RG59"}
  {
  }

  /** An HT cable is always described as armoured, in both forms. */
  lemma HtAlwaysArmoured(c: HtCable, extras: Extras)
    ensures Contains(Description(Cable(PowerControl(HT(c))), extras), " grade Armoured ")
    ensures Contains(BriefDescription(Cable(PowerControl(HT(c))), extras), "kV Arm")
  {
    var a := c.coreSize + " C x " + c.sqmm + " sq. mm " + c.voltageGrade;
    ContainsSuffix(a, " grade Armoured ");
    ContainsAppend(a + " grade Armoured ", " grade Armoured ", ConductorDescription(c.conductor));
    ContainsAppend(a + " grade Armoured " + ConductorDescription(c.conductor), " grade Armoured ", " Cable ");
    ContainsSuffix(c.coreSize + "C x " + c.sqmm + "mm² " + ConductorBrief(c.conductor) + " " + c.voltageGrade, "kV Arm");
  }

  // ---------------------------------------------------------------- normalisation

  /** `normalize`: the size strings go through `norm`; every other field is kept. */
  function Normalize(p: Product, norm: string -> string): (r: Product)
  {
    match p.cable
    case PowerControl(LT(c)) =>
      Cable(PowerControl(LT(LtCable(c.conductor, norm(c.coreSize), norm(c.sqmm), c.armoured))))
    case PowerControl(HT(c)) =>
      Cable(PowerControl(HT(HtCable(c.conductor, c.voltageGrade, norm(c.coreSize), norm(c.sqmm)))))
    case PowerControl(Flexible(c)) =>
      Cable(PowerControl(Flexible(FlexibleCable(norm(c.coreSize), norm(c.sqmm), c.flexibleType))))
    case Telephone(pair, mm) => Cable(Telephone(norm(pair), norm(mm)))
    case Submersible(core, sqmm) => Cable(Submersible(norm(core), norm(sqmm)))
    case Solar(t, sqmm) => Cable(Solar(t, norm(sqmm)))
    case Coaxial(t) => Cable(Coaxial(t))
  }

  /** Two products of the same variant agreeing on every field that is not a size. */
  predicate SameKind(p: Product, q: Product)
  {
    match (p.cable, q.cable)
    case (PowerControl(LT(a)), PowerControl(LT(b))) => a.conductor == b.conductor && a.armoured == b.armoured
    case (PowerControl(HT(a)), PowerControl(HT(b))) => a.conductor == b.conductor && a.voltageGrade == b.voltageGrade
    case (PowerControl(Flexible(a)), PowerControl(Flexible(b))) => a.flexibleType == b.flexibleType
    case (Telephone(_, _), Telephone(_, _)) => true
    case (Submersible(_, _), Submersible(_, _)) => true
    case (Solar(a, _), Solar(b, _)) => a == b
    case (Coaxial(a), Coaxial(b)) => a == b
    case _ => false
  }

  /** The size fields of a product, in declaration order. */
  function Sizes(p: Product): seq<string>
  {
    match p.cable
    case PowerControl(LT(c)) => [c.coreSize, c.sqmm]
    case PowerControl(HT(c)) => [c.coreSize, c.sqmm]
    case PowerControl(Flexible(c)) => [c.coreSize, c.sqmm]
    case Telephone(pair, mm) => [pair, mm]
    case Submersible(core, sqmm) => [core, sqmm]
    case Solar(_, sqmm) => [sqmm]
    case Coaxial(_) => []
  }

  /** A product is determined by its kind and its sizes. */
  lemma SameKindAndSizesIsEqual(p: Product, q: Product)
    requires SameKind(p, q) && Sizes(p) == Sizes(q)
    ensures p == q
  {
  }

  /**
   * `normalize` keeps the variant and every non-size field, and sends each size (and only
   * the sizes) through `norm`.
   */
  lemma NormalizeKeepsKind(p: Product, norm: string -> string)
    ensures SameKind(p, Normalize(p, norm))
    ensures |Sizes(Normalize(p, norm))| == |Sizes(p)|
    ensures forall i :: 0 <= i < |Sizes(p)| ==> Sizes(Normalize(p, norm))[i] == norm(Sizes(p)[i])
  {
  }

  /** With an idempotent size normaliser, normalising twice is normalising once. */
  lemma NormalizeIdempotent(p: Product, norm: string -> string)
    requires forall s :: norm(norm(s)) == norm(s)
    ensures Normalize(Normalize(p, norm), norm) == Normalize(p, norm)
  {
    var q := Normalize(p, norm);
    var r := Normalize(q, norm);
    NormalizeKeepsKind(p, norm);
    NormalizeKeepsKind(q, norm);
    assert SameKind(q, r);
    assert Sizes(r) == Sizes(q);
    SameKindAndSizesIsEqual(q, r);
  }

  // ---------------------------------------------------------------- price table

  datatype PriceEntry = PriceEntry(product: Product, price: real)

  /** A price list file: its tags and its entries in file order. */
  datatype PriceList = PriceList(tags: seq<string>, prices: seq<PriceEntry>)

  datatype PricingSystem = PricingSystem(tags: seq<string>, prices: map<Product, real>)

  /** The table the entries build when inserted in order under their normalised products. */
  function PriceTable(entries: seq<PriceEntry>, norm: string -> string): map<Product, real>
    decreases |entries|
  {
    if |entries| == 0 then map[]
    else
      var last := entries[|entries| - 1];
      PriceTable(entries[..|entries| - 1], norm)[Normalize(last.product, norm) := last.price]
  }

  /** Tags as the table keeps them: trimmed and lower-cased. */
  function CanonicalTags(tags: seq<string>): (r: seq<string>)
    ensures |r| == |tags|
    ensures forall i :: 0 <= i < |tags| ==> r[i] == TrimLower(tags[i])
  {
    seq(|tags|, i requires 0 <= i < |tags| => TrimLower(tags[i]))
  }

  /** The pricing system `from_price_list` builds. */
  function PricingSystemOf(pl: PriceList, norm: string -> string): PricingSystem
  {
    PricingSystem(CanonicalTags(pl.tags), PriceTable(pl.prices, norm))
  }

  /** `PricingSystem::from_price_list`: insert every entry in order, then canonicalise the tags. */
  method FromPriceList(pl: PriceList, norm: string -> string) returns (ps: PricingSystem)
    ensures ps == PricingSystemOf(pl, norm)
  {
    var prices: map<Product, real> := map[];
    var i := 0;
    while i < |pl.prices|
      invariant 0 <= i <= |pl.prices|
      invariant prices == PriceTable(pl.prices[..i], norm)
    {
      var entry := pl.prices[i];
      prices := prices[Normalize(entry.product, norm) := entry.price];
      assert pl.prices[..i + 1][..i] == pl.prices[..i];
      i := i + 1;
    }
    assert pl.prices[..i] == pl.prices;
    ps := PricingSystem(CanonicalTags(pl.tags), prices);
  }

  /** Entry `i` is the last entry whose normalised product is `k`. */
  predicate LastEntryFor(entries: seq<PriceEntry>, norm: string -> string, k: Product, i: int)
  {
    0 <= i < |entries| && Normalize(entries[i].product, norm) == k
    && forall j :: i < j < |entries| ==> Normalize(entries[j].product, norm) != k
  }

  /**
   * The table holds a product exactly when some entry normalises to it, and then holds the
   * price of the last such entry: later entries overwrite earlier ones.
   */
  lemma {:induction false} PriceTableLastWins(entries: seq<PriceEntry>, norm: string -> string, k: Product)
    ensures k in PriceTable(entries, norm) <==> exists i :: 0 <= i < |entries| && Normalize(entries[i].product, norm) == k
    ensures forall i :: LastEntryFor(entries, norm, k, i) ==> PriceTable(entries, norm)[k] == entries[i].price
    decreases |entries|
  {
    if |entries| > 0 {
      var n := |entries| - 1;
      var init := entries[..n];
      PriceTableLastWins(init, norm, k);
      forall i | 0 <= i < n && Normalize(init[i].product, norm) == k
        ensures Normalize(entries[i].product, norm) == k
      {
      }
      forall i | 0 <= i < |entries| && Normalize(entries[i].product, norm) == k && i < n
        ensures Normalize(init[i].product, norm) == k
      {
      }
      forall i | LastEntryFor(entries, norm, k, i)
        ensures PriceTable(entries, norm)[k] == entries[i].price
      {
        if i < n {
          assert LastEntryFor(init, norm, k, i);
        }
      }
    }
  }

  /** `PricingSystem::get_price`: gated by the canonical tag, looked up by the normalised product. */
  function GetPrice(ps: PricingSystem, product: Product, tag: string, norm: string -> string): (r: Option<real>)
  {
    if TrimLower(tag) in ps.tags then
      if Normalize(product, norm) in ps.prices then Some(ps.prices[Normalize(product, norm)]) else None
    else None
  }

  /**
   * A price comes back exactly when the canonical tag is one of the list's tags and some entry
   * normalises to the same product as the query; it is the price of the last such entry.
   */
  lemma GetPriceFromList(pl: PriceList, product: Product, tag: string, norm: string -> string)
    ensures GetPrice(PricingSystemOf(pl, norm), product, tag, norm).Some?
      <==> (exists t :: t in pl.tags && TrimLower(t) == TrimLower(tag))
           && (exists i :: 0 <= i < |pl.prices| && Normalize(pl.prices[i].product, norm) == Normalize(product, norm))
    ensures forall i ::
              LastEntryFor(pl.prices, norm, Normalize(product, norm), i)
              && (exists t :: t in pl.tags && TrimLower(t) == TrimLower(tag))
              ==> GetPrice(PricingSystemOf(pl, norm), product, tag, norm) == Some(pl.prices[i].price)
  {
    PriceTableLastWins(pl.prices, norm, Normalize(product, norm));
    var tags := CanonicalTags(pl.tags);
    if TrimLower(tag) in tags {
      var j :| 0 <= j < |tags| && tags[j] == TrimLower(tag);
      assert pl.tags[j] in pl.tags;
    }
  }

  /**
   * With an idempotent size normaliser, asking for an already normalised product gives the same
   * answer as asking for the product as written.
   */
  lemma GetPriceNormalizedQuery(ps: PricingSystem, product: Product, tag: string, norm: string -> string)
    requires forall s :: norm(norm(s)) == norm(s)
    ensures GetPrice(ps, Normalize(product, norm), tag, norm) == GetPrice(ps, product, tag, norm)
  {
    NormalizeIdempotent(product, norm);
  }

  /** An empty price list prices nothing. */
  lemma EmptyListPricesNothing(tags: seq<string>, product: Product, tag: string, norm: string -> string)
    ensures GetPrice(PricingSystemOf(PriceList(tags, []), norm), product, tag, norm) == None
  {
  }
}
