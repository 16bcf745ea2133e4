/**
  Conversion between two units. Every conversion goes through the hub MMBtu:
  multiply by the source unit's factor, then divide by the target unit's
  factor. Factors and values are exact reals.

  The two-step conversion is written once, over any table (ConvertWith); the
  converter's own operation (Convert) builds the table for the configuration
  and converts through it. The algebraic laws are proved for every table, given
  only that the factors they divide by are non-zero (positive, for order), and
  then for the configured table.
 */
module Conversion {
  import opened RealFacts
  import opened Units

  /** Why a conversion fails. */
  datatype ConversionError =
    | UnknownUnit(key: string)  // the identifier is not a key of the table
    | DivisionByZero            // the target unit's factor is 0.0

  datatype Result<+T> = Ok(value: T) | Err(error: ConversionError)

  /**
    Converts `value` from `fromUnit` to `toUnit` through the table `umap`. The
    source key is looked up first, then the target key, then the division
    happens, so the first of these to fail names the error. A successful result
    is the same amount of energy: measured in MMBtu it equals the input
    measured in MMBtu.
   */
  function ConvertWith(umap: map<string, Unit>, value: real, fromUnit: string, toUnit: string): (r: Result<real>)
    ensures fromUnit !in umap ==> r == Err(UnknownUnit(fromUnit))
    ensures fromUnit in umap && toUnit !in umap ==> r == Err(UnknownUnit(toUnit))
    ensures fromUnit in umap && toUnit in umap ==>
      (r.Ok? <==> umap[toUnit].toMmbtu != 0.0) && (r.Err? ==> r.error == DivisionByZero)
    ensures r.Ok? ==> r.value * umap[toUnit].toMmbtu == value * umap[fromUnit].toMmbtu
  {
    if fromUnit !in umap then Err(UnknownUnit(fromUnit))
    else
      var valueInMmbtu := value * umap[fromUnit].toMmbtu;
      if toUnit !in umap then Err(UnknownUnit(toUnit))
      else if umap[toUnit].toMmbtu == 0.0 then Err(DivisionByZero)
      else Ok(valueInMmbtu / umap[toUnit].toMmbtu)
  }

  /** The converter's operation: build the table for the configuration, then convert through it. */
  function Convert(value: real, fromUnit: string, toUnit: string, cfg: Config): Result<real>
  {
    ConvertWith(UnitMap(cfg), value, fromUnit, toUnit)
  }

  /**
    What the converter's operation yields: a key missing from the table is
    unknown (the source key is reported first); with two known keys it fails
    only when the target factor is zero, and otherwise the result holds as much
    energy as the input.
   */
  lemma ConvertOutcome(value: real, fromUnit: string, toUnit: string, cfg: Config)
    ensures fromUnit !in UnitMap(cfg) ==> Convert(value, fromUnit, toUnit, cfg) == Err(UnknownUnit(fromUnit))
    ensures fromUnit in UnitMap(cfg) && toUnit !in UnitMap(cfg) ==>
      Convert(value, fromUnit, toUnit, cfg) == Err(UnknownUnit(toUnit))
    ensures fromUnit in UnitMap(cfg) && toUnit in UnitMap(cfg) ==>
      var r := Convert(value, fromUnit, toUnit, cfg);
      && (r.Err? <==> UnitMap(cfg)[toUnit].toMmbtu == 0.0)
      && (r.Err? ==> r.error == DivisionByZero)
      && (r.Ok? ==> r.value * UnitMap(cfg)[toUnit].toMmbtu == value * UnitMap(cfg)[fromUnit].toMmbtu)
  {
  }

  /** With positive ratios any two keys of the table convert without error. */
  lemma KnownKeysConvert(value: real, fromUnit: string, toUnit: string, cfg: Config)
    requires Positive(cfg) && fromUnit in UnitMap(cfg) && toUnit in UnitMap(cfg)
    ensures Convert(value, fromUnit, toUnit, cfg).Ok?
  {
    FactorsPositive(cfg);
  }

  /** The result is the only value that holds as much energy as the input. */
  lemma ResultIsUnique(umap: map<string, Unit>, value: real, a: string, b: string, w: real)
    requires a in umap && b in umap && umap[b].toMmbtu != 0.0
    ensures ConvertWith(umap, value, a, b).Ok?
    ensures w * umap[b].toMmbtu == value * umap[a].toMmbtu <==> ConvertWith(umap, value, a, b) == Ok(w)
  {
    var r := ConvertWith(umap, value, a, b).value;
    if w * umap[b].toMmbtu == value * umap[a].toMmbtu {
      assert umap[b].toMmbtu * w == umap[b].toMmbtu * r;
      CancelNonZero(umap[b].toMmbtu, w, r);
    }
  }

  /** Converting a unit to itself gives the input back. */
  lemma ConvertToSelf(umap: map<string, Unit>, value: real, u: string)
    requires u in umap && umap[u].toMmbtu != 0.0
    ensures ConvertWith(umap, value, u, u) == Ok(value)
  {
    ResultIsUnique(umap, value, u, u, value);
  }

  /**
    When the hub has factor exactly 1, converting to the hub multiplies by the
    source factor, and converting the hub to itself is the identity.
   */
  lemma HubIsNeutral(umap: map<string, Unit>, value: real, u: string)
    requires u in umap
    requires "MMBtu" in umap && umap["MMBtu"].toMmbtu == 1.0
    ensures ConvertWith(umap, value, u, "MMBtu") == Ok(value * umap[u].toMmbtu)
    ensures ConvertWith(umap, value, "MMBtu", "MMBtu") == Ok(value)
  {
  }

  /** In the configured table, converting any unit to the hub multiplies by that unit's factor. */
  lemma ConfiguredHub(cfg: Config, value: real, k: string)
    requires k in UnitMap(cfg)
    ensures Convert(value, k, "MMBtu", cfg) == Ok(value * UnitMap(cfg)[k].toMmbtu)
  {
    var m := UnitMap(cfg);
    assert m[Key(MMBtu)] == Entry(cfg, MMBtu);
    HubIsNeutral(m, value, k);
  }

  /** Converting there and back returns the original value. */
  lemma RoundTrip(umap: map<string, Unit>, value: real, a: string, b: string)
    requires a in umap && b in umap && umap[a].toMmbtu != 0.0 && umap[b].toMmbtu != 0.0
    ensures ConvertWith(umap, value, a, b).Ok?
    ensures ConvertWith(umap, ConvertWith(umap, value, a, b).value, b, a) == Ok(value)
  {
    var w := ConvertWith(umap, value, a, b).value;
    ResultIsUnique(umap, w, b, a, value);
  }

  /** Converting through an intermediate unit agrees with converting directly. */
  lemma Compose(umap: map<string, Unit>, value: real, a: string, b: string, c: string)
    requires a in umap && b in umap && c in umap && umap[b].toMmbtu != 0.0 && umap[c].toMmbtu != 0.0
    ensures ConvertWith(umap, value, a, b).Ok?
    ensures ConvertWith(umap, ConvertWith(umap, value, a, b).value, b, c) == ConvertWith(umap, value, a, c)
  {
    var w := ConvertWith(umap, value, a, b).value;
    var x := ConvertWith(umap, w, b, c).value;
    assert x * umap[c].toMmbtu == value * umap[a].toMmbtu;
    ResultIsUnique(umap, value, a, c, x);
  }

  /** Conversion is linear: it commutes with scaling and with addition. */
  lemma Linear(umap: map<string, Unit>, k: real, v: real, w: real, a: string, b: string)
    requires a in umap && b in umap && umap[b].toMmbtu != 0.0
    ensures ConvertWith(umap, k * v, a, b).Ok? && ConvertWith(umap, v + w, a, b).Ok?
    ensures ConvertWith(umap, k * v, a, b).value == k * ConvertWith(umap, v, a, b).value
    ensures ConvertWith(umap, v + w, a, b).value ==
      ConvertWith(umap, v, a, b).value + ConvertWith(umap, w, a, b).value
  {
    var fa, fb := umap[a].toMmbtu, umap[b].toMmbtu;
    ScaleIsLinear(k, v, w, fa, fb);
  }

  /** Only the two entries looked up matter: tables that agree on them convert alike. */
  lemma OnlyLookedUpEntriesMatter(m1: map<string, Unit>, m2: map<string, Unit>, value: real, a: string, b: string)
    requires a in m1 <==> a in m2
    requires b in m1 <==> b in m2
    requires a in m1 ==> m1[a].toMmbtu == m2[a].toMmbtu
    requires b in m1 ==> m1[b].toMmbtu == m2[b].toMmbtu
    ensures ConvertWith(m1, value, a, b) == ConvertWith(m2, value, a, b)
  {
    if a in m1 && b in m1 && m1[b].toMmbtu != 0.0 {
      var q := value * m1[a].toMmbtu / m1[b].toMmbtu;
      assert value * m2[a].toMmbtu / m2[b].toMmbtu == q;
      assert ConvertWith(m1, value, a, b) == Ok(q);
      assert ConvertWith(m2, value, a, b) == Ok(q);
    }
  }

  /** Conversion keeps order and sign: a positive amount stays positive. */
  lemma Monotone(umap: map<string, Unit>, v: real, w: real, a: string, b: string)
    requires a in umap && b in umap && umap[a].toMmbtu > 0.0 && umap[b].toMmbtu > 0.0
    ensures v <= w <==> ConvertWith(umap, v, a, b).value <= ConvertWith(umap, w, a, b).value
    ensures v > 0.0 <==> ConvertWith(umap, v, a, b).value > 0.0
  {
    ScaleIsMonotone(v, w, umap[a].toMmbtu, umap[b].toMmbtu);
  }

  /**
    The laws for the configured table: with positive ratios, for any three
    known keys, conversion to itself is the identity, a round trip returns the
    input, going through an intermediate unit changes nothing, and conversion
    is linear.
   */
  lemma ConfiguredLaws(cfg: Config, k: real, v: real, a: string, b: string, c: string)
    requires Positive(cfg) && a in UnitMap(cfg) && b in UnitMap(cfg) && c in UnitMap(cfg)
    ensures Convert(v, a, a, cfg) == Ok(v)
    ensures Convert(v, a, b, cfg).Ok?
    ensures Convert(Convert(v, a, b, cfg).value, b, a, cfg) == Ok(v)
    ensures Convert(Convert(v, a, b, cfg).value, b, c, cfg) == Convert(v, a, c, cfg)
    ensures Convert(k * v, a, b, cfg).Ok?
    ensures Convert(k * v, a, b, cfg).value == k * Convert(v, a, b, cfg).value
  {
    var umap := UnitMap(cfg);
    FactorsPositive(cfg);
    assert umap[a].toMmbtu > 0.0 && umap[b].toMmbtu > 0.0 && umap[c].toMmbtu > 0.0;
    ConvertToSelf(umap, v, a);
    RoundTrip(umap, v, a, b);
    Compose(umap, v, a, b, c);
    Linear(umap, k, v, 0.0, a, b);
  }

  /** The barrel ratio is read afresh: one barrel is exactly the barrel ratio in MMBtu. */
  lemma BarrelRatio(cfg: Config)
    ensures Convert(1.0, "bbl", "MMBtu", cfg) == Ok(cfg.mmbtuPerBarrel)
  {
    var m := UnitMap(cfg);
    assert m[Key(Bbl)] == Entry(cfg, Bbl) && m[Key(MMBtu)] == Entry(cfg, MMBtu);
  }

  /**
    The tonne factor is the barrel factor scaled by barrels per tonne: one
    tonne is exactly the configured number of barrels.
   */
  lemma TonneRatio(cfg: Config)
    requires Positive(cfg)
    ensures Convert(1.0, "mt", "bbl", cfg) == Ok(cfg.bblPerTonne)
  {
    var m := UnitMap(cfg);
    var p, t := cfg.mmbtuPerBarrel, cfg.bblPerTonne;
    assert m[Key(Bbl)].toMmbtu == p && m[Key(Mt)].toMmbtu == p * t;
    assert t * p == 1.0 * (p * t);
    ResultIsUnique(m, 1.0, "mt", "bbl", t);
  }

  /** Conversions among the five fixed units give the same result under any two configurations. */
  lemma FixedUnitsIgnoreConfig(value: real, a: string, b: string, c1: Config, c2: Config)
    requires IsFixedKey(a) && IsFixedKey(b)
    ensures Convert(value, a, b, c1) == Convert(value, a, b, c2)
  {
    OnlyConfiguredFactorsChange(c1, c2, a);
    OnlyConfiguredFactorsChange(c1, c2, b);
    OnlyLookedUpEntriesMatter(UnitMap(c1), UnitMap(c2), value, a, b);
  }

  /** Figures for the default settings. */
  lemma DefaultFigures()
    ensures Convert(1.0, "bbl", "MMBtu", DefaultConfig) == Ok(5.8)
    ensures Convert(1.0, "TBtu", "MMBtu", DefaultConfig) == Ok(1000000.0)
    ensures Convert(1000000.0, "MWh", "TWh", DefaultConfig) == Ok(1.0)
    ensures Convert(1.0, "mt", "MMBtu", DefaultConfig) == Ok(42.514)
    ensures Convert(1.0, "XYZ", "MMBtu", DefaultConfig) == Err(UnknownUnit("XYZ"))
  {
  }
}
