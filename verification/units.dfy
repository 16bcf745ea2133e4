/**
  The unit table of the energy converter: seven energy units, each with the
  factor that turns one of it into the hub unit MMBtu. Five factors are fixed;
  the barrel and metric-tonne factors come from the two configuration ratios.
 */
module Units {
  import opened RealFacts

  /** The closed set of unit identifiers the table knows. */
  datatype UnitId = TBtu | MMBtu | Mth | TWh | MWh | Bbl | Mt

  /** One table entry: a display label (`name`) and the number of MMBtu in one unit. */
  datatype Unit = Unit(name: string, toMmbtu: real)

  /** The two configurable ratios that the barrel and tonne factors depend on. */
  datatype Config = Config(mmbtuPerBarrel: real, bblPerTonne: real)

  /** Values the settings start from before the user changes them. */
  const DefaultConfig: Config := Config(5.8, 7.33)

  /** The order in which the batch step lists its result rows. */
  const UnitsOrder: seq<string> := ["mt", "bbl", "MWh", "TWh", "MMBtu", "TBtu", "Mth"]

  /** The key under which a unit is stored in the table. */
  function Key(u: UnitId): string
  {
    match u
    case TBtu => "TBtu"
    case MMBtu => "MMBtu"
    case Mth => "Mth"
    case TWh => "TWh"
    case MWh => "MWh"
    case Bbl => "bbl"
    case Mt => "mt"
  }

  /** Both ratios strictly positive: the condition under which every factor is. */
  predicate Positive(cfg: Config)
  {
    cfg.mmbtuPerBarrel > 0.0 && cfg.bblPerTonne > 0.0
  }

  /** The ranges the settings inputs allow for the two ratios. */
  predicate WithinUiBounds(cfg: Config)
  {
    && 4.0 <= cfg.mmbtuPerBarrel <= 8.0
    && 6.0 <= cfg.bblPerTonne <= 8.5
  }

  /** Keys whose factor does not depend on the configuration. */
  predicate IsFixedKey(k: string)
  {
    k != "bbl" && k != "mt"
  }

  /** The table entry of one unit: its display label and its factor to MMBtu. */
  function Entry(cfg: Config, u: UnitId): Unit
  {
    match u
    case TBtu => Unit("TBtu", 1000000.0)
    case MMBtu => Unit("MMBtu", 1.0)
    case Mth => Unit("Mth", 100000.0)
    case TWh => Unit("TWh", 3412141.633)
    case MWh => Unit("MWh", 3.412141633)
    case Bbl => Unit("Barrel (crude)", cfg.mmbtuPerBarrel)
    case Mt => Unit("Metric tonne (crude)", cfg.mmbtuPerBarrel * cfg.bblPerTonne)
  }

  /**
    The unit table for one configuration, keyed by the units' string keys. Its
    keys are exactly the units' keys, and each unit's key leads to that unit's
    entry.
   */
  function UnitMap(cfg: Config): (m: map<string, Unit>)
    ensures forall u: UnitId :: Key(u) in m && m[Key(u)] == Entry(cfg, u)
    ensures forall k :: k in m ==> exists u: UnitId :: Key(u) == k
  {
    map[
      Key(TBtu) := Entry(cfg, TBtu),
      Key(MMBtu) := Entry(cfg, MMBtu),
      Key(Mth) := Entry(cfg, Mth),
      Key(TWh) := Entry(cfg, TWh),
      Key(MWh) := Entry(cfg, MWh),
      Key(Bbl) := Entry(cfg, Bbl),
      Key(Mt) := Entry(cfg, Mt)
    ]
  }

  /**
    The factor of a unit. The hub has factor exactly 1, the barrel factor is
    the configured ratio, the tonne factor is the barrel factor scaled by
    barrels per tonne, and with positive ratios every factor is positive, so
    dividing by one is defined.
   */
  function Factor(cfg: Config, u: UnitId): (f: real)
    ensures Positive(cfg) ==> f > 0.0
    ensures u == MMBtu ==> f == 1.0
    ensures u == Bbl ==> f == cfg.mmbtuPerBarrel
    ensures u == Mt ==> f == cfg.mmbtuPerBarrel * cfg.bblPerTonne
  {
    Entry(cfg, u).toMmbtu
  }

  /** With positive ratios every factor stored in the table is strictly positive. */
  lemma FactorsPositive(cfg: Config)
    requires Positive(cfg)
    ensures forall k :: k in UnitMap(cfg) ==> UnitMap(cfg)[k].toMmbtu > 0.0
  {
    var m := UnitMap(cfg);
    forall k | k in m
      ensures m[k].toMmbtu > 0.0
    {
      var u :| Key(u) == k;
      assert m[k] == Entry(cfg, u);
    }
  }

  /** With non-zero ratios no factor stored in the table is zero, so every division is defined. */
  lemma FactorsNonZero(cfg: Config)
    requires cfg.mmbtuPerBarrel != 0.0 && cfg.bblPerTonne != 0.0
    ensures forall k :: k in UnitMap(cfg) ==> UnitMap(cfg)[k].toMmbtu != 0.0
  {
    var m := UnitMap(cfg);
    forall k | k in m
      ensures m[k].toMmbtu != 0.0
    {
      var u :| Key(u) == k;
      assert m[k] == Entry(cfg, u);
    }
  }

  /** A unit's factor is the factor the table stores under its key. */
  lemma FactorIsTableEntry(cfg: Config, u: UnitId)
    ensures Key(u) in UnitMap(cfg) && Factor(cfg, u) == UnitMap(cfg)[Key(u)].toMmbtu
  {
  }

  /** UnitsOrder lists every unit of the table exactly once. */
  lemma UnitsOrderIsEnumeration(cfg: Config)
    ensures |UnitsOrder| == 7
    ensures forall i, j :: 0 <= i < j < |UnitsOrder| ==> UnitsOrder[i] != UnitsOrder[j]
    ensures forall u: UnitId :: Key(u) in UnitsOrder
    ensures forall k :: k in UnitsOrder <==> k in UnitMap(cfg)
  {
  }

  /** The settings ranges keep both ratios positive and bound the two configured factors. */
  lemma UiBoundsGivePositiveFactors(cfg: Config)
    requires WithinUiBounds(cfg)
    ensures Positive(cfg)
    ensures 4.0 <= Factor(cfg, Bbl) <= 8.0
    ensures 24.0 <= Factor(cfg, Mt) <= 68.0
  {
    ProductWithin(cfg.mmbtuPerBarrel, cfg.bblPerTonne, 4.0, 8.0, 6.0, 8.5);
    assert Factor(cfg, Mt) == cfg.mmbtuPerBarrel * cfg.bblPerTonne;
  }

  /** The default settings lie inside the settings ranges. */
  lemma DefaultIsWithinUiBounds()
    ensures WithinUiBounds(DefaultConfig)
    ensures Factor(DefaultConfig, Bbl) == 5.8
    ensures Factor(DefaultConfig, Mt) == 42.514
  {
  }

  /**
    Changing the configuration changes only the barrel and tonne entries: every
    other entry is the same for any two configurations, labels never change,
    and the barrel entry changes only with the barrel ratio.
   */
  lemma OnlyConfiguredFactorsChange(c1: Config, c2: Config, k: string)
    ensures k in UnitMap(c1) <==> k in UnitMap(c2)
    ensures k in UnitMap(c1) ==> UnitMap(c1)[k].name == UnitMap(c2)[k].name
    ensures k in UnitMap(c1) && IsFixedKey(k) ==> UnitMap(c1)[k] == UnitMap(c2)[k]
    ensures c1.mmbtuPerBarrel == c2.mmbtuPerBarrel ==> UnitMap(c1)["bbl"] == UnitMap(c2)["bbl"]
  {
    if k in UnitMap(c1) {
      var u :| Key(u) == k;
      assert UnitMap(c1)[k] == Entry(c1, u) && UnitMap(c2)[k] == Entry(c2, u);
    }
    assert UnitMap(c1)["bbl"] == Entry(c1, Bbl) && UnitMap(c2)["bbl"] == Entry(c2, Bbl);
  }

  /**
    With positive ratios the table determines the configuration: two
    configurations give the same table exactly when they are equal, so a
    table built for one configuration never stands in for another's.
   */
  lemma TableDeterminesConfig(c1: Config, c2: Config)
    requires Positive(c1) && Positive(c2)
    ensures UnitMap(c1) == UnitMap(c2) <==> c1 == c2
  {
    var m1, m2 := UnitMap(c1), UnitMap(c2);
    if m1 == m2 {
      assert m1[Key(Bbl)] == m2[Key(Bbl)] && m1[Key(Mt)] == m2[Key(Mt)];
      var p := c1.mmbtuPerBarrel;
      assert p == c2.mmbtuPerBarrel;
      assert p * c1.bblPerTonne == p * c2.bblPerTonne;
      CancelNonZero(p, c1.bblPerTonne, c2.bblPerTonne);
    }
  }
}
