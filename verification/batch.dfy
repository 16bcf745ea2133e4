/**
  The batch step of the converter: one positive input value is converted into
  every unit of UnitsOrder, one result row per unit, in that order. Each row
  carries the unit's key, its display label and the converted value. A zero
  (or negative) input produces no rows at all.
 */
module Batch {
  import opened Units
  import opened Conversion

  /** One result row: the target unit's key, its display label, and the value in that unit. */
  datatype Row = Row(unit: string, name: string, value: real)

  /** Building the row for target `t` raises no error: both keys are known and the division is defined. */
  predicate Converts(umap: map<string, Unit>, fromUnit: string, t: string)
  {
    fromUnit in umap && t in umap && umap[t].toMmbtu != 0.0
  }

  /**
    The error raised while building the row for `t`: the label lookup of `t`
    comes first, then the conversion's own lookup of the source key, then the
    division by the target factor.
   */
  function RowError(umap: map<string, Unit>, fromUnit: string, t: string): ConversionError
  {
    if t !in umap then UnknownUnit(t)
    else if fromUnit !in umap then UnknownUnit(fromUnit)
    else DivisionByZero
  }

  /** `targets[i]` is the first target whose row cannot be built. */
  predicate FirstFailure(umap: map<string, Unit>, fromUnit: string, targets: seq<string>, i: int)
  {
    && 0 <= i < |targets|
    && (forall j :: 0 <= j < i ==> Converts(umap, fromUnit, targets[j]))
    && !Converts(umap, fromUnit, targets[i])
  }

  /**
    Converts `value` from `fromUnit` into each of `targets` in turn, stopping at
    the first row that raises; ConvertEachMeaning states what it yields.
   */
  function ConvertEach(umap: map<string, Unit>, value: real, fromUnit: string, targets: seq<string>): Result<seq<Row>>
    decreases |targets|
  {
    if |targets| == 0 then Ok([])
    else
      var t := targets[0];
      if t !in umap then Err(UnknownUnit(t))
      else
        match ConvertWith(umap, value, fromUnit, t)
        case Err(e) => Err(e)
        case Ok(v) =>
          match ConvertEach(umap, value, fromUnit, targets[1..])
          case Err(e) => Err(e)
          case Ok(rest) => Ok([Row(t, umap[t].name, v)] + rest)
  }

  /**
    What ConvertEach yields. It succeeds exactly when every row can be built;
    then there is one row per target, in order, labelled from the table and
    holding as much energy as the input. On failure the error is that of the
    first target whose row cannot be built.
   */
  lemma {:induction false} ConvertEachMeaning(umap: map<string, Unit>, value: real, fromUnit: string, targets: seq<string>)
    ensures var r := ConvertEach(umap, value, fromUnit, targets);
      && (r.Ok? <==> forall i :: 0 <= i < |targets| ==> Converts(umap, fromUnit, targets[i]))
      && (r.Ok? ==> |r.value| == |targets|)
      && (r.Ok? ==> forall i :: 0 <= i < |targets| ==>
            && r.value[i].unit == targets[i]
            && r.value[i].name == umap[targets[i]].name
            && r.value[i].value * umap[targets[i]].toMmbtu == value * umap[fromUnit].toMmbtu)
      && (r.Err? ==> exists i :: FirstFailure(umap, fromUnit, targets, i) && r.error == RowError(umap, fromUnit, targets[i]))
    decreases |targets|
  {
    if |targets| > 0 {
      var t, tail := targets[0], targets[1..];
      ConvertEachMeaning(umap, value, fromUnit, tail);
      assert forall i :: 0 < i < |targets| ==> targets[i] == tail[i - 1];
      if !Converts(umap, fromUnit, t) {
        assert FirstFailure(umap, fromUnit, targets, 0);
      } else {
        var rest := ConvertEach(umap, value, fromUnit, tail);
        if rest.Err? {
          var j :| FirstFailure(umap, fromUnit, tail, j) && rest.error == RowError(umap, fromUnit, tail[j]);
          assert FirstFailure(umap, fromUnit, targets, j + 1);
        }
      }
    }
  }

  /** `r` with `rows` put in front of its rows; an error stays as it is. */
  function Prefixed(rows: seq<Row>, r: Result<seq<Row>>): Result<seq<Row>>
  {
    if r.Ok? then Ok(rows + r.value) else r
  }

  /** One step of ConvertEach: the first target's row, then the rest. */
  lemma ConvertEachStep(umap: map<string, Unit>, value: real, fromUnit: string, targets: seq<string>)
    requires |targets| > 0
    ensures targets[0] !in umap ==> ConvertEach(umap, value, fromUnit, targets) == Err(UnknownUnit(targets[0]))
    ensures targets[0] in umap && ConvertWith(umap, value, fromUnit, targets[0]).Err? ==>
      ConvertEach(umap, value, fromUnit, targets) == Err(ConvertWith(umap, value, fromUnit, targets[0]).error)
    ensures targets[0] in umap && ConvertWith(umap, value, fromUnit, targets[0]).Ok? ==>
      ConvertEach(umap, value, fromUnit, targets) ==
        Prefixed([Row(targets[0], umap[targets[0]].name, ConvertWith(umap, value, fromUnit, targets[0]).value)],
                 ConvertEach(umap, value, fromUnit, targets[1..]))
  {
  }

  /** Putting rows in front in two steps is putting them in front at once. */
  lemma PrefixedTwice(rows: seq<Row>, row: Row, r: Result<seq<Row>>)
    ensures Prefixed(rows, Prefixed([row], r)) == Prefixed(rows + [row], r)
  {
    if r.Ok? {
      assert rows + ([row] + r.value) == (rows + [row]) + r.value;
    }
  }

  /**
    The batch loop as written: walk the targets in order, look up each label,
    convert, and append the row, leaving at the first error. It builds exactly
    the result ConvertEach describes.
   */
  method CollectRows(umap: map<string, Unit>, value: real, fromUnit: string, targets: seq<string>)
    returns (r: Result<seq<Row>>)
    ensures r == ConvertEach(umap, value, fromUnit, targets)
  {
    var rows: seq<Row> := [];
    var i := 0;
    assert targets[i..] == targets;
    ghost var whole := ConvertEach(umap, value, fromUnit, targets);
    if whole.Ok? {
      assert [] + whole.value == whole.value;
    }
    while i < |targets|
      invariant 0 <= i <= |targets|
      invariant whole == Prefixed(rows, ConvertEach(umap, value, fromUnit, targets[i..]))
    {
      var t := targets[i];
      ConvertEachStep(umap, value, fromUnit, targets[i..]);
      assert targets[i..][0] == t && targets[i..][1..] == targets[i + 1..];
      if t !in umap {
        return Err(UnknownUnit(t));
      }
      var c := ConvertWith(umap, value, fromUnit, t);
      if c.Err? {
        return Err(c.error);
      }
      var row := Row(t, umap[t].name, c.value);
      PrefixedTwice(rows, row, ConvertEach(umap, value, fromUnit, targets[i + 1..]));
      rows := rows + [row];
      i := i + 1;
    }
    assert targets[i..] == [] && rows + [] == rows;
    return Ok(rows);
  }

  /** The batch step for the configured table: no rows unless the input is positive. */
  function ConvertAll(value: real, fromUnit: string, cfg: Config): Result<seq<Row>>
  {
    if value > 0.0 then ConvertEach(UnitMap(cfg), value, fromUnit, UnitsOrder) else Ok([])
  }

  /** Every row of the configured batch can be built exactly when neither ratio is zero. */
  lemma EveryRowConverts(cfg: Config, fromUnit: string)
    requires fromUnit in UnitMap(cfg)
    ensures (forall i :: 0 <= i < |UnitsOrder| ==> Converts(UnitMap(cfg), fromUnit, UnitsOrder[i]))
      <==> cfg.mmbtuPerBarrel != 0.0 && cfg.bblPerTonne != 0.0
  {
    var m := UnitMap(cfg);
    if cfg.mmbtuPerBarrel != 0.0 && cfg.bblPerTonne != 0.0 {
      FactorsNonZero(cfg);
      UnitsOrderIsEnumeration(cfg);
    } else {
      var p, t := cfg.mmbtuPerBarrel, cfg.bblPerTonne;
      assert m["mt"].toMmbtu == p * t && m["bbl"].toMmbtu == p;
      assert p == 0.0 || p * t == 0.0;
      assert UnitsOrder[0] == "mt" && UnitsOrder[1] == "bbl";
      assert !Converts(m, fromUnit, "mt") || !Converts(m, fromUnit, "bbl");
    }
  }

  /**
    When every row can be built, each row's value is the conversion of the
    input into that row's unit, and a row whose unit is the source unit holds
    the input unchanged.
   */
  lemma RowsAreConversions(umap: map<string, Unit>, value: real, fromUnit: string, targets: seq<string>)
    requires forall i :: 0 <= i < |targets| ==> Converts(umap, fromUnit, targets[i])
    ensures var r := ConvertEach(umap, value, fromUnit, targets);
      && r.Ok? && |r.value| == |targets|
      && (forall i :: 0 <= i < |targets| ==> ConvertWith(umap, value, fromUnit, targets[i]) == Ok(r.value[i].value))
      && (forall i :: 0 <= i < |targets| && targets[i] == fromUnit ==> r.value[i].value == value)
  {
    ConvertEachMeaning(umap, value, fromUnit, targets);
    var rows := ConvertEach(umap, value, fromUnit, targets).value;
    forall i | 0 <= i < |targets|
      ensures ConvertWith(umap, value, fromUnit, targets[i]) == Ok(rows[i].value)
      ensures targets[i] == fromUnit ==> rows[i].value == value
    {
      assert Converts(umap, fromUnit, targets[i]);
      ResultIsUnique(umap, value, fromUnit, targets[i], rows[i].value);
      if targets[i] == fromUnit {
        ResultIsUnique(umap, value, fromUnit, fromUnit, value);
      }
    }
  }

  /**
    What the batch step yields: nothing for an input that is not positive; an
    unknown source key is reported before any row is built; with a known source
    key it fails only when a ratio is zero, and then by division by zero.
   */
  lemma BatchOutcome(value: real, fromUnit: string, cfg: Config)
    ensures value <= 0.0 ==> ConvertAll(value, fromUnit, cfg) == Ok([])
    ensures value > 0.0 && fromUnit !in UnitMap(cfg) ==> ConvertAll(value, fromUnit, cfg) == Err(UnknownUnit(fromUnit))
    ensures value > 0.0 && fromUnit in UnitMap(cfg) ==>
      && (ConvertAll(value, fromUnit, cfg).Ok? <==> cfg.mmbtuPerBarrel != 0.0 && cfg.bblPerTonne != 0.0)
      && (ConvertAll(value, fromUnit, cfg).Err? ==> ConvertAll(value, fromUnit, cfg).error == DivisionByZero)
  {
    var m := UnitMap(cfg);
    UnitsOrderIsEnumeration(cfg);
    if value > 0.0 && fromUnit !in m {
      assert UnitsOrder[0] in m;
    }
    if value > 0.0 && fromUnit in m {
      EveryRowConverts(cfg, fromUnit);
      ConvertEachMeaning(m, value, fromUnit, UnitsOrder);
      var r := ConvertEach(m, value, fromUnit, UnitsOrder);
      if r.Err? {
        var i :| FirstFailure(m, fromUnit, UnitsOrder, i) && r.error == RowError(m, fromUnit, UnitsOrder[i]);
        assert UnitsOrder[i] in m;
      }
    }
  }

  /**
    With positive ratios and a known source key, a positive input yields one row
    per unit of UnitsOrder, in that order, each labelled from the table and
    holding as much energy as the input; the row of the source unit holds the
    input value unchanged.
   */
  lemma BatchRows(value: real, fromUnit: string, cfg: Config)
    requires value > 0.0 && Positive(cfg) && fromUnit in UnitMap(cfg)
    ensures var r := ConvertAll(value, fromUnit, cfg);
      && r.Ok? && |r.value| == |UnitsOrder|
      && (forall i :: 0 <= i < |UnitsOrder| ==>
            && r.value[i].unit == UnitsOrder[i]
            && UnitsOrder[i] in UnitMap(cfg)
            && r.value[i].name == UnitMap(cfg)[UnitsOrder[i]].name
            && Convert(value, fromUnit, UnitsOrder[i], cfg) == Ok(r.value[i].value))
      && (forall i :: 0 <= i < |UnitsOrder| && UnitsOrder[i] == fromUnit ==> r.value[i].value == value)
  {
    EveryRowConverts(cfg, fromUnit);
    ConvertEachMeaning(UnitMap(cfg), value, fromUnit, UnitsOrder);
    RowsAreConversions(UnitMap(cfg), value, fromUnit, UnitsOrder);
  }
}
