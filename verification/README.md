# Energy unit converter — Dafny model

This project models the computational core of a small energy unit converter
(`app.py`). The converter knows seven energy units, and each one has a factor
saying how many MMBtu one unit holds:

- the five fixed units are TBtu, MMBtu, Mth, TWh and MWh;
- the barrel (`bbl`) factor is the configured MMBtu-per-barrel ratio;
- the metric tonne (`mt`) factor is that ratio times the configured
  barrels-per-tonne ratio.

A conversion goes through the hub unit MMBtu. It multiplies by the source
unit's factor, then divides by the target unit's factor. The batch step converts
one positive input value into every unit of `UNITS_ORDER` and builds one row per
unit, holding the unit's key, its label and the converted value.

The files:

- `real_facts.dfy` (`RealFacts`) holds small facts about real arithmetic that the
  proofs use.
- `units.dfy` (`Units`) holds the unit record, the configuration, the unit table
  (`unit_map`) and `UNITS_ORDER`.
- `conversion.dfy` (`Conversion`) holds `convert`, written once over any table
  (`ConvertWith`) and once over the configured table (`Convert`), and its laws:
  - identity;
  - round trip;
  - composition through an intermediate unit;
  - linearity;
  - monotonicity;
  - uniqueness of the result.
- `batch.dfy` (`Batch`) holds the batch loop, both as a recursive definition and
  as the loop itself, and what it yields for the configured table.

Unit keys stay strings, as in the source's dictionary. A missing key therefore
has an error path: `KeyError` becomes `Err(UnknownUnit(key))`. A zero target
factor gives `ZeroDivisionError`, which becomes `Err(DivisionByZero)`. Errors
come in the order Python raises them:

1. the source key lookup;
2. the target key lookup;
3. the division.

In the batch loop, the label lookup of each row's unit comes before its
conversion.

The converter has exactly seven units: TBtu, MMBtu, Mth, TWh, MWh, bbl and mt.
There is no GWh unit. The input is one number plus a unit picked from
`UNITS_ORDER` (app.py:80-83).

## Model

| member | source | states |
|---|---|---|
| Units.UnitMap | app.py:25-34 | the table's keys are exactly the seven unit keys, and each key leads to that unit's label and factor |
| Units.Entry | app.py:27-33 | the seven entries of the dict literal, each a label and a factor; it has no ensures of its own, and Units.UnitMap states that each unit's key leads to exactly its entry |
| Units.Factor | app.py:27-33 | MMBtu has factor 1; the barrel factor is the MMBtu-per-barrel ratio; the tonne factor is that ratio times barrels per tonne; with positive ratios every factor is positive |
| Units.FactorIsTableEntry | app.py:25-34 | a unit's factor is the factor the table stores under its key, so the facts about Factor hold for the table the conversions use |
| Units.FactorsPositive | app.py:25-34 | with positive ratios every factor stored in the table is strictly positive |
| Units.FactorsNonZero | app.py:25-34 | with non-zero ratios no factor in the table is zero, so no division by a factor fails |
| Units.UnitsOrderIsEnumeration | app.py:80 | UNITS_ORDER has seven entries with no duplicates, and a key is in it exactly when it is a key of the table |
| Units.UiBoundsGivePositiveFactors | app.py:54-69 | the settings ranges [4, 8] and [6, 8.5] make both ratios positive, put the barrel factor in [4, 8] and put the tonne factor in [24, 68] |
| Units.DefaultIsWithinUiBounds | app.py:14-15 | the default ratios 5.8 and 7.33 lie in the settings ranges and give a barrel factor of 5.8 and a tonne factor of 42.514 |
| Units.OnlyConfiguredFactorsChange | app.py:26-34 | two configurations give tables with the same keys and labels; every entry except bbl and mt is identical; the bbl entry depends only on the barrel ratio |
| Units.TableDeterminesConfig | app.py:32-33 | for positive ratios two configurations give equal tables exactly when they are equal |
| Conversion.ConvertWith | app.py:36-39 | an unknown source key, then an unknown target key, is reported; with both keys known it fails only on a zero target factor; a result holds the same energy in MMBtu as the input |
| Conversion.Convert | app.py:36-39 | `convert` itself: build the table for the configuration, then convert through it; it has no ensures of its own, and Conversion.ConvertOutcome and Conversion.ConfiguredLaws state what it yields |
| Conversion.ConvertOutcome | app.py:36-39 | the same error order and energy equation for the table built from the configuration |
| Conversion.KnownKeysConvert | app.py:36-39 | with positive ratios any two known keys convert without error |
| Conversion.ResultIsUnique | app.py:38-39 | when the target factor is non-zero, the result is the one value holding the same energy as the input |
| Conversion.ConvertToSelf | app.py:36-39 | converting a unit with a non-zero factor to itself returns the input |
| Conversion.HubIsNeutral | app.py:28 | with a hub factor of 1, converting to MMBtu multiplies by the source factor, and MMBtu to MMBtu is the identity |
| Conversion.ConfiguredHub | app.py:28-39 | in the configured table, converting any unit to MMBtu multiplies the input by that unit's factor |
| Conversion.RoundTrip | app.py:36-39 | converting from a to b and back to a returns the input |
| Conversion.Compose | app.py:36-39 | converting a to b and then b to c equals converting a to c directly |
| Conversion.Linear | app.py:36-39 | conversion commutes with scaling and with addition |
| Conversion.Monotone | app.py:36-39 | conversion keeps order both ways, and keeps positivity both ways |
| Conversion.OnlyLookedUpEntriesMatter | app.py:37-39 | two tables that agree on the presence and factors of the two keys give the same result, error or value |
| Conversion.ConfiguredLaws | app.py:25-39 | for the configured table with positive ratios: identity, no error, round trip, composition and scaling |
| Conversion.BarrelRatio | app.py:28-32 | for every configuration, one barrel converts to exactly the configured MMBtu-per-barrel ratio |
| Conversion.TonneRatio | app.py:32-33 | one metric tonne converts to exactly the configured barrels-per-tonne ratio |
| Conversion.FixedUnitsIgnoreConfig | app.py:27-31 | conversions among the five fixed units give the same result, error or value, under any two configurations |
| Conversion.DefaultFigures | app.py:14-34 | under the defaults: 1 bbl = 5.8 MMBtu, 1 TBtu = 1,000,000 MMBtu, 1,000,000 MWh = 1 TWh and 1 mt = 42.514 MMBtu; an unknown key is reported |
| Batch.ConvertEach | app.py:88-93 | the per-unit row loop, stopping at the first error; it has no ensures of its own, and Batch.ConvertEachMeaning and Batch.CollectRows state what it yields |
| Batch.ConvertEachMeaning | app.py:88-93 | the row loop succeeds exactly when every row can be built; it then gives one row per target, in order, with the target's key, its label and a value of the same energy; otherwise the error is the first failing row's, with the label lookup before the conversion |
| Batch.CollectRows | app.py:87-93 | the imperative loop (append a row per unit, stop at the first error) yields exactly the recursive definition's result |
| Batch.EveryRowConverts | app.py:79-93 | for a known source key, every row over UNITS_ORDER can be built exactly when neither ratio is zero |
| Batch.RowsAreConversions | app.py:88-93 | when every row can be built, each row's value is the conversion into its unit, and the row of the source unit holds the input unchanged |
| Batch.ConvertAll | app.py:86-93 | the guarded batch over UNITS_ORDER with the configured table; it has no ensures of its own, and Batch.BatchOutcome and Batch.BatchRows state what it yields |
| Batch.BatchOutcome | app.py:86-93 | an input that is not positive gives no rows; an unknown source key is reported; with a known source key the batch fails exactly when a ratio is zero, and then by division by zero |
| Batch.BatchRows | app.py:86-93 | with positive ratios and a known source key, a positive input gives seven rows in UNITS_ORDER order; each row carries its key and label and the value `convert` gives; the source unit's row holds the input |

## Left out

- The Streamlit page is not modelled: the sidebar, the inputs, the session state and the precision slider (app.py:41-78 and app.py:81-84). They are I/O. Their values are parameters of the model (`Config`, the input value, the source key). Lines 79-80 of that stretch are modelled: the table the batch reads its labels from is `UnitMap(cfg)`, and `UNITS_ORDER` is `Units.UnitsOrder`.
- The settings ranges of the two ratio inputs and the input's minimum of 0.0 are not imposed. The operations accept any ratios, any real value and any key. `WithinUiBounds` states the ranges, and UiBoundsGivePositiveFactors relates them to the factors.
- The source key comes from a list restricted to `UNITS_ORDER`. The model accepts any string and carries the error path instead.
- The DataFrame construction, the display rounding to a number of significant digits and the table display are not modelled (app.py:94-97). They are presentation only.
- The reference-factor table (app.py:100-107) is not modelled. It only displays the labels and factors of `UnitMap` in `UNITS_ORDER` order.
- Floating-point rounding is not modelled. Factors and values are exact reals, so the round-trip and composition laws hold exactly here. With IEEE-754 doubles they hold only up to rounding.
