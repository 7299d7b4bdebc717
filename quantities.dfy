/** Quantities: an amount with a unit, or with no unit at all (a nominal
    count). The parsers that read a quantity from text are not part of this
    model; each grammar that needs one receives it in a `Parsers` record. */
module Quantities {
  import opened Wrappers
  import opened Units
  import opened MdParser

  datatype QuantityUnit = Nominal | Measured(unit: Unit)

  /** `Quantity { unit, amount }`; amounts are exact reals. */
  datatype Quantity = Quantity(unit: QuantityUnit, amount: real)

  predicate InFamily(q: Quantity, f: Family) {
    q.unit.Measured? && FamilyOf(q.unit.unit) == f
  }

  /** `QuantityOf<Time>`: a quantity whose unit is a time unit. */
  type TimeQuantity = q: Quantity | InFamily(q, Time) witness Quantity(Measured(Second), 0.0)

  /** `QuantityOf<Distance>`: a quantity whose unit is a distance unit. */
  type DistanceQuantity = q: Quantity | InFamily(q, Distance) witness Quantity(Measured(Centimeter), 0.0)

  /** `Quantity::new(&Unit::Nominal(Nominal {}), 1.)`: one item, no unit. */
  const OneNominal: Quantity := Quantity(Nominal, 1.0)

  /** The text-to-quantity parsers the grammar calls:
      `quantity` is `Quantity::from_str`, `distance` and `time` are
      `QuantityOf::<Distance>::from_str` and `QuantityOf::<Time>::from_str`,
      and `amountAndUnit` is `md_parser::parse_quantity(text, false)`, which
      yields an amount and perhaps a unit. */
  datatype Parsers = Parsers(
    quantity: string -> MDResult<Quantity>,
    distance: string -> MDResult<DistanceQuantity>,
    time: string -> MDResult<TimeQuantity>,
    amountAndUnit: string -> MDResult<(real, Option<Unit>)>)
}
