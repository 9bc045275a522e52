/** The static product catalog (constants.ts, `TEAS`), reduced to the fields the model reads. */
module Catalog {
  import opened Types

  const DragonWell := Tea("1", "Misty Peak Dragon Well", Green, 1499.0)
  const GoldenNeedle := Tea("2", "Imperial Golden Needle", Black, 1899.0)
  const SilverNeedle := Tea("3", "Silver Needle Supreme", White, 2499.0)
  const IronGoddess := Tea("4", "Iron Goddess Oolong", Oolong, 1299.0)

  const Teas: seq<Tea> := [DragonWell, GoldenNeedle, SilverNeedle, IronGoddess]
}
