/**
 * The records the orders refer to: dishes (apps/dishes/models.py) and
 * tables (apps/tables/models.py). They carry no behaviour of their own.
 */
module Catalog {

  type DishId = nat
  type TableId = nat

  /**
   * An exact amount of money in hundredths of the currency unit. Every
   * DecimalField of the system has two decimal places, so each such value
   * is a whole number of hundredths and their products with integer
   * quantities and their sums stay exact.
   */
  type Cents = int

  /** A dish on the menu; its price may be any two-place decimal. */
  datatype Dish = Dish(id: DishId, name: string, price: Cents)

  /** A table of the restaurant, addressed by its unique `number`. */
  datatype Table = Table(id: TableId, number: nat, seats: nat, description: string)
}
