/** The shared food vocabulary. */
module Food {

  /** Whether a dish is vegetarian, contains egg, or contains meat or fish. */
  datatype FoodType = Veg | Egg | NonVeg

  /** The fourteen category ids a `Food` may carry. */
  const FoodCategories: seq<string> := [
    "snacks", "starters", "sandwiches", "noodles", "pizzas", "pasta", "burgers",
    "gravy", "roti", "thali", "beverages", "sweets", "healthy", "bakery"
  ]

  /** A category id is one of the fourteen `Food` categories. */
  predicate IsFoodCategory(c: string) {
    c in FoodCategories
  }
}
