/**
 * The menu catalogue the admin dashboard seeds an empty store with: 47 items, all
 * pictured from the same image host, all without per-item add-ons.
 */
module MenuSeed {
  import opened Food
  import opened MenuAdmin

  /** An image URL of the catalogue's image host, sized as the catalogue uses it. */
  function CatalogueImage(photo: string): string {
    "https://images.unsplash.com/photo-" + photo + "?ixlib=rb-1.2.1&auto=format&fit=crop&w=300&q=80"
  }

  /** One catalogue entry; every entry has empty `defaultAddons` and `extraAddons`. */
  function Item(id: int, name: string, subtitle: string, basePrice: int, foodType: FoodType,
                category: string, photo: string): (item: AdminMenuItem)
    ensures item.id == id && item.basePrice == basePrice && item.category == category
  {
    AdminMenuItem(id, name, subtitle, basePrice, foodType, CatalogueImage(photo), category, [], [])
  }

  /** The items are numbered consecutively from `first`, all priced above zero and all in a food category. */
  predicate NumberedFrom(items: seq<AdminMenuItem>, first: int) {
    forall i :: 0 <= i < |items| ==>
      items[i].id == first + i && items[i].basePrice > 0 && IsFoodCategory(items[i].category)
  }

  lemma NumberedJoin(a: seq<AdminMenuItem>, b: seq<AdminMenuItem>, first: int)
    requires NumberedFrom(a, first) && NumberedFrom(b, first + |a|)
    ensures NumberedFrom(a + b, first)
  {
    forall i | |a| <= i < |a + b| ensures (a + b)[i] == b[i - |a|] { }
  }

  /** `getAllMenuItemsFromPDF()`: 47 items numbered 1 to 47 in order, each with a positive price and one of the fourteen food categories. */
  function AllMenuItemsFromPdf(): (r: seq<AdminMenuItem>)
    ensures |r| == 47
    ensures forall i :: 0 <= i < |r| ==> r[i].id == i + 1
    ensures forall i :: 0 <= i < |r| ==> r[i].basePrice > 0
    ensures forall i :: 0 <= i < |r| ==> IsFoodCategory(r[i].category)
  {
    var r1 := Snacks();
    var r2 := r1 + VegStarters();
    NumberedJoin(r1, VegStarters(), 1);
    var r3 := r2 + NonVegStarters();
    NumberedJoin(r2, NonVegStarters(), 1);
    var r4 := r3 + Sandwiches();
    NumberedJoin(r3, Sandwiches(), 1);
    var r5 := r4 + Noodles();
    NumberedJoin(r4, Noodles(), 1);
    var r6 := r5 + Pizzas();
    NumberedJoin(r5, Pizzas(), 1);
    var r7 := r6 + Pasta();
    NumberedJoin(r6, Pasta(), 1);
    var r8 := r7 + Burgers();
    NumberedJoin(r7, Burgers(), 1);
    var r9 := r8 + VegGravy();
    NumberedJoin(r8, VegGravy(), 1);
    var r10 := r9 + NonVegGravy();
    NumberedJoin(r9, NonVegGravy(), 1);
    var r11 := r10 + RotiAndRice();
    NumberedJoin(r10, RotiAndRice(), 1);
    var r12 := r11 + Thali();
    NumberedJoin(r11, Thali(), 1);
    var r13 := r12 + Beverages();
    NumberedJoin(r12, Beverages(), 1);
    var r14 := r13 + Sweets();
    NumberedJoin(r13, Sweets(), 1);
    var r15 := r14 + Healthy();
    NumberedJoin(r14, Healthy(), 1);
    r15
  }

  /** Snacks: items 1 to 9. */
  function Snacks(): (r: seq<AdminMenuItem>)
    ensures |r| == 9 && NumberedFrom(r, 1)
  {
    [
      Item(1, "Veg Pakoda", "Crispy fried vegetable fritters", 50, Veg, "snacks", "1563379091339-03246963d9d6"),
      Item(2, "Onion Pakoda", "Crispy onion fritters", 50, Veg, "snacks", "1563379091339-03246963d9d6"),
      Item(3, "Mirchi Bhajji", "Spicy chili fritters", 50, Veg, "snacks", "1563379091339-03246963d9d6"),
      Item(4, "Aloo Chap (2 pcs)", "Potato patties", 50, Veg, "snacks", "1563379926898-05f4575a45d8"),
      Item(5, "Potato Cheese Balls", "Cheesy potato balls", 99, Veg, "snacks", "1563379926898-05f4575a45d8"),
      Item(6, "French Fries", "Crispy potato fries", 99, Veg, "snacks", "1541592106381-b31e9677c0e5"),
      Item(7, "Crispy Corn", "Crispy fried corn", 200, Veg, "snacks", "1574943320219-553eb213f72d"),
      Item(8, "Nachos with Cheese", "Crispy nachos with cheese dip", 250, Veg, "snacks", "1571407970349-bc81e7e96d47"),
      Item(9, "Cheese Stuffed Potato", "Cheese + Corn + Veggies + Paneer + Potato Cup (4 Pcs)", 250, Veg, "snacks", "1563379926898-05f4575a45d8")
    ]
  }

  /** Vegetarian starters: items 10 to 13. */
  function VegStarters(): (r: seq<AdminMenuItem>)
    ensures |r| == 4 && NumberedFrom(r, 10)
  {
    [
      Item(10, "Gobi Chilli", "Spicy cauliflower stir-fry", 120, Veg, "starters", "1459411621453-7b03977f4bfc"),
      Item(11, "Gobi Manchurian", "Indo-Chinese cauliflower", 120, Veg, "starters", "1459411621453-7b03977f4bfc"),
      Item(12, "Mushroom Pakoda", "Crispy mushroom fritters", 160, Veg, "starters", "1485579148751-308a1fe6b0b5"),
      Item(13, "Paneer Tikka", "Grilled cottage cheese cubes", 180, Veg, "starters", "1565299585323-38d6b0865b47")
    ]
  }

  /** Egg and non-vegetarian starters: items 14 to 18. */
  function NonVegStarters(): (r: seq<AdminMenuItem>)
    ensures |r| == 5 && NumberedFrom(r, 14)
  {
    [
      Item(14, "Boiled Egg (2 Nos)", "Hard boiled eggs", 40, Egg, "starters", "1556909114-f6e7ad7d3136"),
      Item(15, "Egg Bhurji", "Spicy scrambled eggs", 80, Egg, "starters", "1556909114-f6e7ad7d3136"),
      Item(16, "Chicken 65", "Spicy deep-fried chicken", 175, NonVeg, "starters", "1603360946369-dc9bb6258143"),
      Item(17, "Chicken Tikka", "Grilled chicken pieces", 225, NonVeg, "starters", "1603360946369-dc9bb6258143"),
      Item(18, "Prawn Fry", "Crispy fried prawns", 240, NonVeg, "starters", "1580959375944-abd7e991f971")
    ]
  }

  /** Sandwiches: items 19 to 21. */
  function Sandwiches(): (r: seq<AdminMenuItem>)
    ensures |r| == 3 && NumberedFrom(r, 19)
  {
    [
      Item(19, "Grilled Cheese", "Classic grilled cheese sandwich", 110, Veg, "sandwiches", "1528735602780-2552fd46c7af"),
      Item(20, "Grilled Paneer Cheese", "Paneer and cheese grilled sandwich", 150, Veg, "sandwiches", "1528735602780-2552fd46c7af"),
      Item(21, "Grilled Chicken Cheese", "Chicken and cheese grilled sandwich", 160, NonVeg, "sandwiches", "1528735602780-2552fd46c7af")
    ]
  }

  /** Noodles and Maggi: items 22 to 25. */
  function Noodles(): (r: seq<AdminMenuItem>)
    ensures |r| == 4 && NumberedFrom(r, 22)
  {
    [
      Item(22, "Veg Noodles", "Vegetable stir-fry noodles", 130, Veg, "noodles", "1551882547-ff40c63fe5fa"),
      Item(23, "Egg Noodles", "Noodles with egg", 140, Egg, "noodles", "1551882547-ff40c63fe5fa"),
      Item(24, "Chicken Noodles", "Noodles with chicken", 160, NonVeg, "noodles", "1551882547-ff40c63fe5fa"),
      Item(25, "Piquant Spl Maggi", "Veggies Paneer Mushroom Corn Cheese Maggi", 120, Veg, "noodles", "1585032226651-759b368d7246")
    ]
  }

  /** Pizzas: items 26 to 27. */
  function Pizzas(): (r: seq<AdminMenuItem>)
    ensures |r| == 2 && NumberedFrom(r, 26)
  {
    [
      Item(26, "Cheese Pizza (7\")", "Classic cheese pizza", 150, Veg, "pizzas", "1565299624946-b28f40a0ae38"),
      Item(27, "Chicken Cheese Pizza (7\")", "Chicken and cheese pizza", 180, NonVeg, "pizzas", "1565299624946-b28f40a0ae38")
    ]
  }

  /** Pasta: items 28 to 29. */
  function Pasta(): (r: seq<AdminMenuItem>)
    ensures |r| == 2 && NumberedFrom(r, 28)
  {
    [
      Item(28, "Cheese Pasta (White Sauce)", "Creamy white sauce pasta", 160, Veg, "pasta", "1563379926898-05f4575a45d8"),
      Item(29, "Chicken Cheese Pasta (Pink Sauce)", "Pink sauce pasta with chicken", 210, NonVeg, "pasta", "1563379926898-05f4575a45d8")
    ]
  }

  /** Burgers: items 30 to 31. */
  function Burgers(): (r: seq<AdminMenuItem>)
    ensures |r| == 2 && NumberedFrom(r, 30)
  {
    [
      Item(30, "Veg Burger", "Vegetable burger", 120, Veg, "burgers", "1568901346375-23c9450c58cd"),
      Item(31, "Chicken Burger", "Chicken patty burger", 145, NonVeg, "burgers", "1568901346375-23c9450c58cd")
    ]
  }

  /** Vegetarian gravy dishes: items 32 to 33. */
  function VegGravy(): (r: seq<AdminMenuItem>)
    ensures |r| == 2 && NumberedFrom(r, 32)
  {
    [
      Item(32, "Paneer Butter Masala", "Cottage cheese in rich gravy", 170, Veg, "gravy", "1631452180519-c014fe946bc7"),
      Item(33, "Dal Makhani", "Creamy black lentil curry", 120, Veg, "gravy", "1546833999-b9f581a1996d")
    ]
  }

  /** Non-vegetarian gravy dishes: items 34 to 35. */
  function NonVegGravy(): (r: seq<AdminMenuItem>)
    ensures |r| == 2 && NumberedFrom(r, 34)
  {
    [
      Item(34, "Chicken Butter Masala", "Chicken in rich buttery gravy", 180, NonVeg, "gravy", "1603894584373-5ac82b2ae398"),
      Item(35, "Mutton Curry", "Spicy mutton curry", 270, NonVeg, "gravy", "1603360946369-dc9bb6258143")
    ]
  }

  /** Roti and rice: items 36 to 38. */
  function RotiAndRice(): (r: seq<AdminMenuItem>)
    ensures |r| == 3 && NumberedFrom(r, 36)
  {
    [
      Item(36, "Paratha (Aloo) 2 pcs", "Potato stuffed flatbread", 60, Veg, "roti", "1565299507177-b0ac66763828"),
      Item(37, "Veg Fried Rice", "Fried rice with vegetables", 150, Veg, "roti", "1516684732162-798a0062be99"),
      Item(38, "Chicken Biryani + Raita", "Fragrant rice with chicken", 199, NonVeg, "roti", "1563379091339-03246963d9d6")
    ]
  }

  /** Thalis: items 39 to 40. */
  function Thali(): (r: seq<AdminMenuItem>)
    ensures |r| == 2 && NumberedFrom(r, 39)
  {
    [
      Item(39, "Veg Deluxe Thali", "Rice + Roti (2) + Dal + Curry + Fry + Salad + Sweet", 160, Veg, "thali", "1512058564366-18510be2db19"),
      Item(40, "Chicken Deluxe Thali", "Rice + Roti (2) + Dal + Chicken (2) + Salad + Sweet", 220, NonVeg, "thali", "1512058564366-18510be2db19")
    ]
  }

  /** Beverages: items 41 to 43. */
  function Beverages(): (r: seq<AdminMenuItem>)
    ensures |r| == 3 && NumberedFrom(r, 41)
  {
    [
      Item(41, "Sweet Lassi", "Sweet yogurt drink", 70, Veg, "beverages", "1563805042-7684c019e1cb"),
      Item(42, "Cold Coffee", "Chilled coffee drink", 80, Veg, "beverages", "1510707577719-ae7c9b788690"),
      Item(43, "Cold Coffee with Boba", "Iced coffee with tapioca pearls", 120, Veg, "beverages", "1510707577719-ae7c9b788690")
    ]
  }

  /** Sweets: items 44 to 45. */
  function Sweets(): (r: seq<AdminMenuItem>)
    ensures |r| == 2 && NumberedFrom(r, 44)
  {
    [
      Item(44, "Gajar Halwa", "Carrot pudding dessert", 120, Veg, "sweets", "1563805042-7684c019e1cb"),
      Item(45, "Rice Kheer", "Rice pudding dessert", 140, Veg, "sweets", "1563805042-7684c019e1cb")
    ]
  }

  /** Healthy food: items 46 to 47. */
  function Healthy(): (r: seq<AdminMenuItem>)
    ensures |r| == 2 && NumberedFrom(r, 46)
  {
    [
      Item(46, "Piquants Salad", "Special garden salad", 60, Veg, "healthy", "1540420828642-fca2c5c18abe"),
      Item(47, "Fruit Salad", "Fresh fruit medley", 150, Veg, "healthy", "1540420828642-fca2c5c18abe")
    ]
  }
}
