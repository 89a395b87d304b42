/** A restaurant's menu page (src/components/RestaurantDetailPage.tsx): the
    menu rows turned into display items, and the per-item quantity counter
    that the plus and minus buttons change in place and that adding to the
    cart resets. The counter is a map field of a `MenuPage` object. */
module RestaurantDetail {
  import opened Common

  /** A menu row as the backend returns it; id and price arrive as JSON
      numbers, so `Number(...)` leaves them as they are. */
  datatype MenuRow = MenuRow(itemID: int, itemName: string, itemPrice: real, isAvailable: string,
                             itemDescription: Option<string>)

  datatype MenuItem = MenuItem(id: int, name: string, price: real, image: string, available: bool,
                               description: string)

  const PlaceholderImage: string :=
    "https://images.unsplash.com/photo-1498579150354-977475b7ea0b?auto=format&fit=crop&w=800&q=80"

  const DefaultDescription: string := "Delicious menu item"

  /** The mapping applied to each row: available exactly when the flag is
      "Y", and a missing or empty description replaced by the default. */
  function MenuItemOf(row: MenuRow): (m: MenuItem)
    ensures m.id == row.itemID && m.name == row.itemName && m.price == row.itemPrice
    ensures m.available <==> row.isAvailable == "Y"
    ensures row.itemDescription.Some? && row.itemDescription.value != "" ==> m.description == row.itemDescription.value
    ensures row.itemDescription.None? || row.itemDescription.value == "" ==> m.description == DefaultDescription
    ensures m.description != ""
  {
    var description := if row.itemDescription.Some? && row.itemDescription.value != "" then row.itemDescription.value
                       else DefaultDescription;
    MenuItem(row.itemID, row.itemName, row.itemPrice, PlaceholderImage, row.isAvailable == "Y", description)
  }

  function MenuItems(rows: seq<MenuRow>): (items: seq<MenuItem>)
    ensures |items| == |rows|
    ensures forall i :: 0 <= i < |rows| ==> items[i] == MenuItemOf(rows[i])
  {
    seq(|rows|, i requires 0 <= i < |rows| => MenuItemOf(rows[i]))
  }

  // ------------------------------------------------------------ quantities

  /** `prev[itemId] || 0`. */
  function QuantityOf(quantities: map<int, int>, itemId: int): int
  {
    if itemId in quantities then quantities[itemId] else 0
  }

  /** The counter map after `updateQuantity(itemId, change)`. */
  function Bumped(quantities: map<int, int>, itemId: int, change: int): (r: map<int, int>)
    ensures r.Keys == quantities.Keys + {itemId}
    ensures r[itemId] >= 0
    ensures QuantityOf(quantities, itemId) + change >= 0 ==> r[itemId] == QuantityOf(quantities, itemId) + change
    ensures QuantityOf(quantities, itemId) + change < 0 ==> r[itemId] == 0
    ensures forall k :: k in quantities && k != itemId ==> r[k] == quantities[k]
  {
    var next := QuantityOf(quantities, itemId) + change;
    quantities[itemId := if next > 0 then next else 0]
  }

  predicate NonNegative(quantities: map<int, int>)
  {
    forall k :: k in quantities ==> quantities[k] >= 0
  }

  /** `itemQuantities[item.id] || 1`: the stored count, or 1 when it is 0 or
      missing. */
  function QuantityToAdd(quantities: map<int, int>, itemId: int): (n: int)
    ensures NonNegative(quantities) ==> n >= 1
    ensures QuantityOf(quantities, itemId) != 0 ==> n == QuantityOf(quantities, itemId)
    ensures QuantityOf(quantities, itemId) == 0 ==> n == 1
  {
    if itemId in quantities && quantities[itemId] != 0 then quantities[itemId] else 1
  }

  /** Every counter stays at zero or above. */
  lemma BumpKeepsNonNegative(quantities: map<int, int>, itemId: int, change: int)
    requires NonNegative(quantities)
    ensures NonNegative(Bumped(quantities, itemId, change))
  {
  }

  /** Plus then minus gives back the count; minus at zero stays at zero. */
  lemma PlusThenMinus(quantities: map<int, int>, itemId: int)
    requires NonNegative(quantities)
    ensures QuantityOf(Bumped(Bumped(quantities, itemId, 1), itemId, -1), itemId) == QuantityOf(quantities, itemId)
    ensures QuantityOf(quantities, itemId) == 0 ==> QuantityOf(Bumped(quantities, itemId, -1), itemId) == 0
  {
    var once := Bumped(quantities, itemId, 1);
    assert QuantityOf(once, itemId) == QuantityOf(quantities, itemId) + 1;
  }

  /** What the page hands to `onAddToCart`. */
  datatype CartAddition = CartAddition(itemId: int, name: string, price: real, quantity: int, restaurantName: string)

  class MenuPage {
    const restaurantName: string
    var menuItems: seq<MenuItem>
    var itemQuantities: map<int, int>

    constructor (restaurantName: string)
      ensures this.restaurantName == restaurantName && menuItems == [] && itemQuantities == map[]
    {
      this.restaurantName := restaurantName;
      menuItems := [];
      itemQuantities := map[];
    }

    /** The load effect once the menu rows arrive. */
    method LoadMenu(rows: seq<MenuRow>)
      modifies this`menuItems
      ensures menuItems == MenuItems(rows)
    {
      menuItems := MenuItems(rows);
    }

    /** `updateQuantity`: only the given item's counter changes, and it never
        drops below zero. */
    method UpdateQuantity(itemId: int, change: int)
      modifies this`itemQuantities
      ensures itemQuantities == Bumped(old(itemQuantities), itemId, change)
      ensures NonNegative(old(itemQuantities)) ==> NonNegative(itemQuantities)
    {
      var next := QuantityOf(itemQuantities, itemId) + change;
      itemQuantities := itemQuantities[itemId := if next > 0 then next else 0];
      if NonNegative(old(itemQuantities)) {
        BumpKeepsNonNegative(old(itemQuantities), itemId, change);
      }
    }

    /** `addItemToCart`: hands the item over with its counted quantity (1
        when nothing was counted) and resets that item's counter to 0. */
    method AddItemToCart(item: MenuItem) returns (added: CartAddition)
      modifies this`itemQuantities
      ensures added == CartAddition(item.id, item.name, item.price, QuantityToAdd(old(itemQuantities), item.id),
                                    restaurantName)
      ensures itemQuantities == old(itemQuantities)[item.id := 0]
      ensures NonNegative(old(itemQuantities)) ==> added.quantity >= 1 && NonNegative(itemQuantities)
    {
      var quantity := if item.id in itemQuantities && itemQuantities[item.id] != 0 then itemQuantities[item.id] else 1;
      added := CartAddition(item.id, item.name, item.price, quantity, restaurantName);
      itemQuantities := itemQuantities[item.id := 0];
    }
  }
}
