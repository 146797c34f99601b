/** The shopping cart (client/src/context/CartContext.tsx) as a pure
    reducer: a cart holds lines of one facility, at most one line per menu
    item, each with a quantity of 1 to 5. */
module Cart {
  import opened Common
  import opened Schema

  /** The most of one menu item a cart may hold. */
  const MaxQuantity: int := 5

  /** A cart line. `id` is the line's generated UUID. */
  datatype CartItem = CartItem(
    id: string,
    menuId: string,
    menu: string,
    price: int,
    cornerType: string,
    quantity: int)

  /** What the caller adds: a line without id and quantity. */
  datatype NewItem = NewItem(menuId: string, menu: string, price: int, cornerType: string)

  datatype FacilityRef = FacilityRef(id: string, name: string, location: Location)

  datatype CartState = CartState(
    items: seq<CartItem>,
    isOpen: bool,
    facilityId: Option<string>,
    facilityName: Option<string>,
    facilityLocation: Option<Location>,
    cornerId: Option<string>,
    cornerType: Option<string>)

  function Empty(): CartState {
    CartState([], false, None, None, None, None, None)
  }

  /** Every quantity is within 1..5, and menu ids and line ids are unique. */
  ghost predicate GoodLines(items: seq<CartItem>) {
    && (forall i :: 0 <= i < |items| ==> 1 <= items[i].quantity <= MaxQuantity)
    && (forall i, j :: 0 <= i < j < |items| ==> items[i].menuId != items[j].menuId)
    && (forall i, j :: 0 <= i < j < |items| ==> items[i].id != items[j].id)
  }

  ghost predicate Inv(c: CartState) {
    GoodLines(c.items)
  }

  predicate HasMenu(items: seq<CartItem>, menuId: string) {
    exists i :: 0 <= i < |items| && items[i].menuId == menuId
  }

  /** The lines an add starts from: none when the item comes from a facility
      other than the cart's current one (a present, non-empty id). */
  function AddBase(c: CartState, facility: FacilityRef): (base: seq<CartItem>)
    ensures c.facilityId.Some? && c.facilityId.value != "" && c.facilityId.value != facility.id ==> base == []
    ensures !(c.facilityId.Some? && c.facilityId.value != "" && c.facilityId.value != facility.id) ==> base == c.items
  {
    if c.facilityId.Some? && c.facilityId.value != "" && c.facilityId.value != facility.id then [] else c.items
  }

  /** `addItem`: an item already in the cart gets one more (at most 5);
      otherwise a new line with quantity 1 is appended. Adding from another
      facility first empties the cart. The cart records the facility and
      corner and opens. `id` stands for the generated line UUID. */
  function AddItem(c: CartState, item: NewItem, corner: Corner, facility: FacilityRef, id: string): (r: CartState)
    ensures r.isOpen
    ensures r.facilityId == Some(facility.id) && r.facilityName == Some(facility.name)
    ensures r.facilityLocation == Some(facility.location)
    ensures r.cornerId == Some(corner.id) && r.cornerType == Some(corner.kind)
    ensures HasMenu(AddBase(c, facility), item.menuId) ==>
              && |r.items| == |AddBase(c, facility)|
              && forall i :: 0 <= i < |r.items| ==>
                   r.items[i] == (if AddBase(c, facility)[i].menuId == item.menuId
                                  then AddBase(c, facility)[i].(quantity := Min(MaxQuantity, AddBase(c, facility)[i].quantity + 1))
                                  else AddBase(c, facility)[i])
    ensures !HasMenu(AddBase(c, facility), item.menuId) ==>
              r.items == AddBase(c, facility) + [CartItem(id, item.menuId, item.menu, item.price, item.cornerType, 1)]
  {
    var base := AddBase(c, facility);
    var items :=
      if HasMenu(base, item.menuId) then
        seq(|base|, i requires 0 <= i < |base| =>
              if base[i].menuId == item.menuId then base[i].(quantity := Min(MaxQuantity, base[i].quantity + 1))
              else base[i])
      else base + [CartItem(id, item.menuId, item.menu, item.price, item.cornerType, 1)];
    CartState(items, true, Some(facility.id), Some(facility.name), Some(facility.location),
              Some(corner.id), Some(corner.kind))
  }

  /** The lines whose id is not `itemId`, in order (`prev.filter`). */
  function Without(items: seq<CartItem>, itemId: string): (r: seq<CartItem>)
    ensures |r| <= |items|
    ensures forall x :: x in r <==> x in items && x.id != itemId
    ensures IsSubsequence(r, items)
  {
    FilterIsSubsequence(items, (x: CartItem) => x.id != itemId);
    Filter(items, (x: CartItem) => x.id != itemId)
  }

  /** `removeItem`: drop the line with that id; an emptied cart forgets its
      facility and corner. */
  function RemoveItem(c: CartState, itemId: string): (r: CartState)
    ensures r.items == Without(c.items, itemId)
    ensures r.isOpen == c.isOpen
    ensures r.items == [] ==> r.facilityId.None? && r.facilityName.None? && r.facilityLocation.None?
                              && r.cornerId.None? && r.cornerType.None?
    ensures r.items != [] ==> r == c.(items := r.items)
  {
    var items := Without(c.items, itemId);
    if items == [] then CartState([], c.isOpen, None, None, None, None, None)
    else c.(items := items)
  }

  /** `updateQuantity`: below 1 removes the line; otherwise the line with
      that id gets the quantity, capped at 5, and no other line changes. */
  function UpdateQuantity(c: CartState, itemId: string, quantity: int): (r: CartState)
    ensures quantity < 1 ==> r == RemoveItem(c, itemId)
    ensures quantity >= 1 ==>
              && r == c.(items := r.items)
              && |r.items| == |c.items|
              && forall i :: 0 <= i < |c.items| ==>
                   r.items[i] == (if c.items[i].id == itemId then c.items[i].(quantity := Min(MaxQuantity, quantity))
                                  else c.items[i])
  {
    if quantity < 1 then RemoveItem(c, itemId)
    else
      c.(items := seq(|c.items|, i requires 0 <= i < |c.items| =>
                        if c.items[i].id == itemId then c.items[i].(quantity := Min(MaxQuantity, quantity))
                        else c.items[i]))
  }

  /** `clearCart`: no lines, no facility or corner, and the sheet closed. */
  function ClearCart(c: CartState): (r: CartState)
    ensures r.items == [] && !r.isOpen
    ensures r.facilityId.None? && r.facilityName.None? && r.facilityLocation.None?
    ensures r.cornerId.None? && r.cornerType.None?
  {
    Empty()
  }

  /** `totalItems`: the sum of the quantities. */
  function TotalItems(items: seq<CartItem>): int {
    if |items| == 0 then 0 else TotalItems(items[..|items| - 1]) + items[|items| - 1].quantity
  }

  /** `totalAmount`: the sum of price times quantity. */
  function TotalAmount(items: seq<CartItem>): int {
    if |items| == 0 then 0 else TotalAmount(items[..|items| - 1]) + items[|items| - 1].price * items[|items| - 1].quantity
  }

  /** With quantities in 1..5 the item count lies between the number of
      lines and five times that number; with no negative quantity no line
      holds more than the count. */
  lemma {:induction false} TotalItemsBounds(items: seq<CartItem>)
    ensures (forall i :: 0 <= i < |items| ==> 1 <= items[i].quantity <= MaxQuantity) ==>
              |items| <= TotalItems(items) <= MaxQuantity * |items|
    ensures (forall i :: 0 <= i < |items| ==> items[i].quantity >= 0) ==>
              TotalItems(items) >= 0 && forall k :: 0 <= k < |items| ==> items[k].quantity <= TotalItems(items)
  {
    if |items| > 0 {
      var front := items[..|items| - 1];
      TotalItemsBounds(front);
      assert forall i :: 0 <= i < |front| ==> front[i] == items[i];
    }
  }

  /** With no negative price or quantity the amount is never negative and
      at least what any single line costs. */
  lemma {:induction false} TotalAmountCoversLines(items: seq<CartItem>)
    ensures (forall i :: 0 <= i < |items| ==> items[i].price >= 0 && items[i].quantity >= 0) ==>
              TotalAmount(items) >= 0
              && forall k :: 0 <= k < |items| ==> items[k].price * items[k].quantity <= TotalAmount(items)
  {
    if |items| > 0 {
      var front := items[..|items| - 1];
      var last := items[|items| - 1];
      TotalAmountCoversLines(front);
      assert forall i :: 0 <= i < |front| ==> front[i] == items[i];
      NonNegativeProduct(last.price, last.quantity);
    }
  }

  lemma NonNegativeProduct(p: int, q: int)
    ensures p >= 0 && q >= 0 ==> p * q >= 0
  {
  }

  /** Replacing line `k` by one with quantity `q` moves the totals by the
      difference. */
  lemma {:induction false} TotalsAfterSet(items: seq<CartItem>, k: int, line: CartItem)
    requires 0 <= k < |items|
    requires line == items[k].(quantity := line.quantity)
    ensures TotalItems(items[k := line]) == TotalItems(items) - items[k].quantity + line.quantity
    ensures TotalAmount(items[k := line]) == TotalAmount(items) - items[k].price * items[k].quantity
                                              + line.price * line.quantity
  {
    var n := |items|;
    if k < n - 1 {
      assert items[k := line][..n - 1] == items[..n - 1][k := line];
      TotalsAfterSet(items[..n - 1], k, line);
    } else {
      assert items[k := line][..n - 1] == items[..n - 1];
    }
  }

  /** In a cart that satisfies the invariant, adding an item from the same
      facility raises the item count by one and the amount by the line's
      price, unless its line already holds five, when nothing changes. */
  lemma AddItemTotals(c: CartState, item: NewItem, corner: Corner, facility: FacilityRef, id: string)
    requires Inv(c)
    requires AddBase(c, facility) == c.items
    ensures var r := AddItem(c, item, corner, facility, id);
            !HasMenu(c.items, item.menuId) ==>
              && TotalItems(r.items) == TotalItems(c.items) + 1
              && TotalAmount(r.items) == TotalAmount(c.items) + item.price
    ensures var r := AddItem(c, item, corner, facility, id);
            forall k :: 0 <= k < |c.items| && c.items[k].menuId == item.menuId ==>
              if c.items[k].quantity < MaxQuantity then
                && TotalItems(r.items) == TotalItems(c.items) + 1
                && TotalAmount(r.items) == TotalAmount(c.items) + c.items[k].price
              else
                && TotalItems(r.items) == TotalItems(c.items)
                && TotalAmount(r.items) == TotalAmount(c.items)
  {
    var r := AddItem(c, item, corner, facility, id);
    if HasMenu(c.items, item.menuId) {
      forall k | 0 <= k < |c.items| && c.items[k].menuId == item.menuId {
        AddToLine(c, item, corner, facility, id, k);
      }
    } else {
      assert r.items[..|r.items| - 1] == c.items;
    }
  }

  /** With unique menu ids, adding an item already in the cart changes
      only its line. */
  lemma AddToLine(c: CartState, item: NewItem, corner: Corner, facility: FacilityRef, id: string, k: int)
    requires Inv(c)
    requires AddBase(c, facility) == c.items
    requires 0 <= k < |c.items| && c.items[k].menuId == item.menuId
    ensures var r := AddItem(c, item, corner, facility, id);
            if c.items[k].quantity < MaxQuantity then
              && TotalItems(r.items) == TotalItems(c.items) + 1
              && TotalAmount(r.items) == TotalAmount(c.items) + c.items[k].price
            else
              && TotalItems(r.items) == TotalItems(c.items)
              && TotalAmount(r.items) == TotalAmount(c.items)
  {
    var line := c.items[k].(quantity := Min(MaxQuantity, c.items[k].quantity + 1));
    assert HasMenu(c.items, item.menuId);
    assert forall i :: 0 <= i < |c.items| && i != k ==> c.items[i].menuId != item.menuId;
    assert AddItem(c, item, corner, facility, id).items == c.items[k := line];
    TotalsAfterSet(c.items, k, line);
    if c.items[k].quantity < MaxQuantity {
      MulSucc(line.price, c.items[k].quantity);
    }
  }

  lemma MulSucc(p: int, q: int)
    ensures p * (q + 1) == p * q + p
  {
  }

  lemma AddItemPreservesInv(c: CartState, item: NewItem, corner: Corner, facility: FacilityRef, id: string)
    requires Inv(c)
    requires forall i :: 0 <= i < |c.items| ==> c.items[i].id != id
    ensures Inv(AddItem(c, item, corner, facility, id))
  {
  }

  lemma RemoveItemPreservesInv(c: CartState, itemId: string)
    requires Inv(c)
    ensures Inv(RemoveItem(c, itemId))
    ensures forall x :: x in RemoveItem(c, itemId).items ==> x.id != itemId
  {
    WithoutKeepsUnique(c.items, itemId);
  }

  /** A suffix of good lines is good. */
  lemma TailGood(items: seq<CartItem>)
    requires |items| > 0 && GoodLines(items)
    ensures GoodLines(items[1..])
  {
    var t := items[1..];
    forall i, j | 0 <= i < j < |t| ensures t[i].menuId != t[j].menuId && t[i].id != t[j].id {
      assert t[i] == items[i + 1] && t[j] == items[j + 1];
    }
  }

  /** A line whose menu id and id differ from those of every good line can
      go in front of them. */
  lemma ConsGood(x: CartItem, rest: seq<CartItem>)
    requires GoodLines(rest) && 1 <= x.quantity <= MaxQuantity
    requires forall y :: y in rest ==> y.menuId != x.menuId && y.id != x.id
    ensures GoodLines([x] + rest)
  {
    var r := [x] + rest;
    forall i, j | 0 <= i < j < |r| ensures r[i].menuId != r[j].menuId && r[i].id != r[j].id {
      assert r[j] == rest[j - 1];
      assert r[j] in rest;
      if i > 0 {
        assert r[i] == rest[i - 1];
      }
    }
  }

  /** Dropping lines keeps quantities in range and ids unique. */
  lemma {:induction false} WithoutKeepsUnique(items: seq<CartItem>, itemId: string)
    requires GoodLines(items)
    ensures GoodLines(Without(items, itemId))
  {
    if |items| > 0 {
      TailGood(items);
      WithoutKeepsUnique(items[1..], itemId);
      var rest := Without(items[1..], itemId);
      assert Without(items, itemId) == (if items[0].id != itemId then [items[0]] else []) + rest;
      if items[0].id != itemId {
        forall y | y in rest ensures y.menuId != items[0].menuId && y.id != items[0].id {
          assert y in items[1..];
          var m :| 0 <= m < |items[1..]| && items[1..][m] == y;
          assert items[m + 1] == y;
        }
        ConsGood(items[0], rest);
      }
    }
  }

  lemma UpdateQuantityPreservesInv(c: CartState, itemId: string, quantity: int)
    requires Inv(c)
    ensures Inv(UpdateQuantity(c, itemId, quantity))
  {
    if quantity < 1 {
      RemoveItemPreservesInv(c, itemId);
    }
  }
}
