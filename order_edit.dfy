/** The order-edit modal: the draft it accumulates (pending status, paid flag,
    cart lines to add and to remove), the product picker inside it, and the
    payload it hands to its `onSave` callback. */
module OrderEdit {
  import opened Domain

  /** One entry of the status drop-down. */
  datatype StatusOption = StatusOption(value: int, caption: string)

  /** The drop-down's entries, in display order: New, Ready to ship, Shipped. */
  const StatusOptions: seq<StatusOption> := [
    StatusOption(0, "Новый"),
    StatusOption(1, "Готов к отправке"),
    StatusOption(2, "Отправлен")
  ]

  /** Label shown for a cart line whose product cannot be found (or has no title). */
  const UnknownProduct: string := "Неизвестный товар"

  /** `v` is offered by the status drop-down. */
  predicate IsStatusValue(v: int) {
    exists i :: 0 <= i < |StatusOptions| && StatusOptions[i].value == v
  }

  /** The drop-down offers exactly the statuses 0, 1 and 2. */
  lemma StatusValuesAreZeroToTwo(v: int)
    ensures IsStatusValue(v) <==> 0 <= v <= 2
  {
    if 0 <= v <= 2 {
      assert StatusOptions[v].value == v;
    }
  }

  /** The payload pieces handed to `onSave`. */
  datatype StatusUpdate = StatusUpdate(status: int, isPaid: bool)
  datatype CartUpdate = CartUpdate(add: seq<CartLine>, remove: seq<CartLine>)
  datatype UpdateData = UpdateData(statusUpdate: StatusUpdate, cartUpdate: CartUpdate)

  /** A call the form makes on the props it was given. */
  datatype FormCallback = OnSave(data: UpdateData) | OnClose

  /** `products.find(p => p.id === productId)`: the first product with that id. */
  function FindProduct(products: seq<Product>, productId: string): (r: Option<Product>)
    ensures r.Some? <==> exists i :: 0 <= i < |products| && products[i].id == productId
    ensures r.Some? ==> exists i :: 0 <= i < |products| && products[i] == r.value
                          && r.value.id == productId
                          && forall j :: 0 <= j < i ==> products[j].id != productId
  {
    if products == [] then None
    else if products[0].id == productId then Some(products[0])
    else
      var r := FindProduct(products[1..], productId);
      assert forall i :: 1 <= i < |products| ==> products[i] == products[1..][i - 1];
      r
  }

  /** The title shown in a cart-line row: the first matching product's title,
      or the fallback label when no product matches or its title is empty. */
  function ProductTitle(products: seq<Product>, productId: string): (t: string)
    ensures t != ""
    ensures (forall i :: 0 <= i < |products| ==> products[i].id != productId) ==> t == UnknownProduct
    ensures forall i :: 0 <= i < |products| && products[i].id == productId
                     && (forall j :: 0 <= j < i ==> products[j].id != productId)
                     ==> t == (if products[i].title != "" then products[i].title else UnknownProduct)
  {
    match FindProduct(products, productId)
    case Some(p) => if p.title != "" then p.title else UnknownProduct
    case None => UnknownProduct
  }

  /** The modal together with the state of its product picker. `order` and
      `products` are props; the six variables are the two components' state. */
  class EditOrderForm {
    const order: Order
    const products: seq<Product>

    // the draft
    var selectedStatus: int
    var isPaid: bool
    var add: seq<CartLine>
    var remove: seq<CartLine>

    // the product picker
    var selectedProduct: string
    var quantity: int

    /** The pending status is always one the drop-down offers. */
    predicate Valid()
      reads this
    {
      IsStatusValue(selectedStatus)
    }

    /** Mounting the modal: the status starts at 0 whatever the order's status,
        the paid flag is copied from the order, both change lists are empty,
        and the picker starts with no product and quantity 1. */
    constructor (order: Order, products: seq<Product>)
      ensures Valid()
      ensures this.order == order && this.products == products
      ensures selectedStatus == 0 && isPaid == order.isPaid
      ensures add == [] && remove == []
      ensures selectedProduct == "" && quantity == 1
    {
      this.order := order;
      this.products := products;
      selectedStatus := 0;
      isPaid := order.isPaid;
      add := [];
      remove := [];
      selectedProduct := "";
      quantity := 1;
      assert StatusOptions[0].value == 0;
    }

    /** Picking entry `choice` of the status drop-down. */
    method OnStatusChange(choice: nat)
      requires choice < |StatusOptions|
      modifies this`selectedStatus
      ensures Valid()
      ensures selectedStatus == StatusOptions[choice].value
    {
      selectedStatus := StatusOptions[choice].value;
    }

    /** Ticking or clearing the "paid" check box. */
    method OnPaidChange(checked: bool)
      requires Valid()
      modifies this`isPaid
      ensures Valid()
      ensures isPaid == checked
    {
      isPaid := checked;
    }

    /** Appends one line to `add`; an existing line for the same product is not merged. */
    method HandleAddProduct(productId: string, quantity: int)
      requires Valid()
      modifies this`add
      ensures Valid()
      ensures add == old(add) + [CartLine(productId, quantity)]
      ensures remove == old(remove) && selectedStatus == old(selectedStatus) && isPaid == old(isPaid)
    {
      add := add + [CartLine(productId, quantity)];
    }

    /** Appends one line to `remove`; an existing line for the same product is not merged. */
    method HandleRemoveProduct(productId: string, quantity: int)
      requires Valid()
      modifies this`remove
      ensures Valid()
      ensures remove == old(remove) + [CartLine(productId, quantity)]
      ensures add == old(add) && selectedStatus == old(selectedStatus) && isPaid == old(isPaid)
    {
      remove := remove + [CartLine(productId, quantity)];
    }

    /** Choosing an entry of the product drop-down (`""` is its placeholder entry). */
    method OnSelectProduct(productId: string)
      requires Valid()
      modifies this`selectedProduct
      ensures Valid()
      ensures selectedProduct == productId
    {
      selectedProduct := productId;
    }

    /** Editing the quantity box next to the product drop-down. */
    method OnQuantityChange(value: int)
      requires Valid()
      modifies this`quantity
      ensures Valid()
      ensures quantity == value
    {
      quantity := value;
    }

    /** The "Add" button: with a product chosen it appends that product with the
        current quantity and clears the choice, keeping the quantity; with no
        product chosen it does nothing. */
    method OnAddClick()
      requires Valid()
      modifies this`add, this`selectedProduct
      ensures Valid()
      ensures old(selectedProduct) != "" ==>
                add == old(add) + [CartLine(old(selectedProduct), quantity)] && selectedProduct == ""
      ensures old(selectedProduct) == "" ==> add == old(add) && selectedProduct == ""
    {
      if selectedProduct != "" {
        HandleAddProduct(selectedProduct, quantity);
        selectedProduct := "";
      }
    }

    /** A change of the remove-quantity box in the row of `line`: a positive value
        is appended to `remove` as it is, even above `line.quantity`; zero or a
        negative value changes nothing. */
    method OnRemoveQuantityChange(line: CartLine, removeQty: int)
      requires Valid()
      requires line in order.cartLines
      modifies this`remove
      ensures Valid()
      ensures removeQty > 0 ==> remove == old(remove) + [CartLine(line.productId, removeQty)]
      ensures removeQty <= 0 ==> remove == old(remove)
    {
      if removeQty > 0 {
        HandleRemoveProduct(line.productId, removeQty);
      }
    }

    /** The "Save" button: calls `onSave` with the whole draft, then `onClose`.
        The draft itself is left as it is. */
    function HandleSubmit(): (calls: seq<FormCallback>)
      reads this
      ensures |calls| == 2 && calls[0].OnSave? && calls[1] == OnClose
      ensures calls[0].data.statusUpdate == StatusUpdate(selectedStatus, isPaid)
      ensures calls[0].data.cartUpdate == CartUpdate(add, remove)
      ensures Valid() ==> 0 <= calls[0].data.statusUpdate.status <= 2
    {
      StatusValuesAreZeroToTwo(selectedStatus);
      var statusUpdate := StatusUpdate(selectedStatus, isPaid);
      var cartUpdate := CartUpdate(add, remove);
      [OnSave(UpdateData(statusUpdate, cartUpdate)), OnClose]
    }

    /** The "Cancel" button and the modal's own close (`onHide`): both call only
        `onClose`, so the draft is dropped unsaved; it is the closing call of
        Save without the `onSave` before it. */
    function OnCancel(): (calls: seq<FormCallback>)
      reads this
      ensures calls == [OnClose]
      ensures forall k :: 0 <= k < |calls| ==> !calls[k].OnSave?
      ensures calls == HandleSubmit()[1..]
    {
      [OnClose]
    }

    /** The title column of the cart table: one row per line of the order, in
        order, each titled from the form's product list. */
    function CartRowTitles(): (titles: seq<string>)
      reads this
      ensures |titles| == |order.cartLines|
      ensures forall k :: 0 <= k < |titles| ==> titles[k] != ""
      ensures forall k :: 0 <= k < |titles| ==> titles[k] == ProductTitle(products, order.cartLines[k].productId)
      ensures forall k :: 0 <= k < |titles| && (forall p :: p in products ==> p.id != order.cartLines[k].productId)
                          ==> titles[k] == UnknownProduct
    {
      seq(|order.cartLines|, k requires 0 <= k < |order.cartLines| => ProductTitle(products, order.cartLines[k].productId))
    }
  }

  /** Two additions of one product stay two entries, in call order, and reach the payload. */
  method AddSameProductTwice(order: Order)
  {
    var form := new EditOrderForm(order, []);
    form.HandleAddProduct("p1", 1);
    form.HandleAddProduct("p1", 2);
    assert form.add == [CartLine("p1", 1), CartLine("p1", 2)];
    var calls := form.HandleSubmit();
    assert calls[0].data.cartUpdate.add == [CartLine("p1", 1), CartLine("p1", 2)];
    assert calls[0].data.statusUpdate == StatusUpdate(0, order.isPaid);
  }

  /** The Add button with the placeholder selected leaves the draft empty; after a
      product is chosen it adds the current quantity and leaves it in place. */
  method AddButtonGuard(order: Order)
  {
    var form := new EditOrderForm(order, [Product("p1", "Tea")]);
    form.OnAddClick();
    assert form.add == [];
    form.OnSelectProduct("p1");
    form.OnQuantityChange(3);
    form.OnAddClick();
    assert form.add == [CartLine("p1", 3)] && form.selectedProduct == "" && form.quantity == 3;
  }

  /** Typing "12" into a remove box fires two changes, 1 then 12: both are kept,
      even though the line holds only 5 units. */
  method RemoveBoxKeystrokes(order: Order)
    requires CartLine("p1", 5) in order.cartLines
  {
    var form := new EditOrderForm(order, []);
    form.OnRemoveQuantityChange(CartLine("p1", 5), 1);
    form.OnRemoveQuantityChange(CartLine("p1", 5), 12);
    form.OnRemoveQuantityChange(CartLine("p1", 5), 0);
    assert form.remove == [CartLine("p1", 1), CartLine("p1", 12)];
  }
}
