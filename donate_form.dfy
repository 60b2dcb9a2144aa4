/**
 * The donation page's client logic: the editable list of clothes items, the
 * multipart payload of a clothes submission, and the amount check and
 * verification payload of a fund donation.
 */
module DonateForm {
  import opened Common
  import DonationRoutes

  /** One item block of the form; `category` is the item's `type`. */
  datatype FormItem = FormItem(category: string, quantity: string, description: string, photo: Option<BrowserFile>)

  /** `{ type: '', quantity: '', description: '', photo: null }`. */
  const BlankItem := FormItem("", "", "", None)

  /** The form starts with one blank item. */
  const InitialItems: seq<FormItem> := [BlankItem]

  /** The text fields `handleItemChange` is called with. */
  datatype ItemField = CategoryField | QuantityField | DescriptionField

  function FieldOf(item: FormItem, f: ItemField): string {
    match f
    case CategoryField => item.category
    case QuantityField => item.quantity
    case DescriptionField => item.description
  }

  function SetField(item: FormItem, f: ItemField, v: string): FormItem {
    match f
    case CategoryField => item.(category := v)
    case QuantityField => item.(quantity := v)
    case DescriptionField => item.(description := v)
  }

  /** `handleItemChange(index, field, value)`: only that field of that item changes. */
  function ChangeItem(items: seq<FormItem>, index: nat, field: ItemField, value: string): (r: seq<FormItem>)
    requires index < |items|
    ensures |r| == |items|
    ensures FieldOf(r[index], field) == value
    ensures forall g :: g != field ==> FieldOf(r[index], g) == FieldOf(items[index], g)
    ensures r[index].photo == items[index].photo
    ensures forall j :: 0 <= j < |items| && j != index ==> r[j] == items[j]
  {
    items[index := SetField(items[index], field, value)]
  }

  /** `handlePhotoChange(index, e)`: only that item's photo changes. */
  function ChangePhoto(items: seq<FormItem>, index: nat, file: Option<BrowserFile>): (r: seq<FormItem>)
    requires index < |items|
    ensures |r| == |items|
    ensures r[index].photo == file
    ensures forall g :: FieldOf(r[index], g) == FieldOf(items[index], g)
    ensures forall j :: 0 <= j < |items| && j != index ==> r[j] == items[j]
  {
    items[index := items[index].(photo := file)]
  }

  /** `addItem()`: one blank item more at the end, the others as they were. */
  function AddItem(items: seq<FormItem>): (r: seq<FormItem>)
    ensures |r| == |items| + 1
    ensures r[..|items|] == items
    ensures r[|items|] == BlankItem
  {
    items + [BlankItem]
  }

  /**
   * `removeItem(index)`: `items.filter((_, i) => i !== index)`. Only position
   * `index` goes and the rest keep their order; an index outside the list
   * removes nothing.
   */
  function RemoveItem(items: seq<FormItem>, index: int): (r: seq<FormItem>)
    ensures 0 <= index < |items| ==> |r| == |items| - 1
    ensures 0 <= index < |items| ==> forall j :: 0 <= j < index ==> r[j] == items[j]
    ensures 0 <= index < |items| ==> forall j :: index <= j < |r| ==> r[j] == items[j + 1]
    ensures !(0 <= index < |items|) ==> r == items
    decreases |items|
  {
    if items == [] then []
    else (if index == 0 then [] else [items[0]]) + RemoveItem(items[1..], index - 1)
  }

  /** What a user can do to the item list through the rendered form. */
  datatype ItemAction = Edit(index: nat, field: ItemField, value: string) | PickPhoto(index: nat, file: Option<BrowserFile>)
                      | Add | Remove(index: nat)

  /**
   * The form renders one block per item, and a Remove button only on the
   * blocks after the first.
   */
  predicate Offered(items: seq<FormItem>, a: ItemAction) {
    match a
    case Edit(i, _, _) => i < |items|
    case PickPhoto(i, _) => i < |items|
    case Add => true
    case Remove(i) => 0 < i < |items|
  }

  function Apply(items: seq<FormItem>, a: ItemAction): seq<FormItem>
    requires Offered(items, a)
  {
    match a
    case Edit(i, f, v) => ChangeItem(items, i, f, v)
    case PickPhoto(i, file) => ChangePhoto(items, i, file)
    case Add => AddItem(items)
    case Remove(i) => RemoveItem(items, i)
  }

  /** Every action of the sequence is offered by the form it is applied to. */
  predicate Playable(items: seq<FormItem>, actions: seq<ItemAction>)
    decreases |actions|
  {
    actions == [] || (Offered(items, actions[0]) && Playable(Apply(items, actions[0]), actions[1..]))
  }

  function Run(items: seq<FormItem>, actions: seq<ItemAction>): seq<FormItem>
    requires Playable(items, actions)
    decreases |actions|
  {
    if actions == [] then items else Run(Apply(items, actions[0]), actions[1..])
  }

  /** Through the form, the item list never becomes empty. */
  lemma {:induction false} FormNeverEmpty(items: seq<FormItem>, actions: seq<ItemAction>)
    requires |items| >= 1
    requires Playable(items, actions)
    ensures |Run(items, actions)| >= 1
    decreases |actions|
  {
    if actions != [] {
      var next := Apply(items, actions[0]);
      assert |next| >= 1;
      FormNeverEmpty(next, actions[1..]);
    }
  }

  // ---------------------------------------------------------------------------
  // handleSubmitClothes

  /** The fields of the clothes form. */
  datatype ClothesForm = ClothesForm(items: seq<FormItem>, pickupAddress: string, pickupDate: string)

  /** One part of the multipart body; `ItemsPart` is a JSON-encoded item array. */
  datatype Part = TextPart(name: string, text: string) | ItemsPart(name: string, items: seq<WireItem>) | FilePart(name: string, file: BrowserFile)

  /** `({ photo, ...item }) => item`. */
  function Strip(item: FormItem): WireItem {
    WireItem(Some(item.category), Some(item.quantity), Some(item.description))
  }

  function StripPhotos(items: seq<FormItem>): seq<WireItem> {
    seq(|items|, i requires 0 <= i < |items| => Strip(items[i]))
  }

  /** The positions of the items that carry a photo, in increasing order. */
  function PhotoIndices(items: seq<FormItem>): (r: seq<nat>)
    ensures forall k :: 0 <= k < |r| ==> r[k] < |items| && items[r[k]].photo.Some?
    ensures forall k, l :: 0 <= k < l < |r| ==> r[k] < r[l]
    ensures forall j :: 0 <= j < |items| && items[j].photo.Some? ==> j in r
    decreases |items|
  {
    if items == [] then []
    else
      var n := |items| - 1;
      PhotoIndices(items[..n]) + (if items[n].photo.Some? then [n] else [])
  }

  /** The photos the form sends: those of the photo-bearing items, in item order. */
  function Photos(items: seq<FormItem>): seq<BrowserFile>
    decreases |items|
  {
    if items == [] then []
    else
      var n := |items| - 1;
      Photos(items[..n]) + (if items[n].photo.Some? then [items[n].photo.value] else [])
  }

  /** The k-th photo sent is the photo of the k-th photo-bearing item. */
  lemma {:induction false} PhotosAtIndices(items: seq<FormItem>)
    ensures |Photos(items)| == |PhotoIndices(items)|
    ensures forall k :: 0 <= k < |Photos(items)| ==> items[PhotoIndices(items)[k]].photo == Some(Photos(items)[k])
    decreases |items|
  {
    if items != [] {
      var n := |items| - 1;
      PhotosAtIndices(items[..n]);
    }
  }

  function PhotoParts(files: seq<BrowserFile>): seq<Part> {
    seq(|files|, k requires 0 <= k < |files| => FilePart("photos", files[k]))
  }

  function PayloadHeader(form: ClothesForm): seq<Part> {
    [TextPart("pickupAddress", form.pickupAddress), TextPart("pickupDate", form.pickupDate),
     ItemsPart("items", StripPhotos(form.items))]
  }

  /**
   * The `FormData` of a clothes submission: address, date, every item without
   * its photo, then one `photos` part per photo, in item order.
   */
  method BuildClothesPayload(form: ClothesForm) returns (parts: seq<Part>)
    ensures parts == PayloadHeader(form) + PhotoParts(Photos(form.items))
    ensures |parts| == 3 + |PhotoIndices(form.items)|
    ensures parts[2] == ItemsPart("items", StripPhotos(form.items))
    ensures forall k :: 0 <= k < |PhotoIndices(form.items)| ==>
      Some(parts[3 + k].file) == form.items[PhotoIndices(form.items)[k]].photo
  {
    PhotosAtIndices(form.items);
    parts := [];
    parts := parts + [TextPart("pickupAddress", form.pickupAddress)];
    parts := parts + [TextPart("pickupDate", form.pickupDate)];
    parts := parts + [ItemsPart("items", StripPhotos(form.items))];
    var i := 0;
    while i < |form.items|
      invariant 0 <= i <= |form.items|
      invariant parts == PayloadHeader(form) + PhotoParts(Photos(form.items[..i]))
    {
      assert form.items[..i + 1][..i] == form.items[..i];
      if form.items[i].photo.Some? {
        parts := parts + [FilePart("photos", form.items[i].photo.value)];
      }
      i := i + 1;
    }
    assert form.items[..|form.items|] == form.items;
  }

  // ---------------------------------------------------------------------------
  // handleFundDonation

  /** `parseFloat(amount)`. */
  datatype ParsedAmount = NaN | Num(value: real)

  const AmountError := "Please enter a valid amount greater than 0"

  /** The first step of a fund donation: an error, or a create-order request. */
  datatype FundStep = ShowError(message: string) | RequestOrder(amount: real)

  /** The client check; every request it lets through passes the server's check too. */
  function SubmitFund(parsed: ParsedAmount): (r: FundStep)
    ensures r.RequestOrder? <==> parsed.Num? && parsed.value >= 1.0
    ensures r.ShowError? ==> r.message == AmountError
    ensures r.RequestOrder? ==>
      r.amount == parsed.value
      && DonationRoutes.ValidateAmount(DonationRoutes.Number(r.amount)) == Some(r.amount)
  {
    if parsed.NaN? || parsed.value < 1.0 then ShowError(AmountError)
    else RequestOrder(parsed.value)
  }

  /** What the gateway's checkout hands the page's `handler`. */
  datatype CheckoutResult = CheckoutResult(orderId: string, paymentId: string, signature: string)

  /** The body sent to `/fund/verify`: the checkout's ids and the order's minor-unit amount. */
  function VerifyPayload(checkout: CheckoutResult, orderAmount: int): (req: DonationRoutes.VerifyRequest)
    ensures req.amount == DonationRoutes.Number(orderAmount as real)
    ensures req.orderId == Some(checkout.orderId) && req.paymentId == Some(checkout.paymentId)
    ensures req.signature == Some(checkout.signature)
    ensures orderAmount != 0 && checkout.orderId != "" && checkout.paymentId != "" && checkout.signature != "" ==>
      DonationRoutes.AllPresent(req)
  {
    DonationRoutes.VerifyRequest(DonationRoutes.Number(orderAmount as real), Some(checkout.paymentId), Some(checkout.orderId), Some(checkout.signature))
  }

  /**
   * When the page sends back the amount of the order it requested, the amount
   * the server records for a donation of `rupees` (the order's paise, divided
   * by 100) is within half a paisa of it. The server does not check that the
   * amount is the order's.
   */
  lemma StoredAmountNearRequested(user: UserId, rupees: real, now: nat, checkout: CheckoutResult)
    requires SubmitFund(Num(rupees)).RequestOrder?
    ensures var o := DonationRoutes.OrderOptionsFor(user, rupees, now);
            var req := VerifyPayload(checkout, o.amount);
            rupees - 0.005 < req.amount.value / 100.0 <= rupees + 0.005
  {
  }
}
