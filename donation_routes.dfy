/**
 * The donation routes: `POST /clothes`, `POST /fund/create-order`,
 * `POST /fund/verify` and `GET /my-donations`. The payment gateway is a class
 * that records the calls made to it; the donation collection is a sequence of
 * documents held by `DonationService`.
 */
module DonationRoutes {
  import opened Common
  import opened DonationSchema

  /** `upload.array('photos', 5)`: multer refuses a request with more files. */
  const MaxPhotos := 5

  const InvalidItemsFormat := "Invalid items format"
  const ClothesError := "Error creating clothes donation"
  const InvalidAmount := "Invalid amount. Please provide a valid number greater than 0."
  const GatewayAuthFailed := "Razorpay authentication failed. Please check API credentials."
  const OrderError := "Error creating fund donation order"
  const MissingPaymentInfo := "Missing required payment information"
  const InvalidSignature := "Invalid payment signature"
  const NotCaptured := "Payment not captured"
  const VerifyError := "Error verifying fund donation"
  const Currency := "INR"
  const Captured := "captured"

  // ---------------------------------------------------------------------------
  // POST /clothes

  /** A file multer has stored: its storage id (`filename`) and its URL (`path`). */
  datatype StoredFile = StoredFile(filename: Option<string>, path: Option<string>)

  /**
   * What `JSON.parse` makes of the `items` field: an array of item objects,
   * some other JSON value (on which `.map` throws), or a syntax error.
   */
  datatype ItemsField = ItemsJson(items: seq<WireItem>) | OtherJson | NotJson

  /** `{...item, photo}`: the item's fields with the given photo. */
  function WithPhoto(w: WireItem, photo: Option<MediaRef>): Item {
    Item(w.category, w.quantity, w.description, photo)
  }

  /** The reference the route builds from a stored file. */
  function RefOf(f: StoredFile): MediaRef {
    MediaRef(f.filename, f.path)
  }

  /**
   * `parsedItems.map((item, index) => ...)`: item `index` gets the file at
   * position `index`, when there is one.
   */
  function AttachPhotos(items: seq<WireItem>, files: seq<StoredFile>): (r: seq<Item>)
    ensures |r| == |items|
    ensures forall i :: 0 <= i < |items| ==>
      r[i].category == items[i].category && r[i].quantity == items[i].quantity
      && r[i].description == items[i].description
    ensures forall i :: 0 <= i < |items| ==>
      r[i].photo == if i < |files| then Some(RefOf(files[i])) else None
    decreases |items|
  {
    if items == [] then []
    else
      [WithPhoto(items[0], if files != [] then Some(RefOf(files[0])) else None)]
      + AttachPhotos(items[1..], if files != [] then files[1..] else [])
  }

  /** The object given to `new Donation({...})` by the clothes route. */
  function ClothesDraft(user: UserId, items: seq<Item>, pickupAddress: Option<string>, pickupDate: Option<string>): Draft {
    Draft(Some(user), Some(ClothesTag), items, pickupAddress, pickupDate, None, None, None, None)
  }

  // ---------------------------------------------------------------------------
  // POST /fund/create-order

  /** The request's `amount`, as far as `!amount` and `isNaN(amount)` can tell. */
  datatype AmountInput = Missing | NotANumber | Number(value: real)

  /** `!amount || isNaN(amount) || amount < 1`, in that order; `Some` gives the accepted amount. */
  function ValidateAmount(a: AmountInput): (r: Option<real>)
    ensures r.Some? <==> a.Number? && a.value >= 1.0
    ensures r.Some? ==> r.value == a.value
  {
    if a.Missing? || (a.Number? && a.value == 0.0) then None
    else if a.NotANumber? then None
    else if a.value < 1.0 then None
    else Some(a.value)
  }

  /** `Math.round(x * 100)`: JavaScript rounds halves up, i.e. floor(x * 100 + 1/2). */
  function ToPaise(rupees: real): (p: int)
    ensures rupees * 100.0 - 0.5 < p as real <= rupees * 100.0 + 0.5
    ensures rupees >= 1.0 ==> p >= 100
  {
    (rupees * 100.0 + 0.5).Floor
  }

  function DigitChar(d: nat): char
    requires d < 10
  {
    (48 + d) as char
  }

  /** `String(n)` for a natural number: its decimal digits. */
  function DecimalString(n: nat): string
    decreases n
  {
    if n < 10 then [DigitChar(n)] else DecimalString(n / 10) + [DigitChar(n % 10)]
  }

  lemma DecimalStringNonEmpty(n: nat)
    ensures |DecimalString(n)| >= 1
  {
  }

  /** Distinct numbers have distinct decimal strings. */
  lemma {:induction false} DecimalStringInjective(a: nat, b: nat)
    requires DecimalString(a) == DecimalString(b)
    ensures a == b
    decreases a
  {
    DecimalStringNonEmpty(a / 10);
    DecimalStringNonEmpty(b / 10);
    var s := DecimalString(a);
    if a >= 10 && b >= 10 {
      assert DigitChar(a % 10) == s[|s| - 1] == DigitChar(b % 10);
      assert DecimalString(a / 10) == s[..|s| - 1] == DecimalString(b / 10);
      DecimalStringInjective(a / 10, b / 10);
    }
  }

  /** The options handed to `razorpay.orders.create`; `notesUserId` is `notes.userId`. */
  datatype OrderOptions = OrderOptions(amount: int, currency: string, receipt: string, notesUserId: UserId)

  /** The order options for an accepted amount, made at time `now`. */
  function OrderOptionsFor(user: UserId, rupees: real, now: nat): (o: OrderOptions)
    requires rupees >= 1.0
    ensures o.amount >= 100
    ensures rupees * 100.0 - 0.5 < o.amount as real <= rupees * 100.0 + 0.5
    ensures o.currency == Currency && o.notesUserId == user
    ensures o.receipt == "receipt_" + DecimalString(now)
  {
    OrderOptions(ToPaise(rupees), Currency, "receipt_" + DecimalString(now), user)
  }

  /**
   * Orders made at different times get different receipts; two orders made in
   * the same millisecond share one.
   */
  lemma ReceiptsDistinguishTimes(user1: UserId, rupees1: real, now1: nat, user2: UserId, rupees2: real, now2: nat)
    requires rupees1 >= 1.0 && rupees2 >= 1.0
    ensures OrderOptionsFor(user1, rupees1, now1).receipt == OrderOptionsFor(user2, rupees2, now2).receipt
            <==> now1 == now2
  {
    var r1 := OrderOptionsFor(user1, rupees1, now1).receipt;
    var r2 := OrderOptionsFor(user2, rupees2, now2).receipt;
    if r1 == r2 {
      assert DecimalString(now1) == r1[8..] == r2[8..] == DecimalString(now2);
      DecimalStringInjective(now1, now2);
    }
  }

  /** What the gateway returns for an order: its id, amount (minor units) and currency. */
  datatype Order = Order(id: string, amount: int, currency: string)

  /** A failure raised by the gateway SDK. */
  datatype GatewayError = GatewayError(statusCode: int, message: string)

  /**
   * The payment gateway. What it answers is fixed by two functions; the two
   * logs record every call made to it.
   */
  class Gateway {
    /** The order the gateway creates for the options it is sent, or the failure it raises. */
    const createOutcome: OrderOptions -> Result<Order, GatewayError>
    /** The status the gateway reports for a payment id, or the failure it raises. */
    const paymentStatus: string -> Result<string, GatewayError>
    var ordersCreated: seq<OrderOptions>
    var paymentsFetched: seq<string>

    constructor (createOutcome: OrderOptions -> Result<Order, GatewayError>, paymentStatus: string -> Result<string, GatewayError>)
      ensures this.createOutcome == createOutcome && this.paymentStatus == paymentStatus
      ensures ordersCreated == [] && paymentsFetched == []
    {
      this.createOutcome := createOutcome;
      this.paymentStatus := paymentStatus;
      ordersCreated := [];
      paymentsFetched := [];
    }

    /** `razorpay.orders.create(options)`. */
    method CreateOrder(options: OrderOptions) returns (r: Result<Order, GatewayError>)
      modifies this
      ensures ordersCreated == old(ordersCreated) + [options]
      ensures paymentsFetched == old(paymentsFetched)
      ensures r == createOutcome(options)
    {
      ordersCreated := ordersCreated + [options];
      r := createOutcome(options);
    }

    /** `razorpay.payments.fetch(paymentId)`, reduced to the payment's status. */
    method FetchPayment(paymentId: string) returns (r: Result<string, GatewayError>)
      modifies this
      ensures paymentsFetched == old(paymentsFetched) + [paymentId]
      ensures ordersCreated == old(ordersCreated)
      ensures r == paymentStatus(paymentId)
    {
      paymentsFetched := paymentsFetched + [paymentId];
      r := paymentStatus(paymentId);
    }
  }

  // ---------------------------------------------------------------------------
  // POST /fund/verify

  /**
   * The body of a verification request; `amount` is in minor units. A JSON body
   * has no `NaN`, so `NotANumber` is a non-empty string that is not numeric,
   * such as "abc": it is truthy.
   */
  datatype VerifyRequest = VerifyRequest(amount: AmountInput, paymentId: Option<string>, orderId: Option<string>, signature: Option<string>)

  /** `!amount || !paymentId || !orderId || !signature` is false: 0 is falsy too, a non-numeric string is not. */
  predicate AllPresent(req: VerifyRequest) {
    && (req.amount.NotANumber? || (req.amount.Number? && req.amount.value != 0.0))
    && Truthy(req.paymentId) && Truthy(req.orderId) && Truthy(req.signature)
  }

  /** The string the gateway signs: `orderId + "|" + paymentId`. */
  function SignedMessage(orderId: string, paymentId: string): string {
    orderId + "|" + paymentId
  }

  lemma SignedMessageSplit(orderId: string, paymentId: string)
    ensures var m := SignedMessage(orderId, paymentId);
            |m| == |orderId| + 1 + |paymentId| && m[..|orderId|] == orderId
            && m[|orderId|] == '|' && m[|orderId| + 1..] == paymentId
  {
  }

  /**
   * As long as order ids contain no `|` (the gateway's ids are alphanumeric
   * with `_`), the signed string determines both ids.
   */
  lemma SignedMessageInjective(o1: string, p1: string, o2: string, p2: string)
    requires '|' !in o1 && '|' !in o2
    requires SignedMessage(o1, p1) == SignedMessage(o2, p2)
    ensures o1 == o2 && p1 == p2
  {
    SignedMessageSplit(o1, p1);
    SignedMessageSplit(o2, p2);
  }

  /** The record the verify route creates; `orderId` has no path in the schema. */
  function FundDraft(user: UserId, minorUnits: real, paymentId: string): Draft {
    Draft(Some(user), Some(FundTag), [], None, None, Some(minorUnits / 100.0), Some(paymentId), Some("completed"), None)
  }

  // ---------------------------------------------------------------------------
  // GET /my-donations

  /** `Donation.find({ user })`. */
  function Owned(s: seq<Donation>, user: UserId): (r: seq<Donation>)
    ensures forall d :: multiset(r)[d] == if d.user == user then multiset(s)[d] else 0
    decreases |s|
  {
    if s == [] then []
    else
      assert s == [s[0]] + s[1..];
      (if s[0].user == user then [s[0]] else []) + Owned(s[1..], user)
  }

  /** Ordered by `createdAt`, newest first. */
  predicate NewestFirst(s: seq<Donation>) {
    forall i, j :: 0 <= i < j < |s| ==> s[i].createdAt >= s[j].createdAt
  }

  /** Inserts `d` before the first donation that is not newer than it. */
  function InsertNewest(d: Donation, s: seq<Donation>): seq<Donation>
    decreases |s|
  {
    if s == [] || d.createdAt >= s[0].createdAt then [d] + s
    else [s[0]] + InsertNewest(d, s[1..])
  }

  /** Inserting adds `d` and keeps every other donation. */
  lemma {:induction false} InsertNewestKeeps(d: Donation, s: seq<Donation>)
    ensures multiset(InsertNewest(d, s)) == multiset(s) + multiset{d}
    decreases |s|
  {
    if s != [] && d.createdAt < s[0].createdAt {
      assert s == [s[0]] + s[1..];
      InsertNewestKeeps(d, s[1..]);
    }
  }

  /** Inserting into a newest-first list keeps it newest first; the head is `d` or the old head. */
  lemma {:induction false} InsertNewestOrdered(d: Donation, s: seq<Donation>)
    requires NewestFirst(s)
    ensures NewestFirst(InsertNewest(d, s))
    ensures InsertNewest(d, s)[0] == d || (s != [] && InsertNewest(d, s)[0] == s[0])
    decreases |s|
  {
    if s != [] && d.createdAt < s[0].createdAt {
      var rest := InsertNewest(d, s[1..]);
      assert NewestFirst(s[1..]);
      InsertNewestOrdered(d, s[1..]);
      assert rest[0].createdAt <= s[0].createdAt;
      assert forall j :: 0 <= j < |rest| ==> rest[j].createdAt <= s[0].createdAt;
      assert InsertNewest(d, s) == [s[0]] + rest;
    }
  }

  /** `.sort({ createdAt: -1 })`. */
  function SortNewestFirst(s: seq<Donation>): (r: seq<Donation>)
    ensures NewestFirst(r)
    ensures multiset(r) == multiset(s)
    decreases |s|
  {
    if s == [] then []
    else
      assert s == [s[0]] + s[1..];
      var sorted := SortNewestFirst(s[1..]);
      InsertNewestOrdered(s[0], sorted);
      InsertNewestKeeps(s[0], sorted);
      InsertNewest(s[0], sorted)
  }

  // ---------------------------------------------------------------------------
  // The routes

  class DonationService {
    /** The donation collection, in insertion order. */
    var donations: seq<Donation>
    /** `RAZORPAY_KEY_SECRET`. */
    const keySecret: string
    /** HMAC-SHA256 of a message under a key, as a hex digest. */
    const hmacHex: (string, string) -> string
    const gateway: Gateway

    /** Every stored document passed the schema as Mongoose runs it, and its `_id` is its position. */
    ghost predicate Valid()
      reads this
    {
      forall i :: 0 <= i < |donations| ==> donations[i].id == i && WellFormedAsWritten(donations[i])
    }

    constructor (keySecret: string, hmacHex: (string, string) -> string, gateway: Gateway)
      ensures Valid() && donations == []
      ensures this.keySecret == keySecret && this.hmacHex == hmacHex && this.gateway == gateway
    {
      donations := [];
      this.keySecret := keySecret;
      this.hmacHex := hmacHex;
      this.gateway := gateway;
    }

    /** The signature sent with a complete request is the expected digest. */
    predicate SignatureMatches(req: VerifyRequest)
      requires AllPresent(req)
    {
      hmacHex(keySecret, SignedMessage(req.orderId.value, req.paymentId.value)) == req.signature.value
    }

    /**
     * The signature covers the two ids and not the amount: a request that
     * passes the presence and signature checks still passes them with any
     * other non-zero amount, and the record then takes that amount.
     */
    lemma AmountIsNotSigned(user: UserId, req: VerifyRequest, other: real)
      requires AllPresent(req) && other != 0.0
      ensures AllPresent(req.(amount := Number(other)))
      ensures SignatureMatches(req.(amount := Number(other))) == SignatureMatches(req)
      ensures FundDraft(user, other, req.paymentId.value).amount == Some(other / 100.0)
    {
    }

    /** `donation.save()`: validates as Mongoose runs the schema, then appends on success. */
    method Save(d: Draft, now: Time) returns (saved: Option<Donation>)
      requires Valid()
      modifies this
      ensures Valid()
      ensures saved == PersistAsWritten(d, |old(donations)|, now)
      ensures donations == old(donations) + (if saved.Some? then [saved.value] else [])
    {
      saved := PersistAsWritten(d, |donations|, now);
      if saved.Some? {
        donations := donations + [saved.value];
      }
    }

    /** `POST /clothes`. */
    method SubmitClothes(user: UserId, items: ItemsField, pickupAddress: Option<string>, pickupDate: Option<string>,
                         files: seq<StoredFile>, now: Time) returns (resp: Response<Donation>)
      requires Valid()
      requires |files| <= MaxPhotos
      modifies this
      ensures Valid()
      ensures items.NotJson? ==> resp == Failure(400, InvalidItemsFormat)
      ensures items.OtherJson? ==> resp == Failure(500, ClothesError)
      ensures resp.Success? <==> items.ItemsJson? && Present(pickupAddress) && Present(pickupDate)
      ensures resp.Success? ==>
        resp == Success(201, Donation(|old(donations)|, user, Clothes, AttachPhotos(items.items, files),
                                      pickupAddress, pickupDate, None, None, Pending, now))
      ensures resp.Failure? && items.ItemsJson? ==> resp == Failure(500, ClothesError)
      ensures donations == old(donations) + (if resp.Success? then [resp.value] else [])
    {
      if items.NotJson? {
        return Failure(400, InvalidItemsFormat);
      }
      if items.OtherJson? {
        return Failure(500, ClothesError);
      }
      var withPhotos := AttachPhotos(items.items, files);
      var draft := ClothesDraft(user, withPhotos, pickupAddress, pickupDate);
      var saved := Save(draft, now);
      assert ValidAsWritten(WithDefaults(draft, now)) <==> Present(pickupAddress) && Present(pickupDate);
      if saved.Some? {
        resp := Success(201, saved.value);
      } else {
        resp := Failure(500, ClothesError);
      }
    }

    /** `POST /fund/create-order`. No donation is stored at this stage. */
    method CreateFundOrder(user: UserId, amount: AmountInput, now: nat) returns (resp: Response<Order>)
      modifies gateway
      ensures gateway.paymentsFetched == old(gateway.paymentsFetched)
      ensures ValidateAmount(amount).None? ==>
        resp == Failure(400, InvalidAmount) && gateway.ordersCreated == old(gateway.ordersCreated)
      ensures ValidateAmount(amount).Some? ==>
        var o := OrderOptionsFor(user, amount.value, now);
        && gateway.ordersCreated == old(gateway.ordersCreated) + [o]
        && resp == match gateway.createOutcome(o)
                   case Ok(order) => Success(200, order)
                   case Err(e) => Failure(if e.statusCode == 401 then 401 else 500,
                                          if e.statusCode == 401 then GatewayAuthFailed else OrderError)
    {
      var accepted := ValidateAmount(amount);
      if accepted.None? {
        return Failure(400, InvalidAmount);
      }
      var options := OrderOptionsFor(user, accepted.value, now);
      var order := gateway.CreateOrder(options);
      match order
      case Ok(o) => resp := Success(200, o);
      case Err(e) =>
        if e.statusCode == 401 {
          resp := Failure(401, GatewayAuthFailed);
        } else {
          resp := Failure(500, OrderError);
        }
    }

    /**
     * `POST /fund/verify`: presence, then the signature, then the gateway's
     * status, then one save. Every early return leaves the collection as it was.
     * A non-numeric amount passes the first three checks; `amount / 100` is then
     * `NaN`, which the schema's Number cast rejects, so the save throws.
     */
    method VerifyFund(user: UserId, req: VerifyRequest, now: Time) returns (resp: Response<Donation>)
      requires Valid()
      modifies this, gateway
      ensures Valid()
      ensures gateway.ordersCreated == old(gateway.ordersCreated)
      ensures !AllPresent(req) ==>
        resp == Failure(400, MissingPaymentInfo) && gateway.paymentsFetched == old(gateway.paymentsFetched)
      ensures AllPresent(req) && !SignatureMatches(req) ==>
        resp == Failure(400, InvalidSignature) && gateway.paymentsFetched == old(gateway.paymentsFetched)
      ensures AllPresent(req) && SignatureMatches(req) ==>
        gateway.paymentsFetched == old(gateway.paymentsFetched) + [req.paymentId.value]
      ensures AllPresent(req) && SignatureMatches(req) && gateway.paymentStatus(req.paymentId.value).Err? ==>
        resp == Failure(500, VerifyError)
      ensures AllPresent(req) && SignatureMatches(req) && gateway.paymentStatus(req.paymentId.value).Ok?
              && gateway.paymentStatus(req.paymentId.value).value != Captured ==>
        resp == Failure(400, NotCaptured)
      ensures AllPresent(req) && SignatureMatches(req) && gateway.paymentStatus(req.paymentId.value) == Ok(Captured)
              && req.amount.NotANumber? ==>
        resp == Failure(500, VerifyError)
      ensures resp.Success? <==>
        && AllPresent(req) && SignatureMatches(req) && gateway.paymentStatus(req.paymentId.value) == Ok(Captured)
        && req.amount.Number?
      ensures resp.Success? ==>
        resp == Success(200, Donation(|old(donations)|, user, Fund, [], None, None,
                                      Some(req.amount.value / 100.0), req.paymentId, Completed, now))
      ensures donations == old(donations) + (if resp.Success? then [resp.value] else [])
    {
      if !(req.amount.NotANumber? || (req.amount.Number? && req.amount.value != 0.0)) || !Truthy(req.paymentId)
         || !Truthy(req.orderId) || !Truthy(req.signature) {
        return Failure(400, MissingPaymentInfo);
      }
      var body := SignedMessage(req.orderId.value, req.paymentId.value);
      var expected := hmacHex(keySecret, body);
      if expected != req.signature.value {
        return Failure(400, InvalidSignature);
      }
      var payment := gateway.FetchPayment(req.paymentId.value);
      if payment.Err? {
        return Failure(500, VerifyError);
      }
      if payment.value != Captured {
        return Failure(400, NotCaptured);
      }
      if req.amount.NotANumber? {
        // `amount / 100` is `NaN`: the cast fails and `save()` throws
        return Failure(500, VerifyError);
      }
      var draft := FundDraft(user, req.amount.value, req.paymentId.value);
      assert "completed" == Statuses[2];
      var saved := Save(draft, now);
      resp := Success(200, saved.value);
    }

    /** `GET /my-donations`: the caller's donations, newest first; none is a success too. */
    function MyDonations(user: UserId): (resp: Response<seq<Donation>>)
      reads this
      ensures resp.Success? && resp.code == 200
      ensures NewestFirst(resp.value)
      ensures multiset(resp.value) == multiset(Owned(donations, user))
      ensures forall d :: d in resp.value <==> d in donations && d.user == user
    {
      var r := SortNewestFirst(Owned(donations, user));
      assert forall d :: d in r <==> multiset(r)[d] > 0;
      Success(200, r)
    }
  }
}
