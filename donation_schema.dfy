/**
 * The Mongoose `donationSchema`: the object handed to `new Donation({...})`
 * (a `Draft`), the defaults the schema fills in, the validation `save()` runs,
 * and the persisted record that results.
 */
module DonationSchema {
  import opened Common

  const ClothesTag := "clothes"
  const FundTag := "fund"
  /** `enum` of `donationType`. */
  const DonationTypes: seq<string> := [ClothesTag, FundTag]
  /** `enum` of `status`. */
  const Statuses: seq<string> := ["pending", "confirmed", "completed", "failed"]
  /** `default` of `status`. */
  const DefaultStatus := "pending"

  datatype Kind = Clothes | Fund
  datatype Status = Pending | Confirmed | Completed | Failed

  function KindTag(k: Kind): string {
    match k
    case Clothes => ClothesTag
    case Fund => FundTag
  }

  function StatusTag(s: Status): string {
    match s
    case Pending => "pending"
    case Confirmed => "confirmed"
    case Completed => "completed"
    case Failed => "failed"
  }

  /** The enum member a stored tag names; every tag of the enum names one. */
  function KindOf(tag: string): (k: Kind)
    requires tag in DonationTypes
    ensures KindTag(k) == tag
  {
    if tag == ClothesTag then Clothes else Fund
  }

  function StatusOf(tag: string): (s: Status)
    requires tag in Statuses
    ensures StatusTag(s) == tag
  {
    if tag == "pending" then Pending
    else if tag == "confirmed" then Confirmed
    else if tag == "completed" then Completed
    else Failed
  }

  /**
   * A String path with `required`: Mongoose's required validator rejects an
   * absent value and the empty string.
   */
  predicate Present(s: Option<string>) {
    s.Some? && s.value != ""
  }

  /** One element of `items`. `category` is the schema's `type` path. */
  datatype Item = Item(category: Option<string>, quantity: Option<string>, description: Option<string>, photo: Option<MediaRef>)

  /**
   * The fields given to `new Donation({...})`. The schema has no `orderId`
   * path, so there is no field for it: Mongoose's strict mode drops it.
   */
  datatype Draft = Draft(
    user: Option<UserId>,
    donationType: Option<string>,
    items: seq<Item>,
    pickupAddress: Option<string>,
    pickupDate: Option<string>,
    amount: Option<real>,
    paymentId: Option<string>,
    status: Option<string>,
    createdAt: Option<Time>)

  /** A persisted donation document; `id` is its `_id`. */
  datatype Donation = Donation(
    id: nat,
    user: UserId,
    kind: Kind,
    items: seq<Item>,
    pickupAddress: Option<string>,
    pickupDate: Option<string>,
    amount: Option<real>,
    paymentId: Option<string>,
    status: Status,
    createdAt: Time)

  /** Mongoose fills `status` and `createdAt` when they are not given, and nothing else. */
  function WithDefaults(d: Draft, now: Time): (r: Draft)
    ensures r.status.Some? && r.createdAt.Some?
    ensures d.status.Some? ==> r.status == d.status
    ensures d.status.None? ==> r.status == Some(DefaultStatus)
    ensures d.createdAt.None? ==> r.createdAt == Some(now)
    ensures d.createdAt.Some? ==> r.createdAt == d.createdAt
    ensures r.(status := d.status, createdAt := d.createdAt) == d
  {
    d.(status := Some(d.status.GetOr(DefaultStatus)), createdAt := Some(d.createdAt.GetOr(now)))
  }

  /**
   * The item paths `type` and `quantity`, as intended: required when the
   * donation is a clothes donation.
   */
  predicate ItemValid(item: Item, donationType: Option<string>) {
    donationType == Some(ClothesTag) ==> Present(item.category) && Present(item.quantity)
  }

  /**
   * The same paths as Mongoose runs them. The `required` functions are
   * evaluated with `this` bound to the item sub-document, which has no
   * `donationType` path, so the condition reads an absent value.
   */
  predicate ItemValidAsWritten(item: Item) {
    var ownDonationType: Option<string> := None;
    ownDonationType == Some(ClothesTag) ==> Present(item.category) && Present(item.quantity)
  }

  /** Everything the schema checks, with the item paths as intended. */
  predicate Valid(d: Draft) {
    && d.user.Some?
    && Present(d.donationType) && d.donationType.value in DonationTypes
    && (d.status.Some? ==> d.status.value in Statuses)
    && (forall i :: 0 <= i < |d.items| ==> ItemValid(d.items[i], d.donationType))
    && (d.donationType == Some(ClothesTag) ==> Present(d.pickupAddress) && Present(d.pickupDate))
    && (d.donationType == Some(FundTag) ==> d.amount.Some? && Present(d.paymentId))
  }

  /** Everything the schema checks, with the item paths as Mongoose runs them. */
  predicate ValidAsWritten(d: Draft) {
    && d.user.Some?
    && Present(d.donationType) && d.donationType.value in DonationTypes
    && (d.status.Some? ==> d.status.value in Statuses)
    && (forall i :: 0 <= i < |d.items| ==> ItemValidAsWritten(d.items[i]))
    && (d.donationType == Some(ClothesTag) ==> Present(d.pickupAddress) && Present(d.pickupDate))
    && (d.donationType == Some(FundTag) ==> d.amount.Some? && Present(d.paymentId))
  }

  /** The field group a persisted donation of each kind always carries. */
  predicate WellFormed(d: Donation) {
    && (d.kind == Clothes ==>
          Present(d.pickupAddress) && Present(d.pickupDate)
          && forall i :: 0 <= i < |d.items| ==> Present(d.items[i].category) && Present(d.items[i].quantity))
    && (d.kind == Fund ==> d.amount.Some? && Present(d.paymentId))
  }

  /** The field group a persisted donation carries as Mongoose runs the schema: no item paths are required. */
  predicate WellFormedAsWritten(d: Donation) {
    && (d.kind == Clothes ==> Present(d.pickupAddress) && Present(d.pickupDate))
    && (d.kind == Fund ==> d.amount.Some? && Present(d.paymentId))
  }

  /** The stored document for a draft that has its defaults and passed validation. */
  function Stored(e: Draft, id: nat): Donation
    requires ValidAsWritten(e) && e.status.Some? && e.createdAt.Some?
  {
    Donation(id, e.user.value, KindOf(e.donationType.value), e.items, e.pickupAddress, e.pickupDate,
             e.amount, e.paymentId, StatusOf(e.status.value), e.createdAt.value)
  }

  /**
   * `donation.save()` with the schema's rules as declared: apply the defaults,
   * validate, and produce the stored document with `_id` `id`; `None` is the
   * validation error `save()` throws.
   */
  function Persist(d: Draft, id: nat, now: Time): (r: Option<Donation>)
    ensures r.Some? <==> Valid(WithDefaults(d, now))
    ensures d.user.None? ==> r.None?
    ensures !Present(d.donationType) || d.donationType.value !in DonationTypes ==> r.None?
    ensures d.status.Some? && d.status.value !in Statuses ==> r.None?
    ensures d.donationType == Some(ClothesTag) && !(Present(d.pickupAddress) && Present(d.pickupDate)) ==> r.None?
    ensures d.donationType == Some(FundTag) && !(d.amount.Some? && Present(d.paymentId)) ==> r.None?
    ensures r.Some? ==> WellFormed(r.value)
    ensures r.Some? ==>
      && r.value.id == id
      && Some(r.value.user) == d.user
      && Some(KindTag(r.value.kind)) == d.donationType
      && r.value.items == d.items
      && r.value.pickupAddress == d.pickupAddress && r.value.pickupDate == d.pickupDate
      && r.value.amount == d.amount && r.value.paymentId == d.paymentId
      && StatusTag(r.value.status) == d.status.GetOr(DefaultStatus)
      && r.value.createdAt == d.createdAt.GetOr(now)
  {
    var e := WithDefaults(d, now);
    if Valid(e) then Some(Stored(e, id)) else None
  }

  /**
   * `donation.save()` as Mongoose runs it: the same, except that the item
   * paths `type` and `quantity` are never required.
   */
  function PersistAsWritten(d: Draft, id: nat, now: Time): (r: Option<Donation>)
    ensures r.Some? <==> ValidAsWritten(WithDefaults(d, now))
    ensures d.user.None? ==> r.None?
    ensures !Present(d.donationType) || d.donationType.value !in DonationTypes ==> r.None?
    ensures d.status.Some? && d.status.value !in Statuses ==> r.None?
    ensures d.donationType == Some(ClothesTag) && !(Present(d.pickupAddress) && Present(d.pickupDate)) ==> r.None?
    ensures d.donationType == Some(FundTag) && !(d.amount.Some? && Present(d.paymentId)) ==> r.None?
    ensures r.Some? ==> WellFormedAsWritten(r.value)
    ensures r.Some? ==>
      && r.value.id == id
      && Some(r.value.user) == d.user
      && Some(KindTag(r.value.kind)) == d.donationType
      && r.value.items == d.items
      && r.value.pickupAddress == d.pickupAddress && r.value.pickupDate == d.pickupDate
      && r.value.amount == d.amount && r.value.paymentId == d.paymentId
      && StatusTag(r.value.status) == d.status.GetOr(DefaultStatus)
      && r.value.createdAt == d.createdAt.GetOr(now)
  {
    var e := WithDefaults(d, now);
    if ValidAsWritten(e) then Some(Stored(e, id)) else None
  }

  /**
   * The two saves store the same document whenever the declared rules accept
   * the draft, and agree on every draft that is not a clothes donation.
   */
  lemma PersistAgreesWithAsWritten(d: Draft, id: nat, now: Time)
    ensures Persist(d, id, now).Some? ==> PersistAsWritten(d, id, now) == Persist(d, id, now)
    ensures d.donationType != Some(ClothesTag) ==> PersistAsWritten(d, id, now) == Persist(d, id, now)
  {
    AsWrittenDiffersOnlyOnClothesItems(WithDefaults(d, now));
  }

  /**
   * As Mongoose runs the item paths, a clothes donation whose item lacks a
   * type and a quantity passes validation, although the schema declares them
   * required for clothes donations.
   */
  lemma AsWrittenAcceptsItemWithoutType()
    ensures var item := Item(None, None, None, None);
            var d := Draft(Some("u1"), Some(ClothesTag), [item], Some("12 Main St"), Some("2024-05-01"),
                           None, None, Some(DefaultStatus), Some(0));
            ValidAsWritten(d) && !Valid(d)
  {
    var item := Item(None, None, None, None);
    var d := Draft(Some("u1"), Some(ClothesTag), [item], Some("12 Main St"), Some("2024-05-01"),
                   None, None, Some(DefaultStatus), Some(0));
    assert d.donationType.value == DonationTypes[0];
    assert d.status.value == Statuses[0];
    assert ItemValidAsWritten(d.items[0]);
    assert !ItemValid(d.items[0], d.donationType);
  }

  /** The two readings of the schema differ only on the item paths of clothes donations. */
  lemma AsWrittenDiffersOnlyOnClothesItems(d: Draft)
    ensures Valid(d) ==> ValidAsWritten(d)
    ensures d.donationType != Some(ClothesTag) ==> (Valid(d) <==> ValidAsWritten(d))
  {
  }
}
