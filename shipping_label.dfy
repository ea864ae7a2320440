/**
 * Shipping labels: the mapping from the stored label (the data-sync library's
 * model) to the app's label, the selection of the order items a label names,
 * and the in-place update of a label's tracking link.
 */
module ShippingLabels {
  import opened Options

  // ---------------------------------------------------------------------------
  // String trimming (Kotlin's `String.trim()`)
  // ---------------------------------------------------------------------------

  /** Kotlin's `Char.isWhitespace()`: Java's `isWhitespace` or `isSpaceChar`. */
  predicate IsWhitespace(c: char) {
    || ('\t' <= c <= '\r')
    || ('\U{1C}' <= c <= ' ')
    || c == '\U{A0}'
    || c == '\U{1680}'
    || ('\U{2000}' <= c <= '\U{200A}')
    || c == '\U{2028}'
    || c == '\U{2029}'
    || c == '\U{202F}'
    || c == '\U{205F}'
    || c == '\U{3000}'
  }

  /** Length of the longest all-whitespace prefix of `s`. */
  function LeadingWhitespace(s: string): (n: nat)
    ensures n <= |s|
    ensures forall k :: 0 <= k < n ==> IsWhitespace(s[k])
    ensures n < |s| ==> !IsWhitespace(s[n])
  {
    if s == [] || !IsWhitespace(s[0]) then 0 else 1 + LeadingWhitespace(s[1..])
  }

  /** Length of the longest all-whitespace suffix of `s`. */
  function TrailingWhitespace(s: string): (n: nat)
    ensures n <= |s|
    ensures forall k :: |s| - n <= k < |s| ==> IsWhitespace(s[k])
    ensures n < |s| ==> !IsWhitespace(s[|s| - 1 - n])
  {
    if s == [] || !IsWhitespace(s[|s| - 1]) then 0 else 1 + TrailingWhitespace(s[..|s| - 1])
  }

  /**
   * `s.trim()`: `s` without its leading and trailing whitespace. The result is
   * the slice of `s` that starts after the leading whitespace, everything cut
   * off is whitespace, and the result neither starts nor ends with whitespace.
   */
  function Trim(s: string): (r: string)
    ensures LeadingWhitespace(s) + |r| <= |s|
    ensures r == s[LeadingWhitespace(s)..LeadingWhitespace(s) + |r|]
    ensures forall k :: LeadingWhitespace(s) + |r| <= k < |s| ==> IsWhitespace(s[k])
    ensures r != [] ==> !IsWhitespace(r[0]) && !IsWhitespace(r[|r| - 1])
  {
    var rest := s[LeadingWhitespace(s)..];
    rest[..|rest| - TrailingWhitespace(rest)]
  }

  /** Trimming twice is trimming once. */
  lemma TrimIdempotent(s: string)
    ensures Trim(Trim(s)) == Trim(s)
  {
  }

  /** A string made only of whitespace trims to the empty string. */
  lemma TrimAllWhitespace(s: string)
    requires forall k :: 0 <= k < |s| ==> IsWhitespace(s[k])
    ensures Trim(s) == ""
  {
  }

  // ---------------------------------------------------------------------------
  // Stored model (input of the mappers)
  // ---------------------------------------------------------------------------

  /** A millisecond timestamp, which is what `java.util.Date` wraps. */
  type Date = int

  /** `WCShippingLabelModel.ShippingLabelAddress`: every field is nullable. */
  datatype StoredAddress = StoredAddress(
    company: Option<string>,
    name: Option<string>,
    phone: Option<string>,
    country: Option<string>,
    state: Option<string>,
    address: Option<string>,
    address2: Option<string>,
    city: Option<string>,
    postcode: Option<string>
  )

  /** `WCShippingLabelModel.WCShippingLabelRefundModel`. */
  datatype StoredRefund = StoredRefund(status: Option<string>, requestDate: Option<Date>)

  /**
   * `WCShippingLabelModel`, with the results of its accessors `getProductNames()`,
   * `getOriginAddress()`, `getDestinationAddress()` and `getRefund()` (which parse
   * stored JSON) given as fields.
   */
  datatype StoredLabel = StoredLabel(
    remoteShippingLabelId: int,
    trackingNumber: string,
    carrierId: string,
    serviceName: string,
    status: string,
    dateCreated: Date,
    packageName: string,
    rate: real,
    refundableAmount: real,
    currency: string,
    paperSize: string,
    productNames: seq<string>,
    originAddress: Option<StoredAddress>,
    destinationAddress: Option<StoredAddress>,
    refund: Option<StoredRefund>
  )

  // ---------------------------------------------------------------------------
  // App model (output of the mappers)
  // ---------------------------------------------------------------------------

  /** The app's `Address`, restricted to the eleven fields the mapper sets. */
  datatype Address = Address(
    company: string,
    firstName: string,
    lastName: string,
    phone: string,
    country: string,
    state: string,
    address1: string,
    address2: string,
    city: string,
    postcode: string,
    email: string
  )

  /** `ShippingLabel.Refund`. */
  datatype Refund = Refund(status: string, refundDate: Option<Date>)

  /** The constructor parameters of `ShippingLabel`, all immutable (`val`). */
  datatype LabelFields = LabelFields(
    id: int,
    trackingNumber: string,
    carrierId: string,
    serviceName: string,
    status: string,
    createdDate: Option<Date>,
    packageName: string,
    rate: real,
    refundableAmount: real,
    currency: string,
    paperSize: string,
    productNames: seq<string>,
    originAddress: Option<Address>,
    destinationAddress: Option<Address>,
    refund: Option<Refund>
  )

  // ---------------------------------------------------------------------------
  // Mappers (`toAppModel`)
  // ---------------------------------------------------------------------------

  /**
   * `ShippingLabelAddress.toAppModel()`: each app field takes the value of the
   * stored field that feeds it (`AddressFieldSource`), or "" when that is null
   * or there is none.
   */
  function AddressToAppModel(a: StoredAddress): (r: Address)
    ensures forall f :: AddressFieldValue(r, f) == AddressFieldSource(a, f).GetOr("")
  {
    Address(
      company := a.company.GetOr(""),
      firstName := a.name.GetOr(""),
      lastName := "",
      phone := a.phone.GetOr(""),
      country := a.country.GetOr(""),
      state := a.state.GetOr(""),
      address1 := a.address.GetOr(""),
      address2 := a.address2.GetOr(""),
      city := a.city.GetOr(""),
      postcode := a.postcode.GetOr(""),
      email := ""
    )
  }

  /** The fields of an app `Address`, to state the mapping field by field. */
  datatype AddressField =
    | Company | FirstName | LastName | Phone | Country | State
    | Address1 | Address2 | City | Postcode | Email

  function AddressFieldValue(a: Address, f: AddressField): string {
    match f
    case Company => a.company
    case FirstName => a.firstName
    case LastName => a.lastName
    case Phone => a.phone
    case Country => a.country
    case State => a.state
    case Address1 => a.address1
    case Address2 => a.address2
    case City => a.city
    case Postcode => a.postcode
    case Email => a.email
  }

  /**
   * Which stored field feeds each app field: `firstName` takes `name`,
   * `address1` takes `address`, and `lastName` and `email` have no source.
   */
  function AddressFieldSource(a: StoredAddress, f: AddressField): Option<string> {
    match f
    case Company => a.company
    case FirstName => a.name
    case LastName => None
    case Phone => a.phone
    case Country => a.country
    case State => a.state
    case Address1 => a.address
    case Address2 => a.address2
    case City => a.city
    case Postcode => a.postcode
    case Email => None
  }

  /**
   * Every app address field is its source field's value, or "" when that is
   * null or there is no source field at all.
   */
  lemma AddressFieldsMapped(a: StoredAddress, f: AddressField)
    ensures AddressFieldSource(a, f).Some? ==>
              AddressFieldValue(AddressToAppModel(a), f) == AddressFieldSource(a, f).value
    ensures AddressFieldSource(a, f).None? ==> AddressFieldValue(AddressToAppModel(a), f) == ""
  {
  }

  /** `lastName` and `email` of a mapped address are always empty. */
  lemma AddressNamelessFields(a: StoredAddress)
    ensures AddressToAppModel(a).lastName == "" && AddressToAppModel(a).email == ""
  {
  }

  /** `WCShippingLabelRefundModel.toAppModel()`. */
  function RefundToAppModel(r: StoredRefund): (out: Refund)
    ensures r.status.Some? ==> out.status == r.status.value
    ensures r.status.None? ==> out.status == ""
    ensures out.refundDate.Some? <==> r.requestDate.Some?
    ensures out.refundDate.Some? ==> out.refundDate.value == r.requestDate.value
  {
    Refund(r.status.GetOr(""), r.requestDate)
  }

  function OptionalAddress(a: Option<StoredAddress>): (r: Option<Address>)
    ensures r.Some? <==> a.Some?
    ensures r.Some? ==> r.value == AddressToAppModel(a.value)
  {
    match a
    case Some(v) => Some(AddressToAppModel(v))
    case None => None
  }

  function OptionalRefund(r: Option<StoredRefund>): (out: Option<Refund>)
    ensures out.Some? <==> r.Some?
    ensures out.Some? ==> out.value == RefundToAppModel(r.value)
  {
    match r
    case Some(v) => Some(RefundToAppModel(v))
    case None => None
  }

  /** `getProductNames().map { it.trim() }`. */
  function TrimmedNames(names: seq<string>): (r: seq<string>)
    ensures |r| == |names|
    ensures forall i :: 0 <= i < |names| ==> r[i] == Trim(names[i])
  {
    seq(|names|, i requires 0 <= i < |names| => Trim(names[i]))
  }

  /**
   * `WCShippingLabelModel.toAppModel()`: the creation date is always set, the
   * product names keep their number and carry no surrounding whitespace, and
   * each address and the refund is present exactly when stored.
   */
  function LabelToAppModel(m: StoredLabel): (r: LabelFields)
    ensures r.createdDate == Some(m.dateCreated)
    ensures |r.productNames| == |m.productNames|
    ensures forall i :: 0 <= i < |r.productNames| ==> Trim(r.productNames[i]) == r.productNames[i]
    ensures r.originAddress.Some? <==> m.originAddress.Some?
    ensures r.destinationAddress.Some? <==> m.destinationAddress.Some?
    ensures r.refund.Some? <==> m.refund.Some?
  {
    LabelFields(
      id := m.remoteShippingLabelId,
      trackingNumber := m.trackingNumber,
      carrierId := m.carrierId,
      serviceName := m.serviceName,
      status := m.status,
      createdDate := Some(m.dateCreated),
      packageName := m.packageName,
      rate := m.rate,
      refundableAmount := m.refundableAmount,
      currency := m.currency,
      paperSize := m.paperSize,
      productNames := TrimmedNames(m.productNames),
      originAddress := OptionalAddress(m.originAddress),
      destinationAddress := OptionalAddress(m.destinationAddress),
      refund := OptionalRefund(m.refund)
    )
  }

  /**
   * The mapped label keeps the number and order of the product names, each
   * name is the trimmed stored name, and no mapped name has surrounding
   * whitespace left (trimming it again changes nothing).
   */
  lemma LabelProductNamesTrimmed(m: StoredLabel)
    ensures |LabelToAppModel(m).productNames| == |m.productNames|
    ensures forall i :: 0 <= i < |m.productNames| ==>
              LabelToAppModel(m).productNames[i] == Trim(m.productNames[i])
    ensures forall i :: 0 <= i < |m.productNames| ==>
              Trim(LabelToAppModel(m).productNames[i]) == LabelToAppModel(m).productNames[i]
  {
  }

  /**
   * The scalar fields of the mapped label are copied from the stored label,
   * the creation date is always present, and the addresses and the refund
   * are the stored ones, mapped (so present exactly when stored).
   */
  lemma LabelFieldsMapped(m: StoredLabel)
    ensures var r := LabelToAppModel(m);
      && r.id == m.remoteShippingLabelId
      && r.trackingNumber == m.trackingNumber
      && r.carrierId == m.carrierId
      && r.serviceName == m.serviceName
      && r.status == m.status
      && r.createdDate == Some(m.dateCreated)
      && r.packageName == m.packageName
      && r.rate == m.rate
      && r.refundableAmount == m.refundableAmount
      && r.currency == m.currency
      && r.paperSize == m.paperSize
      && r.originAddress == OptionalAddress(m.originAddress)
      && r.destinationAddress == OptionalAddress(m.destinationAddress)
      && r.refund == OptionalRefund(m.refund)
  {
  }

  // ---------------------------------------------------------------------------
  // Order items of a label (`loadProductItems`)
  // ---------------------------------------------------------------------------

  /** `Order.Item`, reduced to the attributes that identify it (Order.kt is not part of this model). */
  datatype OrderItem = OrderItem(itemId: int, productId: int, name: string)

  /** `a` can be obtained from `b` by deleting elements. */
  predicate IsSubsequence<T(==)>(a: seq<T>, b: seq<T>)
    decreases |b|
  {
    if a == [] then true
    else if b == [] then false
    else if a[0] == b[0] then IsSubsequence(a[1..], b[1..])
    else IsSubsequence(a, b[1..])
  }

  /**
   * `orderItems.filter { it.name in productNames }`: exactly the items whose
   * name is one of the label's product names, each as often as in the input,
   * and in their original order.
   */
  function LoadProductItems(shippingLabel: LabelFields, orderItems: seq<OrderItem>): (r: seq<OrderItem>)
    ensures forall x :: x in r <==> x in orderItems && x.name in shippingLabel.productNames
    ensures forall x :: multiset(r)[x] == if x.name in shippingLabel.productNames then multiset(orderItems)[x] else 0
    ensures IsSubsequence(r, orderItems)
  {
    if orderItems == [] then []
    else
      assert orderItems == [orderItems[0]] + orderItems[1..];
      var rest := LoadProductItems(shippingLabel, orderItems[1..]);
      if orderItems[0].name in shippingLabel.productNames then [orderItems[0]] + rest else rest
  }

  /** Filtering distributes over concatenation of the item lists. */
  lemma {:induction false} LoadProductItemsAppend(shippingLabel: LabelFields, a: seq<OrderItem>, b: seq<OrderItem>)
    ensures LoadProductItems(shippingLabel, a + b) == LoadProductItems(shippingLabel, a) + LoadProductItems(shippingLabel, b)
  {
    if a == [] {
      assert a + b == b;
    } else {
      assert (a + b)[1..] == a[1..] + b;
      LoadProductItemsAppend(shippingLabel, a[1..], b);
    }
  }

  /** Selecting the items of a selection returns it unchanged. */
  lemma {:induction false} LoadProductItemsIdempotent(shippingLabel: LabelFields, items: seq<OrderItem>)
    ensures LoadProductItems(shippingLabel, LoadProductItems(shippingLabel, items)) == LoadProductItems(shippingLabel, items)
  {
    if items != [] {
      LoadProductItemsIdempotent(shippingLabel, items[1..]);
    }
  }

  // ---------------------------------------------------------------------------
  // Tracking links (`fetchTrackingLinks`)
  // ---------------------------------------------------------------------------

  /** `WCOrderShipmentTrackingModel`, reduced to the attributes used here. */
  datatype ShipmentTracking = ShipmentTracking(
    trackingNumber: string,
    trackingProvider: string,
    trackingLink: string
  )

  /** Index of the last tracking whose number is `trackingNumber`, if any. */
  function LastMatch(trackings: seq<ShipmentTracking>, trackingNumber: string): (r: Option<nat>)
    ensures r.Some? ==> r.value < |trackings| && trackings[r.value].trackingNumber == trackingNumber
    ensures r.Some? ==> forall j :: r.value < j < |trackings| ==> trackings[j].trackingNumber != trackingNumber
    ensures r.None? ==> forall j :: 0 <= j < |trackings| ==> trackings[j].trackingNumber != trackingNumber
  {
    if trackings == [] then None
    else if trackings[|trackings| - 1].trackingNumber == trackingNumber then Some(|trackings| - 1)
    else LastMatch(trackings[..|trackings| - 1], trackingNumber)
  }

  /**
   * The tracking link after visiting `trackings` in order, starting from
   * `link`: each tracking with the label's number overwrites it.
   */
  function TrackingLinkAfter(link: Option<string>, trackingNumber: string, trackings: seq<ShipmentTracking>): Option<string>
  {
    if trackings == [] then link
    else
      var last := trackings[|trackings| - 1];
      if last.trackingNumber == trackingNumber then Some(last.trackingLink)
      else TrackingLinkAfter(link, trackingNumber, trackings[..|trackings| - 1])
  }

  /**
   * The link after the loop is that of the last matching tracking, or the
   * link it had before when no tracking matches.
   */
  lemma {:induction false} TrackingLinkIsLastMatch(link: Option<string>, trackingNumber: string, trackings: seq<ShipmentTracking>)
    ensures TrackingLinkAfter(link, trackingNumber, trackings) ==
            match LastMatch(trackings, trackingNumber)
            case Some(i) => Some(trackings[i].trackingLink)
            case None => link
  {
    if trackings != [] && trackings[|trackings| - 1].trackingNumber != trackingNumber {
      TrackingLinkIsLastMatch(link, trackingNumber, trackings[..|trackings| - 1]);
    }
  }

  /** A shipping label; its constructor fields never change, its tracking link does. */
  class ShippingLabel {
    const fields: LabelFields
    var trackingLink: Option<string>

    /** `toAppModel()` builds a label whose tracking link is not yet known. */
    constructor FromStored(m: StoredLabel)
      ensures fields == LabelToAppModel(m)
      ensures trackingLink == None
    {
      fields := LabelToAppModel(m);
      trackingLink := None;
    }

    /** `fetchTrackingLinks`: the last tracking with this label's number sets its link. */
    method FetchTrackingLinks(trackings: seq<ShipmentTracking>)
      modifies this`trackingLink
      ensures trackingLink == TrackingLinkAfter(old(trackingLink), fields.trackingNumber, trackings)
      ensures match LastMatch(trackings, fields.trackingNumber)
              case Some(i) => trackingLink == Some(trackings[i].trackingLink)
              case None => trackingLink == old(trackingLink)
    {
      for i := 0 to |trackings|
        invariant trackingLink == TrackingLinkAfter(old(trackingLink), fields.trackingNumber, trackings[..i])
      {
        assert trackings[..i + 1][..i] == trackings[..i];
        if trackings[i].trackingNumber == fields.trackingNumber {
          trackingLink := Some(trackings[i].trackingLink);
        }
      }
      assert trackings[..|trackings|] == trackings;
      TrackingLinkIsLastMatch(old(trackingLink), fields.trackingNumber, trackings);
    }
  }
}
