/** The pure parts of the hoarding routes: the document a create request builds and
    the field-by-field `||` merge of an update. */
module HoardingRules {
  import opened Base
  import opened HoardingModel

  /** The fields a create or update request may carry. An empty string stands for an
      absent string field (JavaScript treats both as falsy, and `required` rejects both);
      size and price are optional values, since a price of 0 is legal yet falsy. */
  datatype HoardingFields = HoardingFields(
    location: string,
    size: Option<Size>,
    price: Option<int>,
    status: string)

  /** `status || 'available'`. */
  function CreateStatus(status: string): (s: string)
    ensures status == "" ==> s == AVAILABLE
    ensures status != "" ==> s == status
  {
    if status != "" then status else AVAILABLE
  }

  /** `new Hoarding({ location, size, price, status: status || 'available' })` with the
      creator `createdBy`; None when the required size or price is missing, so the
      document cannot pass validation. */
  function Draft(fields: HoardingFields, createdBy: Option<Id>): (d: Option<Hoarding>)
    ensures d.Some? <==> fields.size.Some? && fields.price.Some?
    ensures d.Some? ==> d.value.createdBy == createdBy && d.value.status == CreateStatus(fields.status)
    ensures d.Some? ==>
      && d.value.location == Trim(fields.location)
      && d.value.size == fields.size.value
      && d.value.price == fields.price.value
  {
    if fields.size.None? || fields.price.None? then None
    else Some(Hoarding(Trim(fields.location), fields.size.value, fields.price.value,
                       CreateStatus(fields.status), createdBy))
  }

  /** The create handler passes no creator, so no request body yields a valid document. */
  lemma {:induction false} CreateRequestNeverValid(fields: HoardingFields)
    ensures Draft(fields, None).None? || !ValidHoarding(Draft(fields, None).value)
  {
    if Draft(fields, None).Some? {
      CreatorRequired(Draft(fields, None).value);
    }
  }

  /** A request value counts as supplied only when JavaScript finds it truthy. */
  predicate SuppliedPrice(price: Option<int>) {
    price.Some? && price.value != 0
  }

  /** The update handler's `x = body.x || hoarding.x` for each of location, size, price
      and status; assigning location goes through the schema's trim setter. */
  function Merged(h: Hoarding, fields: HoardingFields): Hoarding {
    h.(location := Trim(if fields.location != "" then fields.location else h.location),
       size := if fields.size.Some? then fields.size.value else h.size,
       price := if SuppliedPrice(fields.price) then fields.price.value else h.price,
       status := if fields.status != "" then fields.status else h.status)
  }

  /** An empty location keeps the stored one, which the setter leaves as it is. */
  lemma {:induction false} MergeKeepsStoredLocation(h: Hoarding, fields: HoardingFields)
    requires Trimmed(h.location) && fields.location == ""
    ensures Merged(h, fields).location == h.location
  {
    assert Merged(h, fields).location == Trim(h.location);
    TrimKeepsTrimmed(h.location);
  }

  /** A falsy size, price or status keeps the stored value, and the creator reference is
      never touched. */
  lemma {:induction false} MergeKeepsUnsuppliedFields(h: Hoarding, fields: HoardingFields)
    ensures !SuppliedPrice(fields.price) ==> Merged(h, fields).price == h.price
    ensures fields.size.None? ==> Merged(h, fields).size == h.size
    ensures fields.status == "" ==> Merged(h, fields).status == h.status
    ensures Merged(h, fields).createdBy == h.createdBy
  {
    var m := Merged(h, fields);
    assert m.price == (if SuppliedPrice(fields.price) then fields.price.value else h.price);
    assert m.size == (if fields.size.Some? then fields.size.value else h.size);
    assert m.status == (if fields.status != "" then fields.status else h.status);
    assert m.createdBy == h.createdBy;
  }

  /** A falsy value keeps the stored one: a price of 0 or an empty location cannot be
      written, and the creator reference is never touched. */
  lemma {:induction false} MergeFallsBack(h: Hoarding, fields: HoardingFields)
    requires Trimmed(h.location)
    ensures fields.location == "" ==> Merged(h, fields).location == h.location
    ensures !SuppliedPrice(fields.price) ==> Merged(h, fields).price == h.price
    ensures fields.size.None? ==> Merged(h, fields).size == h.size
    ensures fields.status == "" ==> Merged(h, fields).status == h.status
    ensures Merged(h, fields).createdBy == h.createdBy
  {
    if fields.location == "" {
      MergeKeepsStoredLocation(h, fields);
    }
    MergeKeepsUnsuppliedFields(h, fields);
  }

  /** An update can never bring a non-zero price down to 0. */
  lemma MergeNeverZeroesPrice(h: Hoarding, fields: HoardingFields)
    requires h.price != 0
    ensures Merged(h, fields).price != 0
  {
  }

  /** Applying the same update twice gives what applying it once gives. */
  lemma {:induction false} MergeIdempotent(h: Hoarding, fields: HoardingFields)
    ensures Merged(Merged(h, fields), fields) == Merged(h, fields)
  {
    var once := Merged(h, fields);
    var twice := Merged(once, fields);
    var written := if fields.location != "" then fields.location else h.location;
    assert once.location == Trim(written);
    TrimIdempotent(written);
    assert twice.location == once.location by {
      if fields.location != "" {
        assert twice.location == Trim(fields.location);
      } else {
        assert twice.location == Trim(once.location);
      }
    }
    assert twice.size == once.size && twice.price == once.price && twice.status == once.status;
    assert twice.createdBy == once.createdBy;
  }

  /** Merging keeps a stored location trimmed. */
  lemma MergeKeepsLocationTrimmed(h: Hoarding, fields: HoardingFields)
    ensures Trimmed(Merged(h, fields).location)
  {
    TrimYieldsTrimmed(if fields.location != "" then fields.location else h.location);
  }

  /** A valid hoarding stays valid after an update whose supplied values each satisfy
      their own field's constraint. */
  lemma MergeKeepsValid(h: Hoarding, fields: HoardingFields)
    requires ValidHoarding(h)
    requires fields.location != "" ==> Trim(fields.location) != ""
    requires fields.size.Some? ==> fields.size.value.width >= 1 && fields.size.value.height >= 1
    requires SuppliedPrice(fields.price) ==> fields.price.value >= 0
    requires fields.status != "" ==> fields.status in HOARDING_STATUSES
    requires Trimmed(h.location)
    ensures ValidHoarding(Merged(h, fields))
  {
    TrimKeepsTrimmed(h.location);
  }
}
