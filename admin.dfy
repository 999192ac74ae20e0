/** The administrator's product form: the validation schema, and the status
    and defaults `handleSubmit` derives before it hands the product to the
    add or edit callback. Start times are integer milliseconds; the form's
    date-string conversions are not part of this model. */
module ProductAdmin {
  import opened Seqs
  import opened Domain

  /** The form's values. An empty start-time field is `None`; an empty (or 0)
      current bid is 0; an empty bidder is the empty string. */
  datatype FormValues = FormValues(
    title: string,
    description: string,
    image: string,
    basePrice: int,
    duration: int,
    status: string,
    startTime: Option<int>,
    currentBid: int,
    currentBidder: string)

  /** `productSchema`. The image field must be non-empty; its URL syntax check is not modelled. */
  predicate SchemaAccepts(v: FormValues)
  {
    && |v.title| >= 3
    && |v.description| >= 10
    && |v.image| > 0
    && v.basePrice > 0
    && v.duration > 0
    && (v.status == "active" || v.status == "upcoming" || v.status == "finished")
  }

  /** The product fields `handleSubmit` passes on (everything but the id). */
  datatype Draft = Draft(
    title: string,
    description: string,
    image: string,
    basePrice: int,
    duration: int,
    startTime: int,
    currentBid: int,
    currentBidder: Option<string>,
    status: Status)

  /** `onEdit(id, data)` when a product is being edited, `onAdd(data)` otherwise. */
  datatype Submission = Add(draft: Draft) | Edit(id: int, draft: Draft)

  /** The status chain of `handleSubmit`: finished once the end has come,
      else active once the start has come, else upcoming. */
  function DeriveStatus(start: int, duration: int, now: int): Status
  {
    if now >= start + duration * 1000 then Finished
    else if now >= start then Active
    else Upcoming
  }

  /** `handleSubmit` at instant `now`: the start defaults to `now`, the status
      is derived (whatever the form said), the current bid defaults to the
      base price, and an empty bidder becomes none. */
  function HandleSubmit(v: FormValues, editing: Option<Product>, now: int): Submission
  {
    var start := if v.startTime.Some? then v.startTime.value else now;
    var draft := Draft(
      v.title, v.description, v.image, v.basePrice, v.duration, start,
      if v.currentBid != 0 then v.currentBid else v.basePrice,
      if v.currentBidder != "" then Some(v.currentBidder) else None,
      DeriveStatus(start, v.duration, now));
    match editing
    case Some(p) => Edit(p.id, draft)
    case None => Add(draft)
  }

  /** The form calls `handleSubmit` only with values the schema accepts. */
  function Submit(v: FormValues, editing: Option<Product>, now: int): (r: Option<Submission>)
    ensures r.Some? <==> SchemaAccepts(v)
    ensures r.Some? ==> r.value.draft.basePrice > 0 && r.value.draft.duration > 0 && r.value.draft.currentBid != 0
  {
    if SchemaAccepts(v) then Some(HandleSubmit(v, editing, now)) else None
  }

  // ---------------------------------------------------------------------
  // Facts about the form

  /** For a positive duration exactly one status applies, by the position of
      `now` relative to the start and the end. */
  lemma DerivedStatusRule(start: int, duration: int, now: int)
    requires duration > 0
    ensures DeriveStatus(start, duration, now) == Finished <==> now >= start + duration * 1000
    ensures DeriveStatus(start, duration, now) == Active <==> start <= now < start + duration * 1000
    ensures DeriveStatus(start, duration, now) == Upcoming <==> now < start
  {
  }

  /** The status chosen in the form has no effect on what is submitted. */
  lemma FormStatusIsOverridden(v: FormValues, status: string, editing: Option<Product>, now: int)
    ensures HandleSubmit(v.(status := status), editing, now) == HandleSubmit(v, editing, now)
  {
  }

  /** Without a start time the auction starts now, so with a positive
      duration it is submitted as active. */
  lemma MissingStartMeansActive(v: FormValues, editing: Option<Product>, now: int)
    requires v.startTime.None? && v.duration > 0
    ensures HandleSubmit(v, editing, now).draft.startTime == now
    ensures HandleSubmit(v, editing, now).draft.status == Active
  {
  }

  /** An edit keeps the edited product's id; without one the product is added. */
  lemma EditKeepsId(v: FormValues, editing: Option<Product>, now: int)
    ensures HandleSubmit(v, editing, now).Edit? <==> editing.Some?
    ensures editing.Some? ==> HandleSubmit(v, editing, now).id == editing.value.id
  {
  }

  /** The defaults: an empty current bid is the base price, an empty bidder is none,
      and a given bid or bidder is kept. */
  lemma SubmitDefaults(v: FormValues, editing: Option<Product>, now: int)
    ensures var d := HandleSubmit(v, editing, now).draft;
      (d.currentBid == v.basePrice || d.currentBid == v.currentBid) &&
      (v.currentBid != 0 ==> d.currentBid == v.currentBid) &&
      (d.currentBidder.None? <==> v.currentBidder == "") &&
      (d.currentBidder.Some? ==> d.currentBidder.value == v.currentBidder)
  {
  }
}
