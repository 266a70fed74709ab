/**
 * The single and batch booking requests: the field rules a payload must meet,
 * the data `validated()` hands to the service, with `user_id` renamed to
 * `customer_id`, and how that data reads as a service payload.
 */
module BookingRequests {

  import opened Wrappers
  import opened Auth
  import opened BookingService
  import opened Digits

  /** A decoded request value: JSON null, an integer, a string, a list or an object. */
  datatype Value = Null | Int(i: int) | Str(s: string) | List(items: seq<Value>) | Obj(fields: map<string, Value>)

  type Input = map<string, Value>

  /**
   * What the rules consult outside the request: the ids in the users,
   * services and service_subcategories tables, the current time, the email
   * check and the date parser (which gives a timestamp or fails).
   */
  datatype RuleContext = RuleContext(
    users: set<Id>,
    services: set<Id>,
    subcategories: set<Id>,
    now: int,
    isEmail: string -> bool,
    parseDate: string -> Option<int>)

  /** The characters PHP's `trim` removes by default. */
  predicate TrimmedChar(c: char)
  {
    c == ' ' || c == '\t' || c == '\n' || c == '\r' || c == '\U{0}' || c == '\U{B}'
  }

  predicate Blank(s: string)
  {
    forall i :: 0 <= i < |s| ==> TrimmedChar(s[i])
  }

  /** `required`: not null, not a blank string, not an empty list or object. */
  predicate Filled(v: Value)
  {
    match v
    case Null => false
    case Int(_) => true
    case Str(s) => !Blank(s)
    case List(xs) => xs != []
    case Obj(m) => m != map[]
  }

  predicate Required(m: Input, k: string)
  {
    k in m && Filled(m[k])
  }

  /**
   * The integer a value stands for under the `integer` rule, which is
   * `FILTER_VALIDATE_INT`: a number within the 64-bit range (a larger JSON
   * number decodes as a float), or text the filter accepts, read as PHP's
   * `(int)` reads it. Null, lists and objects have none.
   */
  function IntegerValue(v: Value): (r: Option<int>)
    ensures v.Int? ==> (r.Some? <==> LongMin <= v.i <= LongMax) && (r.Some? ==> r.value == v.i)
    ensures v.Str? ==> (r.Some? <==> IntegerText(v.s))
    ensures v.Str? && IntegerText(v.s) ==> r == Some(IntCast(v.s))
    ensures !v.Int? && !v.Str? ==> r.None?
    ensures r.Some? ==> LongMin <= r.value <= LongMax
  {
    match v
    case Int(i) => if LongMin <= i <= LongMax then Some(i) else None
    case Str(s) =>
      if IntegerText(s) then
        FilterIntIsCast(s);
        Some(FilterInt(s))
      else None
    case _ => None
  }

  /** `exists:<table>,id`: the value names a row of the table. */
  predicate ExistsIn(v: Value, ids: set<Id>)
  {
    IntegerValue(v).Some? && IntegerValue(v).value in ids
  }

  /** `required|string` with an optional `max`. */
  predicate RequiredString(m: Input, k: string, max: Option<nat>)
  {
    Required(m, k) && m[k].Str? && (max.Some? ==> |m[k].s| <= max.value)
  }

  /** `nullable|string`: absent, null or a string. */
  predicate NullableString(m: Input, k: string)
  {
    k !in m || m[k].Null? || m[k].Str?
  }

  /** One entry of `services`: both ids present and naming existing rows. */
  predicate ServiceEntryRules(e: Value, ctx: RuleContext)
  {
    && e.Obj?
    && Required(e.fields, "service_id") && ExistsIn(e.fields["service_id"], ctx.services)
    && Required(e.fields, "service_subcategory_id") && ExistsIn(e.fields["service_subcategory_id"], ctx.subcategories)
  }

  /** The rules of one booking, shared by the single request and each entry of a batch. */
  predicate BookingFieldRules(m: Input, ctx: RuleContext)
  {
    && Required(m, "user_id") && ExistsIn(m["user_id"], ctx.users)
    && RequiredString(m, "customer_name", Some(255))
    && RequiredString(m, "customer_email", Some(255)) && ctx.isEmail(m["customer_email"].s)
    && RequiredString(m, "customer_phone", Some(20))
    && RequiredString(m, "service_address", None)
    && NullableString(m, "special_instructions")
    && Required(m, "shift_type") && m["shift_type"] in {Str("day"), Str("night"), Str("flexible")}
    && Required(m, "scheduled_at") && m["scheduled_at"].Str?
    && ctx.parseDate(m["scheduled_at"].s).Some? && ctx.parseDate(m["scheduled_at"].s).value > ctx.now
    && Required(m, "quantity") && IntegerValue(m["quantity"]).Some? && IntegerValue(m["quantity"]).value >= 1
    && Required(m, "services") && m["services"].List?
    && (forall e :: e in m["services"].items ==> ServiceEntryRules(e, ctx))
  }

  /** The rules of a batch: a non-empty list of bookings, each an object meeting the booking rules. */
  predicate BatchRules(m: Input, ctx: RuleContext)
  {
    && Required(m, "bookings") && m["bookings"].List?
    && (forall b :: b in m["bookings"].items ==> b.Obj? && BookingFieldRules(b.fields, ctx))
  }

  /** The booking keys that have rules of their own (`services` is handled entry by entry). */
  const FieldKeys: set<string> :=
    {"user_id", "customer_name", "customer_email", "customer_phone", "service_address",
     "special_instructions", "shift_type", "scheduled_at", "quantity"}

  const ServiceKeys: set<string> := {"service_id", "service_subcategory_id"}

  /** A `services` entry as validated: only its two ruled keys. */
  function ValidatedEntry(e: Value): (r: Value)
    ensures e.Obj? ==> r.Obj? && r.fields.Keys == e.fields.Keys * ServiceKeys
    ensures e.Obj? ==> forall k :: k in r.fields ==> r.fields[k] == e.fields[k]
  {
    if e.Obj? then Obj(map k | k in e.fields && k in ServiceKeys :: e.fields[k]) else e
  }

  /**
   * The validator's `validated()` for one booking: the ruled keys that are
   * present, and `services` rebuilt from its entries' ruled keys.
   */
  function ValidatedBooking(m: Input): (r: Input)
    ensures r.Keys == m.Keys * FieldKeys + (if "services" in m && m["services"].List? then {"services"} else {})
    ensures forall k :: k in r && k != "services" ==> r[k] == m[k]
  {
    var fields := map k | k in m && k in FieldKeys :: m[k];
    if "services" in m && m["services"].List? then
      var xs := m["services"].items;
      fields["services" := List(seq(|xs|, i requires 0 <= i < |xs| => ValidatedEntry(xs[i])))]
    else fields
  }

  /** The rename of `validated()`: a set `user_id` becomes `customer_id`. */
  function MapUserId(m: Input): Input
  {
    if "user_id" in m && m["user_id"] != Null then m["customer_id" := m["user_id"]] - {"user_id"} else m
  }

  /**
   * After the rename `customer_id` holds the old `user_id`, `user_id` is gone,
   * and every other key keeps its value.
   */
  lemma MapUserIdEffect(m: Input)
    requires "user_id" in m && m["user_id"] != Null
    ensures MapUserId(m).Keys == m.Keys - {"user_id"} + {"customer_id"}
    ensures MapUserId(m)["customer_id"] == m["user_id"]
    ensures forall k :: k in m && k != "user_id" && k != "customer_id" ==> MapUserId(m)[k] == m[k]
  {
  }

  /** Without a set `user_id` the rename changes nothing. */
  lemma MapUserIdNoop(m: Input)
    requires "user_id" !in m || m["user_id"] == Null
    ensures MapUserId(m) == m
  {
  }

  /**
   * `BookingRequest::validated`: the validator's data, the `user_id` rename,
   * then the loop over `services` that assigns every `service_id` to itself.
   */
  method Validated(input: Input) returns (out: Input)
    ensures out == MapUserId(ValidatedBooking(input))
  {
    var validated := ValidatedBooking(input);
    if "user_id" in validated && validated["user_id"] != Null {
      validated := validated["customer_id" := validated["user_id"]];
      validated := validated - {"user_id"};
    }
    ghost var mapped := validated;
    if "services" in validated && validated["services"].List? {
      var services := validated["services"].items;
      var i := 0;
      while i < |services|
        invariant 0 <= i <= |services|
        invariant services == mapped["services"].items
      {
        if services[i].Obj? && "service_id" in services[i].fields && services[i].fields["service_id"] != Null {
          var entry := services[i].fields;
          assert entry["service_id" := entry["service_id"]] == entry;
          services := services[i := Obj(entry["service_id" := entry["service_id"]])];
        }
        i := i + 1;
      }
      validated := validated["services" := List(services)];
    }
    out := validated;
  }

  /** `customer_id` and `services` are not among the keys ruled one by one. */
  lemma FieldKeysExclude()
    ensures "customer_id" !in FieldKeys && "services" !in FieldKeys
  {
  }

  /**
   * With a set `user_id` and a `services` list, the mapped data holds
   * `customer_id` (the old `user_id`), `services` and the other ruled keys,
   * and no `user_id`.
   */
  lemma RenamedBookingKeys(input: Input)
    requires "user_id" in input && input["user_id"] != Null
    requires "services" in input && input["services"].List?
    ensures var out := MapUserId(ValidatedBooking(input));
      && out.Keys == (input.Keys * FieldKeys - {"user_id"}) + {"customer_id", "services"}
      && out["customer_id"] == input["user_id"]
      && "user_id" !in out
      && (forall k :: k in input && k in FieldKeys && k != "user_id" ==> k in out && out[k] == input[k])
      && |out["services"].items| == |input["services"].items|
  {
    var v := ValidatedBooking(input);
    assert "user_id" in v && v["user_id"] == input["user_id"];
    MapUserIdEffect(v);
    FieldKeysExclude();
  }

  /** The validator's data for a batch: the list of bookings, each as validated. */
  function ValidatedBatch(m: Input): (r: Input)
    requires "bookings" in m && m["bookings"].List?
    ensures r.Keys == {"bookings"} && r["bookings"].List? && |r["bookings"].items| == |m["bookings"].items|
  {
    var bs := m["bookings"].items;
    map["bookings" := List(seq(|bs|, i requires 0 <= i < |bs| => ValidatedEntryOfBatch(bs[i])))]
  }

  /** One booking of a batch as validated. */
  function ValidatedEntryOfBatch(v: Value): Value
  {
    if v.Obj? then Obj(ValidatedBooking(v.fields)) else v
  }

  /** One booking of a batch after the `user_id` rename. */
  function MappedEntryOfBatch(v: Value): Value
  {
    if v.Obj? then Obj(MapUserId(v.fields)) else v
  }

  /** What `BatchBookingRequest::validated` returns for a request that passed the rules. */
  function MappedBatch(m: Input): seq<Value>
    requires "bookings" in m && m["bookings"].List?
  {
    var bs := ValidatedBatch(m)["bookings"].items;
    seq(|bs|, i requires 0 <= i < |bs| => MappedEntryOfBatch(bs[i]))
  }

  /** Booking i of the mapped batch is booking i of the request, validated and renamed. */
  lemma MappedBatchAt(m: Input, i: nat)
    requires "bookings" in m && m["bookings"].List?
    requires i < |m["bookings"].items|
    ensures |MappedBatch(m)| == |m["bookings"].items|
    ensures MappedBatch(m)[i] == MappedEntryOfBatch(ValidatedEntryOfBatch(m["bookings"].items[i]))
  {
    assert ValidatedBatch(m)["bookings"].items[i] == ValidatedEntryOfBatch(m["bookings"].items[i]);
  }

  /** The by-reference loop of `BatchBookingRequest::validated`: each booking with a set `user_id` has it moved to `customer_id`. */
  method RenameUserIds(bookings: seq<Value>) returns (out: seq<Value>)
    ensures |out| == |bookings|
    ensures forall j :: 0 <= j < |out| ==> out[j] == MappedEntryOfBatch(bookings[j])
  {
    out := bookings;
    var i := 0;
    while i < |out|
      invariant 0 <= i <= |out| == |bookings|
      invariant forall j :: 0 <= j < i ==> out[j] == MappedEntryOfBatch(bookings[j])
      invariant forall j :: i <= j < |out| ==> out[j] == bookings[j]
    {
      if out[i].Obj? && "user_id" in out[i].fields && out[i].fields["user_id"] != Null {
        var booking := out[i].fields;
        booking := booking["customer_id" := booking["user_id"]];
        booking := booking - {"user_id"};
        out := out[i := Obj(booking)];
      }
      i := i + 1;
    }
  }

  /** `BatchBookingRequest::validated`: the validator's data with every booking renamed. */
  method BatchValidated(input: Input) returns (out: Input)
    requires "bookings" in input && input["bookings"].List?
    ensures out == map["bookings" := List(MappedBatch(input))]
  {
    var validated := ValidatedBatch(input);
    var bookings := RenameUserIds(validated["bookings"].items);
    assert bookings == MappedBatch(input);
    out := validated["bookings" := List(bookings)];
  }

  /** A batch that passed the rules has every booking passing the booking rules. */
  lemma BatchEntryRules(input: Input, ctx: RuleContext, i: nat)
    requires BatchRules(input, ctx)
    requires i < |input["bookings"].items|
    ensures input["bookings"].items[i].Obj?
    ensures BookingFieldRules(input["bookings"].items[i].fields, ctx)
  {
    assert input["bookings"].items[i] in input["bookings"].items;
  }

  /**
   * For a batch that passed the rules the mapping keeps the number and order
   * of bookings, and booking i is booking i of the request restricted to its
   * ruled keys with `user_id` moved to `customer_id`.
   */
  lemma BatchValidatedBookings(input: Input, ctx: RuleContext, i: nat)
    requires BatchRules(input, ctx)
    requires i < |input["bookings"].items|
    ensures |MappedBatch(input)| == |input["bookings"].items|
    ensures var b := input["bookings"].items[i].fields;
      var out := MapUserId(ValidatedBooking(b));
      && MappedBatch(input)[i] == Obj(out)
      && out["customer_id"] == b["user_id"]
      && "user_id" !in out
      && (forall k :: k in b && k in FieldKeys && k != "user_id" ==> k in out && out[k] == b[k])
  {
    BatchEntryRules(input, ctx, i);
    MappedBatchAt(input, i);
    var b := input["bookings"].items[i].fields;
    RenamedBookingKeys(b);
  }

  /** The id a validated `exists` value names. */
  function IdOf(v: Value, ids: set<Id>): (id: Id)
    requires ExistsIn(v, ids)
    ensures id in ids && Some(id as int) == IntegerValue(v)
  {
    IntegerValue(v).value
  }

  function ReadLine(e: Value, ctx: RuleContext): (l: ServiceLine)
    requires ServiceEntryRules(e, ctx)
    ensures l.serviceId in ctx.services && l.subcategoryId in ctx.subcategories
  {
    ServiceLine(IdOf(e.fields["service_id"], ctx.services), IdOf(e.fields["service_subcategory_id"], ctx.subcategories))
  }

  function OptionalString(m: Input, k: string): Option<string>
  {
    if k in m && m[k].Str? then Some(m[k].s) else None
  }

  /**
   * The service payload the controller passes on for a request that passed the
   * rules: customer id from `user_id`, the strings, the shift, the schedule
   * verbatim, the quantity and one line per entry of `services`.
   */
  function ReadPayload(input: Input, ctx: RuleContext): (p: Payload)
    requires BookingFieldRules(input, ctx)
    ensures p.customerId in ctx.users
    ensures NormalizeShift(p.shiftType).Some?
    ensures p.quantity.Some? && p.quantity.value >= 1 && Quantity(p) >= 1
    ensures |p.services| == |input["services"].items| > 0
    ensures forall k :: 0 <= k < |p.services| ==> p.services[k].subcategoryId in ctx.subcategories
    ensures Str(p.scheduledAt) == input["scheduled_at"]
  {
    var xs := input["services"].items;
    assert forall k :: 0 <= k < |xs| ==> xs[k] in xs;
    Payload(
      IdOf(input["user_id"], ctx.users),
      OptionalString(input, "customer_name"),
      OptionalString(input, "customer_email"),
      OptionalString(input, "customer_phone"),
      OptionalString(input, "service_address"),
      OptionalString(input, "special_instructions"),
      input["shift_type"].s,
      input["scheduled_at"].s,
      IntegerValue(input["quantity"]),
      seq(|xs|, k requires 0 <= k < |xs| => ReadLine(xs[k], ctx)))
  }

  /** A payload that passed the rules is never refused for its shift type. */
  lemma ValidPayloadShiftAccepted(input: Input, ctx: RuleContext, catalog: map<Id, Subcategory>, nightPercent: real, firstId: Id)
    requires BookingFieldRules(input, ctx)
    ensures PlannedBookings(ReadPayload(input, ctx), catalog, nightPercent, firstId) != Err(InvalidShiftType)
  {
  }
}
