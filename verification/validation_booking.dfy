/** The storefront's two request validators: `bookingSchema` for creating a
    booking and `viewBookingSchema` for checking one.

    `Date.parse` is outside the model: the date refinement takes it as the
    parameter `dateParses`, which stands for `s => !isNaN(Date.parse(s))`. */
module ValidationBooking {
  import opened Wrappers
  import opened Zod

  const NameRequired := "Name is required"
  const PhoneRequired := "Phone number is required"
  const InvalidDate := "Invalid date format"
  const OfficeRequired := "Office space ID is required"
  const TrxRequired := "Booking TRX ID is required"

  /** `bookingSchema`: four distinct fields, accepting exactly the bodies `BookingValid` describes. */
  function BookingSchema(dateParses: string -> bool): (r: Shape)
    ensures DistinctKeys(r)
    ensures KeySet(r) == {"name", "phone_number", "started_at", "office_space_id"}
    ensures forall body :: ObjectAccepts(r, body) <==> BookingValid(body, dateParses)
  {
    var r := [ ("name", StringMin(1, NameRequired)),
      ("phone_number", StringMin(1, PhoneRequired)),
      ("started_at", StringRefine(dateParses, InvalidDate)),
      ("office_space_id", NumberMin(1.0, OfficeRequired)) ];
    assert r[0].0 == "name" && r[1].0 == "phone_number";
    assert r[2].0 == "started_at" && r[3].0 == "office_space_id";
    forall body ensures ObjectAccepts(r, body) <==> BookingValid(body, dateParses) {
      assert Accepts(r[0].1, Get(body, r[0].0)) <==> NonEmptyString(Get(body, "name"));
      assert Accepts(r[1].1, Get(body, r[1].0)) <==> NonEmptyString(Get(body, "phone_number"));
    }
    r
  }

  /** `viewBookingSchema`: two distinct fields, accepting exactly the bodies `ViewBookingValid` describes. */
  function ViewBookingSchema(): (r: Shape)
    ensures DistinctKeys(r)
    ensures KeySet(r) == {"booking_trx_id", "phone_number"}
    ensures forall body :: ObjectAccepts(r, body) <==> ViewBookingValid(body)
  {
    var r := [ ("booking_trx_id", StringMin(1, TrxRequired)),
      ("phone_number", StringMin(1, PhoneRequired)) ];
    assert r[0].0 == "booking_trx_id" && r[1].0 == "phone_number";
    r
  }

  /** The issues of the `phone_number` rule both schemas share. */
  function PhoneIssues(v: JsValue): seq<Issue> {
    FieldIssues("phone_number", StringMin(1, PhoneRequired), v)
  }

  /** A string of at least one character; whitespace counts, nothing is trimmed. */
  predicate NonEmptyString(v: JsValue) {
    v.Str? && |v.s| >= 1
  }

  /** Reference definition of a valid create-booking request. */
  predicate BookingValid(body: JsObject, dateParses: string -> bool) {
    && NonEmptyString(Get(body, "name"))
    && NonEmptyString(Get(body, "phone_number"))
    && Get(body, "started_at").Str? && dateParses(Get(body, "started_at").s)
    && Get(body, "office_space_id").Num? && Get(body, "office_space_id").x >= 1.0
  }

  /** Reference definition of a valid check-booking request. */
  predicate ViewBookingValid(body: JsObject) {
    NonEmptyString(Get(body, "booking_trx_id")) && NonEmptyString(Get(body, "phone_number"))
  }

  /** The issues `bookingSchema.safeParse` reports, in field order. */
  function BookingIssues(body: JsObject, dateParses: string -> bool): (r: seq<Issue>)
    ensures r == [] <==> BookingValid(body, dateParses)
    ensures |r| <= 4
    ensures forall iss :: iss in r ==>
      iss.path in {["name"], ["phone_number"], ["started_at"], ["office_space_id"]}
  {
    var shape := BookingSchema(dateParses);
    var r := ObjectIssues(shape, body);
    assert KeySet(shape) == {"name", "phone_number", "started_at", "office_space_id"} by {
      assert shape[0].0 == "name" && shape[1].0 == "phone_number";
      assert shape[2].0 == "started_at" && shape[3].0 == "office_space_id";
    }
    assert ObjectAccepts(shape, body) <==> BookingValid(body, dateParses) by {
      assert Accepts(shape[0].1, Get(body, shape[0].0)) <==> NonEmptyString(Get(body, "name"));
      assert Accepts(shape[1].1, Get(body, shape[1].0)) <==> NonEmptyString(Get(body, "phone_number"));
    }
    assert forall iss :: iss in r ==> iss.path == [iss.path[0]];
    r
  }

  /** The issues `viewBookingSchema.safeParse` reports, in field order. */
  function ViewBookingIssues(body: JsObject): (r: seq<Issue>)
    ensures r == [] <==> ViewBookingValid(body)
    ensures |r| <= 2
    ensures forall iss :: iss in r ==> iss.path in {["booking_trx_id"], ["phone_number"]}
  {
    var shape := ViewBookingSchema();
    assert KeySet(shape) == {"booking_trx_id", "phone_number"} by {
      assert shape[0].0 == "booking_trx_id" && shape[1].0 == "phone_number";
    }
    var r := ObjectIssues(shape, body);
    assert forall iss :: iss in r ==> iss.path == [iss.path[0]];
    r
  }

  /** `name`: any string of one or more characters passes; the empty string is
      refused with "Name is required". */
  lemma BookingNameRule(body: JsObject, dateParses: string -> bool)
    ensures At(BookingIssues(body, dateParses), "name") == [] <==> NonEmptyString(Get(body, "name"))
    ensures Get(body, "name") == Str("") ==>
      At(BookingIssues(body, dateParses), "name") == [Issue(["name"], TooSmall(1.0, "Name is required"))]
  {
    IssuesAtField(BookingSchema(dateParses), body, 0);
  }

  /** `phone_number` in `bookingSchema`: none iff non-empty; the empty string
      gets "Phone number is required". */
  lemma BookingPhoneRule(body: JsObject, dateParses: string -> bool)
    ensures At(BookingIssues(body, dateParses), "phone_number") == [] <==> NonEmptyString(Get(body, "phone_number"))
    ensures Get(body, "phone_number") == Str("") ==>
      At(BookingIssues(body, dateParses), "phone_number") == [Issue(["phone_number"], TooSmall(1.0, "Phone number is required"))]
  {
    IssuesAtField(BookingSchema(dateParses), body, 1);
  }

  /** `phone_number` in `viewBookingSchema`: the same rule and message. */
  lemma ViewPhoneRule(body: JsObject)
    ensures At(ViewBookingIssues(body), "phone_number") == [] <==> NonEmptyString(Get(body, "phone_number"))
    ensures Get(body, "phone_number") == Str("") ==>
      At(ViewBookingIssues(body), "phone_number") == [Issue(["phone_number"], TooSmall(1.0, "Phone number is required"))]
  {
    IssuesAtField(ViewBookingSchema(), body, 1);
  }

  /** Both schemas report the same `phone_number` issues for the same body,
      whatever its type: those of one shared field rule. */
  lemma PhoneRuleShared(body: JsObject, dateParses: string -> bool)
    ensures At(BookingIssues(body, dateParses), "phone_number") == PhoneIssues(Get(body, "phone_number"))
    ensures At(ViewBookingIssues(body), "phone_number") == PhoneIssues(Get(body, "phone_number"))
  {
    IssuesAtField(BookingSchema(dateParses), body, 1);
    IssuesAtField(ViewBookingSchema(), body, 1);
  }

  /** `started_at`: a string is refused exactly when the date parser fails on
      it, and then with "Invalid date format". */
  lemma StartedAtRule(body: JsObject, dateParses: string -> bool)
    requires Get(body, "started_at").Str?
    ensures At(BookingIssues(body, dateParses), "started_at") == [] <==> dateParses(Get(body, "started_at").s)
    ensures !dateParses(Get(body, "started_at").s) ==>
      At(BookingIssues(body, dateParses), "started_at") == [Issue(["started_at"], Custom("Invalid date format"))]
  {
    IssuesAtField(BookingSchema(dateParses), body, 2);
  }

  /** `office_space_id`: passes exactly when it is a number of at least 1. */
  lemma OfficeSpaceIdRule(body: JsObject, dateParses: string -> bool)
    ensures At(BookingIssues(body, dateParses), "office_space_id") == [] <==>
      Get(body, "office_space_id").Num? && Get(body, "office_space_id").x >= 1.0
    ensures Get(body, "office_space_id").Num? && Get(body, "office_space_id").x < 1.0 ==>
      At(BookingIssues(body, dateParses), "office_space_id")
        == [Issue(["office_space_id"], TooSmall(1.0, "Office space ID is required"))]
  {
    IssuesAtField(BookingSchema(dateParses), body, 3);
  }

  /** No integer check is applied: every number of at least 1 that is not a
      whole number is an acceptable office space id, and so is a whole request
      carrying one. */
  lemma OfficeSpaceIdNotInteger(body: JsObject, dateParses: string -> bool)
    requires Get(body, "office_space_id").Num?
    requires Get(body, "office_space_id").x >= 1.0
    requires Get(body, "office_space_id").x.Floor as real != Get(body, "office_space_id").x
    ensures At(BookingIssues(body, dateParses), "office_space_id") == []
    ensures NonEmptyString(Get(body, "name")) && NonEmptyString(Get(body, "phone_number"))
      && Get(body, "started_at").Str? && dateParses(Get(body, "started_at").s)
      ==> ParseBooking(body, dateParses).Success?
  {
    OfficeSpaceIdRule(body, dateParses);
  }

  /** `booking_trx_id`: the empty string is refused with "Booking TRX ID is required". */
  lemma TrxIdRule(body: JsObject)
    ensures At(ViewBookingIssues(body), "booking_trx_id") == [] <==> NonEmptyString(Get(body, "booking_trx_id"))
    ensures Get(body, "booking_trx_id") == Str("") ==>
      At(ViewBookingIssues(body), "booking_trx_id") == [Issue(["booking_trx_id"], TooSmall(1.0, "Booking TRX ID is required"))]
  {
    IssuesAtField(ViewBookingSchema(), body, 0);
  }

  /** No rule trims its input: a lone space satisfies every `min(1)` rule. */
  lemma WhitespaceIsNonEmpty(body: JsObject, dateParses: string -> bool)
    requires Get(body, "name") == Str(" ") && Get(body, "booking_trx_id") == Str(" ")
    requires Get(body, "phone_number") == Str(" ")
    ensures ViewBookingIssues(body) == []
    ensures At(BookingIssues(body, dateParses), "name") == []
    ensures At(BookingIssues(body, dateParses), "phone_number") == []
  {
    BookingNameRule(body, dateParses);
    BookingPhoneRule(body, dateParses);
  }

  /** A create-booking request once it has passed validation. */
  datatype BookingRequest = BookingRequest(name: string, phone_number: string, started_at: string, office_space_id: real)

  /** A check-booking request once it has passed validation. */
  datatype CheckBookingRequest = CheckBookingRequest(booking_trx_id: string, phone_number: string)

  /** `bookingSchema.safeParse`, read back into a typed request. The accepted
      fields are the submitted ones, unaltered. */
  function ParseBooking(body: JsObject, dateParses: string -> bool): (r: Result<BookingRequest, seq<Issue>>)
    ensures r.Success? <==> BookingValid(body, dateParses)
    ensures r.Failure? ==> r.error != [] && r.error == BookingIssues(body, dateParses)
    ensures r.Success? ==>
      && Str(r.value.name) == Get(body, "name")
      && Str(r.value.phone_number) == Get(body, "phone_number")
      && Str(r.value.started_at) == Get(body, "started_at")
      && Num(r.value.office_space_id) == Get(body, "office_space_id")
      && |r.value.name| >= 1 && |r.value.phone_number| >= 1
      && dateParses(r.value.started_at) && r.value.office_space_id >= 1.0
  {
    match SafeParse(BookingSchema(dateParses), body)
    case Failure(issues) => Failure(issues)
    case Success(parsed) =>
      assert BookingValid(body, dateParses) by {
        assert BookingIssues(body, dateParses) == [];
      }
      assert KeySet(BookingSchema(dateParses)) == {"name", "phone_number", "started_at", "office_space_id"} by {
        var shape := BookingSchema(dateParses);
        assert shape[0].0 == "name" && shape[1].0 == "phone_number";
        assert shape[2].0 == "started_at" && shape[3].0 == "office_space_id";
      }
      Success(BookingRequest(
        parsed["name"].s, parsed["phone_number"].s, parsed["started_at"].s, parsed["office_space_id"].x))
  }

  /** `viewBookingSchema.safeParse`, read back into a typed request. */
  function ParseCheckBooking(body: JsObject): (r: Result<CheckBookingRequest, seq<Issue>>)
    ensures r.Success? <==> ViewBookingValid(body)
    ensures r.Failure? ==> r.error != [] && r.error == ViewBookingIssues(body)
    ensures r.Success? ==>
      && Str(r.value.booking_trx_id) == Get(body, "booking_trx_id")
      && Str(r.value.phone_number) == Get(body, "phone_number")
      && |r.value.booking_trx_id| >= 1 && |r.value.phone_number| >= 1
  {
    match SafeParse(ViewBookingSchema(), body)
    case Failure(issues) => Failure(issues)
    case Success(parsed) =>
      assert ViewBookingValid(body) by {
        assert ViewBookingIssues(body) == [];
      }
      assert KeySet(ViewBookingSchema()) == {"booking_trx_id", "phone_number"} by {
        assert ViewBookingSchema()[0].0 == "booking_trx_id" && ViewBookingSchema()[1].0 == "phone_number";
      }
      Success(CheckBookingRequest(parsed["booking_trx_id"].s, parsed["phone_number"].s))
  }
}
