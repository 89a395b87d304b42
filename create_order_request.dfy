/** The order-creation request the browser posts and the backend reads
    (backend/.../dto/CreateOrderRequest.java), with its Bean Validation
    constraints written as predicates. Java references that may be null are
    `Option`s. The controller validates the request with `@Valid`, but the
    `items` and `delivery` fields carry no `@Valid` of their own, so only the
    top-level constraints are enforced; the nested ones are declared and
    never checked. Both are modelled, separately. */
module OrderRequest {
  import opened Common

  datatype OrderItem = OrderItem(itemId: Option<int>, quantity: int)

  datatype DeliveryDetails = DeliveryDetails(
    streetAddress1: Option<string>,
    streetAddress2: Option<string>,
    city: Option<string>,
    state: Option<string>,
    zip: Option<string>,
    contactName: Option<string>,
    contactPhone: Option<string>)

  datatype CreateOrderRequest = CreateOrderRequest(
    restName: Option<string>,
    items: Option<seq<OrderItem>>,
    delivery: Option<DeliveryDetails>,
    tipAmount: Option<real>)

  /** `@NotBlank`: present, and something is left after Java's `trim()`,
      which strips every character up to U+0020. */
  predicate NotBlank(s: Option<string>)
  {
    s.Some? && exists i :: 0 <= i < |s.value| && s.value[i] > ' '
  }

  /** `@NotEmpty` on a list. */
  predicate NotEmpty<T>(s: Option<seq<T>>)
  {
    s.Some? && |s.value| > 0
  }

  /** `@Pattern(regexp = "^[0-9]{10}$")`; Bean Validation lets null pass a
      pattern (null is `@NotBlank`'s business). */
  predicate MatchesPhonePattern(s: Option<string>)
  {
    s.None? || (|s.value| == 10 && AllDigits(s.value))
  }

  /** What `@Valid` on the controller parameter enforces: the constraints
      declared directly on CreateOrderRequest. `tipAmount` is unconstrained. */
  predicate ValidTopLevel(r: CreateOrderRequest)
  {
    NotBlank(r.restName) && NotEmpty(r.items) && r.delivery.Some?
  }

  /** Constraints declared on OrderItem. */
  predicate ValidItem(item: OrderItem)
  {
    item.itemId.Some? && item.quantity >= 1
  }

  /** Constraints declared on DeliveryDetails; `streetAddress2` and `zip`
      are optional. */
  predicate ValidDelivery(d: DeliveryDetails)
  {
    && NotBlank(d.streetAddress1)
    && NotBlank(d.city)
    && NotBlank(d.state)
    && NotBlank(d.contactName)
    && NotBlank(d.contactPhone)
    && MatchesPhonePattern(d.contactPhone)
  }

  /** The declared nested constraints, which no validator cascades into. */
  predicate ValidNested(r: CreateOrderRequest)
  {
    && (r.items.Some? ==> forall i :: 0 <= i < |r.items.value| ==> ValidItem(r.items.value[i]))
    && (r.delivery.Some? ==> ValidDelivery(r.delivery.value))
  }

  /** Every constraint the class declares, as if validation cascaded. */
  predicate FullyValid(r: CreateOrderRequest)
  {
    ValidTopLevel(r) && ValidNested(r)
  }

  /** The two phone constraints together say: exactly ten decimal digits. */
  lemma ValidPhoneIsTenDigits(phone: Option<string>)
    ensures NotBlank(phone) && MatchesPhonePattern(phone)
        <==> phone.Some? && |phone.value| == 10 && AllDigits(phone.value)
  {
    if phone.Some? && |phone.value| == 10 && AllDigits(phone.value) {
      assert phone.value[0] > ' ';
    }
  }

  /** The missing `@Valid` on the nested fields matters: a request with a
      zero quantity, a null item id and a blank city passes the validation
      the controller runs. */
  lemma TopLevelDoesNotCascade()
    ensures var d := DeliveryDetails(Some("1 Main St"), None, Some("  "), Some("TX"), None, Some("Ann"), Some("12345"));
            var r := CreateOrderRequest(Some("Cafe"), Some([OrderItem(None, 0)]), Some(d), None);
            ValidTopLevel(r) && !ValidNested(r)
  {
    var name: string := "Cafe";
    assert name[0] > ' ';
  }
}
