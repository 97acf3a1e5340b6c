/**
 * ProductController: the request payload's constraints and the
 * get / create / update / delete handlers under `/products`.
 *
 * The product service behind the controller is not part of this model. Its
 * lookup is the `products` map of the controller class; the calls the
 * controller makes to its mutating operations are recorded in `calls`;
 * what those operations return, or leave behind, comes in as a parameter.
 */
module Controller {
  import opened Wrappers
  import opened JavaLong
  import opened Entities
  import opened Assembler

  // ---------------------------------------------------------------------
  // The request payload and its Bean Validation constraints

  /** `ProductDto`: every field is a nullable reference. */
  datatype ProductDto = ProductDto(name: Option<string>, currency: Option<string>, price: Option<real>)

  datatype Field = Name | Currency | Price

  datatype Constraint = NotNull | Size(min: nat, max: nat) | Min(bound: int)

  /** One constraint violation; `message` is None where the constraint keeps the provider's default. */
  datatype Violation = Violation(field: Field, constraint: Constraint, message: Option<string>)

  const NAME_REQUIRED: string := "name is required"
  const NAME_SIZE: string := "name must be equal to or lower than 300"
  const CURRENCY_FORMAT: string := "Currency must be in ISO 4217 format"
  const PRICE_REQUIRED: string := "price is required"

  /** `@NotNull @Size(min = 1, max = 300)` on the name. */
  predicate NameOk(dto: ProductDto) {
    dto.name.Some? && 1 <= |dto.name.value| <= 300
  }

  /** `@NotNull @Size(min = 3, max = 3)` on the currency. */
  predicate CurrencyOk(dto: ProductDto) {
    dto.currency.Some? && |dto.currency.value| == 3
  }

  /** `@NotNull @Min(0)` on the price. */
  predicate PriceOk(dto: ProductDto) {
    dto.price.Some? && dto.price.value >= 0.0
  }

  /** The payload passes `@Valid`. */
  predicate ValidDto(dto: ProductDto) {
    NameOk(dto) && CurrencyOk(dto) && PriceOk(dto)
  }

  /**
   * The violations Bean Validation reports, with the price's `@NotNull`
   * message as a parameter. `@Size` and `@Min` accept null, so a null field
   * reports only its `@NotNull`.
   */
  function ViolationsWith(dto: ProductDto, priceRequired: string): set<Violation> {
    (if dto.name.None? then {Violation(Name, NotNull, Some(NAME_REQUIRED))}
     else if 1 <= |dto.name.value| <= 300 then {}
     else {Violation(Name, Size(1, 300), Some(NAME_SIZE))})
    +
    (if dto.currency.None? then {Violation(Currency, NotNull, None)}
     else if |dto.currency.value| == 3 then {}
     else {Violation(Currency, Size(3, 3), Some(CURRENCY_FORMAT))})
    +
    (if dto.price.None? then {Violation(Price, NotNull, Some(priceRequired))}
     else if dto.price.value >= 0.0 then {}
     else {Violation(Price, Min(0), None)})
  }

  /** The violations as the annotations are written: the price's `@NotNull` says "name is required". */
  function ViolationsAsWritten(dto: ProductDto): set<Violation> {
    ViolationsWith(dto, NAME_REQUIRED)
  }

  /** The violations with the price's `@NotNull` message naming the price. */
  function Violations(dto: ProductDto): set<Violation> {
    ViolationsWith(dto, PRICE_REQUIRED)
  }

  /** A payload is valid exactly when it has no violation. */
  lemma ValidIffNoViolations(dto: ProductDto)
    ensures ValidDto(dto) <==> Violations(dto) == {}
  {
    ViolationsPinpointFields(dto);
  }

  /** Each field is reported exactly when its own constraints fail, and at most once. */
  lemma ViolationsPinpointFields(dto: ProductDto)
    ensures (exists v :: v in Violations(dto) && v.field == Name) <==> !NameOk(dto)
    ensures (exists v :: v in Violations(dto) && v.field == Currency) <==> !CurrencyOk(dto)
    ensures (exists v :: v in Violations(dto) && v.field == Price) <==> !PriceOk(dto)
    ensures forall v, w :: v in Violations(dto) && w in Violations(dto) && v.field == w.field ==> v == w
  {
    if !NameOk(dto) {
      var v := if dto.name.None? then Violation(Name, NotNull, Some(NAME_REQUIRED))
               else Violation(Name, Size(1, 300), Some(NAME_SIZE));
      assert v in Violations(dto);
    }
    if !CurrencyOk(dto) {
      var v := if dto.currency.None? then Violation(Currency, NotNull, None)
               else Violation(Currency, Size(3, 3), Some(CURRENCY_FORMAT));
      assert v in Violations(dto);
    }
    if !PriceOk(dto) {
      var v := if dto.price.None? then Violation(Price, NotNull, Some(PRICE_REQUIRED))
               else Violation(Price, Min(0), None);
      assert v in Violations(dto);
    }
  }

  /** As written, a payload whose only fault is a missing price is told that the name is required. */
  lemma MissingPriceReportedAsMissingName()
    ensures ViolationsAsWritten(ProductDto(Some("Lamp"), Some("EUR"), None))
            == {Violation(Price, NotNull, Some("name is required"))}
  {
  }

  /** As written, a missing name and a missing price carry the same message. */
  lemma AsWrittenMessagesCollide()
    ensures Violation(Name, NotNull, Some(NAME_REQUIRED)) in ViolationsAsWritten(ProductDto(None, Some("EUR"), None))
    ensures Violation(Price, NotNull, Some(NAME_REQUIRED)) in ViolationsAsWritten(ProductDto(None, Some("EUR"), None))
  {
  }

  /** With the corrected message, no two violations of different fields share a message. */
  lemma MessagesIdentifyTheirField(dto: ProductDto)
    ensures forall v, w :: v in Violations(dto) && w in Violations(dto) && v.message.Some? && v.message == w.message
              ==> v.field == w.field
  {
  }

  // ---------------------------------------------------------------------
  // Routing and responses

  /** The message of `new NotFoundException(entity)`. */
  function NotFoundMessage(entity: string): string {
    entity + " not found"
  }

  const OK: nat := 200
  const CREATED: nat := 201
  const NO_CONTENT: nat := 204

  datatype Body = NoBody | One(resource: ProductResource)

  /** What a handler produces: a response entity, or the exception it throws. */
  datatype Outcome =
    | Response(status: nat, body: Body)
    | NotFoundException(message: string)
    | ValidationFailed(violations: set<Violation>)

  /**
   * The `{id}` of a path `/products/{id}`, converted to the handler's Long
   * parameter as a decimal Long; None when the path does not have that
   * form or the segment is not decimal Long text.
   */
  function IdFromPath(path: string): (r: Option<Long>)
    ensures r.Some? ==> |path| > |PRODUCTS_PATH| + 1 && path[..|PRODUCTS_PATH| + 1] == PRODUCTS_PATH + "/"
  {
    var prefix := PRODUCTS_PATH + "/";
    if |path| <= |prefix| || path[..|prefix|] != prefix then None
    else
      var segment := path[|prefix|..];
      if '/' in segment then None else ParseLong(segment)
  }

  /** A product's self link is routed back to the handlers with that product's id. */
  lemma SelfLinkRoutesToId(p: Product)
    ensures IdFromPath(ToResource(p).links[0].href) == Some(p.id)
  {
    var href := ToResource(p).links[0].href;
    var prefix := PRODUCTS_PATH + "/";
    assert href[..|prefix|] == prefix;
    assert href[|prefix|..] == ToText(p.id);
    assert '/' !in ToText(p.id) by {
      if p.id < 0 {
        assert ToText(p.id) == "-" + Digits(-(p.id as int));
      }
    }
    ParseToText(p.id);
  }

  /** The mutating calls the controller makes on the product service. */
  datatype ServiceCall =
    | CreateCall(name: string, currency: string, price: real, owner: User)
    | UpdateCall(product: Product, name: string, currency: string, price: real)
    | DeleteCall(product: Product)

  // ---------------------------------------------------------------------
  // The handlers

  class ProductController {
    /** What the product service's lookup by id answers. */
    var products: map<Long, Product>
    /** The service's mutating operations invoked so far, oldest first. */
    var calls: seq<ServiceCall>

    /** Every stored product is filed under its own id. */
    ghost predicate Valid()
      reads this
    {
      forall id :: id in products ==> products[id].id == id
    }

    constructor (stored: map<Long, Product>)
      requires forall id :: id in stored ==> stored[id].id == id
      ensures Valid() && products == stored && calls == []
    {
      products := stored;
      calls := [];
    }

    /** `GET /products/{id}`. */
    method RetrieveProduct(id: Long) returns (r: Outcome)
      requires Valid()
      ensures id !in products ==> r == NotFoundException("product not found")
      ensures id in products ==> r == Response(OK, One(ToResource(products[id])))
      ensures r.Response? ==> r.body.resource.links == [SelfLink(id)]
    {
      if id !in products {
        return NotFoundException(NotFoundMessage("product"));
      }
      var product := products[id];
      r := Response(OK, One(ToResource(product)));
    }

    /**
     * `POST /products`. `created` is the product the service's
     * `createProduct` returns; it is stored under its id.
     */
    method CreateProduct(request: ProductDto, currentUser: User, created: Product) returns (r: Outcome)
      requires Valid()
      modifies this
      ensures Valid()
      ensures !ValidDto(request) ==>
                r == ValidationFailed(Violations(request)) && products == old(products) && calls == old(calls)
      ensures ValidDto(request) ==>
                && calls == old(calls) + [CreateCall(request.name.value, request.currency.value, request.price.value, currentUser)]
                && products == old(products)[created.id := created]
                && r == Response(CREATED, One(ToResource(created)))
    {
      if !ValidDto(request) {
        return ValidationFailed(Violations(request));
      }
      calls := calls + [CreateCall(request.name.value, request.currency.value, request.price.value, currentUser)];
      products := products[created.id := created];
      r := Response(CREATED, One(ToResource(created)));
    }

    /**
     * `PUT /products/{id}`. The payload is validated before the handler
     * runs. `updated` is the state of the fetched product once the
     * service's `updateProduct` has changed it in place; since that object
     * is the stored one, the store holds it afterwards.
     */
    method UpdateProduct(id: Long, request: ProductDto, updated: Product) returns (r: Outcome)
      requires Valid()
      requires updated.id == id
      modifies this
      ensures Valid()
      ensures !ValidDto(request) ==>
                r == ValidationFailed(Violations(request)) && products == old(products) && calls == old(calls)
      ensures ValidDto(request) && id !in old(products) ==>
                r == NotFoundException("product not found") && products == old(products) && calls == old(calls)
      ensures ValidDto(request) && id in old(products) ==>
                && calls == old(calls) + [UpdateCall(old(products)[id], request.name.value, request.currency.value, request.price.value)]
                && products == old(products)[id := updated]
                && r == Response(OK, One(ToResource(products[id])))
    {
      if !ValidDto(request) {
        return ValidationFailed(Violations(request));
      }
      if id !in products {
        return NotFoundException(NotFoundMessage("product"));
      }
      var product := products[id];
      calls := calls + [UpdateCall(product, request.name.value, request.currency.value, request.price.value)];
      products := products[id := updated];
      r := Response(OK, One(ToResource(updated)));
    }

    /** `DELETE /products/{id}`: the service's `deleteProduct` removes the fetched product. */
    method DeleteProduct(id: Long) returns (r: Outcome)
      requires Valid()
      modifies this
      ensures Valid()
      ensures id !in old(products) ==>
                r == NotFoundException("product not found") && products == old(products) && calls == old(calls)
      ensures id in old(products) ==>
                && calls == old(calls) + [DeleteCall(old(products)[id])]
                && products == old(products) - {id}
                && r == Response(NO_CONTENT, NoBody)
    {
      if id !in products {
        return NotFoundException(NotFoundMessage("product"));
      }
      var product := products[id];
      calls := calls + [DeleteCall(product)];
      products := products - {id};
      r := Response(NO_CONTENT, NoBody);
    }
  }

  /** Once a product is deleted, retrieving its id is a not-found. */
  method DeleteThenRetrieve(c: ProductController, id: Long) returns (deleted: Outcome, retrieved: Outcome)
    requires c.Valid()
    modifies c
    ensures old(id in c.products) ==> deleted == Response(NO_CONTENT, NoBody)
    ensures retrieved == NotFoundException("product not found")
  {
    deleted := c.DeleteProduct(id);
    retrieved := c.RetrieveProduct(id);
  }

  /** Following the self link of a stored product retrieves that same product. */
  method FollowSelfLink(c: ProductController, id: Long) returns (retrieved: Outcome)
    requires c.Valid() && id in c.products
    ensures retrieved == Response(OK, One(ToResource(c.products[id])))
  {
    var link := ToResource(c.products[id]).links[0];
    SelfLinkRoutesToId(c.products[id]);
    var routed := IdFromPath(link.href);
    retrieved := c.RetrieveProduct(routed.value);
  }
}
