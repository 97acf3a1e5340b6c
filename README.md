# Product catalog API: resource assembly and product handlers

A Dafny model of the product endpoint of a Spring Boot catalog backend.
It covers two pieces:

- **ProductResourceAssembler**. It turns a stored `Product` into the `ProductResource` sent to clients. Name and price are copied. The currency is always the system constant `Product.CURRENCY`. Categories are expanded to `CategoryResource`s only when there is at least one, otherwise they are absent (null). The owner appears only as a username. A self link `/products/<id>` is added.
- **ProductController**. It covers the Bean Validation constraints of the `ProductDto` payload and the get / create / update / delete handlers. Each id-based handler looks the id up first and throws `NotFoundException("product")` ("product not found") when it is missing, before any mutating service call is made.

Modules, one per file:

| file | module | models |
|---|---|---|
| wrappers.dfy | `Wrappers` | `Option`, standing for a nullable reference |
| java_long.dfy | `JavaLong` | Java `Long`: its range, `Long.toString` and `Long.parseLong` |
| entities.dfy | `Entities` | `Product`, `Category`, `User` and `Product.CURRENCY` |
| assembler.dfy | `Assembler` | `ProductResourceAssembler` and the resource types |
| controller.dfy | `Controller` | `ProductDto` validation, routing of `/products/{id}`, the handlers |

The product service, the security service and the repository sit behind the controller. Their code is not part of this model. The class `Controller.ProductController` models their observable state:

- `products` is what `getProductById` answers.
- `calls` logs, in order, every `createProduct`, `updateProduct` and `deleteProduct` call the controller makes.

What those services return arrives as a method parameter:

- the current user (`currentUser`);
- the product `createProduct` returns (`created`);
- the state of the fetched product after `updateProduct` has changed it in place (`updated`).

The model stores the created product under its id and the updated state under the same id. It removes a deleted id. It never says how the service computes those values. In particular, the model does not decide what the service does with the requested currency.

Three points of reading:

- Search filters are parsed and compiled entirely by an external library (`@SearchSpec`), so the search endpoint is left out.
- A missing product throws `NotFoundException`. The HTTP status comes from an exception handler that is not part of this model, so the outcome is the exception with its message.
- Categories keep the order in which the entity yields them.

## Model

| member | source | states |
|---|---|---|
| `Assembler.ToCategoryResources` | src/main/java/com/publicis/ecommerce/api/assembler/ProductResourceAssembler.java:31 | one `CategoryResource` per category, in the same order, each carrying only that category's name |
| `Assembler.ResourceCopiesFields` | src/main/java/com/publicis/ecommerce/api/assembler/ProductResourceAssembler.java:28-32 | the resource's name and price are the entity's, and its owner is the owner's username string |
| `Assembler.CurrencyIsConstant` | src/main/java/com/publicis/ecommerce/api/assembler/ProductResourceAssembler.java:29 | the resource's currency is `Product.CURRENCY`, and changing the entity's stored currency never changes the resource |
| `Assembler.CategoriesAbsentIffEmpty` | src/main/java/com/publicis/ecommerce/api/assembler/ProductResourceAssembler.java:31 | categories are absent (null) if and only if the entity's categories are null or empty; they are never an empty list |
| `Assembler.CategoriesExpanded` | src/main/java/com/publicis/ecommerce/api/assembler/ProductResourceAssembler.java:31 | with at least one category, the list is present and non-empty, has one entry per category, and each entry has that category's name |
| `Assembler.ResourceDependsOnlyOnExposedFields` | src/main/java/com/publicis/ecommerce/api/assembler/ProductResourceAssembler.java:26-39 | two entities that agree on id, name, price, owner username and category names yield the same resource, whatever their stored currency, owner id or category ids |
| `Assembler.ResourceLinksToItself` | src/main/java/com/publicis/ecommerce/api/assembler/ProductResourceAssembler.java:36-39 | the resource has exactly one link, rel `self`, `/products/` followed by the entity's id |
| `Assembler.SelfLinksDistinguishIds` | src/main/java/com/publicis/ecommerce/api/assembler/ProductResourceAssembler.java:36-39 | products with different ids get different self links |
| `JavaLong.ParseToText` | src/main/java/com/publicis/ecommerce/api/assembler/ProductResourceAssembler.java:38 | parsing the decimal text of a Long id gives back that id |
| `JavaLong.ToTextInjective` | src/main/java/com/publicis/ecommerce/api/assembler/ProductResourceAssembler.java:38 | distinct Long ids have distinct decimal texts |
| `Controller.ValidIffNoViolations` | src/main/java/com/publicis/ecommerce/api/controller/ProductController.java:107-116 | a payload has no violation if and only if its name is non-null with 1 to 300 characters, its currency is non-null with exactly 3, and its price is non-null and at least 0 |
| `Controller.ViolationsPinpointFields` | src/main/java/com/publicis/ecommerce/api/controller/ProductController.java:107-116 | each field is reported if and only if its own constraints fail, and at most once, since a null field fails only `@NotNull` |
| `Controller.MissingPriceReportedAsMissingName` | src/main/java/com/publicis/ecommerce/api/controller/ProductController.java:114 | with the messages as written, a payload missing only its price gets one violation on the price that says "name is required" |
| `Controller.AsWrittenMessagesCollide` | src/main/java/com/publicis/ecommerce/api/controller/ProductController.java:108-114 | with the messages as written, a missing name and a missing price carry the same message |
| `Controller.MessagesIdentifyTheirField` | src/main/java/com/publicis/ecommerce/api/controller/ProductController.java:107-116 | with the price message corrected, two violations that carry the same message are on the same field |
| `Controller.SelfLinkRoutesToId` | src/main/java/com/publicis/ecommerce/api/controller/ProductController.java:63-64 | the self link of a product, matched against `/products/{id}` and bound to a Long, gives that product's id |
| `Controller.ProductController.RetrieveProduct` | src/main/java/com/publicis/ecommerce/api/controller/ProductController.java:63-70 | an absent id throws NotFoundException "product not found"; a present id gives 200 with the assembly of the stored product, whose self link names the requested id |
| `Controller.ProductController.CreateProduct` | src/main/java/com/publicis/ecommerce/api/controller/ProductController.java:72-80 | an invalid payload fails validation with no service call; a valid one calls `createProduct` once with the payload's name, currency and price and the current user as owner, and answers 201 with the assembly of the product returned |
| `Controller.ProductController.UpdateProduct` | src/main/java/com/publicis/ecommerce/api/controller/ProductController.java:82-92 | an invalid payload fails validation; an absent id throws NotFoundException and leaves the store and the call log unchanged; otherwise `updateProduct` is called once on the fetched product, and the answer is 200 with the assembly of that same product after the update |
| `Controller.ProductController.DeleteProduct` | src/main/java/com/publicis/ecommerce/api/controller/ProductController.java:94-104 | an absent id throws NotFoundException and deletes nothing; a present id calls `deleteProduct` once on the fetched product, removes it and answers 204 with no body |
| `Controller.DeleteThenRetrieve` | src/main/java/com/publicis/ecommerce/api/controller/ProductController.java:94-104 | after a product is deleted, retrieving its id throws NotFoundException |
| `Controller.FollowSelfLink` | src/main/java/com/publicis/ecommerce/api/assembler/ProductResourceAssembler.java:36-39 | following the self link of a stored product retrieves that same product |

## Left out

- `retrieveAllProducts` (ProductController.java:49-55): page selection is done by the product service and page metadata and links by Spring's `PagedResourcesAssembler`, neither of which is part of this model.
- `searchForProducts` (ProductController.java:57-61): the filter expression is parsed and compiled by the external `@SearchSpec` library and run by the repository; none of that code is part of this model.
- The product service, the security service and the repository: their results are parameters of the handlers (see above), because their code is not part of this model.
- Controller.ProductController.CreateProduct: an invalid payload is reported with the corrected violations (`Controller.Violations`), so a missing price says "price is required" where the code as written says "name is required" (see Findings; the as-written set is `Controller.ViolationsAsWritten`).
- Controller.ProductController.UpdateProduct: an invalid payload is reported with the corrected violations (`Controller.Violations`), so a missing price says "price is required" where the code as written says "name is required" (see Findings).
- Controller.ProductController.Valid: assumes the service's lookup answers a product carrying the id asked for. The third ensures of `Controller.ProductController.RetrieveProduct` (its self link names the requested id) rests on it.
- Controller.ProductController.UpdateProduct: it requires the updated product to keep its id. This is an assumption about the hidden service: the identifier of a stored entity does not change.
- Controller.ProductController.CreateProduct: it stores the returned product under its id without requiring that id to be new, because the service that assigns the id is not part of this model.
- Aliasing: products are values. The in-place change made by `updateProduct` is modelled as the store's entry for that id becoming the updated state. Other references to the same object are not modelled.
- `CategoryResourceAssembler` is not part of this model. A category's representation is modelled by its name alone; any links it adds are left out.
- Links hold only the path. The scheme, host and port that Spring takes from the current request are left out.
- Controller.IdFromPath: it models only the `/products/{id}` path with a decimal `Long` segment. Spring's number conversion also trims whitespace and accepts hex literals (`Long.decode`, so `/products/0x10` reaches the handlers with id 16); the model answers None for those. Spring's path-matching options (trailing slash, suffix patterns, URL decoding) are left out too.
- The HTTP status chosen for `NotFoundException` and for a failed `@Valid` check is left out: the exception handlers are not part of this model.
- `Product.CURRENCY` is left unspecified, because the entity class that declares it is not part of this model.
- `@Size` counts UTF-16 code units in Java. The model counts Dafny characters (Unicode scalar values), so the two differ for characters outside the Basic Multilingual Plane.
- The default messages of `@NotNull` on the currency and of `@Min` come from the validation provider. They are modelled as "no custom message".
- Price is a `real`: the NaN, infinity and negative-zero cases of `Double` are left out.
- `Long.parseLong` also accepts non-ASCII Unicode digits. The model accepts ASCII digits only.
- `UserRepository` has no logic (Spring Data generates its queries). `ECommerceApp` is only the bootstrap. Dependency injection and concurrency are left out.

## Findings

| source | as written | input that shows it | evidently intended | confidence | as-written member | corrected member |
|---|---|---|---|---|---|---|
| src/main/java/com/publicis/ecommerce/api/controller/ProductController.java:114 | the price's `@NotNull` carries the message "name is required", copied from the name at line 108 | the payload `{name: "Lamp", currency: "EUR", price: null}` gets one violation, on the price, saying "name is required" | a message naming the price, such as "price is required" | high; not executed | `Controller.ViolationsAsWritten`, shown by `Controller.MissingPriceReportedAsMissingName` and `Controller.AsWrittenMessagesCollide` | `Controller.Violations`, with `Controller.MessagesIdentifyTheirField`; the handlers report these violations |
