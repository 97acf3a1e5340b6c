/**
 * ProductResourceAssembler: turns a Product entity into the
 * ProductResource representation sent to clients, with its self link.
 */
module Assembler {
  import opened Wrappers
  import opened JavaLong
  import opened Entities

  /** The path ProductController is mapped to. */
  const PRODUCTS_PATH: string := "/products"

  datatype Link = Link(rel: string, href: string)

  datatype CategoryResource = CategoryResource(name: string)

  datatype ProductResource = ProductResource(
    name: string,
    currency: string,
    price: real,
    categories: Option<seq<CategoryResource>>,
    owner: string,
    links: seq<Link>)

  /** `Collections.isEmpty`: true for a null or an empty collection. */
  predicate IsEmpty(cs: Option<seq<Category>>) {
    cs.None? || |cs.value| == 0
  }

  /** The category assembler's `toResources`: one resource per category, in order. */
  function ToCategoryResources(cs: seq<Category>): (rs: seq<CategoryResource>)
    ensures |rs| == |cs|
    ensures forall i :: 0 <= i < |cs| ==> rs[i] == CategoryResource(cs[i].name)
  {
    if cs == [] then [] else [CategoryResource(cs[0].name)] + ToCategoryResources(cs[1..])
  }

  /** `instantiateResource`: the representation before any link is added. */
  function InstantiateResource(p: Product): ProductResource {
    ProductResource(
      p.name,
      CURRENCY,
      p.price,
      if !IsEmpty(p.categories) then Some(ToCategoryResources(p.categories.value)) else None,
      p.owner.username,
      [])
  }

  /** The self link `createResourceWithId` adds: the controller's path, a slash, the id. */
  function SelfLink(id: Long): Link {
    Link("self", PRODUCTS_PATH + "/" + ToText(id))
  }

  /** `toResource`: the instantiated resource with its self link. */
  function ToResource(p: Product): ProductResource {
    InstantiateResource(p).(links := [SelfLink(p.id)])
  }

  /** Name and price are copied unchanged; the owner appears only as its username. */
  lemma ResourceCopiesFields(p: Product)
    ensures ToResource(p).name == p.name
    ensures ToResource(p).price == p.price
    ensures ToResource(p).owner == p.owner.username
  {
  }

  /** The currency is always Product.CURRENCY, whatever the entity stores. */
  lemma CurrencyIsConstant(p: Product, stored: string)
    ensures ToResource(p).currency == CURRENCY
    ensures ToResource(p.(currency := stored)) == ToResource(p)
  {
  }

  /** Categories are absent exactly when the entity's are null or empty. */
  lemma CategoriesAbsentIffEmpty(p: Product)
    ensures ToResource(p).categories.None? <==> (p.categories.None? || p.categories.value == [])
  {
  }

  /** Present categories are a non-empty list, one resource per category, carrying its name. */
  lemma CategoriesExpanded(p: Product)
    requires p.categories.Some? && p.categories.value != []
    ensures ToResource(p).categories.Some?
    ensures |ToResource(p).categories.value| == |p.categories.value| > 0
    ensures forall i :: 0 <= i < |p.categories.value| ==>
              ToResource(p).categories.value[i].name == p.categories.value[i].name
  {
  }

  /** The names of a product's categories, with null read as no categories. */
  function CategoryNames(cs: Option<seq<Category>>): seq<string> {
    if cs.None? then [] else seq(|cs.value|, i requires 0 <= i < |cs.value| => cs.value[i].name)
  }

  /**
   * Assembly reads only the id, name, price, category names and owner
   * username: two entities that agree on those give the same resource,
   * whatever their stored currency, owner id or category ids.
   */
  lemma ResourceDependsOnlyOnExposedFields(p: Product, q: Product)
    requires p.id == q.id && p.name == q.name && p.price == q.price
    requires p.owner.username == q.owner.username
    requires CategoryNames(p.categories) == CategoryNames(q.categories)
    ensures ToResource(p) == ToResource(q)
  {
    assert |CategoryNames(p.categories)| == |CategoryNames(q.categories)|;
    assert IsEmpty(p.categories) == IsEmpty(q.categories);
    if !IsEmpty(p.categories) {
      var a := ToCategoryResources(p.categories.value);
      var b := ToCategoryResources(q.categories.value);
      assert |a| == |b|;
      forall i | 0 <= i < |a| ensures a[i] == b[i] {
        assert CategoryNames(p.categories)[i] == CategoryNames(q.categories)[i];
      }
      assert a == b;
    }
  }

  /** The resource carries exactly one link, the self link named by the entity's id. */
  lemma ResourceLinksToItself(p: Product)
    ensures ToResource(p).links == [SelfLink(p.id)]
    ensures ToResource(p).links[0].href == PRODUCTS_PATH + "/" + ToText(p.id)
  {
  }

  /** Products with different ids get different self links. */
  lemma SelfLinksDistinguishIds(p: Product, q: Product)
    requires p.id != q.id
    ensures ToResource(p).links[0] != ToResource(q).links[0]
  {
    var hp, hq := SelfLink(p.id).href, SelfLink(q.id).href;
    if hp == hq {
      assert hp[|PRODUCTS_PATH| + 1..] == ToText(p.id);
      assert hq[|PRODUCTS_PATH| + 1..] == ToText(q.id);
      ToTextInjective(p.id, q.id);
    }
  }
}
