/** The public shop endpoints: the readymade products with their display defaults, one
    product by id, and the fabric catalogue. */
module ShopRouter {
  import opened Common
  import opened Strings
  import opened Tables
  import opened Models
  import AdminRouter

  const PlaceholderImage := "https://images.unsplash.com/photo-1584308666744-24d5c474f2ae?w=400"
  const DefaultQuantity := "1 unit"
  const DefaultQuality := "Standard"

  /** A readymade product as the shop shows it. */
  datatype ShopItem = ShopItem(id: int, name: string, quantity: string, quality: string, price: int, image: string)

  /** `get_readymade_product` answers 200 either way: with the product or with an
      `{"error": ...}` body. */
  datatype ItemLookup = Item(item: ShopItem) | ErrorBody(error: string)

  /** The dictionary built for each readymade product. */
  function ShopView(p: ReadymadeProduct): (r: ShopItem)
    ensures r.id == p.id && r.name == p.name && r.image == PlaceholderImage
    ensures r.quantity != "" && r.quality != ""
    ensures p.quantity != "" ==> r.quantity == p.quantity
    ensures p.quality != "" ==> r.quality == p.quality
    ensures r.price == if p.price.Some? then p.price.value else 0
  {
    ShopItem(p.id, p.name, StringOr(Some(p.quantity), DefaultQuantity),
             StringOr(Some(p.quality), DefaultQuality),
             if p.price.Some? && p.price.value != 0 then p.price.value else 0,
             PlaceholderImage)
  }

  /** `get_readymade_products`: every row, in table order. */
  function GetReadymadeProducts(rows: seq<ReadymadeProduct>): (r: seq<ShopItem>)
    ensures |r| == |rows|
    ensures forall i :: 0 <= i < |r| ==> r[i].id == rows[i].id && r[i].name == rows[i].name
    ensures forall i :: 0 <= i < |r| ==> r[i].quantity != "" && r[i].quality != ""
    ensures forall i :: 0 <= i < |r| ==> r[i] == ShopView(rows[i])
  {
    Project(rows, ShopView)
  }

  /** `get_readymade_product`. */
  function GetReadymadeProduct(rows: seq<ReadymadeProduct>, id: int): (r: ItemLookup)
    ensures r.ErrorBody? <==> id !in Keys(rows, ReadymadeKey)
    ensures r.ErrorBody? ==> r.error == "Product not found"
    ensures r.Item? ==> r.item.id == id && exists i :: 0 <= i < |rows| && r.item == ShopView(rows[i])
  {
    match Find(rows, ReadymadeKey, id)
    case None => ErrorBody("Product not found")
    case Some(i) => Item(ShopView(rows[i]))
  }

  /** A product the admin creates is sold at the price it was given, under its name. */
  lemma CreatedProductInShop(id: int, p: AdminRouter.ProductCreate)
    ensures var item := ShopView(AdminRouter.NewReadymade(id, p));
      item.id == id && item.name == p.name && item.price == p.price
      && (p.quantity != "" ==> item.quantity == p.quantity)
  {
  }

  /** A fabric as the catalogue page shows it. */
  datatype CatalogueItem = CatalogueItem(
    id: int, title: Option<string>, desc: Option<string>, category: Option<string>,
    features: seq<string>, image: Option<string>, file: Option<string>)

  /** `(f.features or "").split(",") if f.features else []`. */
  function Features(f: Option<string>): (r: seq<string>)
    ensures !TruthyString(f) ==> r == []
    ensures TruthyString(f) ==> |r| >= 1 && Join(r, [',']) == f.value
    ensures forall k :: 0 <= k < |r| ==> ',' !in r[k]
  {
    if TruthyString(f) then
      JoinSplit(f.value, ',');
      SplitPiecesFree(f.value, ',');
      Split(f.value, ',')
    else []
  }

  /** Features stored comma-joined come back as the list they were joined from. */
  lemma FeaturesRoundTrip(parts: seq<string>)
    requires |parts| >= 1 && Join(parts, [',']) != ""
    requires forall k :: 0 <= k < |parts| ==> ',' !in parts[k]
    ensures Features(Some(Join(parts, [',']))) == parts
  {
    SplitJoin(parts, ',');
  }

  function CatalogueView(p: Product): (r: CatalogueItem)
    ensures r.id == p.id && r.title == p.name && r.desc == p.description
    ensures r.category == p.category && r.image == p.image && r.file == p.file
  {
    CatalogueItem(p.id, p.name, p.description, p.category, Features(p.features), p.image, p.file)
  }

  /** `get_catalogue_products`: every fabric, in table order. */
  function GetCatalogueProducts(rows: seq<Product>): (r: seq<CatalogueItem>)
    ensures |r| == |rows|
    ensures forall i :: 0 <= i < |r| ==> r[i].title == rows[i].name && r[i].desc == rows[i].description
    ensures forall i :: 0 <= i < |r| ==> r[i].features == Features(rows[i].features)
    ensures forall i :: 0 <= i < |r| ==> r[i] == CatalogueView(rows[i])
  {
    Project(rows, CatalogueView)
  }
}
