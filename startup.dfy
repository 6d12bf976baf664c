/** What the back end does when it starts: it adds the catalogue columns an older
    `products` table lacks, then seeds the fabric catalogue, inserting each entry only if
    no product already carries its title as name. */
module Startup {
  import opened Common
  import opened Tables
  import opened Models
  import AdminRouter

  /** The columns the migration checks, in the order it checks them. */
  const MigratedColumns: seq<string> := ["image", "file", "category", "features"]

  /** The checked columns the table does not have yet, in checking order. */
  function Missing(columns: set<string>): (r: seq<string>)
    ensures forall c :: c in r <==> c in MigratedColumns && c !in columns
  {
    Where(MigratedColumns, (c: string) => c !in columns)
  }

  /** A table made by `create_all` already has every checked column. */
  lemma FreshTableNeedsNoMigration()
    ensures Missing(ProductColumns) == []
  {
    WhereNone(MigratedColumns, (c: string) => c !in ProductColumns);
  }

  /** The column-migration loop over a table with `columns`: a column is altered in only
      when the `information_schema` count for it is 0. Returns the columns it added and
      the columns the table has afterwards. */
  method AddMissingColumns(columns: set<string>) returns (added: seq<string>, after: set<string>)
    ensures added == Missing(columns)
    ensures after == columns + (set c | c in MigratedColumns)
  {
    after := columns;
    added := [];
    for k := 0 to |MigratedColumns|
      invariant forall c :: c in after <==> c in columns || c in MigratedColumns[..k]
      invariant added == Where(MigratedColumns[..k], (c: string) => c !in columns)
    {
      var col := MigratedColumns[k];
      WhereAppend(MigratedColumns[..k], [col], (c: string) => c !in columns);
      assert MigratedColumns[..k + 1] == MigratedColumns[..k] + [col];
      if col !in after {
        after := after + {col};
        added := added + [col];
      }
    }
    assert MigratedColumns[..|MigratedColumns|] == MigratedColumns;
  }

  method MigrateColumns(db: Session) returns (added: seq<string>)
    requires db.Valid()
    modifies db
    ensures db.Valid()
    ensures added == Missing(old(db.store.productColumns))
    ensures db.store == old(db.store).(productColumns := old(db.store.productColumns) + set c | c in MigratedColumns)
  {
    var columns;
    added, columns := AddMissingColumns(db.store.productColumns);
    db.store := db.store.(productColumns := columns);
  }

  /** Running the migration a second time adds nothing. */
  lemma MigrationIdempotent(columns: set<string>)
    ensures Missing(columns + set c | c in MigratedColumns) == []
  {
    WhereNone(MigratedColumns, (c: string) => c !in columns + set c | c in MigratedColumns);
  }

  // ---------------------------------------------------------------- catalogue seeding

  datatype CatalogueEntry = CatalogueEntry(
    title: string, desc: string, file: string, category: string, features: string, image: string)

  const StaticCatalogue: seq<CatalogueEntry> := [
    CatalogueEntry("Shirting Fabrics", "Premium shirting fabrics for schools, corporates and uniforms",
      "bimmills_catalogue/P.V.SUITING (1).pdf", "Shirting", "Wrinkle-Free,Breathable,Easy Care",
      "https://images.unsplash.com/photo-1558769132-cb1aea3c6eaa?w=800&q=80"),
    CatalogueEntry("Suiting Fabrics", "Durable suiting fabrics with elegant finishes",
      "bimmills_catalogue/P.V.SUITING (2).pdf", "Suiting", "Premium Quality,Wrinkle Resistant,Professional Look",
      "https://images.unsplash.com/photo-1591047139829-d91aecb6caea?w=800&q=80"),
    CatalogueEntry("Yarn Dyed Fabrics", "Colorfast yarn dyed fabrics with rich texture",
      "bimmills_catalogue/ENIGMA YARN DYED SUTING.pdf", "Premium", "Colorfast,Rich Texture,Long Lasting",
      "https://images.unsplash.com/photo-1604006852748-903fccbc4019?w=800&q=80"),
    CatalogueEntry("Cotton Drill", "Heavy-duty cotton drill fabrics for industrial wear",
      "bimmills_catalogue/100 COTTON DRILL.pdf", "Industrial", "Heavy Duty,100% Cotton,Durable",
      "https://images.unsplash.com/photo-1586105251261-72a756497a11?w=800&q=80"),
    CatalogueEntry("Matty Fabrics", "Breathable matty fabrics for comfort uniforms",
      "bimmills_catalogue/E-18 YARN DYED MATTY.pdf", "Comfort", "Breathable,Comfortable,Uniform Ready",
      "https://images.unsplash.com/photo-1519710164239-da123dc03ef4?w=800&q=80"),
    CatalogueEntry("Enigma Series", "Premium enigma yarn dyed exclusive collection",
      "bimmills_catalogue/ENIGMA YARN DYED SUTING.pdf", "Exclusive", "Exclusive,Premium,Limited Edition",
      "https://images.unsplash.com/photo-1509631179647-0177331693ae?w=800&q=80")
  ]

  /** The row seeded for an entry: price 0, "In Stock", "Premium", the rest copied. */
  function SeedProduct(id: int, e: CatalogueEntry): Product {
    Product(id, Some(e.title), Some(e.desc), Some(0), Some("In Stock"), Some("Premium"),
            Some(e.image), Some(e.file), Some(e.category), Some(e.features))
  }

  function ProductName(p: Product): Option<string> { p.name }

  /** The products table and its id counter. */
  datatype Catalog = Catalog(products: seq<Product>, next: int)

  /** The seeding loop over `items`: an entry is added unless a product (an earlier
      seeded one included, since the session flushes before each query) has its title. */
  function Seeded(c: Catalog, items: seq<CatalogueEntry>): Catalog
    decreases |items|
  {
    if items == [] then c
    else
      var before := Seeded(c, items[..|items| - 1]);
      var e := items[|items| - 1];
      if Some(e.title) in Keys(before.products, ProductName) then before
      else Catalog(before.products + [SeedProduct(before.next, e)], before.next + 1)
  }

  /** Seeding keeps the existing products in front, gives every entry's title a product,
      and adds only rows with the seeding defaults whose names were not there before. */
  lemma {:induction false} SeededShape(c: Catalog, items: seq<CatalogueEntry>)
    ensures var r := Seeded(c, items);
      |c.products| <= |r.products| && r.products[..|c.products|] == c.products
      && r.next == c.next + (|r.products| - |c.products|)
      && (forall k :: 0 <= k < |items| ==> Some(items[k].title) in Keys(r.products, ProductName))
      && (forall k :: |c.products| <= k < |r.products| ==>
            r.products[k].price == Some(0) && r.products[k].quantity == Some("In Stock")
            && r.products[k].quality == Some("Premium")
            && r.products[k].name !in Keys(c.products, ProductName))
    decreases |items|
  {
    if items != [] {
      var init, e := items[..|items| - 1], items[|items| - 1];
      SeededShape(c, init);
      var before := Seeded(c, init);
      if Some(e.title) !in Keys(before.products, ProductName) {
        var x := SeedProduct(before.next, e);
        KeysAppend(before.products, ProductName, x);
        var after := before.products + [x];
        assert after[..|c.products|] == before.products[..|c.products|];
        forall n | n in Keys(c.products, ProductName) ensures n in Keys(before.products, ProductName) {
          var j :| 0 <= j < |c.products| && ProductName(c.products[j]) == n;
          assert before.products[j] == c.products[j];
        }
      }
      forall k | 0 <= k < |items| ensures Some(items[k].title) in Keys(Seeded(c, items).products, ProductName) {
        if k < |init| {
          assert items[k] == init[k];
        }
      }
    }
  }

  /** When every entry's title is already a product name, seeding changes nothing. */
  lemma {:induction false} SeedNothingNew(c: Catalog, items: seq<CatalogueEntry>)
    requires forall k :: 0 <= k < |items| ==> Some(items[k].title) in Keys(c.products, ProductName)
    ensures Seeded(c, items) == c
    decreases |items|
  {
    if items != [] {
      SeedNothingNew(c, items[..|items| - 1]);
    }
  }

  /** Seeding twice adds nothing the second time. */
  lemma SeedIdempotent(c: Catalog, items: seq<CatalogueEntry>)
    ensures Seeded(Seeded(c, items), items) == Seeded(c, items)
  {
    SeededShape(c, items);
    SeedNothingNew(Seeded(c, items), items);
  }

  /** The seeding loop of `run_migrations`, committed at the end. */
  method SeedCatalogue(db: Session, items: seq<CatalogueEntry>)
    requires db.Valid()
    modifies db
    ensures db.Valid()
    ensures var r := Seeded(Catalog(old(db.store.products), old(db.store.nextProductId)), items);
      db.store == old(db.store).(products := r.products, nextProductId := r.next)
  {
    var st := db.store;
    var products := st.products;
    var next := st.nextProductId;
    for k := 0 to |items|
      invariant Catalog(products, next) == Seeded(Catalog(st.products, st.nextProductId), items[..k])
      invariant Consistent(st.(products := products, nextProductId := next))
    {
      assert items[..k + 1][..k] == items[..k];
      var e := items[k];
      var present := Find(products, ProductName, Some(e.title));
      if present.None? {
        AdminRouter.CreateFabricKeepsConsistent(st.(products := products, nextProductId := next), SeedProduct(next, e));
        products := products + [SeedProduct(next, e)];
        next := next + 1;
      }
    }
    assert items[..|items|] == items;
    db.store := st.(products := products, nextProductId := next);
  }

  /** `run_migrations`, on the path where no statement fails. */
  method RunMigrations(db: Session) returns (added: seq<string>)
    requires db.Valid()
    modifies db
    ensures db.Valid()
    ensures added == Missing(old(db.store.productColumns))
    ensures var r := Seeded(Catalog(old(db.store.products), old(db.store.nextProductId)), StaticCatalogue);
      db.store == old(db.store).(productColumns := old(db.store.productColumns) + (set c | c in MigratedColumns),
                                 products := r.products, nextProductId := r.next)
  {
    added := MigrateColumns(db);
    SeedCatalogue(db, StaticCatalogue);
  }
}
