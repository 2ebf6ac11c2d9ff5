/**
 * The product catalogue: the rows of table `produto`, the product listing
 * with its search box, the alphabetical stock page, and the validation and
 * conversion of the add/edit product form.
 */
module Catalog {
  import opened Wrappers
  import opened Text

  type ProductId = int
  type CategoryId = int

  /** A row of table `produto`. */
  datatype Product = Product(
    name: string,
    description: string,
    stock: int,
    minimum: int,
    location: string,
    category: CategoryId)

  /** A row of the product listing: the product joined with the name of its category. */
  datatype Row = Row(
    id: ProductId,
    name: string,
    description: string,
    stock: int,
    minimum: int,
    location: string,
    categoryName: string,
    category: CategoryId)

  /** A row of the stock page. */
  datatype StockRow = StockRow(id: ProductId, name: string, stock: int, minimum: int)

  /**
   * SQLite's INTEGER range. Binding a Python integer outside it raises
   * OverflowError, and the statement writes nothing.
   */
  const Int64Min: int := -0x8000_0000_0000_0000
  const Int64Max: int := 0x7FFF_FFFF_FFFF_FFFF

  predicate IsInt64(x: int)
  {
    Int64Min <= x <= Int64Max
  }

  /** Every product id of the table lies in `[1, bound)`. */
  predicate IdsBelow(products: map<ProductId, Product>, bound: ProductId)
  {
    forall id :: id in products ==> 1 <= id < bound
  }

  // ---------------------------------------------------------------------------
  // Table scan
  // ---------------------------------------------------------------------------

  predicate Increasing(ids: seq<ProductId>)
  {
    forall i, j :: 0 <= i < j < |ids| ==> ids[i] < ids[j]
  }

  /** The ids of the table below `bound`, in ascending order (the order of a rowid scan). */
  function Scan(products: map<ProductId, Product>, bound: ProductId): (ids: seq<ProductId>)
    ensures forall id :: id in ids <==> id in products && 1 <= id < bound
    ensures Increasing(ids)
    decreases bound
  {
    if bound <= 1 then []
    else
      var below := Scan(products, bound - 1);
      assert forall i :: 0 <= i < |below| ==> below[i] in below;
      below + (if bound - 1 in products then [bound - 1] else [])
  }

  // ---------------------------------------------------------------------------
  // Product listing
  // ---------------------------------------------------------------------------

  function RowOf(id: ProductId, p: Product, categoryName: string): Row
  {
    Row(id, p.name, p.description, p.stock, p.minimum, p.location, categoryName, p.category)
  }

  /** Product `id` survives the inner join with the category table, giving `row`. */
  predicate Joins(products: map<ProductId, Product>, categories: map<CategoryId, string>, id: ProductId, row: Row)
  {
    && id in products
    && products[id].category in categories
    && row == RowOf(id, products[id], categories[products[id].category])
  }

  /** Row ids strictly ascend, so no product is listed twice. */
  predicate IncreasingIds(rows: seq<Row>)
  {
    forall i, j :: 0 <= i < j < |rows| ==> rows[i].id < rows[j].id
  }

  /** `produto p JOIN categoria c ON p.fk_id_categoria = c.id_categoria`, over the given ids. */
  function Join(ids: seq<ProductId>, products: map<ProductId, Product>, categories: map<CategoryId, string>): (rows: seq<Row>)
    requires forall id :: id in ids ==> id in products
    ensures forall row :: row in rows <==> row.id in ids && Joins(products, categories, row.id, row)
    ensures Increasing(ids) ==> IncreasingIds(rows)
  {
    if ids == [] then []
    else
      var id := ids[0];
      var p := products[id];
      var rest := Join(ids[1..], products, categories);
      assert Increasing(ids) ==> forall k :: 0 <= k < |rest| ==> rest[k] in rest && id < rest[k].id;
      (if p.category in categories then [RowOf(id, p, categories[p.category])] else []) + rest
  }

  /** The `LIKE '%term%'` test on name or description. */
  predicate Matches(row: Row, term: string)
  {
    Contains(row.name, term) || Contains(row.description, term)
  }

  /** Keeps, in order, the rows that match `term`. */
  function Filter(rows: seq<Row>, term: string): (r: seq<Row>)
    ensures |r| <= |rows|
    ensures forall row :: row in r <==> row in rows && Matches(row, term)
  {
    if rows == [] then []
    else (if Matches(rows[0], term) then [rows[0]] else []) + Filter(rows[1..], term)
  }

  /** Filtering keeps the rows in id order. */
  lemma {:induction false} FilterKeepsOrder(rows: seq<Row>, term: string)
    requires IncreasingIds(rows)
    ensures IncreasingIds(Filter(rows, term))
  {
    if rows != [] {
      FilterKeepsOrder(rows[1..], term);
      var rest := Filter(rows[1..], term);
      forall k | 0 <= k < |rest| ensures rows[0].id < rest[k].id {
        assert rest[k] in rest;
        var i :| 0 <= i < |rows[1..]| && rows[1..][i] == rest[k];
        assert rows[i + 1] == rest[k];
      }
      var r := Filter(rows, term);
      forall i, j | 0 <= i < j < |r| ensures r[i].id < r[j].id {
        if Matches(rows[0], term) {
          if i > 0 {
            assert r[i] == rest[i - 1] && r[j] == rest[j - 1];
          } else {
            assert r[j] == rest[j - 1];
          }
        } else {
          assert r[i] == rest[i] && r[j] == rest[j];
        }
      }
    }
  }

  /** The search box: an empty term lists everything, any other term filters. */
  function Search(rows: seq<Row>, term: string): seq<Row>
  {
    if term == [] then rows else Filter(rows, term)
  }

  /** A row is shown iff it is in the table and the term occurs in its name or description. */
  lemma SearchSpec(rows: seq<Row>, term: string, row: Row)
    ensures row in Search(rows, term) <==>
              row in rows && (IsSubstring(term, row.name) || IsSubstring(term, row.description))
  {
    ContainsIsSubstring(row.name, term);
    ContainsIsSubstring(row.description, term);
    if term == [] {
      EmptyTermOccurs(row.name);
    }
  }

  /**
   * The product listing of the catalogue page: only joined product rows,
   * each matching the term unless the term is empty, each product at most
   * once. For a `Store` in its valid state the page shows
   * `Listing(products, categories, nextId, term)`; `Valid()` gives the
   * `IdsBelow` that `ListingSpec` needs.
   */
  function Listing(products: map<ProductId, Product>, categories: map<CategoryId, string>,
                   bound: ProductId, term: string): (r: seq<Row>)
    ensures forall row :: row in r ==> Joins(products, categories, row.id, row)
    ensures forall row :: row in r ==> term == [] || Matches(row, term)
    ensures IncreasingIds(r)
  {
    var rows := Join(Scan(products, bound), products, categories);
    FilterKeepsOrder(rows, term);
    Search(rows, term)
  }

  /**
   * A row is listed iff its product is in the table, its category exists,
   * and the term is empty or occurs in the name or the description.
   */
  lemma ListingSpec(products: map<ProductId, Product>, categories: map<CategoryId, string>,
                    bound: ProductId, term: string, row: Row)
    requires IdsBelow(products, bound)
    ensures row in Listing(products, categories, bound, term) <==>
              && Joins(products, categories, row.id, row)
              && (term == [] || IsSubstring(term, row.name) || IsSubstring(term, row.description))
  {
    var rows := Join(Scan(products, bound), products, categories);
    SearchSpec(rows, term, row);
    if term == [] {
      ContainsIsSubstring(row.name, term);
      EmptyTermOccurs(row.name);
    }
  }

  // ---------------------------------------------------------------------------
  // Stock page: `ORDER BY nome ASC`
  // ---------------------------------------------------------------------------

  function StockRowOf(id: ProductId, p: Product): StockRow
  {
    StockRow(id, p.name, p.stock, p.minimum)
  }

  function StockRows(ids: seq<ProductId>, products: map<ProductId, Product>): (rows: seq<StockRow>)
    requires forall id :: id in ids ==> id in products
    ensures |rows| == |ids|
    ensures forall i :: 0 <= i < |ids| ==> rows[i] == StockRowOf(ids[i], products[ids[i]])
  {
    if ids == [] then []
    else [StockRowOf(ids[0], products[ids[0]])] + StockRows(ids[1..], products)
  }

  predicate NameOrdered(rows: seq<StockRow>)
  {
    forall i, j :: 0 <= i < j < |rows| ==> LexLe(rows[i].name, rows[j].name)
  }

  /** Places `x` before the first row whose name is not smaller. */
  function Insert(x: StockRow, rows: seq<StockRow>): (r: seq<StockRow>)
    ensures multiset(r) == multiset(rows) + multiset{x}
  {
    if rows == [] || LexLe(x.name, rows[0].name) then [x] + rows
    else
      assert rows == [rows[0]] + rows[1..];
      [rows[0]] + Insert(x, rows[1..])
  }

  function SortByName(rows: seq<StockRow>): (r: seq<StockRow>)
    ensures multiset(r) == multiset(rows)
  {
    if rows == [] then []
    else
      assert rows == [rows[0]] + rows[1..];
      Insert(rows[0], SortByName(rows[1..]))
  }

  lemma {:induction false} InsertOrdered(x: StockRow, rows: seq<StockRow>)
    requires NameOrdered(rows)
    ensures NameOrdered(Insert(x, rows))
    decreases |rows|
  {
    if rows == [] {
    } else if LexLe(x.name, rows[0].name) {
      var r := [x] + rows;
      forall i, j | 0 <= i < j < |r| ensures LexLe(r[i].name, r[j].name) {
        if i == 0 && j > 1 {
          LexLeTransitive(x.name, rows[0].name, rows[j - 1].name);
        }
      }
    } else {
      LexLeTotal(x.name, rows[0].name);
      InsertOrdered(x, rows[1..]);
      var tail := Insert(x, rows[1..]);
      var r := [rows[0]] + tail;
      forall k | 0 <= k < |tail| ensures LexLe(rows[0].name, tail[k].name) {
        assert tail[k] in multiset(tail);
        assert tail[k] == x || tail[k] in rows[1..];
      }
      forall i, j | 0 <= i < j < |r| ensures LexLe(r[i].name, r[j].name) {
        if i > 0 {
          assert r[i] == tail[i - 1] && r[j] == tail[j - 1];
        } else {
          assert r[j] == tail[j - 1];
        }
      }
    }
  }

  lemma {:induction false} SortByNameOrdered(rows: seq<StockRow>)
    ensures NameOrdered(SortByName(rows))
    decreases |rows|
  {
    if rows != [] {
      SortByNameOrdered(rows[1..]);
      InsertOrdered(rows[0], SortByName(rows[1..]));
    }
  }

  /** The stock page: every product of the table, in ascending name order. */
  function StockPage(products: map<ProductId, Product>, bound: ProductId): (page: seq<StockRow>)
    ensures NameOrdered(page)
    ensures multiset(page) == multiset(StockRows(Scan(products, bound), products))
  {
    var rows := StockRows(Scan(products, bound), products);
    SortByNameOrdered(rows);
    SortByName(rows)
  }

  /** The stock page holds a row iff it is some product's (id, name, stock, minimum). */
  lemma StockPageRows(products: map<ProductId, Product>, bound: ProductId, row: StockRow)
    requires IdsBelow(products, bound)
    ensures row in StockPage(products, bound) <==>
              row.id in products && row == StockRowOf(row.id, products[row.id])
  {
    var ids := Scan(products, bound);
    var rows := StockRows(ids, products);
    assert row in StockPage(products, bound) <==> row in multiset(rows);
    if row in rows {
      var i :| 0 <= i < |rows| && rows[i] == row;
      assert ids[i] == row.id;
    }
    if row.id in products && row == StockRowOf(row.id, products[row.id]) {
      var i :| 0 <= i < |ids| && ids[i] == row.id;
      assert rows[i] == row;
    }
  }

  // ---------------------------------------------------------------------------
  // Add / edit form
  // ---------------------------------------------------------------------------

  /**
   * The fields posted by the add and edit forms. `name` and `category` are
   * always posted; the others may be absent (`request.form.get`).
   */
  datatype ProductForm = ProductForm(
    name: string,
    category: string,
    description: Option<string>,
    minimum: Option<string>,
    location: Option<string>)

  /** The converted fields written to the table. */
  datatype Fields = Fields(
    name: string,
    description: string,
    minimum: int,
    location: string,
    category: CategoryId)

  datatype FormError =
    | MissingNameOrCategory   // "Nome e Categoria são obrigatórios!"
    | NotANumber              // `int(...)` raised inside the write
    | NumberOutOfRange        // a number outside SQLite's INTEGER range could not be bound

  /** `not nome or not categoria` fails. */
  predicate HasRequired(form: ProductForm)
  {
    form.name != [] && form.category != []
  }

  function OrEmpty(s: Option<string>): string
  {
    if s.Some? then s.value else ""
  }

  /** `request.form.get('estoque_minimo', 0)` followed by `int(...)`. */
  function MinimumOf(form: ProductForm): Option<int>
  {
    if form.minimum.None? then Some(0) else ParseInt(form.minimum.value)
  }

  /**
   * Validation first, then the integer conversions done in the write, then
   * the range check SQLite makes when the numbers are bound.
   */
  function ReadForm(form: ProductForm): (r: Result<Fields, FormError>)
    ensures r == Err(MissingNameOrCategory) <==> !HasRequired(form)
    ensures r == Err(NotANumber) <==>
              HasRequired(form) && (MinimumOf(form).None? || ParseInt(form.category).None?)
    ensures r.Ok? <==>
              && HasRequired(form) && MinimumOf(form).Some? && ParseInt(form.category).Some?
              && IsInt64(MinimumOf(form).value) && IsInt64(ParseInt(form.category).value)
    ensures r.Ok? ==>
              && r.value.name == form.name
              && r.value.description == OrEmpty(form.description)
              && r.value.location == OrEmpty(form.location)
              && Some(r.value.minimum) == MinimumOf(form)
              && Some(r.value.category) == ParseInt(form.category)
  {
    if !HasRequired(form) then Err(MissingNameOrCategory)
    else
      var minimum := MinimumOf(form);
      var category := ParseInt(form.category);
      if minimum.None? || category.None? then Err(NotANumber)
      else if !IsInt64(minimum.value) || !IsInt64(category.value) then Err(NumberOutOfRange)
      else Ok(Fields(form.name, OrEmpty(form.description), minimum.value,
                     OrEmpty(form.location), category.value))
  }

  /** The form as a page fills it in from stored fields. */
  function FormFor(f: Fields): ProductForm
  {
    ProductForm(f.name, FormatInt(f.category), Some(f.description), Some(FormatInt(f.minimum)), Some(f.location))
  }

  /**
   * Posting back a filled-in form with a non-empty name reads the same
   * fields (stored numbers are always within SQLite's INTEGER range).
   */
  lemma ReadFormRoundTrip(f: Fields)
    requires f.name != [] && IsInt64(f.minimum) && IsInt64(f.category)
    ensures ReadForm(FormFor(f)) == Ok(f)
  {
    ParseFormatInt(f.category);
    ParseFormatInt(f.minimum);
  }
}
