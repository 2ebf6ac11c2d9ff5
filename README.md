# Stock ledger of a small inventory web application

This project models the business core of a Flask + SQLite inventory
application (`app.py`). It covers the stock-movement transaction of
`movimentar_estoque` and the catalogue operations around the same product
table: add and edit product with their form validation, the product listing
with its search box, and the alphabetical stock page. Login is modelled as a
function with the password-hash check passed in as a parameter.

State is a `Store` object (`inventory.dfy`). It holds table `produto` as a map
from product id to row, table `movimento` as an append-only sequence, and the
category table, which the application only reads. A store is opened on the
database the setup script created and populated: seeded product rows, a
seeded movement log and the category table. A ghost map `start` records each
product's starting stock: the column default for a product inserted later, and
for a seeded row its stock minus the net flow of the seeded log. The invariant
`Valid()` includes the audit invariant: every product's stock equals its own
starting stock plus the signed sum of its movements, where "saida" counts
negative and every other kind counts positive. It also says that no stock is
negative.

Modules:
- `Wrappers` (`wrappers.dfy`): `Option`, `Result`, `Outcome`.
- `Text` (`text.dfy`): substring search, the text order of `ORDER BY nome`,
  and `int(...)` / `str(...)` for decimal integers.
- `Catalog` (`catalog.dfy`): product rows, the listing (scan, join, search
  filter), the stock page (sort by name), and the add/edit form.
- `Ledger` (`ledger.dfy`): movement records, their signed quantities and the
  net flow per product.
- `Auth` (`auth.dfy`): login.
- `Inventory` (`inventory.dfy`): the `Store` class with `AddProduct`,
  `EditProduct` and `ApplyMovement`, and three client methods
  (`WidgetScenario`, `SeededScenario`, `OverflowScenario`) that exercise them.

Integers are unbounded in Dafny, but SQLite stores INTEGER values as signed
64-bit numbers. Binding a Python integer outside `[-2^63, 2^63)` raises an
overflow error, the handler catches it, and nothing is written. The model
states this range (`Catalog.IsInt64`) and refuses such numbers where the
handlers bind them.

For a store `s` in its valid state, the catalogue page shows
`Listing(s.products, s.categories, s.nextId, term)` and the stock page shows
`StockPage(s.products, s.nextId)`. `Valid()` gives the `IdsBelow` fact that
their lemmas require.

Behaviour of the code that the model keeps as written:
- The quantity is checked before the product is looked up. A non-positive
  quantity for an unknown product is reported as a bad quantity.
- Any movement kind other than the exact text "saida" is an entry. The kind is
  stored as given.
- The listing joins each product with its category (an inner join). A product
  whose category id has no category row is never listed, even with an empty
  search term. No connection enables foreign-key enforcement, so add and edit
  accept such a category id.
- A new product's stock is not written by the insert. It comes from the
  column default, which the model takes as the `defaultStock` parameter of
  the store.
- Editing a product id that does not exist updates no row, and the edit is
  still reported as successful.

## Model

| member | source | states |
|---|---|---|
| `Inventory.Store.ApplyMovement` | app.py:259-333 | Checks run in this order: non-positive quantity, a product id outside the 64-bit range, unknown product, "saida" beyond the stock (the error carries the name and the available stock), then an entry whose new stock would leave the 64-bit range. A refusal leaves products and log unchanged. On success the stock becomes old stock plus the signed quantity and stays in `[0, 2^63)`. Only that product's stock changes. Exactly one record (kind, quantity, product, user) is appended. A warning (name, stock, minimum) is returned iff the new stock is strictly below the minimum. `Valid()`, and with it the audit invariant, is preserved. |
| `Inventory.Store.AddProduct` | app.py:143-174 | A form with a missing name/category, a non-numeric field, or a number outside the 64-bit range leaves the table unchanged and returns that error. Otherwise exactly one new row is inserted under a fresh id, with the form's fields and the default stock. The log is untouched and `Valid()` is preserved. |
| `Inventory.Store.EditProduct` | app.py:177-210 | Same validation as add, with no write on failure. On success only name, description, minimum, location and category of that product are rewritten. Its stock, the other rows, the ids and the log are unchanged. An id outside the 64-bit range fails and changes nothing. Any other unknown id changes nothing and still passes. |
| `Inventory.Store.constructor` | init_db.py:31-35 | The store holds exactly the seeded rows, log and categories. Each seeded row's starting stock is its stock minus its seeded net flow, so `Valid()` holds from the start. |
| `Ledger.NetFlowAppend` | app.py:304-310 | Appending one movement changes the net flow of its own product by its signed quantity and leaves every other product's net flow unchanged. This is the step that keeps stock equal to starting stock plus net flow. |
| `Ledger.NetFlowUnreferenced` | app.py:162-165 | A product that no movement names has net flow zero, so a new row satisfies the audit invariant. |
| `Catalog.ReadForm` | app.py:149-165 | Fails with the missing-field error iff name or category is empty. Otherwise it fails as not a number iff the minimum (0 when absent) or the category does not convert. It succeeds iff both convert and lie in the 64-bit range. A success carries the name, the description and location ("" when absent), and the converted minimum and category. |
| `Catalog.ReadFormRoundTrip` | app.py:182-201 | A form filled in from stored fields (numbers printed in decimal, within the 64-bit range), with a non-empty name, reads back exactly those fields. |
| `Text.ParseFormatInt` | app.py:165 | `int(str(n)) == n` for every integer n. |
| `Text.ContainsIsSubstring` | app.py:121-123 | The executable search answers true iff the term occurs at some position of the text (the `LIKE '%term%'` test). |
| `Catalog.Scan` | app.py:126-131 | The scan yields exactly the table's ids below the bound, strictly ascending. |
| `Catalog.Listing` | app.py:116-131 | Every listed row is a product of the table joined with its existing category. Unless the term is empty, each listed row's name or description contains the term. Row ids strictly ascend, so no product appears twice. The converse is `Catalog.ListingSpec`. |
| `Catalog.Join` | app.py:117-120 | A row comes out of the join iff its product is among the scanned ids, its category exists, and the row carries the product's fields and the category's name. Ascending ids give ascending row ids. |
| `Catalog.Filter` | app.py:121-123 | Keeps exactly the rows whose name or description contains the term, and never adds rows. |
| `Catalog.FilterKeepsOrder` | app.py:121-123 | Filtering rows with ascending ids leaves them ascending. |
| `Catalog.SearchSpec` | app.py:116-131 | A row is shown iff it is in the table and the term occurs in its name or its description (the empty term occurs everywhere). |
| `Catalog.ListingSpec` | app.py:116-131 | A row is listed iff its product exists, its category exists, the row carries their fields, and the term is empty or occurs in the name or the description. |
| `Catalog.StockRows` | app.py:247-248 | The projection keeps one row per scanned id, in scan order, carrying that product's id, name, stock and minimum. |
| `Catalog.Insert` | app.py:246-251 | Inserting a row into the stock page adds exactly that row. |
| `Catalog.SortByName` | app.py:246-251 | Sorting by name is a permutation. |
| `Catalog.InsertOrdered` | app.py:246-251 | Inserting into a name-ordered page keeps it name-ordered. |
| `Catalog.SortByNameOrdered` | app.py:246-251 | The sorted page is ordered by name for every pair of rows. |
| `Catalog.StockPage` | app.py:246-251 | The stock page is ordered by name and is a permutation of the projected table scan. Which rows it holds is `Catalog.StockPageRows`. |
| `Catalog.StockPageRows` | app.py:246-251 | The stock page holds a row iff that row is some product's (id, name, stock, minimum). |
| `Text.LexLeTotal` | app.py:249 | Any two names are comparable under the name order. |
| `Text.LexLeTransitive` | app.py:249 | The name order is transitive. |
| `Text.LexLeAntisymmetric` | app.py:249 | Names that sort both ways are equal. |
| `Auth.Login` | app.py:63-80 | Login succeeds iff the login exists and the hash check answers true, and it returns that user's id and name. An unknown login fails with the generic "invalid login or password" error, and so does a hash check that answers false. The hash check is made only for a known login. When it raises, the result is the distinct "error during login" failure. |
| `Auth.WrongPasswordLooksUnknown` | app.py:68-76 | While the hash check answers, a wrong password for a known login gives exactly the result of an unknown login. |

## Left out

- Routing, templates, flash messages as UI, redirects and the session gate
  (`login_required`). These are web plumbing. Flash texts appear only as error and
  warning values.
- The password-hash comparison (bcrypt). It is a foreign call and is a
  parameter of `Auth.Login` that either answers or raises. Which stored hashes
  make it raise is not modelled. For such an account, a wrong password shows
  "error during login" rather than the generic message, so it can be told
  apart from an unknown login.
- Inventory.Store.constructor: requires the setup script's data to be
  consistent. Seeded stocks must be non-negative, ids must be below the first
  free id, and seeded movements must name seeded products with positive
  quantities. The script itself is not part of this model.
- Connection management, cursors, and commit/rollback after unexpected
  exceptions. `ApplyMovement` is atomic: it either makes both writes or changes nothing.
- The read-then-write race between concurrent withdrawals. The model is sequential.
- Delete. No connection turns on foreign-key enforcement, so the `DELETE`
  neither cascades nor is refused. It removes the product and leaves movement
  rows naming a product that no longer exists. The model's invariant `Valid()`
  requires every movement to name a product, so delete is not modelled.
- The history page. It reads another database file and table that the ledger
  never writes.
- The schema's column default for a new product's stock. It is the `defaultStock` parameter.
- SQLite `LIKE` details: case folding, and `%` / `_` inside the term acting as
  wildcards. The model uses plain substring matching.
- The order of the product listing. The query has no `ORDER BY`. The model
  lists in ascending id (rowid) order, which SQLite does not promise.
- Ties in `ORDER BY nome`. The model's sort is stable; SQLite promises no
  order among equal names.
- Python `int(...)` beyond an optional sign and ASCII digits: surrounding
  whitespace, underscores and non-ASCII digits.
- Catalog.ReadForm: Python refuses `int(...)` of more than 4300 digits with a
  conversion error. The model reports such a number as out of range instead.
  Both end in the same caught exception, with nothing written.
- Inventory.Store.AddProduct: running out of row ids is not modelled. The
  model keeps numbering ids past `2^63 - 1`. What SQLite does then depends on
  the schema.
- Conversion of the movement form's product id and quantity. A failing
  `int(...)` there ends in the generic error with nothing written. The model's
  `ApplyMovement` takes the integers already converted.
- Timestamps of movements and the movement id. They come from the database clock and rowid.
- Missing `nome` or `categoria` keys in the posted form. The framework answers
  those with a "bad request" before the handler logic runs.
- The database setup script runner. It only checks whether a file exists and runs a script.
