# Shop API: query translation, identifier normalisation and record validation

This project is a Dafny model of the logic of a small e-commerce backend. The backend is a thin HTTP layer over a document store, with five collections: users, categories, products, orders and wishlist entries. It models and proves these properties of that layer:

- **Record shapes** (`schemas.dfy`, module `Schemas`). There are six record types, `User`, `Category`, `Product`, `OrderItem`, `Order` and `Wishlist`. Each has its required fields, optional fields, defaults and numeric bounds. `ValidateX` turns a raw request body (a `Document`) into a record or a `SchemaError`. `XHolds(raw, x)` says that the body carries exactly the field values of `x`, with an absent optional or defaulted field standing for its default. Each validator is proved sound against it: a success is valid and holds in the body. The completeness lemmas are the way back: a body holding a valid record is accepted as that record. Encoders `XDoc` give the document a record dumps to, and the round-trip lemmas show that a valid record survives dumping and validating again.
- **Documents** (`documents.dfy`, module `Documents`). A document is a `map<string, Value>`. A value is a string, an integer, a float, a boolean, null, a list, a nested document or a store object identifier. `Str` is Python's `str()` of a value.
- **Route handlers** (`routes.dfy`, module `Routes`):
  - The product listing builds its store filter step by step from optional parameters. `IsProductQuery` describes that filter completely, and `ProductQueryDetermined` shows that the description pins the filter down.
  - The wishlist and order listings use the fixed filter `{user_email: …}`. The category listing uses the empty filter.
  - Every listing rewrites each returned document in place in an array. `_id` is removed and `id` is set to `str(_id)`.
  - The create endpoints validate the body before anything reaches the store.
  - The store is a parameter: a `Finder` answers a find call and an `Inserter` answers an insert. Either may raise instead, with the exception's text. No handler catches such an exception, so it reaches the client as a server error (`StoreError`, `InsertError`).
- **Diagnostics** (`health.dfy`, module `Health`). `TestDatabase` assembles the status record one field at a time. Its inputs are the store handle's behaviour and the two environment variables.

## Model

| member | source | states |
|---|---|---|
| `Documents.NatToDecimal` | main.py:57 | the decimal rendering `str()` gives an integer identifier is a non-empty string of digits whose value is the number, with no leading zero (just "0" for zero) |
| `Documents.Str` | main.py:57 | `str()` of an object identifier is its hexadecimal text and of a string is the string itself. An integer renders as its decimal digits, with a leading `-` when negative. Booleans render as "True"/"False" and null as "None" |
| `Schemas.ReadStr` | schemas.py:22-23 | a required string field succeeds exactly when the key is present with a string value; an absent key fails with `Missing(key)` |
| `Schemas.ReadOptStr` | schemas.py:24 | an optional string field accepts absent, null or a string; absent and null both read as None |
| `Schemas.ReadStrOr` | schemas.py:56 | a defaulted string field reads the default when absent and accepts only a string when present |
| `Schemas.ReadBoolOr` | schemas.py:26 | a defaulted boolean field reads the default when absent and accepts only a boolean when present |
| `Schemas.ReadReal` | schemas.py:40 | a required float field with `ge` succeeds exactly when a number at or above the bound is present; an absent key fails with `Missing(key)` |
| `Schemas.ReadInt` | schemas.py:50 | a required integer field with `ge` succeeds exactly when an integer at or above the bound is present |
| `Schemas.ReadOptInt` | schemas.py:25 | an optional bounded integer field accepts absent, null or an integer within `[ge, le]`, and nothing else |
| `Schemas.ValidateUser` | schemas.py:17-26 | a validated user has age absent or in [0, 120] and holds the body's fields; a missing name or email fails; an absent `is_active` is true and an absent address is None |
| `Schemas.ValidateUserComplete` | schemas.py:22-26 | every body that holds a valid user's fields is accepted as exactly that user |
| `Schemas.ValidateCategory` | schemas.py:28-31 | a category is accepted exactly when name and slug are strings; no slug format or uniqueness is checked |
| `Schemas.ValidateProduct` | schemas.py:33-44 | a validated product has price ≥ 0 and holds the body's fields; a missing title, price or category fails; a negative price fails; absent description, brand and image are None and an absent `in_stock` is true |
| `Schemas.ValidateProductComplete` | schemas.py:38-44 | every body that holds a valid product's fields is accepted as exactly that product |
| `Schemas.ValidateOrderItem` | schemas.py:46-50 | a validated item has price ≥ 0 and quantity ≥ 1; a missing product id, title, price or quantity fails; a quantity below 1 fails |
| `Schemas.ValidateItemAt` | schemas.py:57 | one list entry is accepted exactly when it is a nested document that validates as an order item |
| `Schemas.ValidateItems` | schemas.py:57 | a list of items is accepted exactly when every entry is, and then yields one valid item per entry, in order |
| `Schemas.ValidateItemsComplete` | schemas.py:57 | a list whose entries hold valid items is accepted as exactly those items |
| `Schemas.ReadItems` | schemas.py:57 | the `items` field is required and must be a list of valid order items |
| `Schemas.ValidateOrder` | schemas.py:52-58 | a validated order has total ≥ 0 and only valid items, and holds the body's fields; any missing required field fails; a negative total fails; an absent status is "pending" |
| `Schemas.ValidateOrderComplete` | schemas.py:53-58 | every body that holds a valid order's fields is accepted as that order, with any payment method string and any number of items |
| `Schemas.ValidateWishlist` | schemas.py:60-62 | a wishlist entry is accepted exactly when user email and product id are strings |
| `Schemas.UserDoc` | schemas.py:17-26 | a user dumps to a document with exactly its five fields, which holds the user |
| `Schemas.CategoryDoc` | schemas.py:28-31 | a category dumps to a document with exactly its two fields, which holds the category |
| `Schemas.ProductDoc` | schemas.py:33-44 | a product dumps to a document with exactly its seven fields, which holds the product |
| `Schemas.OrderItemDoc` | schemas.py:46-50 | an order item dumps to a document with exactly its four fields, which holds the item |
| `Schemas.ItemsValue` | schemas.py:57 | a list of items dumps to a list value whose entries hold the items |
| `Schemas.OrderDoc` | schemas.py:52-58 | an order dumps to a document with exactly its six fields, which holds the order |
| `Schemas.WishlistDoc` | schemas.py:60-62 | a wishlist entry dumps to a document with exactly its two fields, which holds the entry |
| `Schemas.UserRoundTrip` | schemas.py:17-26 | a valid user validates back to itself after being dumped |
| `Schemas.CategoryRoundTrip` | schemas.py:28-31 | every category validates back to itself after being dumped |
| `Schemas.ProductRoundTrip` | schemas.py:33-44 | a valid product validates back to itself after being dumped |
| `Schemas.OrderRoundTrip` | schemas.py:52-58 | a valid order validates back to itself after being dumped |
| `Schemas.WishlistRoundTrip` | schemas.py:60-62 | every wishlist entry validates back to itself after being dumped |
| `Schemas.SubtotalNonNegative` | schemas.py:49-50 | the sum of price × quantity over valid items is never negative |
| `Schemas.MismatchedTotalAccepted` | schemas.py:57-58 | an order whose total differs from the sum of its items is still accepted |
| `Schemas.EmptyOrderAccepted` | schemas.py:57 | an order with an empty item list is accepted |
| `Routes.RootMessage` | main.py:20-22 | the root endpoint's message is the fixed text "Shop API running" |
| `Routes.TitleClause` | main.py:38-40 | the title clause is a nested document with exactly the keys `$regex`, holding the search text unchanged, and `$options`, holding "i" |
| `Routes.SchemaInfo` | main.py:24-27 | the schema endpoint lists five distinct names, one for each of the five collections the system names |
| `Routes.BuildProductQuery` | main.py:37-51 | the filter holds only `title`, `category`, `brand` and `price`. `title` is present iff the text is non-empty and is then the regex clause with option "i". `category` and `brand` are present iff non-empty and then hold exact values. `price` is present iff a bound is given, with `$gte`/`$lte` exactly for the given bounds, 0 included. The filter is empty iff no parameter contributes |
| `Routes.ProductQueryDetermined` | main.py:37-51 | any two filters that meet the product-filter description for the same parameters are equal |
| `Routes.Normalized` | main.py:55-57 | after rewriting, no `_id` is left. A document that had `_id` has `id == str(old _id)`. A document without `_id` is unchanged. Every other field keeps its value and no field is added except `id` |
| `Routes.NormalizeIds` | main.py:55-57 | the loop rewrites every array element in place, position by position, keeping the length and order |
| `Routes.FindNormalized` | main.py:53-57 | a listing returns the store's answer with each document rewritten, in order, with the same length. When the find raises, the reply is that error and no items |
| `Routes.ListProducts` | main.py:31-58 | without a store handle the listing fails with 500 "Database unavailable" and no find call is made. Otherwise it issues one find on "product" with the described filter and the limit (50 by default). It returns the rewritten documents, or the store's error when the find raises |
| `Routes.ListCategories` | main.py:70-76 | the category listing finds on "category" with the empty filter and limit 100 by default. It returns the rewritten documents, or the store's error when the find raises |
| `Routes.GetWishlist` | main.py:85-91 | without `user_email` the request is rejected. Otherwise the filter is exactly `{user_email: value}` on "wishlist", with limit 100 by default. The reply is the rewritten documents, or the store's error when the find raises |
| `Routes.ListOrders` | main.py:100-106 | without `user_email` the request is rejected. Otherwise the filter is exactly `{user_email: value}` on "order", with limit 50 by default. The reply is the rewritten documents, or the store's error when the find raises |
| `Routes.ValidateBody` | main.py:63-64 | a validated body is a valid record of the endpoint's own collection that holds the body's fields |
| `Routes.Create` | main.py:63-66 | a body that fails validation gets a validation error and issues no insert. A valid one is inserted into the endpoint's collection as validated, and the store's identifier is returned, or the store's error when the insert raises. Categories (78-81), wishlist entries (93-96) and orders (108-111) take the same shape |
| `Routes.NegativePriceRefused` | schemas.py:40 | posting a product with a negative price is refused |
| `Routes.ValidProductCreated` | main.py:63-66 | posting a valid product's document is never refused. It inserts exactly that product into "product", and it is created exactly when the insert succeeds |
| `Health.EnvFlag` | main.py:142-143 | an environment variable is reported as "✅ Set" exactly when it is present and non-empty, and as "❌ Not Set" otherwise; its value is never echoed |
| `Health.Take` | main.py:133 | a slice `[:n]` is a prefix of at most `n` elements, all of them when there are no more than `n` |
| `Health.ExcerptReported` | main.py:136 | a reported error is the fixed prefix followed by at most the first 50 characters of the exception text |
| `Health.TestDatabase` | main.py:115-144 | `backend` is always "✅ Running". With a working handle, the collections are the first at most 10 of the store's list. Errors are reported as a fixed prefix plus at most 50 characters of their text. Without a handle the report is "not initialized". The connection status says "Connected" exactly when the handle's name was read without raising. `database_url` and `database_name` depend only on whether the two environment variables are set and non-empty |

## What the code's own comments and descriptions say, and what it checks

- The comment at main.py:39 calls the title filter a "Basic case-insensitive search on title". The code sends a `$regex` clause built from the raw text with option "i". Regex metacharacters in the text are not escaped, so the search is a regular-expression match, not a plain substring match. The model keeps the clause as data (`Routes.TitleClause`).
- The field description of `payment_method` at schemas.py:55 reads "online | cod". That is documentation only: the field is a plain required string and any string is accepted (`Schemas.ValidateOrderComplete`).
- Of the data endpoints, only the product listing tests for a missing store handle (main.py:34). It fails with status 500 and "Database unavailable" (`Routes.ListProducts`). The diagnostic endpoint tests the handle too (main.py:126).
- Without a store handle, the diagnostic endpoint reports "Available but not initialized" (`Health.TestDatabase`).
- Order validation accepts an empty item list (`Schemas.EmptyOrderAccepted`). It also accepts a total that differs from the sum of the items (`Schemas.MismatchedTotalAccepted`).

## Left out

- HTTP routing, CORS, the server start-up and JSON serialisation: this is plumbing with no logic. `RootMessage` keeps the root endpoint's fixed message.
- The store accessor (`create_document`, `get_documents` and the shared handle in `database.py`) is not part of this model. Find and insert calls are inputs (`Finder`, `Inserter`). The limit is passed through, and nothing is claimed about how the store applies it. Nothing is claimed about what the store does with a filter either. In particular, the `$regex` title clause stays data: matching semantics are not modelled.
- `Routes.ListCategories`, `Routes.GetWishlist`, `Routes.ListOrders`: unlike the product listing, these handlers do not test for a missing handle. What `get_documents` does without one is inside `database.py`, so these members take the store directly.
- A store call that raises is modelled by its message alone (`StoreError`, `InsertError`). The exception's type and the framework's rendering of the server error are not modelled.
- `Routes.Create`: what `create_document` stores is not visible. The model records the validated record handed to it, not the document it writes (timestamps or other fields it may add).
- Validation reports only the first bad field, in declaration order, where the validation library reports all of them. Error messages are reduced to `Missing`, `WrongType`, `OutOfRange`, `ItemNotRecord` and `InItem`.
- Type coercion of the validation library is not modelled. A string field accepts only a string and a boolean field only a boolean. An integer field accepts only an integer, not a float with no fraction. A float field accepts an integer or a float.
- `Documents.Str`: Python's `str()` is exact for object identifiers, strings, booleans, None and integers. For a float, list or nested document it gives a fixed placeholder. The store assigns object identifiers, so `_id` is never one of those in practice.
- Aliasing: the store returns distinct documents, and the model keeps them as values in an array. Two list entries that are the same dictionary object are not modelled.
- `Health.TestDatabase`: the handle's `name` attribute is taken to be a string. Reading that attribute is the only step in the outer `try` that can raise, so it is the only route to the outer handler. Environment lookups and the collection listing are inputs.
- Floats are modelled as `real`. Prices and totals are only compared with bounds, so no rounding arises.
- Concurrency of requests and the shared connection handle are not modelled.
- Referential integrity and stock levels: the code checks neither.
