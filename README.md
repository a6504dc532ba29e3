# Dummy ERP connector — a Dafny model

This project models the synchronisation engine of the Odoo addon
`connector_dummy_erp`, which keeps an Odoo database in step with a remote
"dummy ERP" REST service (dummyjson.com by default).

- **Integrations.** A `dummy.erp.integration` record holds a base URL, four
  automation toggles and four scheduled jobs (`ir.cron`). The jobs import
  products, import users, export carts and export products.
  - Creating an integration provisions the four jobs. They start inactive and
    are linked to the integration.
  - Writing a toggle switches its job on or off. `toggle_active` sets every
    toggle to the integration's new active state.
  - A job linked to an integration cannot be deleted on its own.
- **Imports.** A product import upserts products by their remote id. It
  creates missing categories, and the imported products are published, carry
  the integration's default taxes and are not marked for export. A user
  import upserts portal users by their remote id. A user's remote carts are
  imported as sale orders, skipping carts already known and lines whose
  product is unknown.
- **Exports.** Products and orders carry an `update_to_dummy_erp` ("dirty")
  flag. Writing a watched field sets it unless the write is made with the
  suppression context. An export sends the dirty records one by one, as PUT
  when the record has a remote id and as POST otherwise. It writes back the
  returned id of each accepted record and stops at the first rejection. The
  dirty records are found by a `search` that names no order; the model
  assumes ascending local id order.
- **Log.** A run logs its outcome on the integration as entries with a
  subject and a severity: one entry for an import, an export or a carts
  fetch. A connection test writes one or two, but in the source only the
  `Info` entry of a successful test survives: every error path raises
  `ValidationError` after logging, which rolls its entries back with the
  button's transaction. Some runs log nothing:
  - an import whose reply arrived but holds nothing to import;
  - a cart export whose payloads cannot be built (it raises before its
    `try`);
  - a connection test whose reply is neither a success with a truthy status,
    an error refusal nor an exception;
  - a carts fetch for a user without an integration or a remote id.

**How the model is built.** The database is one `Store` object (module
`Schema`). It has a field per table: products, categories, users and orders
are sequences indexed by local id, and jobs and integrations are maps, since
those can be deleted. Every operation that changes the database is a method
on the store. Its `ensures` ties the new state to a pure function of the old
state (for example `ExportProductsOutcome`), and lemmas state what the
connector promises about those functions.

The transport is not modelled. Each operation takes the reply it would
receive as a parameter and returns the `HttpCall` (verb, URL, JSON body,
headers) it hands to `requests.request`. A missing or raising reply is
`Raised`.

The two patterns the connector repeats for several record kinds are stated
once, generically, in module `Sync`:
- the stop-at-first-failure export with write-back;
- the upsert keyed by remote id.

Modules and files: `Common`, `ApiClient` (`api_client.dfy`), `Schema`, `Sync`,
`ProductTemplate`, `ResUsers`, `SaleOrderLine`, `SaleOrder`, `IrCron` and
`DummyErpIntegration`.

All source paths below are under `addons/connector_dummy_erp/`.

## Model

| member | source | states |
|---|---|---|
| Common.NatToString | addons/connector_dummy_erp/models/dummy_erp_integration.py:214 | the decimal text of a record id (as in the job's `code`) is non-empty, one character exactly for ids below ten, and made only of digits |
| Common.NatToStringInjective | addons/connector_dummy_erp/models/dummy_erp_integration.py:214 | two different integration ids never give the same decimal text, so a job's code names exactly one integration |
| Common.IntToString | addons/connector_dummy_erp/models/dummy_erp_integration.py:368 | the text of a remote id starts with '-' exactly when the id is negative, and is otherwise led by a digit |
| Common.IntToStringInjective | addons/connector_dummy_erp/models/dummy_erp_integration.py:368 | different remote ids give different texts, so different records get different PUT paths |
| Common.FirstIndex | addons/connector_dummy_erp/models/product_template.py:54 | a `search(..., limit=1)` finds something exactly when a match exists, and what it finds is the match with the lowest local id |
| Common.FirstIndexUnique | addons/connector_dummy_erp/models/product_template.py:65 | a position holding the value with no lower-id occurrence is the one the search returns |
| ApiClient.BaseUrl | addons/connector_dummy_erp/models/dummy_erp_integration.py:69-78 | `_get_base_url` removes exactly one trailing '/' and leaves any other URL unchanged |
| ApiClient.RequestUrl | addons/connector_dummy_erp/models/api_client.py:14-24 | the request URL is the trimmed base URL followed by the path, with nothing added or lost |
| ApiClient.TrailingSlashIrrelevant | addons/connector_dummy_erp/models/dummy_erp_integration.py:73-78 | a base URL with or without one trailing slash yields the same request URL |
| ApiClient.MergeHeaders | addons/connector_dummy_erp/models/api_client.py:40-44 | the merged headers hold the keys of both maps, extra headers override the defaults, and the result always has a Content-Type, which is JSON unless overridden |
| ApiClient.NoHeadersIsEmptyHeaders | addons/connector_dummy_erp/models/api_client.py:40-41 | passing no extra headers is the same as passing an empty map, and gives exactly the default headers |
| Schema.FirstUserOf | addons/connector_dummy_erp/models/sale_order_line.py:17 | `partner.user_ids[0]`: the found user belongs to the partner and no earlier user does; none is found only when the partner has no user |
| Sync.AcceptedIds | addons/connector_dummy_erp/models/dummy_erp_integration.py:364-382 | the ids written back come from the leading accepted replies, in order; if fewer than all requests succeeded, the reply right after them was rejected |
| Sync.AcceptedIdsStop | addons/connector_dummy_erp/models/dummy_erp_integration.py:379-382 | once a run has hit a rejection, queuing one more request changes nothing |
| Sync.AcceptedIdsStopped | addons/connector_dummy_erp/models/dummy_erp_integration.py:379-382 | a run stopped at request k returns the same ids however many requests follow it |
| Sync.Marked | addons/connector_dummy_erp/models/product_template.py:44 | the dirty search returns exactly the flagged local ids, strictly ascending and in range |
| Sync.ExportedCommitted | addons/connector_dummy_erp/models/dummy_erp_integration.py:374-378 | the k-th dirty record accepted before the failure is committed with the k-th returned id |
| Sync.ExportedUntouched | addons/connector_dummy_erp/models/dummy_erp_integration.py:364-382 | a record that is not dirty, or comes at or after the rejected one, is left exactly as it was |
| Sync.Exported | addons/connector_dummy_erp/models/dummy_erp_integration.py:364-382 | the write-back of a run keeps the number of records |
| Sync.UpsertStep | addons/connector_dummy_erp/models/product_template.py:112-121 | an entry with id 0 changes nothing, an entry with a known id updates the lowest-id record carrying that id and nothing else, and an unknown id appends one created record |
| Sync.Upserted | addons/connector_dummy_erp/models/product_template.py:112-121 | an upsert never removes a record and creates at most one per entry |
| Sync.StepKeys | addons/connector_dummy_erp/models/product_template.py:113-121 | a step keeps the remote-id column, and appends the entry's id when it creates a record |
| Sync.UpsertedUntouched | addons/connector_dummy_erp/models/product_template.py:113-121 | a record whose remote id is not the non-zero id of any entry is left exactly as it was |
| Sync.UpsertedCovers | addons/connector_dummy_erp/models/product_template.py:112-121 | after an upsert every old remote id is still present, and every non-zero remote id of the payload has a record |
| Sync.UpsertedKnown | addons/connector_dummy_erp/models/product_template.py:114-121 | when every payload id is already known, an upsert creates nothing and keeps the remote-id column |
| Sync.UpsertedTwiceNoDuplicates | addons/connector_dummy_erp/models/product_template.py:112-121 | running the same upsert again creates no record |
| Sync.UpsertedFirstMatch | addons/connector_dummy_erp/models/product_template.py:114-121 | after an upsert, the record found by remote id for each entry has every property that both its update and its creation establish |
| ProductTemplate.ApplyVals | addons/connector_dummy_erp/models/product_template.py:33 | the plain write leaves every key of the values holding its value, and a write without keys changes nothing |
| ProductTemplate.ApplyValsIdempotent | addons/connector_dummy_erp/models/product_template.py:33 | writing values a product already holds changes nothing, so repeating a write is a no-op |
| ProductTemplate.AfterWrite | addons/connector_dummy_erp/models/product_template.py:28-36 | a write sets the dirty flag exactly when a watched field is written without suppression, or when the values set it; otherwise it applies the values unchanged |
| ProductTemplate.CategoryChangeUntracked | addons/connector_dummy_erp/models/product_template.py:29-30 | changing only the category never marks a product dirty, because the watched list names `product_categ_id`, not `categ_id` |
| ProductTemplate.NewProduct | addons/connector_dummy_erp/models/product_template.py:25 | a product created without an explicit flag is dirty, and has remote id 0 unless one is given |
| ProductTemplate.Write | addons/connector_dummy_erp/models/product_template.py:28-36 | `product.write` changes only that product, which becomes its `AfterWrite` |
| ProductTemplate.PayloadOf | addons/connector_dummy_erp/models/product_template.py:80-99 | the export payload carries the product's fields with the empty defaults for missing text, five image URLs in size order, and the thumbnail is the first image |
| ProductTemplate.ImageUrlIdentifies | addons/connector_dummy_erp/models/product_template.py:91-98 | an image URL determines both the product id and the size it was built from |
| ProductTemplate.PayloadImagesDistinct | addons/connector_dummy_erp/models/product_template.py:92-98 | the five image URLs of a payload are pairwise different |
| ProductTemplate.DirtyProducts | addons/connector_dummy_erp/models/product_template.py:44 | the products to update are exactly the dirty ones, in ascending id order |
| ProductTemplate.ProductsToUpdate | addons/connector_dummy_erp/models/product_template.py:38-45 | one payload per dirty product, in the same order, each built from that product and its category name |
| ProductTemplate.GetOrCreateCategory | addons/connector_dummy_erp/models/product_template.py:56-69 | the returned category is the lowest-id one with the name; the table is unchanged if the name exists, and otherwise grows by exactly that name |
| ProductTemplate.GetOrCreateIdempotent | addons/connector_dummy_erp/models/product_template.py:64-69 | looking the same name up again returns the same id and creates nothing |
| ProductTemplate.GetCategoryByName | addons/connector_dummy_erp/models/product_template.py:56-69 | the store operation returns the id and table of `GetOrCreateCategory` and changes nothing else |
| ProductTemplate.Prepared | addons/connector_dummy_erp/models/product_template.py:131-157 | one entry per remote product, keyed by its id, whose category names that product's category; the category table only grows, and only with names that were missing |
| ProductTemplate.PrepareVals | addons/connector_dummy_erp/models/product_template.py:137-156 | an imported product's values carry its remote id, the integration and its default taxes, the resolved category, the title and price, and the first image; they publish the product and do not mark it for export |
| ProductTemplate.ProductIdByRemoteId | addons/connector_dummy_erp/models/product_template.py:47-54 | a product is found exactly when one has the remote id, and the found one has the lowest local id |
| ProductTemplate.ImportedProducts | addons/connector_dummy_erp/models/product_template.py:102-121 | an import changes only products and categories, keeps every existing category in place, never removes a product and creates at most one per remote product |
| ProductTemplate.PrepareValsInSync | addons/connector_dummy_erp/models/product_template.py:137-156 | both creating and writing prepared values give a product that keeps its remote id, is not dirty, is published, is bound to the integration and has its default taxes |
| ProductTemplate.PreparedConsistent | addons/connector_dummy_erp/models/product_template.py:111-121 | every prepared entry keeps its remote id through either upsert branch and leaves the product in sync |
| ProductTemplate.ImportedProductsInSync | addons/connector_dummy_erp/models/product_template.py:102-121 | after an import, every remote product with a non-zero id is found by that id and is in sync; importing the same payload again creates no product |
| ProductTemplate.PrepareDictsFromPayload | addons/connector_dummy_erp/models/product_template.py:123-157 | the loop returns the entries and category table of `Prepared` and changes nothing else |
| ProductTemplate.PrepareOne | addons/connector_dummy_erp/models/product_template.py:132-156 | one iteration extends the prepared prefix by exactly one remote product |
| ProductTemplate.UpsertOne | addons/connector_dummy_erp/models/product_template.py:113-121 | one iteration performs one upsert step, writing with the suppression context |
| ProductTemplate.CreateOrUpdateFromPayload | addons/connector_dummy_erp/models/product_template.py:102-121 | the store ends as `ImportedProducts` of its old state |
| ProductTemplate.UpsertProducts | addons/connector_dummy_erp/models/product_template.py:112-121 | the loop leaves the products as the generic upsert of all entries, and nothing else changed |
| ResUsers.DisplayName | addons/connector_dummy_erp/models/res_users.py:64 | the name is the first of first, maiden and last name that is non-empty (the operators bind so that nothing is concatenated) |
| ResUsers.DisplayNameIsNotConcatenation | addons/connector_dummy_erp/models/res_users.py:64 | a user with a first name is named by it alone, and whenever a maiden or last name is present too the name is not the three names joined |
| ResUsers.PrepareUser | addons/connector_dummy_erp/models/res_users.py:62-89 | the prepared values carry the remote id, login, password and integration, the computed name, and the fetched image exactly when the key is present |
| ResUsers.PrepareUsers | addons/connector_dummy_erp/models/res_users.py:53-90 | one prepared entry per remote user, in order |
| ResUsers.WriteUser | addons/connector_dummy_erp/models/res_users.py:46-50 | updating a user adds the portal group, keeps the partner, binds the integration and sets the password |
| ResUsers.NewUser | addons/connector_dummy_erp/models/res_users.py:48-50 | a created user is a portal user with the new partner, the password and the integration |
| ResUsers.ImportedUsers | addons/connector_dummy_erp/models/res_users.py:30-50 | a user import changes only users and partners, never removes a user, creates at most one per remote user, and one partner per created user |
| ResUsers.PreparedUsersConsistent | addons/connector_dummy_erp/models/res_users.py:38-50 | both upsert branches keep the remote id and leave a portal user bound to the integration |
| ResUsers.ImportedUsersInSync | addons/connector_dummy_erp/models/res_users.py:30-50 | an import creates at most one user per remote user and exactly one partner per created user; every non-zero remote id is found as a portal user of the integration |
| ResUsers.ImportedUsersTwice | addons/connector_dummy_erp/models/res_users.py:38-50 | importing the same users again creates neither users nor partners |
| ResUsers.UpsertUser | addons/connector_dummy_erp/models/res_users.py:40-50 | one iteration performs one upsert step, and a creation also creates one partner |
| ResUsers.CreateOrUpdateFromPayload | addons/connector_dummy_erp/models/res_users.py:30-50 | the store ends as `ImportedUsers` of its old state |
| ResUsers.UpsertUsers | addons/connector_dummy_erp/models/res_users.py:39-50 | the loop leaves the users as the generic upsert of all entries, with one new partner per new user |
| ResUsers.UserCartsOutcome | addons/connector_dummy_erp/models/res_users.py:102-140 | nothing happens for a user without integration or remote id; otherwise exactly one entry is logged, `Info` exactly when the reply succeeded with a `carts` key, and orders change only in such a run, where they become the cart import of the listed carts |
| ResUsers.GetUserCarts | addons/connector_dummy_erp/models/res_users.py:102-140 | the store ends as `UserCartsOutcome`; a GET to the user's carts path is sent exactly when the guard holds and the base URL is set |
| SaleOrder.CreatedOrder | addons/connector_dummy_erp/models/sale_order_line.py:25-29 | a created order keeps its lines and partner, and is dirty when the values say so (true by default) or when it has any line |
| SaleOrder.CreateOrder | addons/connector_dummy_erp/models/sale_order_line.py:25-29 | creating an order appends `CreatedOrder` under the next id; the line hook runs once per line |
| SaleOrder.NewOrderWithLineIsDirty | addons/connector_dummy_erp/tests/test_sale_order.py:30-34 | an order created with a line and no explicit flag is due for export |
| SaleOrder.Synced | addons/connector_dummy_erp/models/sale_order.py:46 | a line counts as synced exactly when its product has a remote id |
| SaleOrder.CartLines | addons/connector_dummy_erp/models/sale_order.py:45-54 | the cart payload lists exactly the lines whose product has a remote id, in line order, each carrying that id |
| SaleOrder.MixedCartKeepsSyncedLine | addons/connector_dummy_erp/models/sale_order.py:45-54 | of a line whose product has any remote id and a line whose product has none, only the first is exported, carrying that remote id |
| SaleOrder.DirtyOrders | addons/connector_dummy_erp/models/sale_order.py:30 | the carts to update are exactly the dirty orders, in ascending id order |
| SaleOrder.CartPayloadOf | addons/connector_dummy_erp/models/sale_order.py:41-60 | a payload exists exactly when the partner has a user; it carries the order's remote id, that first user's remote id and the synced lines |
| SaleOrder.CartsToUpdate | addons/connector_dummy_erp/models/sale_order.py:24-31 | payloads are built exactly when every dirty order has one (otherwise `user_ids[0]` raises), one per dirty order in id order |
| SaleOrder.Resolvable | addons/connector_dummy_erp/models/sale_order.py:76-79 | an item is kept exactly when a product has its remote id |
| SaleOrder.ResolvedLines | addons/connector_dummy_erp/models/sale_order.py:75-96 | an imported cart's lines are exactly its resolvable items, in order, on the product found by remote id |
| SaleOrder.CartOrder | addons/connector_dummy_erp/models/sale_order.py:98-107 | the order created for a cart belongs to the user's partner (also as invoice partner), carries the cart id, is bound to the integration, holds the cart's resolved lines, and is dirty exactly when it has a line |
| SaleOrder.ImportCartStep | addons/connector_dummy_erp/models/sale_order.py:73-107 | a cart whose id an order already carries changes nothing; any other cart appends its `CartOrder` |
| SaleOrder.ImportedCarts | addons/connector_dummy_erp/models/sale_order.py:72-107 | a cart import keeps every existing order and adds at most one order per cart |
| SaleOrder.CartStepKeys | addons/connector_dummy_erp/models/sale_order.py:73-107 | after a cart step, the ids of that cart and of the earlier carts are known |
| SaleOrder.ImportedCartsCovers | addons/connector_dummy_erp/models/sale_order.py:72-107 | after a cart import every cart id is the remote id of some order |
| SaleOrder.CartStepFresh | addons/connector_dummy_erp/models/sale_order.py:73-107 | a cart step never creates an order whose id an earlier order carries |
| SaleOrder.ImportedCartsFresh | addons/connector_dummy_erp/models/sale_order.py:72-107 | every created order carries an id that no earlier order, existing or created, carries, so a repeated cart is created once |
| SaleOrder.ImportedCartsNewOrders | addons/connector_dummy_erp/models/sale_order.py:98-107 | each created order carries an id no existing order carries, and comes from the first cart with that id: the user's partner (also as invoice partner), the integration, that cart's resolved lines, and dirty exactly when it has a line |
| SaleOrder.ImportedCartsCreatesUnknown | addons/connector_dummy_erp/models/sale_order.py:72-107 | every cart whose id no existing order carries gets a created order |
| SaleOrder.ImportedCartsKnown | addons/connector_dummy_erp/models/sale_order.py:73 | carts whose ids are all known create no order |
| SaleOrder.ImportedCartsTwice | addons/connector_dummy_erp/models/sale_order.py:72-107 | importing the same carts a second time changes nothing |
| SaleOrder.ImportCart | addons/connector_dummy_erp/models/sale_order.py:73-107 | one cart is skipped when its id is known and created otherwise; only the orders change |
| SaleOrder.CreateFromPayload | addons/connector_dummy_erp/models/sale_order.py:63-107 | the store's orders end as `ImportedCarts` for the user's partner, and nothing else changes |
| SaleOrderLine.ApplyLine | addons/connector_dummy_erp/models/sale_order_line.py:12 | the plain line write sets every present field to its value, and a write of no watched field leaves the line unchanged |
| SaleOrderLine.OrderAfterLineWrite | addons/connector_dummy_erp/models/sale_order_line.py:8-21 | a line write applies the values to that line only, and the order becomes dirty exactly when it already was or a watched field was written, unsuppressed, for a partner whose first user has a remote id |
| SaleOrderLine.LineWriteOnlySets | addons/connector_dummy_erp/models/sale_order_line.py:17-20 | a line write never clears the flag, and leaves it alone when there is no such user, the write is suppressed, or no watched field is written |
| SaleOrderLine.UnwatchedLineWrite | addons/connector_dummy_erp/models/sale_order_line.py:9-11 | writing only unwatched fields leaves the order's flag unchanged |
| SaleOrderLine.WriteLine | addons/connector_dummy_erp/models/sale_order_line.py:8-21 | only the written line's order changes, to `OrderAfterLineWrite` |
| SaleOrderLine.CreateLine | addons/connector_dummy_erp/models/sale_order_line.py:25-29 | creating a line appends it and marks its order dirty unconditionally |
| IrCron.RefusalMessage | addons/connector_dummy_erp/models/ir_cron.py:17-22 | the refusal message is the fixed prefix, then the integration name, then ')' |
| IrCron.FirstLinked | addons/connector_dummy_erp/models/ir_cron.py:15-16 | a linked job is found exactly when one exists among the ids, and it is the first one |
| IrCron.FirstLinkedPrefix | addons/connector_dummy_erp/models/ir_cron.py:15-22 | a linked job found in a prefix of the ids is the one found in all of them |
| IrCron.Unlink | addons/connector_dummy_erp/models/ir_cron.py:14-23 | deletion is refused exactly when a job is linked, leaving the store unchanged and naming the first linked job's integration; otherwise exactly those jobs are removed |
| DummyErpIntegration.LogOperation | addons/connector_dummy_erp/models/dummy_erp_integration.py:80-95 | logging appends exactly one entry and changes nothing else |
| DummyErpIntegration.JobCron | addons/connector_dummy_erp/models/dummy_erp_integration.py:200-218 | a provisioned job is inactive, linked to the integration, runs every 20 minutes for imports and every 2 for exports, and its code calls the job's method with the integration id |
| DummyErpIntegration.WithCron | addons/connector_dummy_erp/models/dummy_erp_integration.py:217 | setting one job reference changes that reference only |
| DummyErpIntegration.NewIntegration | addons/connector_dummy_erp/models/dummy_erp_integration.py:38-45 | a created integration has the given toggles (false by default), the given base URL (dummyjson.com by default) and is inactive by default |
| DummyErpIntegration.Provision | addons/connector_dummy_erp/models/dummy_erp_integration.py:200-218 | a provisioner creates no integration |
| DummyErpIntegration.ProvisionedIntegration | addons/connector_dummy_erp/models/dummy_erp_integration.py:122-129 | the new integration refers to four consecutive new jobs in provisioner order and keeps its toggles |
| DummyErpIntegration.Provisioned | addons/connector_dummy_erp/models/dummy_erp_integration.py:122-129 | create adds one integration under the next free id and four jobs under the next four job ids, and changes nothing else |
| DummyErpIntegration.ProvisionStep | addons/connector_dummy_erp/models/dummy_erp_integration.py:200-218 | one provisioner adds one job under the next job id and points the integration's reference at it |
| DummyErpIntegration.ProvisionTwice | addons/connector_dummy_erp/models/dummy_erp_integration.py:200-238 | two provisioners set two references to consecutive job ids |
| DummyErpIntegration.ProvisionFour | addons/connector_dummy_erp/models/dummy_erp_integration.py:123-128 | the four provisioners set the four references to four consecutive job ids |
| DummyErpIntegration.ProvisionChainIntegration | addons/connector_dummy_erp/models/dummy_erp_integration.py:122-129 | create followed by the provisioners stores exactly `ProvisionedIntegration` and uses four job ids |
| DummyErpIntegration.ProvisionChainCrons | addons/connector_dummy_erp/models/dummy_erp_integration.py:122-129 | create followed by the provisioners adds exactly the four jobs, named after the integration |
| DummyErpIntegration.CreatedAndProvisioned | addons/connector_dummy_erp/models/dummy_erp_integration.py:122-129 | the plain create followed by the four provisioners, in order, gives exactly `Provisioned` |
| DummyErpIntegration.ProvisionValid | addons/connector_dummy_erp/models/dummy_erp_integration.py:200-218 | a provisioner keeps the database's referential integrity |
| DummyErpIntegration.ProvisionedValid | addons/connector_dummy_erp/models/dummy_erp_integration.py:122-129 | create keeps the database's referential integrity |
| DummyErpIntegration.ProvisionedCronsLinked | addons/connector_dummy_erp/models/dummy_erp_integration.py:205-218 | the four new jobs stay below the next job id and link only to existing integrations |
| DummyErpIntegration.ProvisionedKeeps | addons/connector_dummy_erp/models/dummy_erp_integration.py:122-129 | create adds exactly one new integration id and leaves every existing job and integration unchanged |
| DummyErpIntegration.ProvisionedCronsKeep | addons/connector_dummy_erp/models/dummy_erp_integration.py:205-216 | provisioning leaves every existing job unchanged |
| DummyErpIntegration.ProvisionedCronOf | addons/connector_dummy_erp/models/dummy_erp_integration.py:122-129 | each job's reference is the first new job id plus the job's position |
| DummyErpIntegration.ProvisionedCronsAt | addons/connector_dummy_erp/models/dummy_erp_integration.py:200-278 | the four new job ids hold the four provisioned jobs |
| DummyErpIntegration.ProvisionedJobsAt | addons/connector_dummy_erp/models/dummy_erp_integration.py:200-278 | the four references are distinct and new, and each holds the job its provisioner creates |
| DummyErpIntegration.ProvisionedJobs | addons/connector_dummy_erp/models/dummy_erp_integration.py:122-129 | after create the integration has four distinct new jobs, each as provisioned, and the requested toggles |
| DummyErpIntegration.ProvisionedMirroredIff | addons/connector_dummy_erp/models/dummy_erp_integration.py:122-129 | after create every job's active state equals its toggle exactly when no toggle was requested as true (jobs start inactive regardless) |
| DummyErpIntegration.ProvisionJob | addons/connector_dummy_erp/models/dummy_erp_integration.py:200-218 | the store ends as `Provision` of its old state |
| DummyErpIntegration.Create | addons/connector_dummy_erp/models/dummy_erp_integration.py:122-129 | the store ends as `Provisioned` and the new id is returned |
| DummyErpIntegration.SetActive | addons/connector_dummy_erp/models/dummy_erp_integration.py:135 | setting a job's active flag changes only that job, and only its flag |
| DummyErpIntegration.ApplyIntegrationVals | addons/connector_dummy_erp/models/dummy_erp_integration.py:133 | a toggle takes the written value when one is given and keeps its old value otherwise; the job references are kept |
| DummyErpIntegration.WriteToggle | addons/connector_dummy_erp/models/dummy_erp_integration.py:134-141 | a toggle write keeps the set of jobs and changes nothing in a job but its active flag |
| DummyErpIntegration.WrittenCrons | addons/connector_dummy_erp/models/dummy_erp_integration.py:134-141 | the four toggle writes keep the set of jobs, change only active flags, and leave every job the integration does not refer to unchanged |
| DummyErpIntegration.IntegrationWritten | addons/connector_dummy_erp/models/dummy_erp_integration.py:132-142 | a write changes only integrations and jobs: no other integration, each toggle takes the written value or keeps its own, and jobs change only in their active flag |
| DummyErpIntegration.WriteToggleAt | addons/connector_dummy_erp/models/dummy_erp_integration.py:134-141 | a toggle write changes the toggle's job, and only when that toggle is written |
| DummyErpIntegration.WrittenCronAt | addons/connector_dummy_erp/models/dummy_erp_integration.py:134-141 | after the four toggle writes each job has the active state of the last written toggle that refers to it |
| DummyErpIntegration.WrittenJobs | addons/connector_dummy_erp/models/dummy_erp_integration.py:132-142 | with distinct references, a written toggle sets its job's active flag and an unwritten one leaves its job alone |
| DummyErpIntegration.WriteOthersUntouched | addons/connector_dummy_erp/models/dummy_erp_integration.py:132-142 | jobs the integration does not refer to are never changed by a write |
| DummyErpIntegration.WriteKeepsMirrored | addons/connector_dummy_erp/models/dummy_erp_integration.py:132-142 | if every job mirrored its toggle before a write, it still does after it |
| DummyErpIntegration.WrittenValid | addons/connector_dummy_erp/models/dummy_erp_integration.py:132-142 | a write keeps the database's referential integrity |
| DummyErpIntegration.Write | addons/connector_dummy_erp/models/dummy_erp_integration.py:132-142 | the store ends as `IntegrationWritten` |
| DummyErpIntegration.AllToggles | addons/connector_dummy_erp/models/dummy_erp_integration.py:147-152 | the values written by `toggle_active` set all four toggles to the same value |
| DummyErpIntegration.AllTogglesSet | addons/connector_dummy_erp/models/dummy_erp_integration.py:147-152 | writing all toggles sets every referenced job to that value |
| DummyErpIntegration.ToggledActive | addons/connector_dummy_erp/models/dummy_erp_integration.py:145-153 | `toggle_active` flips the integration's active flag, touches no other integration, and changes jobs only in their active flag |
| DummyErpIntegration.ToggledActiveFacts | addons/connector_dummy_erp/models/dummy_erp_integration.py:145-153 | after `toggle_active` the integration's active flag is flipped, every toggle equals it, and every job mirrors its toggle |
| DummyErpIntegration.ToggleActive | addons/connector_dummy_erp/models/dummy_erp_integration.py:145-153 | the store ends as `ToggledActive` |
| DummyErpIntegration.LogWithout | addons/connector_dummy_erp/models/dummy_erp_integration_log.py:14-16 | the cascaded log keeps exactly the entries of other integrations, each as often as it occurred |
| DummyErpIntegration.Unlink | addons/connector_dummy_erp/models/ir_cron.py:8-10 | deleting an integration is refused exactly when a product, user or order references it (their `ondelete="restrict"` links at product_template.py:15, res_users.py:14 and sale_order.py:18), and then nothing changes; otherwise its jobs and log entries go with it |
| DummyErpIntegration.LogWithoutAppend | addons/connector_dummy_erp/models/dummy_erp_integration_log.py:14-16 | dropping one integration's entries commutes with joining logs, so the entries that stay keep their order |
| DummyErpIntegration.TestConnectionResult | addons/connector_dummy_erp/models/dummy_erp_integration.py:155-198 | the test logs one `Info` exactly on a successful reply with a truthy status, two errors on an explicit error refusal, one error on an exception, and nothing otherwise |
| DummyErpIntegration.TestLog | addons/connector_dummy_erp/models/dummy_erp_integration.py:166-194 | one "Test Connection" entry per logged severity, in order |
| DummyErpIntegration.TestConnection | addons/connector_dummy_erp/models/dummy_erp_integration.py:155-198 | the outcome is `TestConnectionResult`'s, and only its entries are appended to the log |
| DummyErpIntegration.ImportProductsOutcome | addons/connector_dummy_erp/models/dummy_erp_integration.py:283-315 | a run logs nothing exactly when a reply arrived that is not importable (bad status, no `products` key or an empty list); otherwise it logs one entry, `Info` exactly when products were imported; products change only in such a run |
| DummyErpIntegration.ImportProductsSynced | addons/connector_dummy_erp/models/dummy_erp_integration.py:283-315 | a successful product import logs `Info` and leaves every imported product in sync, and running it again creates no product |
| DummyErpIntegration.ImportDummyProducts | addons/connector_dummy_erp/models/dummy_erp_integration.py:283-315 | the store ends as `ImportProductsOutcome`; a GET to the products path is sent exactly when the base URL is set |
| DummyErpIntegration.ImportUsersOutcome | addons/connector_dummy_erp/models/dummy_erp_integration.py:317-349 | a run logs nothing exactly when a reply arrived that is not importable (bad status, no `users` key or an empty list); otherwise one entry, `Info` exactly when users were imported |
| DummyErpIntegration.ImportUsersSynced | addons/connector_dummy_erp/models/dummy_erp_integration.py:317-349 | a successful user import logs `Info`, creates one partner per new user, and leaves every imported user a portal user of the integration |
| DummyErpIntegration.ImportDummyUsers | addons/connector_dummy_erp/models/dummy_erp_integration.py:317-349 | the store ends as `ImportUsersOutcome`; a GET to the users path is sent exactly when the base URL is set |
| DummyErpIntegration.RunIds | addons/connector_dummy_erp/models/dummy_erp_integration.py:363-382 | a run returns at most one id per request, and none when the base URL is empty (the first request raises) |
| DummyErpIntegration.RunIdsStopped | addons/connector_dummy_erp/models/dummy_erp_integration.py:379-382 | a run stopped at request k returns the same ids however long the batch is |
| DummyErpIntegration.SentCount | addons/connector_dummy_erp/models/dummy_erp_integration.py:364-382 | with a base URL, every request before the last one sent was accepted, and a run that sends fewer than all was stopped by a rejection of its last one; at least one request goes out when any is queued, none without a base URL |
| DummyErpIntegration.ExportRequest | addons/connector_dummy_erp/models/dummy_erp_integration.py:367-373 | a record with a remote id is sent as PUT to its own path under the update path, one without as POST to the add path, with the body unchanged |
| DummyErpIntegration.ProductRequest | addons/connector_dummy_erp/models/dummy_erp_integration.py:367-373 | a product with a remote id is sent as PUT to its own path, one without as POST to the add path, with the payload as body |
| DummyErpIntegration.CommitProduct | addons/connector_dummy_erp/models/dummy_erp_integration.py:375-378 | the write-back sets the returned id and clears the flag, changing nothing else |
| DummyErpIntegration.ProductCalls | addons/connector_dummy_erp/models/dummy_erp_integration.py:364-373 | the k-th call sends the k-th dirty product's payload with its request |
| DummyErpIntegration.ExportProductsCalls | addons/connector_dummy_erp/models/dummy_erp_integration.py:354-393 | a product export sends exactly `SentCount` requests |
| DummyErpIntegration.ExportProductsOutcome | addons/connector_dummy_erp/models/dummy_erp_integration.py:354-393 | a product export changes only products and the log, keeps the number of products, and appends one entry under its subject, `Info` exactly when there was nothing to send or the base URL is set and every request was accepted |
| DummyErpIntegration.ExportedProductCommitted | addons/connector_dummy_erp/models/dummy_erp_integration.py:374-378 | a product exported before the failure was accepted, carries the returned id and is clean, with its other fields unchanged |
| DummyErpIntegration.ExportedProductUntouched | addons/connector_dummy_erp/models/dummy_erp_integration.py:364-382 | a product not reached by the run is unchanged |
| DummyErpIntegration.ExportProductsLogsSuccess | addons/connector_dummy_erp/models/dummy_erp_integration.py:383-393 | a product export appends exactly one entry, `Info` exactly when no product is left dirty |
| DummyErpIntegration.SendProduct | addons/connector_dummy_erp/models/dummy_erp_integration.py:364-382 | one iteration sends one request, commits the product when it is accepted, and otherwise leaves the store as it was and ends the run |
| DummyErpIntegration.SendProductBatch | addons/connector_dummy_erp/models/dummy_erp_integration.py:364-382 | the loop commits the accepted prefix, reports a failure exactly when the run stopped early, and sends `SentCount` requests |
| DummyErpIntegration.ExportDummyProducts | addons/connector_dummy_erp/models/dummy_erp_integration.py:354-393 | the store ends as `ExportProductsOutcome`, and the calls are `ExportProductsCalls` |
| DummyErpIntegration.CartRequest | addons/connector_dummy_erp/models/dummy_erp_integration.py:408-416 | an order with a remote id is sent as PUT to its own path without `userId`, one without as POST to the add path with it; the lines are always sent |
| DummyErpIntegration.CommitCart | addons/connector_dummy_erp/models/dummy_erp_integration.py:417-421 | the write-back sets the returned id and clears the flag, changing nothing else |
| DummyErpIntegration.CartCalls | addons/connector_dummy_erp/models/dummy_erp_integration.py:405-416 | the k-th call sends the k-th dirty order's payload with its request |
| DummyErpIntegration.ExportCartsCalls | addons/connector_dummy_erp/models/dummy_erp_integration.py:395-436 | no request is sent when the payloads cannot be built; otherwise exactly `SentCount` |
| DummyErpIntegration.ExportCartsOutcome | addons/connector_dummy_erp/models/dummy_erp_integration.py:395-436 | a cart export whose payloads cannot be built changes nothing; otherwise it changes only orders and the log, keeps the number of orders, and appends one entry under its subject, `Info` exactly when there was nothing to send or the base URL is set and every request was accepted |
| DummyErpIntegration.ExportedCartCommitted | addons/connector_dummy_erp/models/dummy_erp_integration.py:417-421 | an order exported before the failure was accepted, carries the returned id and is clean, with its other fields unchanged |
| DummyErpIntegration.ExportedCartUntouched | addons/connector_dummy_erp/models/dummy_erp_integration.py:405-425 | an order not reached by the run is unchanged |
| DummyErpIntegration.ExportCartsLogsSuccess | addons/connector_dummy_erp/models/dummy_erp_integration.py:403-436 | when the payloads cannot be built nothing changes, and nothing is logged; otherwise one entry is appended, `Info` exactly when no order is left dirty |
| DummyErpIntegration.WriteBackCart | addons/connector_dummy_erp/models/dummy_erp_integration.py:418-421 | the write-back commits that one order only |
| DummyErpIntegration.SendCart | addons/connector_dummy_erp/models/dummy_erp_integration.py:405-425 | one iteration sends one request, commits the order when it is accepted, and otherwise leaves the store as it was and ends the run |
| DummyErpIntegration.SendCartBatch | addons/connector_dummy_erp/models/dummy_erp_integration.py:405-425 | the loop commits the accepted prefix, reports a failure exactly when the run stopped early, and sends `SentCount` requests |
| DummyErpIntegration.ExportDummyCarts | addons/connector_dummy_erp/models/dummy_erp_integration.py:395-436 | the store ends as `ExportCartsOutcome`, and the calls are `ExportCartsCalls` |

## Left out

- The HTTP transport (`requests.request`) is not modelled. The reply to each request is a parameter of the operation, and any exception is the reply `Raised`.
- The base64 image download of imported products and users is not modelled. An image is `Fetched(url)` or `NoImage`, and a failing download is not modelled.
- An empty base URL is modelled as a request that raises, like a transport failure, because `_get_base_url` indexes into it.
- Only the subject and severity of log entries are kept. The free-text details (payload dumps, exception text) are left out.
- Exceptions raised inside an upsert, an image download or a cart import are not modelled: every payload is assumed to import cleanly. In the source such an exception is caught by the run's `except Exception`, which logs one `Error` entry, and the records and categories written before it stay written. Apart from `user_ids[0]` in the cart payload, only the requests can fail in the model.
- A JSON reply whose `status` is not a string is not modelled, so the test only compares string values.
- The dirty searches of the exports and the `search(..., limit=1)` lookups (product by remote id, category by name, user by remote id, order by remote id) pass no `order`, so the source returns records in each model's default `_order` (`complete_name` for categories, `priority desc, name` for products, `name, login` for users). The model takes ascending local id order instead. This only matters when several records match, for example two products that were given the same remote id: then `Common.FirstIndex`, `ProductTemplate.GetOrCreateCategory`, `ProductTemplate.ProductIdByRemoteId` and `Sync.UpsertStep` pick the lowest-id match where the source may pick another.
- ORM internals are out of scope: `active_test`, product templates versus variants (one local product stands for both), and multi-record writes (every write is on one record).
- `user_ids` ordering is modelled as the order of users in the table.
- `ResUsers.WriteUser`: `_change_password` is modelled as storing the password. Hashing and the password policy are not modelled.
- The `_login` override (res_users.py:93-100) is not modelled, because it only calls `get_dummy_erp_user_carts` on a new cursor. `GetUserCarts` is the modelled operation.
- `_compute_cron_count` and the view actions (`action_view_crons`, `action_view_log`) are not modelled. They are UI only.
- Notifications and the `ValidationError` shown to the user are not modelled. Only the outcome and the entries written before the raise are kept.
- The pricelist, company and website defaults of integrations and orders are not modelled, because no synchronised behaviour depends on them.
- The `ir.model` lookup and the fields of a provisioned job the connector never reads (`model_id`, `numbercall`, `state`) are not modelled.
- Floats are modelled as `real`. The `x or 0.0` defaults are the identity on reals, and no arithmetic is performed on them.
- DummyErpIntegration.TestConnection: the `Error` entries it appends are the ones the handler writes before it raises `ValidationError`. In the source that raise rolls them back with the button's transaction, so only the `Info` entry of a successful test persists. The model keeps the entries as written and does not model the rollback.
- DummyErpIntegration.Create: requires a name. The ORM error for a create without the required `name` field is not modelled.
- A scheduled run for a deleted integration id is not modelled. Every operation requires the integration to exist.
- Concurrency between scheduled jobs and interactive edits is out of scope, as is the transaction boundary of each run.
