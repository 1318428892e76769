# Product registry: client request pipeline, page state and update merge

This project models the logic of a small product registry. A Django REST
backend stores products as `{id, fields}`. `fields` is a free-form JSON
object. A Next.js page lists, searches, creates, edits and deletes products
through a small API client.

The model covers three pieces:

- **The client's request pipeline** (`Api`, api.dfy). `request` classifies one
  `fetch` outcome as a value or an error message. A 204 gives `null` without
  reading the body. A body that does not parse counts as `null`. A non-2xx
  answer fails with the first truthy of `detail`, `error`, the status text and
  "Request failed". The four product operations are modelled as the exact
  request each one hands to `fetch`: URL, method, headers and body.
- **The page's state manager** (`ProductPage`, page.dfy). The seven React
  state slots are fields of the class `Page`. Each handler is a method. The
  replies it would await are its parameters, and a ghost log `sent` records
  every request it issues. The filtered view and the validation of the edit
  buffer are pure functions.
- **The backend resource** (`Products`, products.dfy). It covers the label
  `__str__`, the serializer's validation and output shape, and the PUT
  handler. That handler merges the incoming `fields` into the stored ones
  (`stored + incoming`).

Shared pieces: `JsonValues` (json.dfy) defines JSON values, JavaScript
truthiness, property lookup and JavaScript's `String(v)`, including when
that conversion throws. Python truthiness is `Products.PyTruthy`. `JsText`
(jstext.dfy) defines `trim`, `toLowerCase` and `includes`. `Wire` (wire.dfy)
connects backend answers to the client's classification.

A PUT merges rather than replaces (backend/products/views.py:27-31). This
matches the page's help text (frontend/app/page.jsx:135) and the backend's
own test. The client sends the whole parsed buffer as `fields`, but a key
deleted from the buffer is never deleted on the server: the merged keys
always include the stored ones (`Products.Merge`). Caller-supplied headers
would replace, not extend, the JSON content type, because of the
`...options` spread. No caller passes headers, so every request carries
exactly `Content-Type: application/json`.

## Model

| member | source | states |
|---|---|---|
| `Api.Url` | frontend/lib/api.js:2-5 | the URL is the base followed by the path, and the bare path when the base is empty |
| `Api.Outgoing` | frontend/lib/api.js:7-13 | every request carries exactly the header `Content-Type: application/json`, with the given URL, method and body |
| `Api.ErrorText` | frontend/lib/api.js:26-28 | the error message is `detail` if truthy, else `error` if truthy (each as `new Error` turns it into text, or the conversion's TypeError message), else the status text if non-empty, else "Request failed" |
| `Api.ThrownMessage` | frontend/lib/api.js:28 | `new Error(v)` carries `String(v)` for a convertible value, and otherwise the conversion's TypeError "Cannot convert object to primitive value" is what `request` rejects with |
| `Api.Classify` | frontend/lib/api.js:15-31 | `request` fails exactly when `fetch` rejects (keeping its message) or the status is neither 204 nor ok; an ok non-204 answer gives the parsed body or `null`; a failing one gives `ErrorText` of that body and the status text |
| `Api.NoContentIgnoresBody` | frontend/lib/api.js:15-17 | a 204 answer yields `null`, and changing its body, `ok` flag or status text changes nothing, so the body is never read |
| `Api.SuccessPassesBodyThrough` | frontend/lib/api.js:19-31 | a 2xx answer other than 204 yields its parsed body unchanged, or `null` when the body does not parse |
| `Api.FailureMessages` | frontend/lib/api.js:19-28 | a non-2xx answer always fails; with an unparseable body the message is the status text or "Request failed"; with a non-empty string `detail` it is exactly that string; with a `detail` object that has its own `toString` key it is the conversion's TypeError message |
| `Api.EmptyMessageSources` | frontend/lib/api.js:26-28 | an empty error message arises only from a rejected `fetch` or from a truthy non-string `detail`/`error` (such as an empty array) |
| `Api.EveryReplyArises` | frontend/lib/api.js:4-32 | every value and every message can come out of `request`, so handlers that take replies as inputs lose no behaviour |
| `Api.ProductPath` | frontend/lib/api.js:46 | a product path starts with `/api/products/` and ends with `/` |
| `Api.ProductPathHoldsId` | frontend/lib/api.js:46 | the id is printed verbatim between `/api/products/` and the trailing slash, as `undefined` when missing |
| `Api.FetchProducts` | frontend/lib/api.js:34-36 | list is GET `/api/products/` with no body |
| `Api.CreateProduct` | frontend/lib/api.js:38-43 | create is POST `/api/products/` with body `{fields}` |
| `Api.UpdateProduct` | frontend/lib/api.js:45-50 | update is PUT `/api/products/{id}/` with body `{fields}`, the id printed verbatim |
| `Api.DeleteProduct` | frontend/lib/api.js:52-54 | delete is DELETE `/api/products/{id}/` with no body |
| `Api.DistinctIdsDistinctPaths` | frontend/lib/api.js:45-54 | distinct numeric ids give distinct update and delete URLs |
| `Api.ExamplePaths` | frontend/__tests__/api.test.js:54-77 | the delete of 5 and the update of 2 hit `http://localhost:8000/api/products/5/` and `/2/`; with an empty base the path is relative |
| `JsonValues.JsString` | frontend/lib/api.js:28 | `String(v)` of a string is the string, of an integer its decimal text, and of an empty array the empty text |
| `JsText.TrimStartDropsLeading` | frontend/app/page.jsx:20 | trimming the front drops exactly the leading whitespace |
| `JsText.TrimEndDropsTrailing` | frontend/app/page.jsx:20 | trimming the back drops exactly the trailing whitespace |
| `JsText.TrimIsInfix` | frontend/app/page.jsx:20 | `trim()` gives an infix of the text with only whitespace removed on either side, beginning and ending with non-whitespace |
| `JsText.TrimEmptyIffBlank` | frontend/app/page.jsx:49 | `trim()` is empty exactly when the text is all whitespace |
| `JsText.TrimKeepsTrimmed` | frontend/app/page.jsx:20 | text that neither begins nor ends with whitespace is unchanged by `trim()` |
| `JsText.TrimIdempotent` | frontend/app/page.jsx:20 | trimming any text twice gives what trimming it once gives |
| `JsText.ToLowerCase` | frontend/app/page.jsx:20-23 | lower-casing keeps the length, turns each ASCII capital into its lower-case letter, and keeps every other character |
| `ProductPage.MessageOr` | frontend/app/page.jsx:40 | `err?.message` falls back to a non-empty text exactly when the message is empty |
| `ProductPage.FieldsOrEmpty` | frontend/app/page.jsx:75 | a product's `fields` when truthy, and otherwise `{}`; always truthy |
| `ProductPage.NameOf` | frontend/app/page.jsx:23 | the name read by `p.fields?.name` is kept exactly when `fields` is an object holding a truthy `name`, and otherwise the empty-string fallback applies |
| `ProductPage.SearchName` | frontend/app/page.jsx:23 | the searched name has no ASCII capital; it is empty without a truthy name, and the lower-cased string for a string name |
| `ProductPage.Matches` | frontend/app/page.jsx:23-24 | the callback keeps a product whose searched name includes the term; every product passes the empty term |
| `ProductPage.Filter` | frontend/app/page.jsx:22-25 | the filtered list holds exactly the elements of the list that pass the callback |
| `ProductPage.FilterCounts` | frontend/app/page.jsx:22-25 | each passing element is kept as many times as it occurs, and each failing one never |
| `ProductPage.FilterIsSubsequence` | frontend/app/page.jsx:22-25 | the kept elements sit at strictly increasing positions of the list, so order is preserved |
| `ProductPage.FilteredProducts` | frontend/app/page.jsx:19-26 | a blank search term returns the list itself; otherwise the callback throws (`None`) exactly when some product is `null` or has a name that cannot be turned into text, and else the result is `Filter` of the list by "lower-cased name includes the trimmed, lower-cased term" |
| `ProductPage.UnprintableNameThrows` | frontend/app/page.jsx:22-24 | a product named by an object with its own `toString` key, like a `null` product, makes a non-blank search throw |
| `ProductPage.FilterExample` | frontend/app/page.jsx:19-26 | searching "mie" in [Ultramie Goreng, Soap] keeps only the first |
| `ProductPage.CheckFields` | frontend/app/page.jsx:48-71 | the buffer is accepted exactly when it is not blank and parses to an object; otherwise the message is "Please provide a JSON object for fields." for a blank buffer, "fields must be a JSON object." for a non-object, and "Invalid JSON: " followed by the parser's message for a syntax error |
| `ProductPage.CheckFieldsMessagesDistinct` | frontend/app/page.jsx:48-71 | the blank and non-object failures are each recognisable from their message alone |
| `ProductPage.LoadedProducts` | frontend/app/page.jsx:36-37 | after a load the products are the listed array, `[]` for any other listed value, and the previous list when the request failed |
| `ProductPage.LoadedResponse` | frontend/app/page.jsx:38-42 | after a load `lastResponse` is the listed value, and `{error: msg}` whenever an error is shown |
| `ProductPage.LoadedError` | frontend/app/page.jsx:34-41 | after a load an error is shown exactly when the request failed, it is never empty, and it is the failure's own message when that is non-empty |
| `ProductPage.Page.constructor` | frontend/app/page.jsx:11-17 | initial state: no products, empty search, no selection, the template in the buffer, nothing loading, no error, no request sent |
| `ProductPage.Page.SetSearchTerm` | frontend/app/page.jsx:159 | typing sets the search term |
| `ProductPage.Page.SetFieldsText` | frontend/app/page.jsx:243 | typing sets the edit buffer |
| `ProductPage.Page.ShowError` | frontend/app/page.jsx:51-52 | a failure sets both `error` and `lastResponse = {error: msg}` |
| `ProductPage.Page.LoadProducts` | frontend/app/page.jsx:32-46 | one GET is sent; on success products become the data if it is an array and `[]` otherwise, `lastResponse` the raw data, `error` null; on failure products are unchanged and `error`/`lastResponse` carry the message or "Failed to load products"; loading ends false |
| `ProductPage.Page.ParseFields` | frontend/app/page.jsx:48-71 | returns the parsed object exactly when `CheckFields` accepts the buffer (clearing `error`); otherwise shows its message in `error` and `lastResponse`; nothing else changes and no request is sent |
| `ProductPage.Page.HandleSelect` | frontend/app/page.jsx:73-77 | selects the product, puts the pretty-printed `fields` (or `{}`) in the buffer and clears `error` |
| `ProductPage.Page.HandleNew` | frontend/app/page.jsx:79-83 | clears the selection, puts `pretty({name: "", price: 0})` in the buffer and clears `error` |
| `ProductPage.Page.SaveNew` | frontend/app/page.jsx:90-94 | a POST of the fields; on success one reload, Creating mode with the template, `lastResponse` equal to the reload's outcome, `error` null even if the reload failed; on failure the message or "Save failed" and nothing else changed |
| `ProductPage.Page.UpdateDone` | frontend/app/page.jsx:96-100 | after a successful update: one reload decides the list, the server's product is selected, and its fields fill the buffer with `lastResponse` and `error` from the reload; a `null` reply throws at `updated.fields` after the selection was set |
| `ProductPage.Page.SaveSelected` | frontend/app/page.jsx:95-108 | a PUT to the selected id; on success one reload, the server's product selected and its fields in the buffer, `lastResponse` and `error` equal to the reload's; a `null` reply throws at `updated.fields` after clearing the selection; on failure the message or "Save failed" and nothing else changed |
| `ProductPage.Page.SaveFields` | frontend/app/page.jsx:89-108 | with a parsed buffer: an update of the selected id in Editing mode, a create otherwise, then exactly one reload if that succeeded, with the outcomes of `SaveNew` and `SaveSelected` |
| `ProductPage.Page.HandleSave` | frontend/app/page.jsx:85-109 | an invalid buffer sends nothing, leaves `loading` alone and shows the reason; a valid one sends a create (no selection) or an update of the selected id, then exactly one reload if that succeeded, with the outcomes of `SaveNew`/`SaveSelected`; loading ends false |
| `ProductPage.Page.DeleteDone` | frontend/app/page.jsx:115-119 | after a successful delete: one reload decides the list and `lastResponse`; the selection and buffer are reset exactly when the selected product has the deleted id |
| `ProductPage.Page.HandleDelete` | frontend/app/page.jsx:111-127 | a DELETE of the id, then exactly one reload if it succeeded; `lastResponse` is the reload's outcome, not `{deleted}`; the selection and buffer are reset only when the selected product has that id; on failure the message or "Delete failed" and nothing else changed; loading ends false |
| `Products.Label` | backend/products/models.py:9-13 | a product prints as its name when that is a non-empty string, otherwise as "Product <pk>" |
| `Products.LabelFallbacks` | backend/products/models.py:5-13 | default (empty) fields, an empty name and a non-string name all print as "Product <pk>" |
| `Products.FallbackLabelsDistinct` | backend/products/models.py:13 | two unnamed products with different keys never print alike |
| `Products.ValidateFields` | backend/products/serializers.py:14-17 | a dict is accepted and returned unchanged; anything else is rejected with the dictionary message |
| `Products.ValidatePayload` | backend/products/serializers.py:6-17 | every error is keyed by `fields`; a dict sent as `fields` is accepted and is exactly what is returned; no fields is accepted only for a partial update |
| `Products.ClientIdIgnored` | backend/products/serializers.py:11-12 | a client-supplied `id` has no effect on validation |
| `Products.NonDictsRejected` | backend/products/tests.py:39-48 | a list and a string sent as `fields` are both rejected with an error keyed by `fields` |
| `Products.Represent` | backend/products/serializers.py:11-12 | the output has exactly the keys `id` and `fields` |
| `Products.StoredDict` | backend/products/views.py:28 | stored fields that are a dict are copied; null or empty ones become `{}` |
| `Products.Merge` | backend/products/views.py:27-29 | the merge has the keys of both; every incoming key takes the incoming value; every other stored key keeps its value |
| `Products.MergeIdempotent` | backend/products/views.py:27-31 | applying the same update twice stores the same fields as applying it once |
| `Products.MergeIsShallow` | backend/products/views.py:29 | a nested object sent under a key replaces the stored one wholesale |
| `Products.MergeExample` | backend/products/tests.py:23-37 | `{price: 26000}` over `{name, price: 25000, stock: 10}` keeps the name and stock and updates the price |
| `Products.ErrorBody` | backend/products/views.py:25 | the 400 body has exactly the keys of the validation errors |
| `Products.Product.constructor` | backend/products/models.py:5 | a new product has empty fields |
| `Products.Product.Update` | backend/products/views.py:22-35 | an invalid body is answered 400 and changes nothing; otherwise the stored fields become the merge of the stored dict and the incoming fields, answered 200 with `{id, fields}` |
| `Products.UpdateWithoutFields` | backend/products/views.py:24-29 | a partial update without `fields` validates and leaves the stored dict as it was |
| `Wire.Transmit` | frontend/lib/api.js:26 | a backend answer keeps its status and reason phrase, is `ok` exactly when its status is 2xx, and its body arrives parsed |
| `Wire.UpdateAnswerReachesPage` | backend/products/views.py:34-35 | a successful update reaches the page as `{id, fields}`, and the buffer then shows exactly the merged fields |
| `Wire.ValidationErrorShowsStatusText` | backend/products/views.py:25 | a 400 validation error has neither `detail` nor `error`, so the page shows the status text or "Request failed", not the validation message |

## Left out

- The network, `fetch` and awaiting. Handlers take the replies they would await as parameters. Overlapping handlers and out-of-order completions are a concurrency concern and are not modelled.
- `loading` while a request is in flight. Each handler runs to completion in one step, so the model states only the final value. The final value is `false` after every request, and unchanged when validation fails first.
- The JSON grammar. `JSON.parse` and `JSON.stringify(value, null, 2)` are the `parse` and `pretty` parameters of the page, and the parser's error text is opaque. The request body is modelled as the value that would be serialised.
- JSON numbers are integers in this model. Fractions, exponents and JavaScript's number formatting beyond plain integers are not modelled.
- Wire.Transmit: JavaScript numbers are doubles, so `JSON.parse` rounds integers beyond 2^53 in magnitude. The model passes every integer through unchanged, so its "the body arrives parsed" holds only for integers JavaScript represents exactly.
- Wire.UpdateAnswerReachesPage: JSON objects are maps here, so member order is lost. `update` keeps the stored keys first and appends new ones, and `JSON.stringify` prints in that order; the text `pretty` puts in the buffer depends on that order, which the model cannot express.
- Api.ProductPath: an id that is an object with its own `toString` key makes the template literal throw, which the model does not capture; ids are server-assigned integers.
- Api.ThrownMessage: "Cannot convert object to primitive value" is V8's wording. Other engines word it differently.
- JsText.ToLowerCase: maps only the ASCII letters A-Z. The full Unicode case mapping of `toLowerCase` is not modelled.
- ProductPage.Page.HandleDelete: `===` on ids is modelled as value equality. For ids that are arrays or objects, JavaScript compares references, which the model does not capture. An `undefined` id (a listed product without `id`) is not modelled.
- ProductPage.Page.HandleSelect: requires a non-`null` product. The source reads `product.fields` and throws on `null`.
- ProductPage.Page.SaveSelected: the text of the TypeError thrown by `updated.fields` on a `null` reply is V8's wording. Other engines word it differently.
- The header merge at frontend/lib/api.js:7-13. No caller passes headers, so only the fixed content type is modelled.
- React rendering, `useEffect` and `useMemo` plumbing. The initial load on mount is a `LoadProducts` call by the client. `layout.jsx`, `next.config.mjs` and `vitest.config.mjs` are not part of this model.
- `getProduct` and `listProducts`. frontend/__tests__/api.test.js imports them, but frontend/lib/api.js does not define them.
- The API base address comes from the environment. Here it is the page's `base` parameter.
- Products.StoredDict: requires the stored `fields` to be a dict or falsy. `dict()` of a truthy list of pairs (which it converts) or of any other value (on which it raises) is not modelled; every write goes through `validate_fields`, which stores only dicts.
- Products.Product.Update: requires the stored `fields` to be a dict or falsy. Python's `dict()` of another stored value (raising, or converting a list of pairs) is not modelled. Such a value can only be stored by bypassing the serializer.
- Django routing (`urls.py`), `get_object` and its 404, `product_index`, DRF's generic list/create/destroy, persistence and the `created_at`/`updated_at` timestamps are framework behaviour. A request body that is not a JSON object is also not modelled.
- The selection is not kept among the listed products, and the model does not claim it is. For example, after an update whose reload fails, the selection is the server's product while the list is the old one. The model states what the code does.
