# Two fetching Lit widgets, modelled in Dafny

The repository holds two web components built on Lit.

- `nasa-image-search` (src/option2.js) searches the NASA image library for its
  `title` and keeps one simplified record per result in `images`. It fetches
  when it is first rendered, and again whenever a change batch names `loadData`
  while `loadData` is truthy. The first update's batch names `loadData` too, so
  a truthy `loadData` fetches twice on mount.
- `location-from-ip` (src/LocationFromIP.js) resolves the user's IP address,
  looks it up with a geo-IP service, and keeps `lat`, `long`, `city` and
  `state`. From those it renders a map, a maps link and three Wikipedia searches.

Each widget becomes a class whose fields are the element's properties. Its
lifecycle hooks are methods that return the URLs they request. The handler
that turns a response into state is a method, proved against a specification
function of the prior state and the response. The network call is an input
value. Either `fetch` rejects (`NetworkError`), or it yields a response with
an `ok` flag and what `resp.json()` gives, with None for a body that is not
JSON.

JavaScript's own rules are written out in module `JsValue`:

- Reading a property of `undefined` or `null` throws a TypeError.
- Reading a missing property gives `undefined`.
- Truthiness follows JavaScript.
- `String(v)` is used by template literals.
- A Lit attribute binding writes `undefined` and `null` as the empty string.

Module `Text` splits a string on a separator and joins parts back. It is used
to read URLs back into their parts.

Files:

- `js_value.dfy` holds module `JsValue`.
- `text.dfy` holds module `Text`.
- `fetch.dfy` holds module `Fetch`: the fetch outcome, and the value the
  second `.then` handler receives.
- `nasa_image_search.dfy` holds module `NasaImageSearch`.
- `location_from_ip.dfy` holds module `LocationFromIP`.

What the code does on failure and concurrency:

- Both widgets check `resp.ok`. On a non-ok response each hands `false` to
  the next handler.
- A non-ok response does not keep the last good state. It empties
  `images`, and it overwrites all four location fields with `undefined`.
- A rejected fetch, or a body that is not JSON, leaves the state as it was.
  So does a `null` body in `location-from-ip`, because reading
  `data.latitude` throws before any field is written.
- Concurrent fetches are not superseded, and there is no timeout. Responses
  apply in arrival order, each by one call of the handler method.

## Model

| member | source | states |
|---|---|---|
| NasaImageSearch.NasaImageSearch.constructor | src/option2.js:8-20 | `loadData` is false, `page` is 1, `images` is empty and `name` is 'moon land'. `title` stays unset (`undefined`). The other declared defaults are set as written. |
| NasaImageSearch.NasaImageSearch.FirstUpdated | src/option2.js:42-47 | The `firstUpdated` hook on its own requests exactly one search, for the current title and page. |
| NasaImageSearch.NasaImageSearch.FirstRender | src/option2.js:42-55 | After the first update, Lit runs `firstUpdated` and then `updated` on the same batch. The first batch names `loadData`, so a falsy `loadData` gives one search and a truthy one gives two, all for the current title and page. |
| NasaImageSearch.NasaImageSearch.Updated | src/option2.js:49-55 | A change batch requests one search per `loadData` entry while `loadData` is truthy, each for the current title and page. A batch with distinct names, which a `Map` guarantees, requests at most one. A batch without `loadData` requests none. A falsy `loadData` requests none. |
| NasaImageSearch.OccurrencesOfDistinct | src/option2.js:49-55 | A name is absent from a batch exactly when it occurs zero times. With distinct names it occurs at most once. |
| JsValue.NumberText | src/option2.js:60 | A number renders with no '&', ',' or '=' in it. |
| Fetch.Payload | src/option2.js:64-71 | What reaches the second `.then`. A rejected fetch, or an ok body that is not JSON, reaches no handler. A non-ok response hands on `false` whatever its body, so the body is never read. An ok response hands on its parsed body. `getGEOIPData` has the same first `.then` (src/LocationFromIP.js:69-75). |
| NasaImageSearch.SearchUrl | src/option2.js:60 | The URL `getData` fetches starts with the search endpoint followed by `q=`. |
| NasaImageSearch.QuerySegments | src/option2.js:60 | Splitting the search query on '&' gives back `q=<term>`, the page and `media_type=image`, when neither term nor page holds a '&'. |
| NasaImageSearch.SearchUrlSegments | src/option2.js:60 | The search URL is the search endpoint followed by a query that reads back into term, page and media type, when neither the title nor the page renders with a '&'. |
| NasaImageSearch.PageIsNotKeyed | src/option2.js:60 | For a numeric page and a title that renders with no '&', the query has three segments. None of them is a `page=` parameter. The page segment has no '=' at all. |
| NasaImageSearch.ItemRecordFields | src/option2.js:85-90 | A record is built exactly when `links[0]` and `data[0]` can be dereferenced. Its image is `links[0].href`. Its description, title and creator are `data[0].description`, `.title` and `.secondary_creator`. |
| NasaImageSearch.Extent | src/option2.js:83 | Evaluating the loop guard throws exactly when `data`, `data.collection` or `data.collection.items` is `undefined` or `null`. Otherwise the loop runs `items.length` times for an array, and any positive count it allows is `items.length`. |
| NasaImageSearch.HarvestStops | src/option2.js:83-91 | Once an iteration of the loop has thrown, later iterations change nothing. |
| NasaImageSearch.HarvestedRecords | src/option2.js:83-91 | The loop keeps each item's record, in item order, up to the first item whose record cannot be built. It stops there, and only there. |
| NasaImageSearch.HandleResponse | src/option2.js:75-96 | When the chain rejects before the handler, `images` is what it was. The handler returns nothing, so a fulfilled chain carries `undefined`. |
| NasaImageSearch.NasaImageSearch.ReceiveResponse | src/option2.js:64-96 | The new `images` and the chain's settlement are those of `HandleResponse` applied to the old list and the response. |
| NasaImageSearch.NonOkResponseClearsImages | src/option2.js:64-83 | A non-ok response leaves `images` empty, whatever it held, and the chain rejects. |
| NasaImageSearch.UnreachedHandlerKeepsImages | src/option2.js:64-75 | A rejected fetch, or an ok body that is not JSON, leaves `images` untouched. |
| NasaImageSearch.PriorImagesDiscarded | src/option2.js:77 | Once the handler runs, the result does not depend on the old list. Records are never merged into it. |
| NasaImageSearch.HandleResponseIdempotent | src/option2.js:75-96 | Handling the same response a second time changes nothing more. |
| NasaImageSearch.ResponseImages | src/option2.js:77-91 | For a payload whose loop guard can be read, `images` holds one projected record per item in order, up to the first malformed item. The chain fulfils exactly when no item is malformed. |
| NasaImageSearch.ApiShapedResponse | src/option2.js:83-91 | For an ok `{collection: {items: [...]}}` payload with well-formed items, `images.length` equals `items.length`. Record k is item k's projection. |
| NasaImageSearch.Cards | src/option2.js:119-132 | `render` draws one card per record, in order, each showing that record's image, title, description and creator. |
| NasaImageSearch.OneResultOneCard | src/option2.js:119-132 | After an ok response with one well-formed item, `render`, when it next runs, draws one card with that item's four fields. |
| LocationFromIP.LocationFromIP.constructor | src/LocationFromIP.js:21-27 | `lat` and `long` are null. `locationEndpoint` is 'https://freegeoip.app/json/'. `city`, `state` and `region_name` are unset. |
| LocationFromIP.LocationFromIP.FirstUpdated | src/LocationFromIP.js:44-49 | The first render starts one lookup. Once the IP data resolves, it requests at most one URL, and that URL starts with the endpoint. Nothing is requested when the IP data cannot be read. |
| LocationFromIP.LookupUrl | src/LocationFromIP.js:67-69 | A URL is built exactly when `ipData.ip` can be read, and it starts with the endpoint. |
| LocationFromIP.LookupUrlParts | src/LocationFromIP.js:67-69 | A lookup URL exists exactly when the IP data can be read. Stripping the endpoint from its front gives back the IP as written, with no separator. |
| LocationFromIP.HandleLookup | src/LocationFromIP.js:69-83 | A rejected chain leaves all four fields as they were. A fulfilled chain carries exactly the payload the handler received. |
| LocationFromIP.LocationFromIP.ReceiveLookup | src/LocationFromIP.js:69-83 | The four fields and the chain's settlement are those of `HandleLookup` applied to the old fields and the response. `region_name` and the endpoint are unchanged. |
| LocationFromIP.NonOkLookupForgetsPlace | src/LocationFromIP.js:70-81 | A non-ok response does not throw. `lat`, `long`, `city` and `state` all become `undefined`, whatever they held, and the chain fulfils with `false`. |
| LocationFromIP.OkLookupCopiesPayload | src/LocationFromIP.js:76-83 | On an ok object payload, `lat`, `long`, `city` and `state` are `latitude`, `longitude`, `city` and `region_name` (or `undefined` where absent). The payload is returned unchanged. |
| LocationFromIP.RejectedLookupKeepsPlace | src/LocationFromIP.js:76-81 | The handler throws exactly when it is not reached or the payload is `null` or `undefined`. Then no field is written. |
| LocationFromIP.FulfilledLookupOverwrites | src/LocationFromIP.js:78-81 | A completed lookup does not depend on the prior values. They are overwritten, not merged. |
| LocationFromIP.EmbedUrl | src/LocationFromIP.js:109 | The `iframe` source starts with the maps endpoint followed by `q=`. |
| LocationFromIP.MapsLink | src/LocationFromIP.js:112 | The maps link starts with the maps endpoint and ends with `,14z`. |
| LocationFromIP.Render | src/LocationFromIP.js:106-122 | `render` gives an embed URL and a maps link on their endpoints, and three searches, the second and third being the city and the state as bound. |
| LocationFromIP.EmbedQueryCoordinates | src/LocationFromIP.js:109 | The embed query's first parameter is `q=<lat>,<long>`. Its value splits on ',' back into both coordinates. |
| LocationFromIP.EmbedUrlCoordinates | src/LocationFromIP.js:109 | The embed URL is the maps endpoint followed by a query that carries both coordinates as `String()` writes them. |
| LocationFromIP.MapsLinkCoordinates | src/LocationFromIP.js:112 | The maps link, read after its '@', splits on ',' into the two bound coordinates and `14z`. |
| LocationFromIP.Searches | src/LocationFromIP.js:120-122 | There are three searches, in order: the first is the second, ", ", the third and a trailing space. The second is the city and the third is the state, as bound. |
| LocationFromIP.FirstSearchParts | src/LocationFromIP.js:120 | The first search splits on ',' back into the city and the state between two spaces, when neither holds a ','. |
| LocationFromIP.InitialView | src/LocationFromIP.js:106-112 | Before any lookup completes, the embed URL asks for `null,null`. The maps link has empty coordinates. |
| LocationFromIP.NonOkLookupView | src/LocationFromIP.js:106-122 | After a non-ok response, the page shows a map of `undefined,undefined` and a maps link with empty coordinates. The searches are ",  ", "" and "". |

## Left out

- The `fetch` transport and promise scheduling. The outcome of a fetch is an input to the handler methods. A caller applies responses in whatever order they arrive.
- `UserIP.updateUserIP`: src/UserIP.js is not part of this model. The value it resolves to is an input to `LocationFromIP.LocationFromIP.FirstUpdated`. A rejection of it behaves like IP data that cannot be read: nothing is fetched.
- Lit machinery: `html`/`css` templates, the `styles` getters, `customElements.define`, attribute reflection, the `super.firstUpdated` chaining, and the host's scheduling of `updated`.
- Re-rendering after a response: `images` is not a declared reactive property (the element declares `image`), so filling it schedules no render. The new cards appear only when some declared property next changes. The model shows what `render` draws from the state, not when it runs. Likewise `location-from-ip` declares `region_name` rather than `state`, so a lookup that changes only `state` schedules no render.
- The embedded `wikipedia-query`, `accent-card` and `date-card` elements and the CDN `<script>` tags. These are foreign UI.
- `console.log`, which is output only.
- `location-from-ip` has no `updated` hook, so no property change starts a lookup. There is nothing to model.
- The unused `const file` string in `nasa-image-search`'s `render`.
- Floating-point numbers: a number with a fractional part is carried as the text JavaScript writes for it. No arithmetic is done on it.
- Integers are written in plain decimal. JavaScript's exponent form at 1e21 and above is not modelled, and neither is NaN.
- NasaImageSearch.Extent: a loop-guard `length` that is not a positive integer ends the loop at once. JavaScript would coerce numeric strings and compare fractions.
- Property reads on arrays and strings give only `length` and indices. Inherited prototype members read as `undefined`.
- NasaImageSearch.Cards: a card keeps the title, description and creator as the values bound into its slots. How Lit turns a child value into text nodes is not modelled.
