# Signals storefront demo: banner, configuration gate and tracker facade

This project models the small amount of logic in a demo e-commerce storefront built around a behavioural-analytics SDK. It covers three parts, each as pure step functions over explicit, immutable state:

- **The intervention banner** (`Interventions`, from `app/src/App.tsx`). The state is one banner slot plus the deadlines of the pending "clear" timers, on an abstract millisecond clock. The intervention handler maps a name through a fixed table to a banner (type, message, optional code). Each handler call arms one clear 60 000 ms later, whatever the name. A clear that fires empties the slot. The close button empties the slot too. No clear is ever cancelled.
- **The configuration gate** (`Config`, from `app/src/App.tsx`). It covers the welcome form and its pre-fill from browser storage, where a missing key reads as `""`. A submit is accepted and both storage keys are written only when both addresses are non-empty. "Edit Configuration" discards the configuration. The top-level component switches between the welcome screen and the shop.
- **The tracker facade** (`Analytics`, from `app/src/snowplow.ts`, and `Storefront`, its callers in `app/src/App.tsx`). The SDK is seen only as an append-only trace of the calls made to it. The facade has an initialize-once guard, so the first call's addresses win. Initialization appends `setUserId` only for a non-empty id, while a user change sets whatever id it is given. A user change clears user data, then sets the id. The two product payloads are built from a product: the decimal id, `"N/A"` when the brand is absent or empty, a fixed `"USD"` currency, and a one-line cart whose total is the line's price.

`Decimal` models `String(n)` for integer ids, together with the parser that inverts it. `Catalog` holds the product record and the two display rules: the brand label and the 100-character description preview. `Wrappers` holds `Option`.

### Behaviour of the code worth knowing

The model follows the code as written:

- A timer is armed on every handler call, including for unknown names. Earlier timers are never cancelled, by a newer intervention or by the close button. So a clear armed for one intervention can remove a newer banner early. For example, `discount` at t, then `free_shipping` at t+30 s, leaves no banner at t+60 s (`StaleTimerClearsNewerBanner`, `DiscountThenFreeShipping`). On the model's clock, where every clear fires exactly at its deadline, no banner outlives one dwell (`BannerNeverOutlivesDwell`).
- Each page load starts unconfigured (`useState(null)` at `app/src/App.tsx:387`). Stored addresses only pre-fill the form, and the user still has to submit it (`ReloadPrefillsButDoesNotConfigure`).
- "Edit Configuration" clears only the in-memory configuration. Storage is not erased, so the form reopens pre-filled (`EditReturnsToPrefilledWelcome`).
- A re-initialization with new addresses is silently ignored by the guard. Each remount of the shop still registers one more intervention handler, and none is ever removed (`ReconfigurationNotApplied`, `EachMountAddsHandler`).
- No exception handling surrounds the intervention handler.

## Model

| member | source | states |
|---|---|---|
| `Interventions.Lookup` | app/src/App.tsx:292-311 | exactly the three names `cart_abandonment`, `discount`, `free_shipping` yield a banner; its type is the name; it carries a code iff the name is not `cart_abandonment` |
| `Interventions.CartAbandonmentBanner` | app/src/App.tsx:292-296 | `cart_abandonment` gives type `cart_abandonment`, message "Don't forget your items in cart!", no code |
| `Interventions.CodedBanners` | app/src/App.tsx:297-308 | `discount` gives "10% off your next purchase!" with code `SAVE10`; `free_shipping` gives "Free shipping on orders over $100!" with code `FREE` |
| `Interventions.Intervene` | app/src/App.tsx:289-316 | the handler keeps the controller invariant: clears stay in firing order within one dwell, and a banner on show always has a clear pending |
| `Interventions.KnownInterventionShows` | app/src/App.tsx:292-308 | a known name puts its table banner in the slot whatever was shown before, and the banner renders |
| `Interventions.UnknownInterventionKeepsSlot` | app/src/App.tsx:309-311 | any other name leaves the banner slot unchanged |
| `Interventions.LaterInterventionReplaces` | app/src/App.tsx:293-308 | after two handler calls the slot holds only the second known banner, exactly as if the first had never come |
| `Interventions.ArmsExactlyOneClear` | app/src/App.tsx:313-315 | every handler call, known name or not, adds exactly one pending clear at now + 60000 and removes none |
| `Interventions.FireNext` | app/src/App.tsx:313-315 | a firing clear keeps the invariant and happens at its own deadline |
| `Interventions.FireClearsAnyBanner` | app/src/App.tsx:313-315 | a firing clear empties the slot whichever banner is shown, and consumes only its own deadline |
| `Interventions.DueCount` | app/src/App.tsx:313-315 | counts the leading pending clears due by a time: all counted ones are due, and the next one is not |
| `Interventions.AdvanceTo` | app/src/App.tsx:313-315 | letting time pass fires exactly the due prefix of clears, empties the slot iff one fired, and keeps the invariant |
| `Interventions.AdvanceClearsIffDue` | app/src/App.tsx:313-315 | waiting until t empties the slot iff some pending clear is due by t (or it was already empty); exactly the clears after t remain |
| `Interventions.Dismiss` | app/src/App.tsx:320-322 | the close button keeps the invariant |
| `Interventions.DismissClearsKeepsTimers` | app/src/App.tsx:320-322 | closing empties the slot, leaves every pending clear and the clock as they were, and is idempotent |
| `Interventions.RunPreservesWf` | app/src/App.tsx:289-322 | any sequence of handler calls, closes and waits keeps the controller invariant |
| `Interventions.BannerNeverOutlivesDwell` | app/src/App.tsx:313-315 | from any reachable state, 60 s without events leaves no banner |
| `Interventions.BannerClearedAfterQuietDwell` | app/src/App.tsx:289-322 | for every history since mount, a following 60 s wait ends with no banner |
| `Interventions.StaleTimerClearsNewerBanner` | app/src/App.tsx:313-315 | intervention A, 30 s, known intervention B, 30 s: B is shown and then removed by A's clear while B's own clear is still pending |
| `Interventions.DiscountThenFreeShipping` | app/src/App.tsx:297-315 | `discount` shows SAVE10; `free_shipping` 30 s later replaces it with FREE; 60 s after the discount the slot is empty |
| `Interventions.Render` | app/src/App.tsx:199-209 | nothing renders for an empty slot; otherwise type and message render, and "Use code" appears iff a non-empty code is present |
| `Interventions.CodeNoteForTable` | app/src/App.tsx:204-209 | among table banners, "Use code" appears exactly for `discount` and `free_shipping` |
| `Config.StoredOrEmpty` | app/src/App.tsx:42-47 | a missing storage key reads as `""`, a present one as its value |
| `Config.Prefill` | app/src/App.tsx:42-47 | the form's two fields start from the two storage keys |
| `Config.HandleSubmit` | app/src/App.tsx:49-57 | a submit is accepted iff both fields are non-empty; if accepted it writes the form's two values under the two keys and hands on exactly the form's config; if rejected storage is unchanged; other keys are never touched |
| `Config.PersistRoundTrip` | app/src/App.tsx:42-55 | after an accepted submit, pre-filling from storage gives back exactly the submitted form |
| `Config.RejectedSubmitChangesNothing` | app/src/App.tsx:49-57 | a submit with an empty field leaves the application and its screen unchanged |
| `Config.EmptyStorageRejectsUntouchedForm` | app/src/App.tsx:42-51 | with a key missing from storage, submitting the untouched pre-filled form is rejected |
| `Config.Load` | app/src/App.tsx:386-387 | each page load starts without configuration whatever storage holds |
| `Config.Show` | app/src/App.tsx:397-401 | the shop is shown iff a configuration is held, and with that configuration; otherwise the welcome form is shown pre-filled from storage |
| `Config.Submit` | app/src/App.tsx:389-391 | the welcome screen moves to the shop iff both fields are non-empty, and otherwise changes nothing |
| `Config.EditConfig` | app/src/App.tsx:393-395 | "Edit Configuration" discards the configuration and keeps storage |
| `Config.EditReturnsToPrefilledWelcome` | app/src/App.tsx:386-401 | accepted submit shows the shop with the submitted config; editing then shows the welcome form pre-filled with the same values |
| `Config.ReloadPrefillsButDoesNotConfigure` | app/src/App.tsx:386-399 | a reload after an accepted submit opens the welcome screen pre-filled with the submitted values, not the shop |
| `Decimal.NatDigits` | app/src/snowplow.ts:75 | the decimal digits of a natural number are non-empty, all digits, with no leading zero |
| `Decimal.DecimalString` | app/src/snowplow.ts:75 | the rendered id starts with `-` iff the number is negative, and the rest is a non-empty run of digits with no leading zero |
| `Decimal.DecimalRoundTrip` | app/src/snowplow.ts:75 | parsing the decimal string of any integer id gives that integer back |
| `Decimal.DecimalStringInjective` | app/src/snowplow.ts:75 | distinct integers render to distinct strings |
| `Catalog.BrandLabel` | app/src/App.tsx:159 | the brand shown is never empty: a present non-empty brand is copied, an absent or empty one becomes "N/A" |
| `Catalog.DescriptionPreview` | app/src/App.tsx:242 | the preview is the first min(length, 100) characters of the description followed by "..." |
| `Catalog.ShortDescriptionShownWhole` | app/src/App.tsx:242 | a description of at most 100 characters is shown whole before the ellipsis |
| `Analytics.Initialize` | app/src/snowplow.ts:28-55 | after any call the flag is set, and the earlier trace is kept as a prefix |
| `Analytics.InitializeAppends` | app/src/snowplow.ts:33-54 | the first call appends tracker creation then subscription; every call then appends `setUserId` only for a present, non-empty id |
| `Analytics.InitializeCounts` | app/src/snowplow.ts:33-49 | one tracker and one subscription are added on the first call, none on later calls |
| `Analytics.ReinitializeIsGuarded` | app/src/snowplow.ts:33-49 | an already-initialized facade adds no tracker and no subscription, whatever addresses are passed |
| `Analytics.SetUserIdIffGiven` | app/src/snowplow.ts:51-54 | `setUserId(id)` is appended iff the id is given and non-empty, initialized or not |
| `Analytics.UpdateUser` | app/src/snowplow.ts:57-65 | a user change keeps the flag and adds exactly two calls after the unchanged earlier trace |
| `Analytics.ResetUserData` | app/src/snowplow.ts:67-70 | a reset keeps the flag and adds exactly one call after the unchanged earlier trace |
| `Analytics.UserChangeOrder` | app/src/snowplow.ts:57-70 | a user change appends `clearUserData` strictly before `setUserId(userId)`; a reset appends exactly one `clearUserData` |
| `Analytics.EntityFor` | app/src/snowplow.ts:74-81 | the product line's id is the decimal rendering of the product id and parses back to it; name is the title; category and price are copied; brand follows the brand rule and is never empty; currency is USD |
| `Analytics.CartFor` | app/src/snowplow.ts:86-99 | the cart has exactly one line, the product's line; its total value is that line's price; currency is USD at both levels |
| `Analytics.TrackProductViewEvent` | app/src/snowplow.ts:72-82 | tracking a view appends exactly one `trackProductView` call carrying the product's line, and keeps the flag and the earlier trace |
| `Analytics.TrackAddToCartEvent` | app/src/snowplow.ts:84-100 | tracking an add-to-cart appends exactly one `trackAddToCart` call carrying the product's one-line cart, and keeps the flag and the earlier trace |
| `Analytics.PayloadsAgree` | app/src/snowplow.ts:72-100 | the view and add-to-cart payloads carry the same product line |
| `Analytics.DistinctIdsStayDistinct` | app/src/snowplow.ts:75 | products with different ids are reported under different id strings |
| `Analytics.ApplyKeepsConsistent` | app/src/snowplow.ts:25-100 | every facade operation keeps the flag in agreement with the trace: one tracker and one subscription once initialized, none before |
| `Analytics.ReplayKeepsConsistent` | app/src/snowplow.ts:25-100 | the same over any sequence of facade operations |
| `Analytics.ReplayExtends` | app/src/snowplow.ts:25-100 | the trace only grows, and once set the initialized flag never becomes false |
| `Analytics.InitializedForever` | app/src/snowplow.ts:25-49 | after any initialization, whatever follows, the flag is set and exactly one tracker and one subscription exist |
| `Analytics.FirstInitWins` | app/src/snowplow.ts:33-49 | after a first initialization and any later operations, the recorded collector and intervention endpoint are those of the first call |
| `Storefront.MountShop` | app/src/App.tsx:271-318 | mounting the shop keeps the earlier trace and leaves tracking initialized; an uninitialized facade gets exactly tracker creation for the configured collector, subscription to the configured endpoint, `clearUserData` and one handler registration, while an initialized one gets only `clearUserData` and one handler registration, whatever the addresses |
| `Storefront.EachMountAddsHandler` | app/src/App.tsx:288-318 | every mount registers exactly one more intervention handler; earlier ones stay registered |
| `Storefront.FirstMountCalls` | app/src/App.tsx:271-318 | the first mount calls exactly: create the tracker for the configured collector, subscribe to the configured endpoint, clear user data, register the intervention handler |
| `Storefront.ReconfigurationNotApplied` | app/src/App.tsx:271-318 | editing and submitting new addresses remounts the shop, which adds only `clearUserData` and a second handler registration; tracking keeps the first collector and endpoint, and two handlers are registered |
| `Storefront.CardClicked` | app/src/App.tsx:223-226 | a card click records a product view of that product and opens it in the modal |
| `Storefront.CardAddToCart` | app/src/App.tsx:228-231 | the card's button records that product's cart and leaves the modal as it was |
| `Storefront.ModalAddToCart` | app/src/App.tsx:117-122 | the modal's button records nothing without an open product, and the open product's cart otherwise |
| `Storefront.ModalTracksOpenProduct` | app/src/App.tsx:117-122 | opening a product then pressing the modal's button records its view then its cart; with no product open nothing is recorded |
| `Storefront.CloseModal` | app/src/App.tsx:328-330 | closing the modal clears the selection and tracks nothing |
| `Storefront.ResetClicked` | app/src/App.tsx:332-337 | "Reset User Data" appends exactly one `clearUserData` and keeps the selection |
| `Storefront.ShowModal` | app/src/App.tsx:130 | the modal renders nothing iff no product is selected |
| `Storefront.BrandRuleShared` | app/src/App.tsx:159 | the modal shows the same brand that both payloads send, "N/A" for an absent or empty brand |

## Left out

- Rendering, JSX, CSS class names, `alert` and `console.log` are presentation only. Only the banner and modal display rules are modelled.
- The product catalog `fetch` (`app/src/App.tsx:277-286`) and the `loading` flag are network I/O. The flag becomes false on both the success and the failure path.
- Real `localStorage` and `setTimeout` are replaced by a key/value map and an abstract clock with a queue of deadlines. Timers with equal delays fire in arming order.
- The SDK internals behind `newTracker`, `subscribeToInterventions`, `addInterventionHandlers`, `trackProductView`, `trackAddToCart`, `clearUserData` and `setUserId` are foreign calls. They appear only as trace entries. The handler passed to `addInterventionHandlers` is recorded only as a registration, not as its callback.
- The exported `tracker` handle and the `newTracker` options other than namespace, collector and app id are not modelled. Those options are root-domain discovery, cookie policy, the web-page context and the plugin list.
- The mount effect registers another intervention handler on every mount (`app/src/App.tsx:288-318`), and the trace counts these registrations. The banner state machine models one handler per page, so after a remount the second timer each intervention would arm, and the closure over an unmounted page's banner, are not modelled.
- The welcome form's keystroke updates and the browser's own `required`/`type="url"` input checks are UI behaviour. The model takes the field values at submit time.
- The product's thumbnail, stock and rating are display-only fields, so they are not modelled.
- `Decimal.DecimalString` matches JavaScript's `String(n)` only for integers of magnitude at most 2^53 (9007199254740992). Above that a JavaScript number cannot hold every integer, and `String(n)` prints the shortest digits that identify the double, padded with zeros (`String(2**60)` is `"1152921504606847000"`). From 10^21 on it switches to exponent form (`"1e+21"`). The model always writes every digit of the exact integer, so its injectivity (`DecimalStringInjective`) does not carry over to ids beyond 2^53. Fractional, `NaN` and infinite ids are not modelled either; product ids are taken to be integers.
- `Catalog.DescriptionPreview` counts characters, while JavaScript's `substring` counts UTF-16 code units. Characters outside the Basic Multilingual Plane are therefore counted differently.
- `Interventions.BannerNeverOutlivesDwell`: holds on the model's clock, where every clear fires exactly at its deadline. A browser's `setTimeout` fires no earlier than the deadline but may fire later, for example while a blocking `alert` is open (`app/src/App.tsx:120`, `230`, `334`) or in a throttled background tab. In that case a banner can stay longer than 60 s, and a late clear can remove a banner that arrived after the deadline. Neither case is modelled.
- Prices are floating-point values that the code only copies, so the model treats them as opaque values.
