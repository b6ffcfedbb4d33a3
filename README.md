# IceCubes support screen: tip-jar codec, catalog and purchase guard

A Dafny model of the logic inside `SupportAppView`, the "support the app"
screen of the IceCubes Mastodon client. The screen sells four one-time tips
and a recurring supporter subscription through RevenueCat. Three pieces of it
are logic rather than layout, and they are what this project models and proves:

1. **The `Tip` product-identifier codec** (module `TipJar`, `tip_jar.dfy`).
   Five tiers `one`, `two`, `three`, `four`, `supporter`; a tier's product id
   is `"icecubes.tipjar.<raw value>"`. Decoding splits the id on `.`, dropping empty
   segments as Swift's `split(separator:)` does, and force-unwraps the tier
   named by segment 2. Strings are sequences of Unicode scalars here, not of
   Swift's grapheme clusters (see "Left out"). The force unwrap and the index
   are traps, so decoding has a precondition, `CanDecode`, rather than an error
   result. Proved: decoding a tier's id gives the tier back; the five ids are
   distinct and carry the prefix; decoding reads segment 2 and nothing else;
   ids with two segments or an unknown tier trap. The title and
   subtitle keys are built from the raw value.
2. **The catalog callback** (module `Catalog`, `catalog.dfy`). The screen asks
   the store for every tier's id. From what comes back it takes the first
   product with the supporter id as the subscription. It drops every product
   with that id and sorts the rest by ascending price. A product is an id and
   an integer price in minor currency units. Proved: the tips hold no supporter
   product; they are sorted by price, and products of equal price keep the order
   the store returned them in; they are a permutation of exactly the
   non-supporter products returned; the subscription is the first supporter
   product or none. When the store answers only with ids that were requested,
   every tip decodes without trapping and never to the supporter tier.
3. **The screen state** (module `SupportApp`, `support_app_view.dfy`). The
   `@State` fields are modelled as class `SupportAppView`, and `onAppear`, the
   catalog callback, `purchase(product:)` and the two alert buttons as its
   methods. `purchase(product:)` is asynchronous. It is modelled as
   `BeginPurchase` (the guard, up to the `await`) and `FinishPurchase` (the
   resumption, given the store's outcome `Completed`, `Cancelled` or `Threw`).
   `Purchase` runs the two in sequence. Proved: a purchase started while one is
   in flight changes nothing; every outcome leaves `isProcessingPurchase`
   false; success is raised only on completion, the error only on a throw,
   never both, neither on cancellation. Every step keeps the screen invariant:
   the tips are price-ordered and hold no supporter product, and the
   subscription is a supporter product. The conditions of the "subscribed"
   badge and of the subscription footer are pure predicates over the optional
   customer record, following Swift's optional chaining (`?.isEmpty == false`
   / `== true`): at most one holds, and neither holds before a record arrives.
   The subscription row shows a placeholder while loading, and nothing when no
   supporter product came back. Otherwise it shows the badge when the badge's
   condition holds, and the product's purchase button when it fails, which
   includes the case where no customer record has arrived yet.

The store (RevenueCat) is never called. What it returns is a parameter: the
product list given to `ReceiveProducts` and the outcome given to
`FinishPurchase`. The ids that `OnAppear` would send are its result.

Two points where the code is narrower than a reader of the screen might
assume, and where the model follows the code:

- There is no single "last outcome" field. The code keeps two flags,
  `purchaseSuccessDisplayed` and `purchaseErrorDisplayed`, and so does the model.
- Customer info is refreshed after every tap of a purchase button, whatever
  the outcome and even when the guard dropped the purchase
  (`SupportAppView.swift:123-126`), not only after a success. That refresh is
  outside the model (see below).

## Model

| member | source | states |
|---|---|---|
| TipJar.AllCases | IceCubesApp/App/Tabs/Settings/SupportAppView.swift:8-9 | `allCases` has five entries and no tier twice |
| TipJar.AllCasesComplete | IceCubesApp/App/Tabs/Settings/SupportAppView.swift:8-9 | every tier is among `allCases` |
| TipJar.RawValue | IceCubesApp/App/Tabs/Settings/SupportAppView.swift:8-9 | a raw value is non-empty and holds no `.`, so it survives as one segment |
| TipJar.FromRawValue | IceCubesApp/App/Tabs/Settings/SupportAppView.swift:12 | `Tip(rawValue:)` finds the tier whose raw value is the string, and fails exactly when no tier has it |
| TipJar.SegmentLength | IceCubesApp/App/Tabs/Settings/SupportAppView.swift:12 | the result is the index of the first separator, or the length when there is none |
| TipJar.Split | IceCubesApp/App/Tabs/Settings/SupportAppView.swift:12 | every segment produced by `split(separator:)` is non-empty and separator-free |
| TipJar.SegmentLengthOfWord | IceCubesApp/App/Tabs/Settings/SupportAppView.swift:12 | a separator-free word followed by a separator or the end is one whole run |
| TipJar.SplitLeadingWord | IceCubesApp/App/Tabs/Settings/SupportAppView.swift:12 | such a word is the first segment and the split continues after it |
| TipJar.SplitLeadingSeparator | IceCubesApp/App/Tabs/Settings/SupportAppView.swift:12 | a leading separator produces no segment (empty segments are omitted) |
| TipJar.SplitDotted | IceCubesApp/App/Tabs/Settings/SupportAppView.swift:12 | "a.b.c" followed by nothing or a separator splits into a, b, c and then the rest |
| TipJar.CanDecode | IceCubesApp/App/Tabs/Settings/SupportAppView.swift:12 | `Tip(productId:)` does not trap exactly when there are at least three segments and segment 2 is some tier's raw value |
| TipJar.Decode | IceCubesApp/App/Tabs/Settings/SupportAppView.swift:11-13 | `Tip(productId:)` is defined exactly when there are at least three segments and segment 2 is a raw value; the tier's raw value is segment 2 |
| TipJar.ProductId | IceCubesApp/App/Tabs/Settings/SupportAppView.swift:15-17 | every product id starts with `icecubes.tipjar.` and is longer than it |
| TipJar.ProductIdSegments | IceCubesApp/App/Tabs/Settings/SupportAppView.swift:15-17 | a product id splits into `icecubes`, `tipjar` and the raw value |
| TipJar.DecodeProductId | IceCubesApp/App/Tabs/Settings/SupportAppView.swift:11-17 | decoding a tier's product id does not trap and gives the tier back |
| TipJar.ProductIdInjective | IceCubesApp/App/Tabs/Settings/SupportAppView.swift:15-17 | the five product ids are pairwise distinct |
| TipJar.DecodeReadsThirdSegment | IceCubesApp/App/Tabs/Settings/SupportAppView.swift:12 | any two leading words and any trailing segments are ignored: only segment 2 decides the tier |
| TipJar.TwoSegmentsTrap | IceCubesApp/App/Tabs/Settings/SupportAppView.swift:12 | an id of two words, such as `icecubes.tipjar`, has no segment 2, so decoding it traps |
| TipJar.UnknownTierTraps | IceCubesApp/App/Tabs/Settings/SupportAppView.swift:12 | an id whose segment 2 is no raw value, such as `icecubes.tipjar.five`, traps whatever follows |
| TipJar.Title | IceCubesApp/App/Tabs/Settings/SupportAppView.swift:19-32 | a tier's title key is `settings.support.<raw value>.title` |
| TipJar.Subtitle | IceCubesApp/App/Tabs/Settings/SupportAppView.swift:34-47 | a tier's subtitle key is `settings.support.<raw value>.subtitle` |
| TipJar.LabelKeysDistinct | IceCubesApp/App/Tabs/Settings/SupportAppView.swift:19-47 | the title and subtitle keys are total in the tier, no two tiers share one, and no title key is a subtitle key |
| Catalog.SupporterId | IceCubesApp/App/Tabs/Settings/SupportAppView.swift:107-108 | `Tip.supporter.productId` decodes, without trapping, to the supporter tier |
| Catalog.RequestedIds | IceCubesApp/App/Tabs/Settings/SupportAppView.swift:106 | the request holds one id per entry of `allCases` |
| Catalog.RequestedIdsAreTheTiers | IceCubesApp/App/Tabs/Settings/SupportAppView.swift:106 | the request names every tier's product id, nothing else, and none twice |
| Catalog.FirstWithId | IceCubesApp/App/Tabs/Settings/SupportAppView.swift:107 | the result is the earliest product with the id, and none exactly when no product has it |
| Catalog.WithoutId | IceCubesApp/App/Tabs/Settings/SupportAppView.swift:108 | no product left by the filter carries the id |
| Catalog.WithoutIdCounts | IceCubesApp/App/Tabs/Settings/SupportAppView.swift:108 | the filter keeps each other product as often as it was returned and drops every product with the id |
| Catalog.InsertByPrice | IceCubesApp/App/Tabs/Settings/SupportAppView.swift:108 | inserting adds exactly the one product |
| Catalog.InsertByPriceSorted | IceCubesApp/App/Tabs/Settings/SupportAppView.swift:108 | inserting into a price-ordered list keeps it ordered |
| Catalog.SortByPrice | IceCubesApp/App/Tabs/Settings/SupportAppView.swift:108 | `sorted(by: price <)` returns a permutation of its input in non-decreasing price order |
| Catalog.AtPrice | IceCubesApp/App/Tabs/Settings/SupportAppView.swift:108 | every product it keeps has the given price |
| Catalog.AtPriceCounts | IceCubesApp/App/Tabs/Settings/SupportAppView.swift:108 | it keeps every product of the price as often as it occurs and nothing else; its body takes them in input order |
| Catalog.InsertByPriceTies | IceCubesApp/App/Tabs/Settings/SupportAppView.swift:108 | among products of the inserted one's price, the inserted one comes first; other prices are untouched |
| Catalog.SortByPriceStable | IceCubesApp/App/Tabs/Settings/SupportAppView.swift:108 | the sort is stable: for every price, the products of that price come out in their input order |
| Catalog.AtPriceWithoutId | IceCubesApp/App/Tabs/Settings/SupportAppView.swift:108 | the filter on an id keeps each price's products in their input order: taking one price and dropping the id commute |
| Catalog.FilterSortTieOrder | IceCubesApp/App/Tabs/Settings/SupportAppView.swift:108 | after the filter and the sort, each price's products are that price's returned products in store order, minus those carrying the id |
| Catalog.SortByPriceOfSorted | IceCubesApp/App/Tabs/Settings/SupportAppView.swift:108 | a list already in price order comes back as it is |
| Catalog.Tips | IceCubesApp/App/Tabs/Settings/SupportAppView.swift:108 | the stored tips are price-ordered, hold no supporter product, are a permutation of exactly the non-supporter products returned, and keep the store's order among equal prices (each price's tips are that price's returned products, in store order, without the supporter) |
| Catalog.TipsDecode | IceCubesApp/App/Tabs/Settings/SupportAppView.swift:199-200 | if the store returns only requested ids, every listed tip decodes without trapping and to a tier other than the supporter |
| Catalog.FilterFullCatalog | IceCubesApp/App/Tabs/Settings/SupportAppView.swift:108 | filtering one, two, supporter, three, four on the supporter's id leaves one, two, three, four |
| Catalog.FullCatalogTips | IceCubesApp/App/Tabs/Settings/SupportAppView.swift:106-108 | five products answered one, two, supporter, three, four with ascending tip prices give the tips one, two, three, four |
| Catalog.FullCatalogSubscription | IceCubesApp/App/Tabs/Settings/SupportAppView.swift:107 | in that answer the supporter product is the subscription |
| SupportApp.ActiveIsEmpty | IceCubesApp/App/Tabs/Settings/SupportAppView.swift:162 | the optional chain is absent exactly when there is no customer record |
| SupportApp.IsSubscribed | IceCubesApp/App/Tabs/Settings/SupportAppView.swift:162 | the badge's condition holds exactly when a record is known and has an active entitlement |
| SupportApp.ShowsSubscriptionInfo | IceCubesApp/App/Tabs/Settings/SupportAppView.swift:187 | the footer's condition holds exactly when a record is known and has no active entitlement |
| SupportApp.SubscriptionDisplay | IceCubesApp/App/Tabs/Settings/SupportAppView.swift:162-189 | the badge's condition and the footer's never hold together, and neither holds without a record |
| SupportApp.SupportAppView.ShowsSubscribedBadge | IceCubesApp/App/Tabs/Settings/SupportAppView.swift:158-166 | the badge shows exactly when loading is over, a supporter product came back and a known record has an active entitlement |
| SupportApp.SupportAppView.OffersSubscription | IceCubesApp/App/Tabs/Settings/SupportAppView.swift:168-180 | the purchase button shows exactly when loading is over, a supporter product came back and there is no record or its active set is empty |
| SupportApp.SubscriptionRow | IceCubesApp/App/Tabs/Settings/SupportAppView.swift:158-185 | the row never shows both the badge and the purchase button, and shows one of them exactly when loading is over and a subscription came back |
| SupportApp.SubscriptionIsSupporterTier | IceCubesApp/App/Tabs/Settings/SupportAppView.swift:160-180 | under the screen invariant the subscription row's product decodes to the supporter tier |
| SupportApp.TipRowsDecode | IceCubesApp/App/Tabs/Settings/SupportAppView.swift:199-200 | under the screen invariant, when the shown tips carry requested ids, decoding each one does not trap and never yields the supporter tier |
| SupportApp.SupportAppView.constructor | IceCubesApp/App/Tabs/Settings/SupportAppView.swift:54-60 | the screen starts not loading, with no tips, no subscription, no purchase in flight and no alert |
| SupportApp.SupportAppView.OnAppear | IceCubesApp/App/Tabs/Settings/SupportAppView.swift:83-85 | appearing sets `loadingProducts`, asks for every tier's id and changes nothing else; the screen invariant is kept |
| SupportApp.SupportAppView.ReceiveProducts | IceCubesApp/App/Tabs/Settings/SupportAppView.swift:106-111 | after the callback, loading is over, the subscription is the first supporter product, the tips are the sorted non-supporter products, the screen invariant holds and the purchase flags are untouched |
| SupportApp.SupportAppView.BeginPurchase | IceCubesApp/App/Tabs/Settings/SupportAppView.swift:91-92 | a purchase starts exactly when none is in flight; when one is, nothing changes; the screen invariant is kept |
| SupportApp.SupportAppView.FinishPurchase | IceCubesApp/App/Tabs/Settings/SupportAppView.swift:93-101 | on every outcome the slot is released; success is raised on completion only, the error on a throw only; the screen invariant is kept |
| SupportApp.SupportAppView.Purchase | IceCubesApp/App/Tabs/Settings/SupportAppView.swift:90-103 | a purchase while one is in flight changes nothing; otherwise it ends with no purchase in flight, never raises both alerts, and raises neither on cancellation; the screen invariant is kept |
| SupportApp.SupportAppView.DismissSuccessAlert | IceCubesApp/App/Tabs/Settings/SupportAppView.swift:74 | the OK button hides the success alert; the screen invariant is kept |
| SupportApp.SupportAppView.DismissErrorAlert | IceCubesApp/App/Tabs/Settings/SupportAppView.swift:79 | the OK button hides the error alert; the screen invariant is kept |

`SupportApp.PurchaseScenarios` is a client of the class. It steps through a
double tap, a cancellation and a failure in sequence and asserts the state
after each. It also asserts that a record whose only active entitlement is
`supporter` meets the badge's condition. All of this is verified, not executed.

## Left out

- SwiftUI layout, sections, placeholders, shimmer, theme colours and animation (`withAnimation` around the loading flag): presentation only.
- The RevenueCat calls `getProducts`, `purchase`, `getCustomerInfo` and `restorePurchases`: foreign SDK calls. Only their results appear, as parameters.
- `refreshUserInfo` and the restore button overwrite `customerInfo` with whatever the SDK returns. That is plain assignment with nothing more to state. The screen's `customerInfo` field is therefore not part of the class, and the badge and footer predicates take the record as a parameter.
- The refresh of customer info after each purchase-button tap: it is one of those assignments.
- `Task` and `async` scheduling: each callback and each half of `purchase(product:)` is one atomic step. A store that never calls back, which would leave `loadingProducts` set, is not modelled.
- `Decimal` prices and `localizedPriceString`: prices are integers in minor units, and locale formatting is not modelled.
- The localized text the title and subtitle keys stand for (the string tables): resources outside the code. The keys themselves are modelled exactly.
- The privacy and terms links (`openURL`): I/O.
- TipJar.Split: strings are modelled as sequences of Unicode scalars, and `.` is matched as a scalar. Swift compares grapheme clusters, so a `.` followed by a combining mark (U+0301, say) is not a separator there but is one here. Grapheme clustering is not modelled; the store's product ids, `icecubes.tipjar.<tier>`, are plain ASCII, where the two agree.
