# SalonyAI storefront: cart and language resolution, in Dafny

This project models the client-side logic of the SalonyAI multi-tenant
storefront and proves properties of it. The storefront is a Next.js
application: a tenant's slug in the URL selects that tenant's branding,
categories, products and cart. The model covers five of its files: the cart
context, the language context, the category grid, and the decisions the
footer and the navigation bar make. The pages that use them, the API client
and the type guards are not modelled (see "Left out").

- **The cart engine** (`CartContext`). The cart is an ordered list of line
  items. Each item is a snapshot of a product taken when it was first added,
  and there should be one item per product. `addToCart` clamps the quantity
  to the product's stock and returns the change it made. `updateQuantity`
  clamps to the stock stored in the item and removes the item at a quantity
  of 0 or less. `removeFromCart` and `clearCart` delete items. Two folds
  give the item count and the total.
  - The `Cart` class holds the list and its methods change it.
  - Each method is proved to produce exactly the list a pure function gives
    (`Add`, `Without`, `Update`).
  - The lemmas prove what those functions do: clamping, the returned
    quantity, one item per product, order, and that nothing else changes.
- **Language resolution** (`LanguageContext`, `Translations`).
  - The English (1) and Arabic (2) interface dictionaries.
  - `t`, the dictionary lookup with a fallback chain.
  - `getTranslation`, which takes the first translation in the selected
    language, else the first translation, else a placeholder.
  - `isRTL`.
  - The selected-language and selector-visibility state, kept by the
    `LanguageProvider` class over a modelled `localStorage`.
- **The category grid** (`Categories`).
  - The filter that keeps active categories translated into the selected
    language.
  - The name and description resolvers, whose name placeholder differs
    from `getTranslation`'s.
  - The route a click navigates to.
  - The fetch that fills the component state (the `CategoriesView` class).
  - The order in which the loading, error, empty and grid screens take
    precedence.
- **Footer and navigation bar decisions** (`Footer`, `Navbar`).
  - The address shown for the selected language.
  - Theme-colour validation.
  - The ordered, filtered social links.
  - The cart badge, capped at "99+", and its colour.
  - The logo fallback.
  - The home and cart routes.

Supporting modules:

- `JsText` models the JavaScript primitives the decisions rest on: `trim`,
  `Number(string)` (decimal literals with a point or an exponent, and
  `0x`/`0o`/`0b` integers), the decimal rendering of an integer, and `split`.
- `Catalog` holds the API records.
- `Wrappers` holds `Option` and `Result`.
- `BrowserStorage` holds a `localStorage` that is a string-to-string map.

Modelling choices:

- Money is in integer cents.
- Quantities and identifiers are unbounded integers.
- `Date.now()` item ids and the awaited network response are parameters.
- React state updaters run at once, so `addToCart` returns the quantity its
  updater computed.
- The selected language is a `JsNumber`: an integer, or some other number.
  This is because the saved code is restored with `Number(...)` and is not
  checked.

Six behaviours of the code are modelled as written:

- `getTranslation` returns `'Unnamed'` for a product with no translations.
  That placeholder is shorter than the cart snapshot's 'Unnamed Product'
  and the category resolver's 'Unnamed Category'.
- `addToCart` on a product with zero stock that is not yet in the cart
  inserts an item with quantity 0 (`CartContext.AddZeroStockInsertsEmptyItem`).
- Re-adding a product does not refresh the stock stored in its item, so an
  item's quantity can exceed its own `stockQuantity`
  (`CartContext.AddCanPassStoredCeiling`).
- With an empty tenant identifier the category fetch never starts, and the
  loading skeleton stays (`Categories.EmptyTenantStaysLoading`).
- A thrown `Error` with an empty message sets an error that is never shown
  (`Categories.EmptyThrownMessageIsNotShown`).
- The category list is not filtered again when the language changes
  (`Categories.LanguageChangeKeepsStaleList`).

## Model

| member | source | states |
|---|---|---|
| CartContext.FindItem | src/contexts/CartContext.tsx:65 | the lookup finds an item exactly when the product is in the cart, and returns the first such item |
| CartContext.SnapshotName | src/contexts/CartContext.tsx:87 | a new item's name is the first translation's name when it is set, and 'Unnamed Product' otherwise; it is never empty |
| CartContext.SnapshotDescription | src/contexts/CartContext.tsx:88 | a new item's description is the first translation's description when there is a translation, and empty otherwise |
| CartContext.SnapshotImage | src/contexts/CartContext.tsx:83 | the image is the first image's URL when it is set, and the product's own URL otherwise; it is empty exactly when both are missing |
| CartContext.NewItem | src/contexts/CartContext.tsx:82-93 | a new item carries the given id and quantity, the product's id, price and current stock, and the snapshot name, description and image |
| CartContext.WithQuantity | src/contexts/CartContext.tsx:74-78 | the re-add map changes only the quantity of the product's items; every other item is identical |
| CartContext.ClampQuantity | src/contexts/CartContext.tsx:113-120 | the update map sets the product's items to the smaller of the request and the item's stored stock, and leaves other items identical |
| CartContext.Without | src/contexts/CartContext.tsx:103 | removal keeps exactly the items of other products, and the product is no longer in the cart |
| CartContext.Add | src/contexts/CartContext.tsx:61-99 | after an add the product is in the cart; an existing product keeps the length, and a new one appends one item after the unchanged old list |
| CartContext.ItemCount | src/contexts/CartContext.tsx:129-131 | the item count of an empty cart is 0, and it is never negative when no quantity is |
| CartContext.Total | src/contexts/CartContext.tsx:134-136 | the total of an empty cart is 0, and it is never negative when no price or quantity is |
| CartContext.ItemCountAppend | src/contexts/CartContext.tsx:130 | the item count of two lists joined is the sum of their counts |
| CartContext.TotalAppend | src/contexts/CartContext.tsx:135 | the total of two lists joined is the sum of their totals |
| CartContext.ItemCountPositive | src/contexts/CartContext.tsx:130 | with no negative quantities, the count is positive exactly when some item has a positive quantity |
| CartContext.WithQuantitySplits | src/contexts/CartContext.tsx:74-78 | with one item per product, a re-add replaces that one item's quantity and keeps the items before and after it in place |
| CartContext.ClampQuantitySplits | src/contexts/CartContext.tsx:113-120 | with one item per product, an update replaces that one item's quantity by the clamped value and keeps every other item in place |
| CartContext.WithoutAppend | src/contexts/CartContext.tsx:103 | removal distributes over concatenation, so the remaining items keep their order |
| CartContext.WithoutAbsent | src/contexts/CartContext.tsx:103 | removing a product that is not in the cart leaves the cart unchanged |
| CartContext.WithoutSplits | src/contexts/CartContext.tsx:103 | with one item per product, removal drops exactly that item and keeps the rest in order |
| CartContext.WithoutKeepsUnique | src/contexts/CartContext.tsx:103 | removal keeps at most one item per product |
| CartContext.AddExisting | src/contexts/CartContext.tsx:65-78 | re-adding sets the quantity to min(old + quantity, product stock), returns new minus old, and changes no other field and no other item |
| CartContext.AddNew | src/contexts/CartContext.tsx:79-94 | adding a new product appends one snapshot item at the end with min(quantity, stock) and returns that quantity |
| CartContext.AddBoundedByStock | src/contexts/CartContext.tsx:70-81 | after an add, the product's item never holds more than the stock the product reports |
| CartContext.AddKeepsUnique | src/contexts/CartContext.tsx:65-94 | an add keeps at most one item per product |
| CartContext.AddCountsWhatItReturns | src/contexts/CartContext.tsx:61-99 | the item count grows by exactly the quantity the add returns |
| CartContext.AddAtCeiling | src/contexts/CartContext.tsx:69-72 | re-adding a product already at its stock returns 0 and leaves the cart unchanged |
| CartContext.AddAfterStockFell | src/contexts/CartContext.tsx:69-72 | if the stock fell below the quantity in the cart, re-adding sets that item's quantity to the stock, keeps every other item, and returns the negative change |
| CartContext.AddZeroStockInsertsEmptyItem | src/contexts/CartContext.tsx:81-94 | a zero-stock product not yet in the cart is appended with quantity 0, and 0 is returned |
| CartContext.AddCanPassStoredCeiling | src/contexts/CartContext.tsx:74-78 | re-adding does not refresh the item's stored stock, so its quantity can exceed that stock |
| CartContext.AddTwiceThenBlocked | src/contexts/CartContext.tsx:61-99 | adding a 10.00 product with stock 2 twice gives one item of quantity 2 and a total of 20.00; a third add returns 0 and changes nothing |
| CartContext.UpdateNonPositiveRemoves | src/contexts/CartContext.tsx:108-111 | an update to 0 or less gives the same cart as removing the product |
| CartContext.UpdateAbsentIsNoOp | src/contexts/CartContext.tsx:107-121 | an update of a product that is not in the cart changes nothing |
| CartContext.UpdatePositiveClamps | src/contexts/CartContext.tsx:113-120 | a positive update sets the item to min(quantity, its stored stock) and keeps every other item in place |
| CartContext.UpdateKeepsUnique | src/contexts/CartContext.tsx:107-121 | an update keeps at most one item per product |
| CartContext.Update | src/contexts/CartContext.tsx:107-121 | after an update the product is in the cart exactly when the quantity is positive and it was there before; at 0 or less exactly the other products' items remain; otherwise the length is kept and each of the product's items is set to min(quantity, its stored stock) while every other item is unchanged |
| CartContext.RemoveLowersCountAndTotal | src/contexts/CartContext.tsx:102-104 | removing a product lowers the count by its quantity and the total by its line price |
| CartContext.Cart.constructor | src/contexts/CartContext.tsx:29 | a new cart is empty |
| CartContext.Cart.AddToCart | src/contexts/CartContext.tsx:61-99 | the new list and the returned quantity are those of `Add`; one item per product is preserved, and the count grows by the returned quantity |
| CartContext.Cart.RemoveFromCart | src/contexts/CartContext.tsx:102-104 | the new list is the old one without the product, and one item per product is preserved |
| CartContext.Cart.UpdateQuantity | src/contexts/CartContext.tsx:107-121 | the new list is removal at 0 or less and the stock-clamped update otherwise, and one item per product is preserved |
| CartContext.Cart.ClearCart | src/contexts/CartContext.tsx:124-126 | the cart becomes empty |
| CartContext.Cart.GetCartItemCount | src/contexts/CartContext.tsx:129-131 | the count is the sum of the quantities: 0 for an empty cart, never negative when no quantity is |
| CartContext.Cart.GetCartTotal | src/contexts/CartContext.tsx:134-136 | the total is the sum of price times quantity: 0 for an empty cart, never negative when no price or quantity is |
| Translations.Lookup | src/contexts/LanguageContext.tsx:221 | a lookup of the dictionary's own entries finds a text exactly when the key is one of them, and the text is the one stored under the key (inherited object members are not entries; see Left out) |
| Translations.SameKeysAppend | src/contexts/LanguageContext.tsx:26-189 | dictionaries whose sections have the same keys have the same keys as a whole |
| Translations.SameKeysSameLookups | src/contexts/LanguageContext.tsx:26-189 | dictionaries with the same keys define a text for the same keys |
| Translations.KnownKeyResolves | src/contexts/LanguageContext.tsx:221 | in a dictionary without empty texts, every defined key resolves to a non-empty text |
| Translations.EnglishArabicSameKeys | src/contexts/LanguageContext.tsx:26-189 | the English and Arabic dictionaries define the same keys, in the same order |
| Translations.DictionariesHaveNoEmptyText | src/contexts/LanguageContext.tsx:26-189 | no text in either dictionary is empty |
| Translations.DictionariesHaveDistinctKeys | src/contexts/LanguageContext.tsx:26-189 | no key occurs twice in either dictionary |
| Translations.LookupDistinct | src/contexts/LanguageContext.tsx:221 | in a dictionary without repeated keys, a key's lookup gives the text of its one entry, so the object literal's last-entry rule and the first-entry lookup agree |
| LanguageContext.IsRTL | src/contexts/LanguageContext.tsx:218 | right-to-left holds exactly when the selected language is Arabic (2) |
| LanguageContext.DictionaryFor | src/contexts/LanguageContext.tsx:221 | a dictionary exists exactly for language codes 1 and 2 |
| LanguageContext.FirstNonEmpty | src/contexts/LanguageContext.tsx:221 | the chain of `or`s over the entry, the fallback and the key gives the entry when it is non-empty, else the fallback or the key, and is never empty for a non-empty key |
| LanguageContext.TAsWritten | src/contexts/LanguageContext.tsx:220-222 | `t` as written fails exactly when the selected language has no dictionary |
| LanguageContext.T | src/contexts/LanguageContext.tsx:220-222 | the corrected `t` returns the entry, the fallback or the key; it is never empty for a non-empty key, and without a dictionary it falls back |
| LanguageContext.TAgreesWhereDefined | src/contexts/LanguageContext.tsx:220-222 | wherever `t` as written does not fail, it returns what the corrected `T` returns |
| LanguageContext.KnownKeyNeverFallsBack | src/contexts/LanguageContext.tsx:221 | for language 1 or 2, a key either dictionary defines resolves to that language's non-empty entry, never to a fallback |
| LanguageContext.UnknownKeyFallsBack | src/contexts/LanguageContext.tsx:221 | a key that is not a dictionary entry yields the fallback when it is non-empty, else the key itself (keys naming inherited object members excepted; see Left out) |
| LanguageContext.FindTranslation | src/contexts/LanguageContext.tsx:233 | the search returns the first translation in the selected language, or none if there is none |
| LanguageContext.GetTranslation | src/contexts/LanguageContext.tsx:224-240 | an empty list gives the placeholder ('Unnamed' or ''); otherwise the result is the field of one of the translations |
| LanguageContext.GetTranslationTakesFirstMatch | src/contexts/LanguageContext.tsx:233-236 | the first translation in the selected language is the one used |
| LanguageContext.GetTranslationFallsBackToFirst | src/contexts/LanguageContext.tsx:239 | with no translation in the selected language, the first translation is used |
| LanguageContext.GetTranslationWithUniqueCodes | src/contexts/LanguageContext.tsx:233-236 | with unique language codes, the translation in the selected language is used |
| LanguageContext.Restore | src/contexts/LanguageContext.tsx:201-210 | with more than one language, a saved code is restored unchecked and its absence shows the selector; otherwise nothing changes |
| LanguageContext.Select | src/contexts/LanguageContext.tsx:212-216 | after a selection the chosen language is in use, right to left exactly for Arabic, and the selector is not shown |
| LanguageContext.SelectorVisible | src/contexts/LanguageContext.tsx:253 | the selector shows only while its flag is set, and never for a tenant with one supported language or none |
| LanguageContext.StoreSelection | src/contexts/LanguageContext.tsx:214 | selecting stores under 'selectedLanguage' a code that `Number` reads back as the selected language; no other key is added and every other value is kept |
| LanguageContext.SingleLanguageStaysEnglish | src/contexts/LanguageContext.tsx:197-210 | a tenant with one supported language, even Arabic, stays on English and never shows the selector |
| LanguageContext.FirstVisitShowsSelector | src/contexts/LanguageContext.tsx:201-210 | a first visit to a multilingual tenant shows the selector, with English meanwhile |
| LanguageContext.SelectionSurvivesReload | src/contexts/LanguageContext.tsx:203-214 | a selected language is the one restored on the next load, with the selector hidden |
| LanguageContext.UnknownSavedCodeBreaksT | src/contexts/LanguageContext.tsx:205-221 | any saved integer code other than 1 and 2, such as "3", is restored unchecked, after which `t` as written fails for every key while `T` returns the key |
| LanguageContext.SavedDecimalFormRestoresArabic | src/contexts/LanguageContext.tsx:203-221 | a saved "2.0" restores Arabic, whose dictionary `t` finds |
| LanguageContext.LanguageProvider.constructor | src/contexts/LanguageContext.tsx:197-198 | the provider starts on English with the selector hidden |
| LanguageContext.LanguageProvider.RestoreSavedLanguage | src/contexts/LanguageContext.tsx:201-210 | the effect leaves the state `Restore` gives for the stored entries |
| LanguageContext.LanguageProvider.HandleLanguageSelect | src/contexts/LanguageContext.tsx:212-216 | selecting sets the language, hides the selector, and stores the code, leaving other stored keys alone |
| LanguageContext.LanguageProvider.SelectorShown | src/contexts/LanguageContext.tsx:253 | the selector renders exactly while its flag is set and more than one language is supported |
| BrowserStorage.LocalStorage.SetItem | src/contexts/LanguageContext.tsx:214 | storing sets one key and keeps all the others |
| JsText.NumberOf | src/contexts/LanguageContext.tsx:205 | `Number` of a blank string is 0 |
| JsText.NumberOfTrimmed | src/contexts/LanguageContext.tsx:205 | a non-empty run of decimal digits reads as its value |
| JsText.DecimalNumber | src/contexts/LanguageContext.tsx:205 | a decimal literal never reads as a negative integer, and a plain run of digits reads as its value |
| JsText.NumberOfOtherLiterals | src/contexts/LanguageContext.tsx:205 | "2.0", "2e0" and "0x2" read as 2, while "2.5" and "-0x2" are not integers |
| JsText.NumberOfIntToString | src/contexts/LanguageContext.tsx:205-214 | reading back a stored language code gives the same integer |
| JsText.IntToString | src/contexts/LanguageContext.tsx:214 | a rendered integer has no surrounding whitespace and starts with '-' exactly when it is negative |
| JsText.TrimEmptyIffBlank | src/components/Footer.tsx:24 | trimming leaves nothing exactly when the string is blank |
| JsText.Split | src/components/Categories.tsx:96 | a split gives at least one piece, and no piece contains the separator |
| JsText.JoinSplit | src/components/Categories.tsx:96 | joining the pieces of a split with the separator gives the string back |
| JsText.SplitWithoutSeparator | src/components/Categories.tsx:96 | a string without the separator splits into itself alone |
| JsText.SplitAround | src/components/Categories.tsx:96 | splitting distributes over one occurrence of the separator |
| Categories.FilterActive | src/components/Categories.tsx:35-43 | the filter keeps exactly the active categories with a non-empty translation list and a translation in the selected language |
| Categories.FilterActiveAppend | src/components/Categories.tsx:35-43 | the filter distributes over concatenation, so response order is kept |
| Categories.FilterActiveKeepsShown | src/components/Categories.tsx:35-43 | a list whose every category passes is kept whole |
| Categories.FilterActiveIdempotent | src/components/Categories.tsx:35-43 | filtering twice under one language is filtering once |
| Categories.CategoryText | src/components/Categories.tsx:61-90 | an empty list gives the placeholder; otherwise the result is the field of one of the translations |
| Categories.CategoryName | src/components/Categories.tsx:61-74 | a category without translations is 'Unnamed Category'; otherwise one of its translations' names is shown |
| Categories.CategoryDescription | src/components/Categories.tsx:77-90 | a category without translations has an empty description; otherwise one of its translations' descriptions is shown |
| Categories.CategoryTextAgreesWithGetTranslation | src/components/Categories.tsx:61-90 | on a non-empty list the category resolvers agree with `getTranslation`; on an empty one the name placeholders differ |
| Categories.ShownCategoryUsesSelectedLanguage | src/components/Categories.tsx:61-90 | a category that passed the filter is named and described by its first translation in the selected language, never by the fallback |
| Categories.SlugOf | src/components/Categories.tsx:96 | the slug taken from the path never contains '/' |
| Categories.SlugOfTenantPage | src/components/Categories.tsx:96 | on "/slug" or any page below it, the second piece of the path is the slug |
| Categories.CategoryPath | src/components/Categories.tsx:95-97 | a category route starts with '/' and lies under the same slug as the page it was built from |
| Categories.CategoryPathOnTenantPage | src/components/Categories.tsx:95-97 | a click on a tenant's page goes to "/slug/category/id" |
| Categories.CategoryPathFromCategoryPage | src/components/Categories.tsx:95-97 | a click on a category page stays under the same tenant |
| Categories.CategoryPathWithoutSlash | src/components/Categories.tsx:96 | a path without '/' gives the route "/undefined/category/id" |
| Categories.Fetch | src/components/Categories.tsx:21-58 | an empty tenant changes nothing; success replaces the list with the filtered response; a failed response keeps the list and sets its message or 'Failed to load categories'; a thrown Error sets its own message and anything else thrown sets the fixed unexpected-error text; loading ends |
| Categories.InitialView | src/components/Categories.tsx:17-19 | the component starts with no categories and no error, and shows the skeleton |
| Categories.CardOf | src/components/Categories.tsx:176-201 | a card shows the category's name, the description only when it is non-empty, and the image only for a non-empty URL |
| Categories.Render | src/components/Categories.tsx:100-159 | the skeleton shows exactly while loading, then the error only if non-empty, then the empty notice, then one card per category |
| Categories.EmptyTenantStaysLoading | src/components/Categories.tsx:23 | with an empty tenant the skeleton stays |
| Categories.FailedResponseShowsError | src/components/Categories.tsx:30-48 | a failed response shows its message or the default one, and keeps the previous list |
| Categories.EmptyThrownMessageIsNotShown | src/components/Categories.tsx:119 | an error with an empty message is set but not shown |
| Categories.SuccessShowsFilteredGrid | src/components/Categories.tsx:35-44 | after success, the grid holds one card per kept category, each named in the fetch's language, or the empty notice if none is kept |
| Categories.LanguageChangeKeepsStaleList | src/components/Categories.tsx:58 | a list filtered under English is rendered under Arabic with the English name as the fallback |
| Categories.CategoriesView.constructor | src/components/Categories.tsx:17-19 | the component starts with no categories, loading, and no error |
| Categories.CategoriesView.FetchCategories | src/components/Categories.tsx:22-55 | the state after the fetch is the one `Fetch` gives |
| Categories.CategoriesView.Rendered | src/components/Categories.tsx:21-58 | the fetch runs only on the first render and when the tenant changes, whatever the language |
| Footer.Address | src/components/Footer.tsx:20 | for language 2 the Arabic address is used when it is set, else the English one; for any other language the English one |
| Footer.AddressShown | src/components/Footer.tsx:46 | the address block shows exactly when the English address is set, or the language is 2 and the Arabic address is set |
| Footer.ValidThemeColor | src/components/Footer.tsx:22-26 | the prop is kept exactly when it is not blank and not 'string'; otherwise '#2f27ce'; the result is never blank or 'string' |
| Footer.ValidThemeColorIdempotent | src/components/Footer.tsx:22-26 | a validated colour validates to itself |
| Footer.UsableIffTrimNonEmpty | src/components/Footer.tsx:35 | a link is usable exactly when its URL is defined, non-empty, and non-empty after trimming |
| Footer.Candidates | src/components/Footer.tsx:29-34 | the unfiltered list has the five platforms, each once with its own prop, in display order |
| Footer.KeepUsable | src/components/Footer.tsx:35 | every link that survives the filter has a usable URL |
| Footer.KeepUsableMembers | src/components/Footer.tsx:29-35 | a link survives exactly when it was a candidate with a usable URL |
| Footer.KeepUsableAbove | src/components/Footer.tsx:29-35 | surviving links rank above any bound that all candidates rank above |
| Footer.KeepUsableRanked | src/components/Footer.tsx:29-35 | the filter keeps the candidates' order |
| Footer.SocialLinks | src/components/Footer.tsx:29-35 | at most five links are listed, none of them blank |
| Footer.SocialLinksRanked | src/components/Footer.tsx:29-35 | the links follow the order YouTube, Facebook, Instagram, LinkedIn, X |
| Footer.SocialLinksMembers | src/components/Footer.tsx:29-35 | a platform is listed exactly when its prop holds a usable URL, and with that URL |
| Footer.LinkKeysUnique | src/components/Footer.tsx:60-73 | the platform names that key and title the rendered links are all different |
| Footer.TikTokNeverShown | src/components/Footer.tsx:12-35 | the TikTok prop has no effect on the links |
| Footer.SocialBlockShown | src/components/Footer.tsx:58 | the social block shows exactly when one of the five platforms has a usable URL |
| Navbar.BadgeLabel | src/components/Navbar.tsx:63-68 | the badge shows exactly for a count above 0; it reads "99+" above 99, else the count's canonical decimal digits, with no leading zero, which `Number` reads back as the count |
| Navbar.BadgeShownIffSomethingInCart | src/components/Navbar.tsx:17-63 | with no negative quantities, the badge shows exactly when some item has a positive quantity |
| Navbar.CartBadge | src/components/Navbar.tsx:63-68 | the badge for a cart shows exactly when its item count is positive, and never for an empty cart |
| Navbar.BadgeColor | src/components/Navbar.tsx:66 | the badge colour is the theme colour if it is non-empty, else '#2f27ce' |
| Navbar.BadgeColorLaxerThanFooter | src/components/Navbar.tsx:66 | the badge uses 'string' and a blank colour as given, while the footer replaces them |
| Navbar.LogoSource | src/components/Navbar.tsx:31-51 | the logo is the given URL when it is not blank, else '/SalonyAI-Icon.png'; it is never blank |
| Navbar.HomeLink | src/components/Navbar.tsx:27 | the logo links to '/' followed by the slug, which a slug without '/' reads back from |
| Navbar.CartLink | src/components/Navbar.tsx:58 | the cart route is the home route followed by '/cart', under the same slug |

## Left out

- Persistence of the cart in `localStorage` under `cart_<slug>`, and its JSON encoding and decoding, are storage I/O and are not modelled. A cart read back from storage may break the one-item-per-product invariant, so the cart's contracts assume that invariant of the list before each operation rather than of every list.
- The language selection's `localStorage` is modelled only as a string map.
- `Date.now()` item ids are a parameter.
- The footer's `new Date().getFullYear()` is not modelled.
- The API client in `src/services/api.ts` is not modelled. That includes `getCategories` and its mapping of HTTP status 404, 500 and others to error messages. The awaited outcome is a parameter. Console logging is left out.
- A response arriving after the tenant changed is not modelled, because effects run to completion in the model.
- React scheduling is not modelled. `addToCart`'s return value is the one its updater computes when applied at once.
- Floating-point money is not modelled. Prices are integer cents and totals are exact.
- CartContext.Total: does not model IEEE double rounding of `price * quantity`, because prices are integer cents here.
- Translations.Lookup: reads only the dictionary's own entries. In the source, `translations[lang][key]` also finds members inherited from `Object.prototype` (`constructor`, `toString`, `valueOf`, `hasOwnProperty`, `__proto__` and the like). Such members are truthy non-strings, so `t` returns them. The model treats these keys as absent, because its texts are strings. Every key the storefront passes to `t` is an own entry.
- LanguageContext.UnknownKeyFallsBack: for a key naming an inherited `Object.prototype` member, the source's `t` returns that member rather than the fallback or the key. The model, and so this lemma, treats such a key like any other undefined key. `TAsWritten` and `T` share this limit.
- JsText.NumberOf: computes every literal's value exactly. JavaScript's doubles round integers above 2^53 and overflow to Infinity beyond about 1.8e308, and the model does not. The storefront itself only stores `language.toString()` of a supported language, a small integer.
- Categories.CategoriesView.Rendered: models the effect's dependency on `tenantIdentifier` by remembering the last tenant. React's mount and unmount cycle is not modelled.
- The image `onError` fallback of the logo is not modelled, because it is a browser event.
- All JSX, the `LanguageSelector` markup, page layouts and the configuration are not modelled, because they are static UI.
- The runtime type guards of `src/types/index.ts` are not modelled, because they test JavaScript `typeof`.
- The checkout page's order payload and total (`src/app/[slug]/checkout/page.tsx`) are not modelled. That page reads the cart but is not one of the modelled files.
- The category page's add-to-cart notification (`src/app/[slug]/category/[categoryId]/page.tsx`, lines 124-140) is not modelled. It shows a warning when `addToCart` returns 0 and a success message otherwise. The returned quantity it reads is modelled (`CartContext.Cart.AddToCart`).

## Findings

| source | as written | input that shows it | evidently intended | confidence | as-written member | corrected member |
|---|---|---|---|---|---|---|
| src/contexts/LanguageContext.tsx:220-222 | `translations[selectedLanguage][key]` reads a property of `undefined` and throws when the selected language has no dictionary; the effect at line 205 restores any saved code unchecked | a multilingual tenant with `localStorage.selectedLanguage = "3"` (or any other integer code but 1 and 2), then any call of `t` (lemma `LanguageContext.UnknownSavedCodeBreaksT`) | an unknown language falls through to the fallback or the key, as for an undefined key | medium; not executed | LanguageContext.TAsWritten | LanguageContext.T |
