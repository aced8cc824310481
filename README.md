# WINDSOR distributor storefront — a verified Dafny model of its logic

WINDSOR is a React Native storefront for windows, doors, vinyl and
accessories, aimed at Thai customers and running on mock data. Most of its
code draws screens. This project models the parts of it that decide
something, and proves what they promise:

- **Text, time and status helpers** (`lib/utils.ts`), in module `Utils`:
  - `truncate`, including JavaScript's rule for a negative `slice` end;
  - `formatRelativeTime`, as a bucket plus its Thai phrase;
  - the two order-status lookups, each with its fallback.
- **Cart and order records** (`types/cart.ts`, `types/order.ts`,
  `types/product.ts`), in modules `CartTypes`, `OrderTypes` and
  `ProductTypes`:
  - their records as datatypes;
  - the money relations stated in the field comments, as predicates, with
    lemmas about how they compose.
- **The sample data** (`data/mockData.ts`), in module `MockData`:
  - the catalogue, cart, orders and discount codes;
  - the two list projections;
  - what holds of the numbers, including the fact that the cart adds VAT to
    its total and the orders do not.
- **Small state machines**, one class each:
  - the theme provider (`Theme`);
  - the session with its login prompt (`Auth`);
  - the sign-in / sign-up form (`LoginForm`);
  - the promotion carousel (`Carousel`).
  Storage, timers and the device colour scheme become parameters or
  explicit calls.
- **Classifiers and mappings**:
  - the star row of a rating (`Rating`), built by a loop method proved
    against a specification function;
  - the icon-button badge and its "99+" cap (`IconButton`);
  - product-card badges, the quick-add rule and press routing
    (`ProductCard`);
  - the category icon fallback and the category row (`CategoryCard`).

Money is in whole baht (`int`). Ratings are exact `real`s. Times are whole
milliseconds.

A configurable-product pricing engine is described for this system: area
pricing, glass modifiers, dimension validation, discount application and a
cart reducer. None of the modelled files implements it. Only the types and
hand-written numbers exist, so the model keeps the relations the types
state and does not invent the engine. The sample data does not settle those
relations either: the described total, `subtotal - discount + vat +
shipping`, fits the sample cart but none of the three sample orders.
`MockData.NoSingleTotalFormula` records this.

## Model

| member | source | states |
|---|---|---|
| `Utils.IntToString` | lib/utils.ts:73-83 | A number in a template literal: a minus sign exactly for negatives, then decimal digits |
| `Utils.IntToStringRoundTrip` | lib/utils.ts:73-83 | Reading the rendered number back gives the number |
| `Utils.NatToStringRoundTrip` | lib/utils.ts:73-83 | The digits of a non-negative number read back as that number |
| `Utils.IntToStringInjective` | lib/utils.ts:73-83 | Different numbers render differently |
| `Utils.SliceEnd` | lib/utils.ts:91 | `slice`'s end index: taken as is inside the string; counted from the end when negative; clamped to 0 only below minus the length |
| `Utils.Truncate` | lib/utils.ts:89-92 | A string that fits is returned unchanged; a longer one becomes a prefix of itself followed by "..." |
| `Utils.TruncateLong` | lib/utils.ts:91 | With a limit of at least 3, a longer string becomes exactly `limit` characters: the first `limit`-3 characters and "..." |
| `Utils.TruncateShortLimit` | lib/utils.ts:91 | With a limit below 3, the negative end counts from the end of the string, and the result is longer than the limit |
| `Utils.TruncateIdempotent` | lib/utils.ts:89-92 | With a limit of at least 3, truncating twice is truncating once |
| `Utils.RelativeBucket` | lib/utils.ts:64-84 | The bucket of each phrase, as exact millisecond ranges. Under 2 minutes is "just now"; then minutes, then hours on day 0; day 1 is yesterday; days 2-6 are days; 7-29 weeks; 30-364 months; 365 and on years. Every count lies in its range |
| `Utils.FormatRelativeTime` | lib/utils.ts:64-84 | "เมื่อสักครู่" (just now) exactly under 2 minutes and "เมื่อวาน" (yesterday) exactly on day 1. Otherwise the text is the floor count of minutes, hours, days, weeks (days / 7), months (days / 30) or years (days / 365) for the range, then the Thai unit word; a future date gives negative days |
| `Utils.FutureDateIsNegativeDaysAgo` | lib/utils.ts:67-79 | A future date reads as a negative number of "days ago" |
| `Utils.NumberThenWord` | lib/utils.ts:73-83 | A rendered number followed by a unit word that begins with a space splits back into the number and the word |
| `Utils.PhraseInjective` | lib/utils.ts:69-83 | Different buckets give different Thai phrases |
| `Utils.NumberAndWord` | lib/utils.ts:73-83 | Every numbered phrase is a rendered number followed by one of the six unit words |
| `Utils.PhraseStart` | lib/utils.ts:69-83 | A phrase begins with a digit or a minus sign exactly when it carries a number |
| `Utils.SuffixStartsWithSpace` | lib/utils.ts:73-83 | Every unit word begins with a space |
| `Utils.RecordKeysAreStatusKeys` | lib/utils.ts:97-135 | Both lookup records are keyed by exactly the eleven status values |
| `Utils.OrderStatusText` | lib/utils.ts:97-113 | Each of the eleven statuses gets its Thai label; any other string is returned unchanged |
| `Utils.ThaiLabelInjective` | lib/utils.ts:98-110 | No two statuses share a label |
| `Utils.OrderStatusColor` | lib/utils.ts:118-136 | warning iff pending_payment; success iff delivered or completed; error iff cancelled; primary iff one of the six in-progress statuses; neutral iff refunded or unknown |
| `CartTypes.ShippingShown` | types/cart.ts:33 | A shipping amount of 0 reads as "worked out later", never as a charge of 0 |
| `CartTypes.SumsAppend` | types/cart.ts:36-37 | Line quantities and line totals add up over concatenated carts |
| `CartTypes.SubtotalOfPricedLines` | types/cart.ts:22-30 | When every line's total is unit price times quantity, the subtotal is the sum of unit price times quantity |
| `CartTypes.SummaryAfterAddingLine` | types/cart.ts:30-37 | Adding a line keeps a consistent summary consistent: count, quantity and subtotal each grow by that line |
| `CartTypes.SummaryAfterRemovingLine` | types/cart.ts:30-37 | Removing the line at any position takes exactly its share off the count, quantity and subtotal |
| `MockData.FirstImage` | data/mockData.ts:540 | `images[0]` is absent exactly for a product without images |
| `MockData.ProductListItems` | data/mockData.ts:532-545 | One list item per product, in order. Each copies id, sku, names, category, series, price, rating, badges, stock status and configurability, and takes its thumbnail from the first image |
| `MockData.ToOrderListItem` | data/mockData.ts:889-901 | An order's row takes its amount from pricing.total, its count from the number of lines, and thumbnail and name from the first line. An order with no lines has no row, where the source throws |
| `MockData.OrderListItems` | data/mockData.ts:889-901 | The list fails exactly when some order has no lines; otherwise it is one row per order, in order |
| `MockData.MockOrderListTotals` | data/mockData.ts:889-901 | The sample order list exists, has three rows, and each row's amount is its order's total |
| `MockData.MockDiscountCodesConsistent` | data/mockData.ts:958-981 | Both sample codes are active, valued above 0 and under their usage limit. Only the percentage code carries a cap, its value is at most 100, and the fixed code's minimum order is at least its value |
| `MockData.Summer15CapBindsAbove20000` | data/mockData.ts:959-970 | For an exact 15% discount, SUMMER15's minimum admits exactly orders of 5000 baht and more, and its 3000-baht cap binds exactly on orders above 20000 baht |
| `MockData.Welcome500NeverExceedsOrder` | data/mockData.ts:971-980 | Every order WELCOME500 may be used on is at least its 500 baht, and no cap limits it |
| `MockData.MockCartLinesPriced` | data/mockData.ts:608-652 | Every sample cart line's total is unit price times quantity, and its quantity is the configured quantity |
| `MockData.MockOrderLinesPriced` | data/mockData.ts:675-883 | Every sample order line satisfies the same two relations |
| `MockData.MockCartSummaryConsistent` | data/mockData.ts:654-669 | The sample cart summary: 2 lines, 12 pieces, subtotal 22000 as the sum of the lines, VAT 1540 as 7% of it, and a total that adds VAT |
| `MockData.MockOrdersOmitVat` | data/mockData.ts:738-882 | Every sample order records VAT as 7% of its subtotal, but its total leaves the VAT out |
| `MockData.NoSingleTotalFormula` | data/mockData.ts:654-882 | The cart's total adds VAT and an order's total does not, so no one total formula fits the sample data |
| `MockData.MockConstraintsWellFormed` | data/mockData.ts:234-440 | Every width and height range has min at most max and a positive step |
| `MockData.ConfigurableWithoutConstraints` | data/mockData.ts:445-498 | prod-008 and prod-009 are configurable and have no constraints block |
| `MockData.GlassModifiersFromClearBaseline` | data/mockData.ts:111-199 | Glass modifiers are non-negative, and clear 5 mm glass is the zero baseline |
| `MockData.MockCartSnapshotDiverges` | data/mockData.ts:608-630 | The first cart line names glass "double", which no glass option has, and its snapshot base price differs from the catalogue's |
| `Theme.ParseMode` | contexts/ThemeContext.tsx:51-53 | A saved value is adopted exactly when it is "light", "dark" or "system", and it names the mode adopted |
| `Theme.ModeNameRoundTrip` | contexts/ThemeContext.tsx:51-67 | Saving a mode and reading it back gives the same mode |
| `Theme.Resolve` | contexts/ThemeContext.tsx:39-44 | Light and dark resolve to themselves; "system" is dark exactly when the device scheme is "dark", and light for anything else or null |
| `Theme.IsDark` | contexts/ThemeContext.tsx:39-44 | The theme is dark exactly in dark mode, or in system mode on a device that reports "dark" |
| `Theme.ThemeValue` | contexts/ThemeContext.tsx:109-112 | The dark value exactly when the theme is dark |
| `Theme.ThemeValueFollowsToggle` | contexts/ThemeContext.tsx:74-112 | When the light and dark values differ, a toggle always switches the value drawn to the other one |
| `Theme.Toggled` | contexts/ThemeContext.tsx:74-77 | A toggle always asks for an explicit mode, never "system" |
| `Theme.ToggleFlips` | contexts/ThemeContext.tsx:74-77 | Every toggle flips the resolved theme |
| `Theme.ToggleTwiceRestores` | contexts/ThemeContext.tsx:74-77 | Two toggles restore the resolved theme; they give back an explicit mode, and turn "system" into the explicit mode the device was showing |
| `Theme.ThemeProvider.constructor` | contexts/ThemeContext.tsx:35-36 | The provider starts in "system" mode, not loaded |
| `Theme.ThemeProvider.LoadTheme` | contexts/ThemeContext.tsx:47-61 | A readable saved mode name is adopted; anything else leaves the mode. The provider is loaded afterwards either way |
| `Theme.ThemeProvider.SetThemeMode` | contexts/ThemeContext.tsx:64-71 | The mode changes at once; it is saved only when the write succeeds |
| `Theme.ThemeProvider.ToggleTheme` | contexts/ThemeContext.tsx:74-77 | The new mode is explicit and the drawn theme flips |
| `Auth.LoggedInUser` | contexts/AuthContext.tsx:72-78 | The signed-in user is the sample user under the typed email, or the sample email when none was typed; the email is never empty |
| `Auth.AvatarUrl` | contexts/AuthContext.tsx:106 | The generated avatar address holds the encoded name between a fixed prefix and suffix |
| `Auth.RegisteredUid` | contexts/AuthContext.tsx:102 | A registered id is "user-" followed by the time |
| `Auth.RegisteredUidsDistinct` | contexts/AuthContext.tsx:102 | Registrations at different times get different ids |
| `Auth.RegisteredUser` | contexts/AuthContext.tsx:100-107 | The registered user has the given email and name, no phone number, an id "user-" plus the time, and the generated avatar |
| `Auth.PromptMessage` | contexts/AuthContext.tsx:135 | The prompt shows the caller's message, or the default Thai prompt when it is absent or empty; it is never empty |
| `Auth.AuthProvider.constructor` | contexts/AuthContext.tsx:42-45 | A guest session, not busy, prompt closed, empty message |
| `Auth.AuthProvider.LoadUser` | contexts/AuthContext.tsx:50-62 | A saved user that can be read becomes the session |
| `Auth.AuthProvider.SetShowLoginModal` | contexts/AuthContext.tsx:44 | Opens or closes the prompt |
| `Auth.AuthProvider.SetIsLoading` | contexts/AuthContext.tsx:43 | Sets the busy flag and records the value set |
| `Auth.AuthProvider.Login` | contexts/AuthContext.tsx:65-90 | The session is signed in as LoggedInUser. Only a successful save closes the prompt and answers true. The busy flag goes true, then false |
| `Auth.AuthProvider.Register` | contexts/AuthContext.tsx:93-121 | The session becomes RegisteredUser, even when the save fails. Prompt, answer and busy flag behave as in Login |
| `Auth.AuthProvider.Logout` | contexts/AuthContext.tsx:124-127 | The session is a guest at once. The saved user is gone only if the removal succeeds; a failed removal is reported as a failed call (the rejected promise), with the session still a guest |
| `Auth.AuthProvider.RequireAuth` | contexts/AuthContext.tsx:130-140 | Answers whether the session is signed in. A signed-in session changes nothing. A guest gets the prompt opened with PromptMessage |
| `LoginForm.AlertText` | components/auth/LoginModal.tsx:59-95 | Every alert shows a non-empty title and message, the ones the handlers pass to the alert box |
| `LoginForm.AlertTitlesDistinct` | components/auth/LoginModal.tsx:59-95 | Two different alerts share a title only when both report missing fields, and no two show the same title and message |
| `LoginForm.CheckLogin` | components/auth/LoginModal.tsx:60-63 | Sign-in goes ahead exactly when email and password are both filled in |
| `LoginForm.CheckRegister` | components/auth/LoginModal.tsx:75-86 | Sign-up goes ahead exactly when all fields are filled, the passwords match and the password has at least 6 characters. Otherwise the first failed check is reported: missing field, then mismatch, then too short |
| `LoginForm.RegisterReasonIsOneOfThree` | components/auth/LoginModal.tsx:75-86 | A refused sign-up reports one of the three sign-up reasons |
| `LoginForm.EmptyConfirmationIsMismatch` | components/auth/LoginModal.tsx:79-82 | An empty confirmation under a filled-in form is reported as a mismatch |
| `LoginForm.MismatchReportedBeforeLength` | components/auth/LoginModal.tsx:79-86 | A short password that also mismatches is reported as a mismatch |
| `LoginForm.LoginModal.constructor` | components/auth/LoginModal.tsx:35-40 | The form starts in sign-in mode, empty, with the password hidden |
| `LoginForm.LoginModal.SetName` | components/auth/LoginModal.tsx:158 | Typing sets the name |
| `LoginForm.LoginModal.SetEmail` | components/auth/LoginModal.tsx:177 | Typing sets the email |
| `LoginForm.LoginModal.SetPassword` | components/auth/LoginModal.tsx:198 | Typing sets the password |
| `LoginForm.LoginModal.SetConfirmPassword` | components/auth/LoginModal.tsx:225 | Typing sets the confirmation |
| `LoginForm.LoginModal.TogglePassword` | components/auth/LoginModal.tsx:201 | The eye button flips whether the password is shown |
| `LoginForm.LoginModal.ResetForm` | components/auth/LoginModal.tsx:43-49 | Clears name, email and both passwords, and hides the password |
| `LoginForm.LoginModal.HandleClose` | components/auth/LoginModal.tsx:52-56 | Closes the prompt, clears the form and returns to sign-in |
| `LoginForm.LoginModal.SwitchMode` | components/auth/LoginModal.tsx:294-297 | Flips between sign-in and sign-up and clears the form |
| `LoginForm.LoginModal.HandleLogin` | components/auth/LoginModal.tsx:59-71 | The session is asked exactly when CheckLogin passes. If refused, the form and the whole session are untouched. Otherwise the session is as Login leaves it, and the form is cleared after a success or kept after a failure, with the matching alert |
| `LoginForm.LoginModal.HandleRegister` | components/auth/LoginModal.tsx:74-95 | The session is asked exactly when CheckRegister passes. If refused, its reason is the alert and the form and session are untouched. Otherwise the session holds RegisteredUser as Register leaves it, and the form is cleared with the welcome alert on success or kept with the failure alert |
| `LoginForm.LoginModal.Submit` | components/auth/LoginModal.tsx:243-248 | While the session is busy the button does nothing: no call, no alert, form and session untouched. Otherwise it has exactly the outcome of the current mode's handler: call, alert, form and session |
| `Carousel.JsRem` | components/ui/BannerCarousel.tsx:53 | JavaScript's `%`: a remainder with the dividend's sign, paired with the truncated quotient |
| `Carousel.NextWraps` | components/ui/BannerCarousel.tsx:53 | The next index is one more, and the last banner wraps to the first |
| `Carousel.TickFromNonNegativeInRange` | components/ui/BannerCarousel.tsx:53 | A tick from any non-negative index lands on an existing banner |
| `Carousel.IndicatorWidth` | components/ui/BannerCarousel.tsx:179 | A dot is wide exactly when it is the current one, narrow otherwise |
| `Carousel.Indicators` | components/ui/BannerCarousel.tsx:167-187 | No dots for at most one banner; otherwise one dot per banner, each of IndicatorWidth |
| `Carousel.CountWideOfDots` | components/ui/BannerCarousel.tsx:169-181 | Among n dots, one is wide if the current index is among them, none otherwise |
| `Carousel.ExactlyOneWideIndicator` | components/ui/BannerCarousel.tsx:167-181 | With several banners exactly one dot is wide when the index is in range |
| `Carousel.BannerWidth` | components/ui/BannerCarousel.tsx:22-24 | A banner is the screen width less the 32-pixel padding |
| `Carousel.GetItemLayout` | components/ui/BannerCarousel.tsx:136-143 | Item k of the list is item k, one banner width long |
| `Carousel.LayoutTiles` | components/ui/BannerCarousel.tsx:136-143 | Item layouts start at 0, each is 32 pixels narrower than the screen, and each starts where the previous ends |
| `Carousel.LayoutOffsetIsPrefixSum` | components/ui/BannerCarousel.tsx:136-143 | Item k's offset is the total length of the k items before it |
| `Carousel.SettledPage` | components/ui/BannerCarousel.tsx:68-69 | `Math.round(offsetX / BANNER_WIDTH)`: the page whose start is within half a banner of the offset, ties going to the later page |
| `Carousel.SettledPageUnique` | components/ui/BannerCarousel.tsx:68-69 | Exactly one page lies within half a banner of any offset |
| `Carousel.SettledPageOfLayoutOffset` | components/ui/BannerCarousel.tsx:65-72 | A fling that stops at the start of item k, as getItemLayout places it, settles on index k |
| `Carousel.BannerCarousel.constructor` | components/ui/BannerCarousel.tsx:24-46 | Starts at the first banner with autoplay on, with the device's banner width |
| `Carousel.BannerCarousel.Tick` | components/ui/BannerCarousel.tsx:49-62 | When scheduled, moves to the next banner modulo the count; otherwise nothing. An index in range stays in range |
| `Carousel.BannerCarousel.MomentumScrollEnd` | components/ui/BannerCarousel.tsx:65-72 | The page nearest the scroll offset becomes current, unclamped |
| `Carousel.BannerCarousel.BeginDrag` | components/ui/BannerCarousel.tsx:75-77 | A drag stops autoplay |
| `Carousel.BannerCarousel.EndDrag` | components/ui/BannerCarousel.tsx:80-83 | Letting go starts one more resume timeout |
| `Carousel.BannerCarousel.ResumeTimerFires` | components/ui/BannerCarousel.tsx:82 | A pending timeout turns autoplay back on, whatever happened since |
| `Carousel.BannerCarousel.IndicatorPress` | components/ui/BannerCarousel.tsx:86-92 | Pressing a dot makes its banner current |
| `Rating.JsFraction` | components/ui/Rating.tsx:50 | `rating % 1`: the fractional part in [0, 1) for a non-negative rating, in (-1, 0] for a negative one |
| `Rating.RenderStars` | components/ui/Rating.tsx:47-72 | The loop yields max(maxRating, 0) stars, the star at each position as the classification says |
| `Rating.FullCountPrefix` | components/ui/Rating.tsx:49-53 | The first n positions hold min(floor(rating), n) full stars |
| `Rating.FullStarCount` | components/ui/Rating.tsx:49-53 | For a non-negative rating, the full stars number min(floor(rating), maxRating) |
| `Rating.HalfCountPrefix` | components/ui/Rating.tsx:50-58 | The first n positions hold one half star if the fraction reaches one half and floor(rating) is among them, none otherwise |
| `Rating.AtMostOneHalfStar` | components/ui/Rating.tsx:50-62 | At most one half star appears, exactly when the fraction is at least one half, and only at position floor(rating) |
| `Rating.StarsOrdered` | components/ui/Rating.tsx:52-68 | Full stars, then at most one half star, then empty ones |
| `Rating.AllFullAtMaximum` | components/ui/Rating.tsx:49-57 | A rating at or above the maximum fills every star |
| `Rating.FourAndAHalf` | components/ui/Rating.tsx:37-62 | 4.5 out of the default 5 gives four full stars and a half |
| `Rating.NegativeRatingAllOutline` | components/ui/Rating.tsx:49-68 | A negative rating draws only empty stars |
| `Rating.ShowCount` | components/ui/Rating.tsx:87 | The review count is shown exactly when asked for and positive; absent counts as 0 |
| `IconButton.WithDefaults` | components/ui/IconButton.tsx:38-41 | Absent props become variant "default", size "md" and badge colour "bg-red-500"; given ones are kept |
| `IconButton.Touch` | components/ui/IconButton.tsx:56-60 | A disabled button does not react to presses and is dimmed; an enabled one reacts and is not dimmed |
| `IconButton.BadgeLabel` | components/ui/IconButton.tsx:67-76 | A badge is drawn exactly for a given positive count. It reads "99+" exactly above 99; otherwise it reads the count's digits |
| `IconButton.BadgeDistinguishesUpTo99` | components/ui/IconButton.tsx:75 | Counts up to 99 have badges of their own |
| `ProductCard.GetBadgeVariant` | components/product/ProductCard.tsx:25-38 | best-seller, new, eco and promo map to primary, new, eco and promo; anything else to neutral |
| `ProductCard.UpperChar` | components/product/ProductCard.tsx:52 | Upper-casing leaves no lower-case ASCII letter and keeps every other character |
| `ProductCard.ToUpper` | components/product/ProductCard.tsx:52 | Upper-casing keeps the length and raises each character |
| `ProductCard.ToUpperIdempotent` | components/product/ProductCard.tsx:52 | Upper-casing twice is upper-casing once |
| `ProductCard.GetBadgeLabel` | components/product/ProductCard.tsx:41-54 | Fixed labels for the four known badges, the badge upper-cased otherwise; no label has a lower-case letter |
| `ProductCard.KnownBadgesDistinct` | components/product/ProductCard.tsx:25-54 | The four known badges have four different labels and variants |
| `ProductCard.ShownBadge` | components/product/ProductCard.tsx:103-109 | Only the first badge is drawn, none for an empty list |
| `ProductCard.AddOrFromMarker` | components/product/ProductCard.tsx:140-153 | The add button and the "from" marker never appear together; with an add handler exactly one appears |
| `ProductCard.HandlePress` | components/product/ProductCard.tsx:69-75 | A press calls the given handler; without one it opens `/(customer)/product/<id>`, from which the id reads back |
| `ProductCard.RoutesDistinct` | components/product/ProductCard.tsx:73 | Different products open different pages |
| `ProductCard.View` | components/product/ProductCard.tsx:102-153 | Only the first badge is drawn, with its variant and label, and none without badges. The add button shows exactly with a handler on a product that needs no configuring. The "from" marker shows exactly on a configurable product, so never beside the button. The series shows exactly when present and non-empty, the stars exactly when the rating is present and not 0 |
| `CategoryCard.GetIconName` | components/product/CategoryCard.tsx:20-29 | A known icon name maps to its Ionicons name; "cube-outline" is used exactly for unknown names |
| `CategoryCard.MockCategoriesHaveIcons` | components/product/CategoryCard.tsx:21-27 | None of the five catalogue categories falls back to the cube |
| `CategoryCard.VariantOrDefault` | components/product/CategoryCard.tsx:37 | A card without a variant is an icon card |
| `CategoryCard.CategoryRow` | components/product/CategoryCard.tsx:109-126 | One icon-variant tile per category, in the order given, each with the category's icon |

## Left out

- Locale formatting through `Intl` and `Date`, and other library calls, are not modelled: `formatPrice`, `formatDate`, `toFixed`, `cn`, `encodeURIComponent`. The encoded name comes in as a parameter.
- Time and randomness are not modelled: `generateId`, `delay`, the clock read in `formatRelativeTime`, and the `Date.now()` id at registration. The time difference and the registration time are parameters.
- Storage, JSON and the simulated one-second delay are not modelled. AsyncStorage is a field, and the success of each read, write and removal is a parameter. A stored user is kept as a value, not as JSON text, so a corrupt saved value cannot be expressed.
- Concurrency is not modelled. Each asynchronous handler runs to completion in one call. Interleavings of two pending sign-ins, and a handler firing after unmount, are out.
- Timers are explicit calls. The autoplay interval and the 2-second resume timeout do not measure time. Their re-creation when the effect's dependencies change is folded into `Tick`, which acts only while an interval would be scheduled.
- `Carousel.SettledPage`: the scroll offset is a whole number of pixels, where the source reads a floating-point offset; and it requires the screen to be wider than its 32-pixel padding, since a narrower one makes `BANNER_WIDTH` zero or negative and the source's division meaningless.
- The social sign-in buttons only show a "Coming Soon" alert and are left out.
- Rendering, styling, Alerts, the class-name tables and the render conditionals of the other UI components are left out. Alerts become returned values.
- `useAuth` and `useTheme` throwing outside their provider is React context plumbing and is left out.
- These are declaration-only or not part of this model: the records of `types/product.ts`, `types/order.ts` and `types/user.ts` beyond the fields used here, `mockActiveOrder`, long product descriptions, feature lists and specification tables.
- Image URLs in the sample data are abbreviated to short placeholders. The logic only tests whether they are present.
- Configuration, routing and barrel files are left out.
- Configurable-product pricing, dimension and step validation, discount application and a cart reducer are not implemented in the modelled files, so they are not modelled. Only their data shapes and the relations the field comments state are kept.
- `Utils.OrderStatusText`: the lookup reads a JavaScript object, so a key such as "toString" hits `Object.prototype` in the source; the model's record holds only its own keys and returns such a key unchanged.
- `Utils.OrderStatusColor`: likewise, an inherited key such as "toString" is not looked up; the model gives it the neutral colour.
- `CategoryCard.GetIconName`: likewise, `iconMap[iconName] || "cube-outline"` returns the inherited function for a key such as "toString" in the source; the model returns the cube icon for every name outside the five keys.
- `Utils.Truncate`: `length` and `slice` count UTF-16 code units in the source; the model counts characters, so a string with characters outside the Basic Multilingual Plane (such as emoji) is cut at a different place, and the source can split a surrogate pair where the model cannot.
- `Utils.IntToString`: no exponent notation for magnitudes of 10^21 and above, and no fractional numbers.
- `ProductCard.ToUpper`: raises ASCII letters only, where `toUpperCase` also raises other scripts' letters.
- `LoginForm.CheckRegister`: counts a password's length in characters, where `length` counts UTF-16 code units.
- `Rating.RenderStars`: ratings are exact reals rather than IEEE doubles, and a fractional `maxRating` is not modelled.
- `IconButton.BadgeLabel`: badge counts are whole numbers; a fractional count renders as a decimal in the source.
- `Auth.AuthProvider.Login`: when the save fails, the session is already signed in, the prompt stays open and the call answers false. The model keeps this as written. It is not corrected, because the source gives no intended behaviour to correct it to.
