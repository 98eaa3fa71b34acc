# A verified model of the makeup-artist website's logic

The site sells gift certificates and products for a makeup artist. This
project models in Dafny the logic behind six of its scripts and proves
properties of that model:

- **Shopping cart** (`cart.dfy`, module `Cart`). The `ShoppingCart` class keeps
  its item list and a key/value browser store as fields. Its methods add,
  remove, re-quantify and clear items in place, and save the list after every
  change. Pure functions specify each change, and the item count, the total and
  the shipping rule. Lemmas prove that ids stay unique and quantities stay
  positive, how counts and totals move, and that loading after saving returns
  the saved list.
- **Portfolio carousel** (`portfolio.dfy`, module `Portfolio`). The
  `PortfolioCarousel` class keeps the current slide and the slides-per-view
  value. "Go to", "next" and "previous" take the viewport width as an input.
  The dot count of `createDots` is also modelled. Lemmas cover the range of
  each move, the full cycle of "next", and what happens to "previous" after a
  resize.
- **Form validation** (`forms.dfy`, module `Forms`). The first-failure decision
  of `validateField` is a pure function. The email and phone patterns are
  written out as string predicates. `validateForm` is a loop over the required
  fields.
- **Translations** (`language.dfy`, module `Language`). This covers the choice
  of the starting language, browser-language detection, dotted-key lookup
  through the translation tree with `?.` semantics, and `t`. The
  `LanguageManager` class holds the current language, the loaded translations
  and the preference store. Loading falls back to English once, and switching
  language stores the preference.
- **Payment server** (`server.dfy`, module `VippsServer`). This covers:
  - the access-token cache and its one-minute safety margin;
  - the order-id format;
  - the amount check and the request built by the initiate handler;
  - the rule that the callback captures only a RESERVED payment;
  - the swallowed failures of capture and e-mail;
  - the fields of both notification forms.

  The `PaymentServer` class holds the token cache and a log of every outbound
  request.
- **Payment client** (`vipps_payment.dfy`, module `VippsClient`). This covers:
  - the API base chosen from the host name;
  - `extractPaymentData`, with JavaScript's `parseInt` written out;
  - the browser's amount check;
  - the redirect-or-error decision of `handleVippsPayment`.

  A few lemmas set the browser's check beside the server's.

`strings.dfy` (module `Strings`) holds the JavaScript string behaviour the
others share:
- `substring` clamping and swapping;
- the white-space set of `trim` and `\s`;
- ASCII upper and lower case;
- `Number.prototype.toString(radix)` for non-negative integers, with its round trip.

`wrappers.dfy` holds `Option`.

Inputs the model cannot compute are parameters:
- the clock;
- the random string;
- the replies of the payment provider and the e-mail relay;
- the browser's language tag;
- the viewport width;
- the form's own validity check;
- which translation files can be fetched.

Browser storage is a map held in a field. JSON encoding is taken as the
identity.

Facts about the payment server that the model keeps as the code has them:
- **Capture amount.** The callback captures `transactionSummary.capturedAmount`
  (server.js:178), not the amount reserved at initiation.
- **No order record.** The server keeps no order store; the order is only sent
  in the notification e-mail (server.js:121-134). No status ever becomes "paid".
- **Callback status.** The callback answers 500 when the token fetch fails, as
  well as when the details fetch fails (server.js:162-184).
- **Two clock readings in the callback.** The capture's token lookup reads the
  clock again after the details round trip (server.js:193), so a token can
  lapse in between (`VippsServer.TokenLapsesDuringCallback`).

Consequences of the code that the proofs make explicit:
- **Amount scales differ.** The browser accepts any amount of at least 1
  (js/vipps-payment.js:88). The server refuses amounts below 100 and then
  multiplies by 100 (server.js:75, server.js:92). `VippsClient.ClientServerGap`
  states the gap, and neither check is changed.
- **Stale slide index.** "Previous" lands in range only from at most one past
  the last position. An index left high by a resize stays out of range through
  one "previous" step, until a second "previous", a "next" or a dot click
  (`Portfolio.PrevInRange`, `Portfolio.PrevAfterShrink`, `Portfolio.NextInRange`).
- **Dot count.** The dots are counted with the initial three slides per view
  (js/portfolio.js:12, 39). The count matches the positions only on wide
  viewports (`Portfolio.DotsMatchPositionsOnlyWhenWide`).
- **Price after an add.** Adding a product whose id is already in the cart
  raises the total by the stored item's price, not the product's
  (`Cart.AddRaisesTotal`).
- **Blank optional email.** An optional email field holding only a no-break
  space fails the email check, because only the required check trims and `\s`
  includes U+00A0; a browser keeps that character in an email input's value
  (`Forms.BlankOptionalEmailFails`).
- **Preference kept on fallback.** After a failed load falls back to English,
  the stored preference is still the language that was asked for
  (`Language.LanguageManager.SwitchLanguage`).

## Model

| member | source | states |
|---|---|---|
| Cart.Load | js/cart.js:15-18 | a store without the cart key gives the empty cart |
| Cart.Save | js/cart.js:20-23 | saving adds only the cart key and leaves every other key's value as it was |
| Cart.LoadAfterSave | js/cart.js:15-22 | loading after saving returns exactly the saved items |
| Cart.IndexOf | js/cart.js:26 | `find` by id: the first index with that id, and -1 exactly when no item has it |
| Cart.ShippingFor | js/cart.js:169-170 | shipping is 0 exactly when the subtotal exceeds 500, and 50 otherwise |
| Cart.ShippingAtBoundary | js/cart.js:170 | a subtotal of exactly 500 pays 50; 501 pays nothing |
| Cart.IndexOfUnique | js/cart.js:26 | with unique ids, looking up an item's id finds that item's own index |
| Cart.AddNewAppends | js/cart.js:30-37 | adding an absent id appends one item with the product's fields and quantity 1 |
| Cart.AddExistingIncrements | js/cart.js:26-29 | adding a present id raises that item's quantity by exactly 1 and keeps the length and every other item |
| Cart.AddPreservesWellFormed | js/cart.js:25-38 | unique ids and positive quantities survive an add |
| Cart.RemovedMembers | js/cart.js:46 | an item survives removal exactly when it was there and has another id; the list does not grow |
| Cart.RemovedAbsent | js/cart.js:46 | removing an id nobody has changes nothing |
| Cart.RemovedUnique | js/cart.js:46 | with unique ids, removal deletes exactly the matching item and keeps the others in order |
| Cart.DropPreservesWellFormed | js/cart.js:46 | deleting one position keeps ids unique and quantities positive |
| Cart.RemovedPreservesWellFormed | js/cart.js:45-46 | removal keeps the cart well formed and leaves no item with the removed id |
| Cart.QuantitySetPresent | js/cart.js:51-54 | the matching item's quantity becomes max(1, q); the length and every other item are kept |
| Cart.QuantitySetAbsent | js/cart.js:52-53 | updating an absent id is a no-op |
| Cart.QuantitySetPreservesWellFormed | js/cart.js:51-57 | a quantity update keeps ids unique and every quantity at least 1 |
| Cart.DecreaseAtOneStays | js/cart.js:116-117 | "decrease" on an item of quantity 1 leaves the cart unchanged |
| Cart.IncreaseAddsOne | js/cart.js:114-115 | "increase" sets only that item's quantity, to max(1, q + 1), which is q + 1 on a well-formed cart |
| Cart.QtyClickedPreservesWellFormed | js/cart.js:107-119 | any quantity-button click keeps the cart well formed |
| Cart.ItemCountAppend | js/cart.js:60-66 | the count and the total of a concatenation are the sums of the parts |
| Cart.ItemCountUpdate | js/cart.js:60-66 | replacing one item changes the count by the quantity difference and the total by the line-total difference |
| Cart.AddRaisesCount | js/cart.js:25-38 | every add raises the item count by exactly 1 |
| Cart.AddRaisesTotal | js/cart.js:60-62 | an add raises the total by the product's price when the id is new, and by the stored item's price otherwise |
| Cart.BumpTotal | js/cart.js:26-29 | raising one line's quantity by one raises the total by that line's stored price |
| Cart.AddNewTotal | js/cart.js:30-37 | adding an absent id raises the total by the product's price |
| Cart.ItemCountDrop | js/cart.js:64-66 | deleting one line lowers the count by that line's quantity |
| Cart.RemoveLowersCount | js/cart.js:64-66 | removing an item lowers the count by its quantity |
| Cart.ItemCountPositive | js/cart.js:64-66 | with positive quantities the count is at least the number of lines |
| Cart.ShoppingCart.constructor | js/cart.js:4-5 | the items are what the store holds under the cart key |
| Cart.ShoppingCart.SaveCart | js/cart.js:20-23 | the store gets the current items under the cart key; the items are unchanged |
| Cart.ShoppingCart.FindIndex | js/cart.js:26 | the search loop returns the first index with the id, or -1 |
| Cart.ShoppingCart.AddItem | js/cart.js:25-40 | the items become the add of the product, are saved, and stay well formed |
| Cart.ShoppingCart.RemoveItem | js/cart.js:45-47 | the filtering loop leaves the removal of the id, with no item of that id; it saves and keeps the cart well formed |
| Cart.ShoppingCart.UpdateQuantity | js/cart.js:51-58 | the items become the quantity update; the store is written only when the id was found |
| Cart.ShoppingCart.QtyButton | js/cart.js:107-119 | a click sets quantity ±1 (to at least 1) on a found item and saves the cart; another action or a missing item changes neither the items nor the store |
| Cart.ShoppingCart.ClearCart | js/cart.js:226-228 | the cart is empty and the empty list is saved |
| Portfolio.SlidesPerView | js/portfolio.js:26-31 | 1 exactly below width 768, 2 exactly on [768, 1024), 3 exactly from 1024 |
| Portfolio.MaxSlide | js/portfolio.js:33-36 | the last position is at least 0 and at least count − perView, and is one of the two |
| Portfolio.Clamped | js/portfolio.js:84 | the result lies in [0, maxSlide], is the index itself when in range, and otherwise the nearer end |
| Portfolio.NextInRange | js/portfolio.js:89-95 | "next" lands in [0, maxSlide] exactly when it starts at -1 or above |
| Portfolio.PrevInRange | js/portfolio.js:100-106 | "previous" is never negative, and is at most maxSlide exactly when it starts at most one past it |
| Portfolio.PrevAfterShrink | js/portfolio.js:100-106 | five slides: index 4 is valid at width 500, and after widening to 1200 "previous" gives 3, above the new last position 2 |
| Portfolio.NextTimesClimbs | js/portfolio.js:89-95 | below the last position, n "next" steps add n |
| Portfolio.NextTimesSplit | js/portfolio.js:89-95 | a + b "next" steps are a steps followed by b steps |
| Portfolio.NextCycle | js/portfolio.js:89-95 | from 0, the first maxSlide steps visit 1..maxSlide in turn and step maxSlide + 1 returns to 0 |
| Portfolio.DotsMatchPositionsOnlyWhenWide | js/portfolio.js:38-41 | with three or more slides, the dot count (made with three per view) equals the number of positions exactly when the width is at least 1024 |
| Portfolio.PortfolioCarousel.constructor | js/portfolio.js:4-12 | starts at slide 0 with three slides per view |
| Portfolio.PortfolioCarousel.GetMaxSlide | js/portfolio.js:33-36 | records the width's slides-per-view and returns the last position for it |
| Portfolio.PortfolioCarousel.GoToSlide | js/portfolio.js:82-87 | the current slide becomes the clamped index, always in [0, maxSlide] and equal to the index when in range |
| Portfolio.PortfolioCarousel.NextSlide | js/portfolio.js:89-98 | wraps to 0 from the last position or beyond, otherwise adds 1; from a valid index it stays in [0, maxSlide] |
| Portfolio.PortfolioCarousel.PrevSlide | js/portfolio.js:100-109 | wraps to the last position from 0 or below, otherwise subtracts 1; never negative, and in range exactly when the start was at most maxSlide + 1 |
| Portfolio.PortfolioCarousel.CreateDots | js/portfolio.js:38-48 | the loop makes slideCount − (perView − 1) dots (none when that is not positive), dot i jumping to i and only the first active |
| Forms.TrimStartShape | js/forms.js:37 | the trimmed value is a suffix after a run of white space, and starts with no white space |
| Forms.TrimEndShape | js/forms.js:37 | the trimmed value is a prefix before a run of white space, and ends with no white space |
| Forms.TrimEmptyIff | js/forms.js:37 | a value trims to empty exactly when it is all white space |
| Forms.StripWhitespace | js/forms.js:55 | `replace(/\s/g, '')` deletes a single white-space character and keeps any other; with `StripWhitespaceAppend` this fixes the result for every input: the non-white-space characters in order. It never lengthens and leaves no white space |
| Forms.StripWhitespaceIdempotent | js/forms.js:55 | stripping twice is stripping once |
| Forms.StripWhitespaceAppend | js/forms.js:55 | stripping distributes over concatenation |
| Forms.EmailPatternIff | js/forms.js:44-45 | the email pattern holds exactly when there is one '@', no white space, and a '.' with a character before the '@', between them and after the '.' |
| Forms.EmailAccepted | js/forms.js:44-45 | "kari@example.com" passes the email pattern |
| Forms.TwoAtsRejected | js/forms.js:44-45 | a value holding '@' at two positions never passes the email pattern |
| Forms.EmailTwoAtsRejected | js/forms.js:44-45 | a second '@' fails the email pattern |
| Forms.PhonePrefixed | js/forms.js:54-56 | "+47" followed by eight digits matches the phone pattern |
| Forms.PhoneWithPrefixAccepted | js/forms.js:54-56 | "+47 " followed by eight digits passes once white space is removed |
| Forms.PhoneWrongPrefixRejected | js/forms.js:54-56 | "+46" followed by eight digits fails |
| Forms.VerdictMeaning | js/forms.js:26-63 | outside a form group every field passes; the required failure occurs exactly for a required all-white-space value; an email or phone failure means that pattern failed; an empty optional field passes |
| Forms.ValidIff | js/forms.js:26-63 | inside a group a field passes exactly when the required, email and phone conditions all hold |
| Forms.BlankOptionalEmailFails | js/forms.js:43-48 | an optional email field holding only a no-break space fails as an invalid email |
| Forms.RequiredComesFirst | js/forms.js:37-40 | a required blank field reports "required" before any format check |
| Forms.ErrorMessage | js/forms.js:38-57 | the message shown is never empty, and is the English fallback text when the page has no language manager |
| Forms.ManagerNeverFallsBack | js/forms.js:38-57 | with a language manager the message is whatever `t` answers for the key, which is the key itself when its translation is missing; the English fallback never appears |
| Forms.ShownMessage | js/forms.js:26-63 | a message is shown exactly when the field fails, and it is the message of the failure reported |
| Forms.RequiredFields | js/forms.js:73 | the selected controls are exactly the required ones |
| Forms.RequiredAll | js/forms.js:72-82 | a check holds for every selected control exactly when it holds for every required field of the form |
| Forms.ValidateForm | js/forms.js:72-82 | one verdict per required control, in order, and the form is valid exactly when every required control passes |
| Language.Split | js/language.js:45 | `split('.')` gives at least one part and no part contains the separator |
| Language.JoinSplit | js/language.js:45 | joining the parts of a split gives back the key |
| Language.SplitJoin | js/language.js:45 | splitting a join of separator-free parts gives back the parts |
| Language.FollowNone | js/language.js:45 | once a step is undefined, every later step stays undefined |
| Language.FollowAppend | js/language.js:45 | following a + b is following a and then b |
| Language.MissingKeyUndefined | js/language.js:45 | a missing key at any step makes the whole lookup undefined |
| Language.FollowPresent | js/language.js:45 | a present first key descends into that child |
| Language.Translate | js/language.js:115-117 | `t` gives the looked-up value when it is truthy, and the key itself when the lookup is undefined or the empty string |
| Language.TranslateTwoLevel | js/language.js:44-46 | "section.entry" finds the entry of that section, and a missing entry makes `t` return the key |
| Language.DetectBrowserLanguage | js/language.js:21-28 | "no" exactly when the lower-cased tag starts with "no", "nb" or "nn", otherwise "en" |
| Language.DetectExamples | js/language.js:21-28 | "nb-NO" and "NN" give "no"; "en-US" and "sv" give "en" |
| Language.InitialLanguage | js/language.js:5-6 | a stored non-empty preference wins, otherwise the detected browser language |
| Language.LoadFrom | js/language.js:30-42 | an available language is loaded as is; otherwise English is tried once, so at most two fetches, the last naming the language kept; a failure keeps the old translations |
| Language.FallbackToEnglish | js/language.js:36-40 | an unavailable non-English language ends in English, with the English file when it exists and the old translations otherwise |
| Language.LanguageManager.constructor | js/language.js:4-7 | the language is the initial choice and the translations start empty |
| Language.LanguageManager.LoadTranslations | js/language.js:30-42 | the recursive method ends in the state and fetch list `LoadFrom` gives |
| Language.LanguageManager.SwitchLanguage | js/language.js:96-104 | the same language changes nothing; another one is stored as the preference and then loaded, with the English fallback |
| Strings.Substring | server.js:63 | `substring` with clamped bounds: the slice itself when the bounds are in range |
| Strings.ToUpper | server.js:64 | same length, each character upper-cased |
| Strings.ToLower | js/language.js:22 | same length, each character lower-cased |
| Strings.Numeral | server.js:62 | `toString(radix)` is non-empty lower-case digits of the radix with no leading zero |
| Strings.NumeralRoundTrip | server.js:62 | the numeral reads back as the number |
| Strings.NumeralValueUpper | server.js:64 | upper-casing a numeral keeps its value |
| Strings.IntToDecimal | server.js:264 | the template-literal text of an integer is non-empty, starts with "-" exactly when the integer is negative, is decimal digits everywhere else, and has no leading zero; `VippsClient.ParseIntDecimal` proves that it reads back |
| VippsServer.TokenLookup | server.js:29-56 | the provider is asked exactly when the cache is not fresh; a fresh cache returns its token unchanged; a refusal raises the error and leaves the cache; a grant is cached with expiry now + lifetime·1000 − 60000 |
| VippsServer.RefreshThenCached | server.js:48-49 | after a refresh, any call before the recorded expiry is served from the cache with the same token |
| VippsServer.ExpiredRefreshes | server.js:31 | at or after the expiry the provider is asked again |
| VippsServer.TokenLapsesDuringCallback | server.js:162-193 | a token fresh at the details fetch but expired by the capture's later clock reading is served from the cache first and requested anew for the capture |
| VippsServer.ShortLifetimeNeverCached | server.js:49 | a lifetime of 60 s or less is used up by the margin, so the next call at the same instant refreshes |
| VippsServer.OrderIdParts | server.js:64 | the id is "OB", the upper-cased time numeral and the upper-cased random part |
| VippsServer.RandomPart | server.js:63 | the random part has at most five characters, all base-36 digits when the random text is |
| VippsServer.OrderIdShape | server.js:61-65 | the id starts with "OB", its time part is base-36 and reads back as the timestamp, and the random part is at most 5 characters |
| VippsServer.OrderIdCharset | server.js:61-65 | when the random text is a base-36 rendering, every character of the id is in [0-9A-Z] |
| VippsServer.DistinctTimestampsDistinctTimeParts | server.js:62 | different timestamps give different time parts |
| VippsServer.AmountAcceptedIff | server.js:75 | the amount passes exactly when present and at least 100 |
| VippsServer.BuildPaymentRequest | server.js:83-99 | the amount is ×100, the text is the certificate type + " - Gift Certificate", the fallback URL starts at the app URL and ends with "?orderId=" + id, the callback prefix ends with "/api/vipps/callback", `isApp` is false |
| VippsServer.InitiateReply | server.js:70-150 | 400 exactly for a rejected amount; 200 exactly when the amount, the token and the provider all succeed, answering with the order id and the checkout URL; otherwise 500 |
| VippsServer.MessageOrNA | server.js:269 | a missing or empty message becomes "N/A" |
| VippsServer.OrderNoticeFields | server.js:257-271 | the order form has the eleven names in order, each once, and the relay reads subject "New Order - id", the id, amount "n NOK", the certificate type, the buyer's name and e-mail, the recipient, the message or "N/A", and status "Payment Initiated" |
| VippsServer.OrderNotificationForm | server.js:257-271 | the appends build exactly the order form `OrderNotice` |
| VippsServer.SuccessNoticeFields | server.js:281-287 | the success form has its four names in order, each once, and the relay reads subject "Payment Successful - id", captcha "false", the id and the PAID status |
| VippsServer.PaymentSuccessForm | server.js:281-287 | the appends build exactly the success form `SuccessNotice` |
| VippsServer.CallbackStatus | server.js:155-186 | 200 exactly when the token and the details fetch both succeed, otherwise 500 |
| VippsServer.InitiateTraceCalls | server.js:70-150 | the payment request goes out exactly when a token was obtained, the order notification exactly when the provider also accepted, and nothing is captured |
| VippsServer.CaptureTraceCalls | server.js:191-227 | a capture of this order and amount, and no other capture, is sent exactly when a token was obtained; the success e-mail exactly when the capture also went through |
| VippsServer.CallbackTraceCaptures | server.js:155-186 | the callback captures exactly when it answers 200 on RESERVED details and the capture's token lookup succeeds, and only the reported `capturedAmount` |
| VippsServer.PaymentServer.constructor | server.js:22-24 | the token cache starts empty and no request has been made |
| VippsServer.PaymentServer.GetAccessToken | server.js:29-56 | the result and the new cache are those of `TokenLookup`, and the log gains one token request exactly when the cache was not fresh |
| VippsServer.PaymentServer.SendOrderNotification | server.js:257-276 | exactly one relay post of the order form, whatever the relay answers |
| VippsServer.PaymentServer.SendPaymentSuccessEmail | server.js:281-293 | exactly one relay post of the success form, whatever the relay answers |
| VippsServer.PaymentServer.Initiate | server.js:70-150 | a rejected amount answers 400, sends nothing and keeps the cache; otherwise the reply is `InitiateReply` of the generated id, and the log gains exactly `InitiateTrace`: the token lookup's request, the built payment request once a token is obtained, then the order notification on acceptance |
| VippsServer.PaymentServer.CapturePayment | server.js:191-227 | the log gains exactly `CaptureTrace`; every failure is swallowed and the cache is the token lookup's |
| VippsServer.PaymentServer.Callback | server.js:155-186 | the status is `CallbackStatus` of the token and the details, and the log gains exactly `CallbackTrace`: the details fetch once a token is obtained, then `capturePayment`'s requests, with their own token lookup at the later clock reading, when RESERVED |
| VippsServer.PaymentServer.Status | server.js:232-252 | 200 with the provider's details exactly when token and details succeed, else 500; the log gains the token lookup's request and then the details fetch once a token is obtained |
| VippsClient.ApiUrl | js/vipps-payment.js:9-11 | the localhost URL exactly when the host name is "localhost", otherwise the deployed URL |
| VippsClient.ParseIntNatural | js/vipps-payment.js:148 | `parseInt` reads a natural number's decimal numeral back, ignoring a tail that ends the number |
| VippsClient.ParseIntMinus | js/vipps-payment.js:148 | a leading "-" negates whatever magnitude follows it |
| VippsClient.ParseIntNegative | js/vipps-payment.js:148 | `parseInt` reads "-" followed by a numeral as the negated number |
| VippsClient.ParseIntDecimal | js/vipps-payment.js:148 | `parseInt` reads back any integer's decimal numeral, ignoring a tail that is not a digit or "x" |
| VippsClient.HexPrefix | js/vipps-payment.js:148 | a magnitude starting "0x" is the base-16 reading of what follows |
| VippsClient.TrimStartOfNonSpace | js/vipps-payment.js:148 | a text that starts with no white space is parsed from its first character |
| VippsClient.ParseIntNoDigit | js/vipps-payment.js:148 | a text with no digit after its leading white space and optional sign parses as NaN |
| VippsClient.ParseIntEmpty | js/vipps-payment.js:148 | "", "-" and " +" parse as NaN |
| VippsClient.MagnitudeOfHex | js/vipps-payment.js:148 | after "0x" the digits are read in base 16 |
| VippsClient.ExtractPaymentData | js/vipps-payment.js:137-155 | a filled amount is parsed whatever the type; otherwise the type's default; the type defaults to "Custom", the message to "" and the names pass through |
| VippsClient.FixedPriceCertificates | js/vipps-payment.js:141-145 | without an amount, "Evening Makeup" gives 1500, "Makeup Course" 3000, and only these two give a number |
| VippsClient.TypedAmountWins | js/vipps-payment.js:139-148 | a typed decimal amount is used as is |
| VippsClient.ClientRejectsIff | js/vipps-payment.js:88 | the browser refuses exactly a missing (NaN) amount or one below 1 |
| VippsClient.HandlePayment | js/vipps-payment.js:68-132 | an invalid form does nothing; a request is sent exactly when the amount passes; a redirect happens exactly on an ok answer with a non-empty URL, and stores the order id; otherwise storage is unchanged |
| VippsClient.ServerErrorMessage | js/vipps-payment.js:101-104 | a failed answer shows the server's error, or "Failed to initiate payment" when it has none |
| VippsClient.NoUrlNoRedirect | js/vipps-payment.js:109-117 | an ok answer without a URL is the "No payment URL received" error and stores nothing |
| VippsClient.ServerAcceptedPassesClient | js/vipps-payment.js:88-90 | every amount the server accepts also passes the browser |
| VippsClient.ClientServerGap | js/vipps-payment.js:88-90 | a typed amount from 1 to 99 passes the browser and is refused by the server with 400 |
| VippsClient.FixedPriceCharged | js/vipps-payment.js:143 | an "Evening Makeup" certificate passes both checks and is requested as 150000 |

The functions below only compute. Each has no contract of its own; its
properties are carried by the members named after it:
- `Cart.Added` (js/cart.js:25-38): AddNewAppends, AddExistingIncrements, AddPreservesWellFormed, AddRaisesCount, AddRaisesTotal.
- `Cart.Removed` (js/cart.js:46): RemovedMembers, RemovedAbsent, RemovedUnique, RemovedPreservesWellFormed, RemoveLowersCount.
- `Cart.QuantitySet` (js/cart.js:51-54): QuantitySetPresent, QuantitySetAbsent, QuantitySetPreservesWellFormed.
- `Cart.QtyClicked` (js/cart.js:107-119): DecreaseAtOneStays, IncreaseAddsOne, QtyClickedPreservesWellFormed.
- `Cart.ItemCount` and `Cart.Total` (js/cart.js:60-66): ItemCountAppend, ItemCountUpdate, ItemCountDrop, ItemCountPositive, BumpTotal, AddNewTotal.
- `Portfolio.NextIndex` (js/portfolio.js:89-95): NextInRange, NextTimesClimbs, NextCycle.
- `Portfolio.PrevIndex` (js/portfolio.js:100-106): PrevInRange, PrevAfterShrink.
- `Portfolio.DotCount` (js/portfolio.js:38-41): DotsMatchPositionsOnlyWhenWide.
- `Forms.Trim` (js/forms.js:37): TrimStartShape, TrimEndShape, TrimEmptyIff.
- `Forms.MatchesEmailPattern` (js/forms.js:45): EmailPatternIff, EmailAccepted, TwoAtsRejected, EmailTwoAtsRejected.
- `Forms.MatchesPhonePattern` (js/forms.js:55): PhonePrefixed, PhoneWithPrefixAccepted, PhoneWrongPrefixRejected.
- `Forms.ValidateField` (js/forms.js:26-63): VerdictMeaning, ValidIff, RequiredComesFirst, BlankOptionalEmailFails, ShownMessage.
- `Language.Step`, `Language.Follow` and `Language.Nested` (js/language.js:44-46): FollowNone, FollowAppend, MissingKeyUndefined, FollowPresent, TranslateTwoLevel.
- `VippsServer.CacheFresh` (server.js:31): TokenLookup, RefreshThenCached, ExpiredRefreshes.
- `VippsServer.GenerateOrderId` (server.js:61-65): OrderIdParts, OrderIdShape, OrderIdCharset, DistinctTimestampsDistinctTimeParts.
- `VippsServer.AmountRejected` (server.js:75): AmountAcceptedIff.
- `VippsServer.OrderNotice` and `VippsServer.SuccessNotice` (server.js:257-287): OrderNoticeFields, SuccessNoticeFields.
- `VippsServer.TokenTrace`, `InitiateTrace`, `CaptureTrace` and `CallbackTrace` (server.js:29-227): InitiateTraceCalls, CaptureTraceCalls, CallbackTraceCaptures.
- `VippsClient.ParseInt` (js/vipps-payment.js:148): ParseIntDecimal, ParseIntNatural, ParseIntNegative, ParseIntMinus, ParseIntNoDigit, MagnitudeOfHex.
- `VippsClient.DefaultAmount` (js/vipps-payment.js:141-145): FixedPriceCertificates.

## Left out

- DOM work is not modelled: cart and summary HTML, notifications, carousel offsets, element walking in `applyTranslations`, the language-switcher buttons, the payment button and its spinner. It is presentation, with no logic beyond what is modelled.
- js/main.js is not part of this model. It is event wiring, scroll and intersection observers, `Intl` currency formatting and timer-based debouncing.
- HTTP is not modelled: express routing, CORS, the `/health` endpoint, `listen`, and the request headers. Provider and relay results are inputs, and each outbound request is a log entry.
- `Date.now()`, `Math.random()` and `new Date().toISOString()` are left out. The first two are inputs: a timestamp and the random number's base-36 text. `createdAt` is not modelled, because it is not sent anywhere.
- Floating point is left out: `parseFloat` prices, the 25 % tax line, `toFixed`, slide widths and gaps. Prices and amounts are integers.
- Timers are left out: autoplay, message fade-outs, and the simulated form-submission delay.
- Concurrency is left out. Handlers run one after another, so two overlapping token refreshes are not modelled.
- JSON parsing and serialisation are the identity. A corrupt saved cart, a non-JSON reply and `null` versus missing fields are not modelled. A missing field is None, which template literals print as "undefined".
- Regular expressions are not modelled as an engine. The two patterns are modelled as string predicates, and `\s` as the JavaScript white-space and line-terminator set.
- ASCII case mapping only: `toLowerCase`/`toUpperCase` of non-ASCII letters are not modelled.
- Lookup of other kinds of values is not modelled. `getNestedTranslation` indexes only the tree nodes; a string value is not indexed by a further key, and arrays or numbers are not modelled.
- Inherited `Object.prototype` names (`constructor`, `toString`, `__proto__`, …) are not modelled. In the browser `obj?.[key]` finds them on every translation object, so `t("constructor")` answers a function rather than the key; in the model a key absent from the file is undefined, and `Language.MissingKeyUndefined` holds only for keys that are not such names.
- `parseInt` uses unbounded integers, so precision loss above 2^53 and "-0" are not modelled. A leading "-0" gives 0, which both amount checks refuse anyway.
- VippsServer.PaymentServer.SendOrderNotification: the relay's answer is an input the method ignores, because the source swallows any failure. The same holds for SendPaymentSuccessEmail.
- VippsServer.PaymentServer.Initiate: one clock reading serves both the order id (server.js:62) and the token lookup (server.js:31), which the code reads separately.
- VippsServer.PaymentServer.GetAccessToken: the expiry is computed from the instant of the freshness check, while the code reads the clock again after the provider's reply (server.js:49); the round-trip time is not modelled.
- VippsServer.PaymentServer.Callback: the reply to the provider carries only the status code, not a JSON body. The capture's own success is an input.
- VippsServer.PaymentServer.Status: the provider's payload is passed through as a value, not as arbitrary JSON.
