# Price assistant core, modelled in Dafny

The modelled system is a chat assistant for an electrical-goods trader. Customers reach it over Telegram or over
WhatsApp through Twilio. They ask in free text, a photo or a voice note. A large language model (Claude, with
Groq as a fallback) turns the request into a query. The assistant answers with one of:

- a quotation or pro-forma invoice priced from the trader's price lists;
- bare prices;
- a price-list PDF;
- live stock from the Tally accounting system;
- the day's copper and aluminium prices.

Every model call, message and OCR page is recorded as a cost event against a query session in a
Supabase-style database. An admin approves new users and can switch the primary model from Telegram.

The model keeps the program's structure, one Dafny module per source file:

- **Pricing.**
  - `ItemPrices` covers product descriptions, normalisation and price lookup.
  - `Quotation` and `QuotationTypes` cover quotation arithmetic and request defaults.
  - `PriceList` covers PDF price-list selection.
  - `Prices` covers the metal-price service: its cache and its twice-daily alert.
- **Validators.**
  - `FileServe` covers the file-name guard.
  - `WebhookValidation` covers the Twilio signature data string.
- **Ledger.**
  - `CostTypes` covers the cost-event builder and default rates.
  - `CostService` covers rate loading, the cost loggers and the cost notification.
  - `SessionTypes` covers the session context.
  - `Database` holds the `DatabaseService` class, whose tables are fields updated in place.
  - `DatabaseQueries` covers the pure row selections behind the table operations.
- **Intent.**
  - `Llm` covers tools, the tool-call mapping and the response decision.
  - `LlmProviders` covers the Claude and Groq request classification.
  - `LlmOrchestrator` covers the retry loops, information-tool rounds and provider fallback.
  - `ClaudeLegacy` covers the older Claude client.
- **Fulfilment and routing.**
  - `QueryFulfilment` and `QueryTypes` cover query dispatch.
  - `Ocr` and `Transcription` cover image text and voice notes.
  - `ErrorHandler` covers the messages shown to users.
  - `SessionHelpers` covers session bookkeeping.
  - `WhatsappHelpers` covers background-job routing.
  - `Telegram` and `WhatsappWebhook` cover the two front ends.
- **State machine.** `Stock` holds the `StockService` class, with its table of pending stock requests.

Shared helpers:
- `Wrappers` holds Option and Result.
- `Text` covers whitespace trimming, ASCII case, substrings, UTF-8 byte length and splitting.
- `Json` covers JSON values and field lookup.
- `Numbers` covers `i32`/`i64` casts.

Inputs the model takes as parameters:
- Everything the program reads from the outside world. This covers database and HTTP replies, the LLM API, clocks,
  fresh identifiers, downloads and serde decoding.
- Each request to the database server takes a `Reply` that says whether it was unreachable, rejected or accepted.

## Model

| member | source | states |
|---|---|---|
| ItemPrices.LtBodyComposed | src/prices/item_prices.rs:164-235 | the eight full LT sentences are one sentence whose insulation word depends only on "pvc", sheath word only on "frls", armour word only on armouring |
| ItemPrices.LtBriefAgreesWithFull | src/prices/item_prices.rs:237-268 | the brief LT description says "PVC", "FRLS", "Armd" exactly when the full one says "PVC Insulated", "FRLS PVC Sheathed", "Armoured" |
| ItemPrices.DescriptionDependsOnlyOnFlags | src/prices/item_prices.rs:15-47 | both descriptions of any product depend on the extras only through whether they contain "pvc" and "frls" |
| ItemPrices.DescriptionIgnoresExtras | src/prices/item_prices.rs:49-163 | every product other than an LT cable is described the same whatever the extras |
| ItemPrices.CoaxialBriefIsFull | src/prices/item_prices.rs:117-136 | a coaxial cable is described by its type name (RG6, RG11, RG59), briefly and in full alike |
| ItemPrices.HtAlwaysArmoured | src/prices/item_prices.rs:270-298 | an HT cable is described as armoured in both forms |
| ItemPrices.SameKindAndSizesIsEqual | src/prices/item_prices.rs:367-460 | a product is determined by its variant, its non-size fields and its size strings |
| ItemPrices.NormalizeKeepsKind | src/prices/item_prices.rs:367-460 | `normalize` keeps the variant and every non-size field and sends each size, and only the sizes, through the decimal normaliser |
| ItemPrices.NormalizeIdempotent | src/prices/item_prices.rs:367-460 | with an idempotent size normaliser, normalising twice is normalising once |
| ItemPrices.CanonicalTags | src/prices/item_prices.rs:469-474 | the stored tags are the list's tags trimmed and lower-cased, one for one |
| ItemPrices.FromPriceList | src/prices/item_prices.rs:461-476 | the loop inserts every entry in order under its normalised product and canonicalises the tags |
| ItemPrices.PriceTableLastWins | src/prices/item_prices.rs:464-467 | the table holds a product exactly when some entry normalises to it, with the price of the last such entry |
| ItemPrices.GetPriceFromList | src/prices/item_prices.rs:479-485 | a price comes back exactly when the canonical tag is one of the list's tags and some entry normalises to the query's product; it is the last such entry's price |
| ItemPrices.GetPriceNormalizedQuery | src/prices/item_prices.rs:479-485 | asking for an already normalised product gives the same answer as asking for the product as written |
| ItemPrices.EmptyListPricesNothing | src/prices/item_prices.rs:461-485 | an empty price list prices nothing |
| Quotation.FirstPriceIsFirst | src/quotation/mod.rs:90-95 | the brand's lookup finds nothing exactly when none of its pricing systems prices the product; otherwise it is the price of the first system that does |
| Quotation.ServicePriceSpec | src/quotation/mod.rs:90-95 | an unknown brand, compared lower-cased, yields no price; a known brand yields its first system's price; the brand's case does not matter |
| Quotation.SumAmountsAppend | src/quotation/mod.rs:63-64 | accumulating one more line adds exactly its amount to the basic total |
| Quotation.QuoteLines | src/quotation/mod.rs:54-74 | the loop gives up exactly when some item has no price; otherwise it quotes every item in order by the documented formula and the total is the sum of the amounts |
| Quotation.GenerateQuotation | src/quotation/mod.rs:50-88 | no quotation exactly when some item has no price; otherwise one line per item in order, the basic total is their sum, delivery is echoed, tax is 18% of the total with delivery and the grand total adds it |
| Quotation.SumAmountsOfQuotedLines | src/quotation/mod.rs:54-76 | the basic total is the sum over the items of listed price × (1 − discount) × (1 + FRLS loading) × (1 + PVC loading) × quantity |
| Quotation.WorkedExample | src/quotation/mod.rs:58-78 | 10 m at a listed 100 with 5% discount and 3% FRLS loading costs 97.85 a metre, 978.50 in all, and 1154.63 with tax |
| QuotationTypes.DefaultsFillOnlyMissingFields | src/quotation/types.rs:44-66 | a field present in a price-only item is kept; a missing brand reads "kei", a missing tag "latest", a missing discount or loading 0, and the quantity stays optional |
| QuotationTypes.CompleteInputUnchanged | src/quotation/types.rs:44-58 | an item that carries every field is taken as it is |
| QuotationTypes.DocumentedFormulas | src/quotation/types.rs:73-86 | the documented unit price does not depend on the order discount and loadings are applied, no discount and no loading leave the listed price, and the grand total is 118% of the total with delivery |
| PriceList.GroupedSpec | src/prices/price_list.rs:36-54 | a brand is a key of the built map exactly when some configuration names it lower-cased, and its entries are those configurations' paths and keywords in configuration order |
| PriceList.New | src/prices/price_list.rs:36-54 | construction never fails and the service holds exactly the grouping of the configurations by lower-cased brand |
| PriceList.FirstMatchingSpec | src/prices/price_list.rs:59-67 | the search finds nothing exactly when no entry has a keyword equal ignoring ASCII case to a requested one; otherwise it finds the first such entry |
| PriceList.FindPricelistSpec | src/prices/price_list.rs:56-69 | an unconfigured brand finds nothing; a configured one yields the path of its first entry matching a requested keyword ignoring case, and nothing when no entry matches |
| PriceList.NoKeywordsFindNothing | src/prices/price_list.rs:61-66 | with no keywords requested no price list is found |
| PriceList.FindPricelistOfConfigs | src/prices/price_list.rs:36-69 | over the lists built from a configuration, the search returns the path of the first configuration in file order whose brand equals the requested one ignoring ASCII case and that has a keyword equal to a requested one ignoring ASCII case, and None when there is none |
| PriceList.FindConfiguredList | src/prices/price_list.rs:36-69 | every configured list is found under its brand, written in any ASCII case, by any one of its own keywords; what comes back is the first configuration of that brand in file order with that keyword |
| PriceList.BrandInfos | src/prices/price_list.rs:82-88 | one listing row per entry of the brand, in order, carrying the brand, the path and the keywords |
| PriceList.PushBrand | src/prices/price_list.rs:82-88 | the inner loop appends exactly the brand's rows to what was listed before |
| PriceList.ListAvailablePricelists | src/prices/price_list.rs:71-92 | the listing holds, once each, the rows of every brand the filter selects and nothing else, in an unspecified brand order |
| PriceList.ListedRows | src/prices/price_list.rs:71-92 | a row is listed exactly when it is a configured entry of a brand equal to the filter ignoring ASCII case, or of any brand when there is no filter |
| Prices.PriceErrorText | src/prices/mod.rs:16-35 | the display text of an error carrying a message ends with that message |
| Prices.PriceMessage | src/prices/mod.rs:204-208 | the price update message ends with the aluminium price printed to two decimals |
| Prices.AlertWindows | src/prices/mod.rs:65-73 | an alert is due exactly between 11:50 and 11:52 or between 15:00 and 15:10, and only when the last alert was not sent in the current hour |
| Prices.NoRepeatAfterAlert | src/prices/mod.rs:58-92 | once an alert went out in an hour, no further alert goes out and nothing is fetched while the clock stays in that hour |
| Prices.AtMostOneAlertPerHour | src/prices/mod.rs:58-92 | within one hour at most one alert is delivered, however many ticks and failed attempts there are |
| Prices.MetalUrlSpec | src/prices/mod.rs:150-154 | only "aluminium" and "copper", in any ASCII case, select a page, each its own |
| Prices.FetchOutcomeSpec | src/prices/mod.rs:139-195 | a cached metal is answered from the cache; a miss fails when no client can be built or the metal is unknown, otherwise fetches its page; only a successful price is cached, and asking again then answers it from the cache |
| Prices.BothPrices | src/prices/mod.rs:197-200 | after success both prices are cached under their names; a copper failure is the outcome and aluminium is not fetched |
| Prices.PriceService.constructor | src/prices/mod.rs:97-105 | a new service has the configured pages, an empty cache and no alert sent |
| Prices.PriceService.FetchPrice | src/prices/mod.rs:139-195 | the result and the new cache are those of the fetch outcome; the alert hour is unchanged |
| Prices.PriceService.FetchFormattedPrices | src/prices/mod.rs:197-210 | copper then aluminium are fetched through the cache and the first failure is returned |
| Prices.PriceService.SendPriceAlert | src/prices/mod.rs:114-137 | the result and the new cache are those of `AlertAttempt`: aluminium then copper through the cache, success exactly when both prices came and the channel, if any, took the message |
| Prices.AlertReadsBothPrices | src/prices/mod.rs:114-137 | a successful alert read both prices and leaves the cache as `fetch_formatted_prices` (copper first) would; a failed one caches no metal but the two |
| Prices.PriceService.Run | src/prices/mod.rs:58-92 | each due minute runs `send_price_alert` with that minute's network and channel; the last alert hour and the cache end as `AfterTicks` gives, and the count is the alerts that went out |
| Prices.AfterTickSpec | src/prices/mod.rs:78-88 | a sent alert records its hour, a failed one keeps the old hour, and a minute with no alert due changes nothing, the cache included |
| FileServe.ContainsDotDotIff | src/communication/whatsapp/file_serve.rs:16 | the substring test for ".." holds exactly when two consecutive characters are dots |
| FileServe.SafeFilenameIff | src/communication/whatsapp/file_serve.rs:13-23 | a name is safe exactly when it has no separator and no "..", does not start with a dot, is neither empty nor blank, and fits in 255 UTF-8 bytes |
| FileServe.Repeat | src/communication/whatsapp/file_serve.rs:117 | the repeated-character names of the tests have the requested length and only that character |
| FileServe.RepeatAsciiIsSafe | src/communication/whatsapp/file_serve.rs:122-130 | a name of n `a`s is safe exactly when 1 ≤ n ≤ 255 |
| FileServe.PlainAsciiNameIsSafe | src/communication/whatsapp/file_serve.rs:13-23 | an ASCII name with a visible first character, no separator and no "..", of at most 255 bytes, is safe |
| FileServe.AcceptsDocumentName | src/communication/whatsapp/file_serve.rs:87 | "document.pdf" is accepted |
| FileServe.AcceptsQuotationName | src/communication/whatsapp/file_serve.rs:135 | "quotation_2024_001.pdf" is accepted |
| FileServe.AcceptsPriceListName | src/communication/whatsapp/file_serve.rs:136 | "price-list-kei.pdf" is accepted |
| FileServe.RejectsTraversalAndHidden | src/communication/whatsapp/file_serve.rs:92-114 | traversal attempts, hidden files and the bare dot names are rejected |
| FileServe.RejectsSeparators | src/communication/whatsapp/file_serve.rs:99-103 | names containing a forward or backward slash are rejected |
| FileServe.RejectsEmptyBlankAndLong | src/communication/whatsapp/file_serve.rs:110-118 | the empty name, a blank name and a 256-byte name are rejected |
| FileServe.ServeFromSpec | src/communication/whatsapp/file_serve.rs:25-78 | an undecodable or unsafe name gets BAD_REQUEST with nothing read and no alert; otherwise exactly the directory plus the name is read, with no separator after the directory; its contents are returned, or NOT_FOUND with an alert when the read fails |
| FileServe.HandlersReadOnlyInTheirDirectory | src/communication/whatsapp/file_serve.rs:36-64 | the artifacts handler reads only under "artifacts/" and the assets handler only under "assets/pricelists/" |
| WebhookValidation.StrLessIrreflexive | src/communication/whatsapp/webhook_validation.rs:47 | the key order never puts a key before itself |
| WebhookValidation.StrLessTransitive | src/communication/whatsapp/webhook_validation.rs:47 | the key order is transitive |
| WebhookValidation.StrLessTotal | src/communication/whatsapp/webhook_validation.rs:47 | any two distinct keys are ordered one way or the other |
| WebhookValidation.SortedUnique | src/communication/whatsapp/webhook_validation.rs:45-47 | two ascending enumerations of the same keys are equal, so the sorted order does not depend on the map's iteration order |
| WebhookValidation.SortedKeys | src/communication/whatsapp/webhook_validation.rs:45-47 | the parameter keys in strictly ascending order, each key once |
| WebhookValidation.DistinctCardinality | src/communication/whatsapp/webhook_validation.rs:46-47 | a strictly ascending sequence has no repeats |
| WebhookValidation.InsertKeepsSorted | src/communication/whatsapp/webhook_validation.rs:47 | inserting a key at its place keeps the sequence ascending |
| WebhookValidation.SortedKeysExist | src/communication/whatsapp/webhook_validation.rs:45-47 | every finite key set has an ascending enumeration |
| WebhookValidation.Position | src/communication/whatsapp/webhook_validation.rs:47 | a new key's place: every key before it is smaller and the key after it larger |
| WebhookValidation.InsertSorted | src/communication/whatsapp/webhook_validation.rs:47 | inserting a new key keeps the keys ascending and adds exactly that key |
| WebhookValidation.SortedParamKeys | src/communication/whatsapp/webhook_validation.rs:46-47 | whatever order the map yields its keys in, the collected and sorted keys are the ascending enumeration of the keys |
| WebhookValidation.BuildTwilioDataString | src/communication/whatsapp/webhook_validation.rs:42-56 | the data string is the URL followed by each key and its value, by ascending key |
| WebhookValidation.DataStringStartsWithUrl | src/communication/whatsapp/webhook_validation.rs:76-83 | the data string starts with the URL and, with no parameters, is exactly the URL |
| WebhookValidation.PairsLength | src/communication/whatsapp/webhook_validation.rs:50-53 | the appended pairs are as many bytes as the keys and values together |
| WebhookValidation.DataStringLength | src/communication/whatsapp/webhook_validation.rs:42-56 | the data string's byte length is the URL's plus those of every key and value |
| WebhookValidation.TwoParameterExample | src/communication/whatsapp/webhook_validation.rs:63-74 | with "From" and "Body" set, the body pair comes first whatever the insertion order |
| WebhookValidation.ValidateTwilioSignature | src/communication/whatsapp/webhook_validation.rs:10-38 | a signature is accepted exactly when its text, without one optional "sha1=" prefix, decodes to the MAC of the data string under the auth token |
| WebhookValidation.SignaturePrefixOptional | src/communication/whatsapp/webhook_validation.rs:16-23 | a signature that is not base64 is never accepted, and one is accepted with the "sha1=" prefix exactly when it is accepted without it |
| SessionTypes.NewContextSpec | src/database/types/session.rs:40-50 | a new context carries the user, the platform and a fresh session id, and no phone, Telegram id, model or conversation |
| SessionTypes.BuildersSetOnlyTheirField | src/database/types/session.rs:52-65 | each builder sets its own field and keeps every other, so the builders commute and applying one twice keeps the later value |
| SessionTypes.GetMetadata | src/database/services/session.rs:13-20 | the metadata text when there is some, and the empty string otherwise |
| CostTypes.NewBuilderDefaults | src/database/types/cost.rs:65-74 | a new builder charges nothing: unit cost 0 for one "unit", with no metadata |
| CostTypes.BuilderStepsAreIndependent | src/database/types/cost.rs:76-86 | the cost step changes the three cost fields only and the metadata step the metadata only, so their order does not matter |
| CostTypes.LoggedEventsSpec | src/database/types/cost.rs:88-120 | the written event takes user, session and platform from the context and the rest from the builder; the plain log charges unit cost times units, the total log the unit cost, and the two agree exactly when one unit is consumed or the unit cost is 0 |
| CostService.FoldClaudeSnoc | src/database/services/cost.rs:37-48 | folding one more rate row applies exactly that row to the rates folded so far |
| CostService.ClaudeRatesLastRowWins | src/database/services/cost.rs:35-50 | each loaded Claude rate is the unit cost of the last row of its cost type, or the default when no row has it; rows of other types change nothing |
| CostService.FoldGroqSnoc | src/database/services/cost.rs:72-81 | folding one more rate row applies exactly that row to the rates folded so far |
| CostService.GroqRatesLastRowWins | src/database/services/cost.rs:70-83 | each loaded Groq rate is the unit cost of the last row of its cost type, or the default when no row has it |
| CostService.RatesFallBackToDefaults | src/database/services/cost.rs:30-51 | without a 200 answer the default rates are used, and no rows leave the defaults 3, 0.3, 15 and 6 for Claude and 1 and 3 for Groq |
| CostService.GetClaudeRates | src/database/services/cost.rs:21-53 | the loop loads exactly the rates the row fold specifies |
| CostService.GetGroqRates | src/database/services/cost.rs:56-86 | the loop loads exactly the rates the row fold specifies |
| CostService.WhatsappMessageCost | src/database/services/cost.rs:88-111 | a WhatsApp message costs 0.005 for one "message", typed outgoing or incoming as flagged, in the context's session and platform |
| CostService.ClaudeCallCost | src/database/services/cost.rs:114-150 | a Claude call is charged the rate-weighted token sum per million tokens and counts all four kinds of token as consumed units |
| CostService.TextractCost | src/database/services/cost.rs:153-168 | an OCR call costs 0.0015 for one page whatever the image size |
| CostService.CharsWithin | src/database/services/cost.rs:216-217 | the longest prefix of the query that fits in the given number of UTF-8 bytes |
| CostService.TruncationPanicsInsideACharacter | src/database/services/cost.rs:210-217 | a query of 96 ASCII characters, a two-byte character and at least three more bytes makes the byte slice panic, while the corrected truncation shows the 96 characters and "..." |
| CostService.TruncationPanicExample | src/database/services/cost.rs:216-217 | one concrete query on which the slice as written panics |
| CostService.TruncatedQuerySpec | src/database/services/cost.rs:216-220 | the corrected truncation shows a query of at most 100 bytes whole, and a longer one as a prefix of 94 to 97 bytes plus "...", never over 100 bytes |
| CostService.TruncationAgreesWhenNoPanic | src/database/services/cost.rs:216-220 | whenever the slice as written does not panic it shows what the corrected truncation shows, and an ASCII query never makes it panic |
| CostService.BucketsReconcile | src/database/services/cost.rs:230-242 | every event's cost lands in exactly one bucket or among the ignored ones: nothing is lost or counted twice |
| CostService.PlatformEventTypes | src/database/services/cost.rs:237-239 | any event type starting with "whatsapp" or "telegram" counts as a platform cost |
| CostService.WhatsappChargesArePlatformCosts | src/database/services/cost.rs:95-99 | the WhatsApp message charges, both ways, count as platform costs in the breakdown |
| CostService.SumIntoBuckets | src/database/services/cost.rs:230-242 | the loop sums the events into exactly the buckets the bucket function assigns |
| CostService.BreakdownShowsPositiveBuckets | src/database/services/cost.rs:244-280 | only buckets with a positive cost get a line, each line is positive, the Claude line comes first exactly when Claude was charged, and no costs give no lines |
| CostService.CostNotificationSpec | src/database/services/cost.rs:192-287 | the alert shows the query in at most 100 bytes, whole when it fits, the total in rupees, and a processing time and a breakdown exactly when the session's events could be read |
| Database.ReadRows | src/database/services/session.rs:98-116 | a read succeeds exactly when the server answered with rows; an unsent request reports its message and an unreadable answer a decoding error |
| Database.LookupOne | src/database/services/user.rs:7-57 | a single-row user lookup fails only when the request was not sent or the server refused it for a reason other than "not acceptable"; a user is found only when exactly one row matches, and it is that row |
| Database.InsertOutcome | src/database/services/cost.rs:8-18 | an insert whose answer is not read fails exactly when the request could not be sent |
| Database.DatabaseService.constructor | src/database/services/user.rs:85-87 | a new service knows the admin's Telegram id and holds no rows |
| Database.DatabaseService.LogCostEvent | src/database/services/cost.rs:8-18 | the event is stored exactly when the server accepts it, and no other table changes |
| Database.DatabaseService.LogWhatsappMessage | src/database/services/cost.rs:88-111 | the WhatsApp message charge is stored when accepted, and no other table changes |
| Database.DatabaseService.LogClaudeApiCall | src/database/services/cost.rs:114-150 | the Claude charge at the loaded rates, or the defaults when loading failed, is stored when accepted |
| Database.DatabaseService.LogTextractUsage | src/database/services/cost.rs:153-167 | the OCR charge is stored when accepted, and no other table changes |
| Database.DatabaseService.GetSessionCostEvents | src/database/services/cost.rs:170-189 | the events read are exactly the stored events of the session |
| Database.DatabaseService.CreateCostNotification | src/database/services/cost.rs:192-286 | the notification is built from the session's stored events, with the truncated query and the total in rupees, and has a breakdown exactly when the events could be read |
| Database.DatabaseService.CreateSession | src/database/services/session.rs:24-44 | the session row is stored when accepted and its id returned |
| Database.DatabaseService.UpdateSessionResult | src/database/services/session.rs:46-96 | an accepted update records the result on the session's rows only; a refusal reports the server's answer and changes nothing |
| Database.DatabaseService.GetSessionTotalCost | src/database/services/session.rs:98-116 | the total is the sum of the cost amounts of the session's events |
| Database.DatabaseService.UpdateSessionQueryType | src/database/services/session.rs:118-144 | an accepted update sets the query type of the session's rows only; a refusal reports the status and changes nothing |
| Database.DatabaseService.CreateSessionWithContext | src/database/services/session.rs:146-166 | a "processing" session with no cost yet is stored under the context's ids when accepted |
| Database.DatabaseService.CompleteSession | src/database/services/session.rs:168-189 | the session's cost total, 0 when it cannot be read, and the outcome are written to the session row; the call succeeds exactly when the update is accepted |
| Database.DatabaseService.CompleteSessionWithNotification | src/database/services/session.rs:191-229 | as completing a session, and a cost notification is produced exactly when the update was accepted and the query succeeded |
| Database.DatabaseService.GetRecentConversation | src/database/services/session.rs:232-302 | the user's conversation most recently active in the last 24 hours, with its messages oldest first; none when there is none or the server answers "not acceptable" |
| Database.DatabaseService.CreateConversation | src/database/services/session.rs:304-330 | a new conversation of the user, active now, is stored when accepted and its assigned id returned |
| Database.DatabaseService.SaveConversationMessage | src/database/services/session.rs:332-370 | the message is stored when accepted and the conversation's last activity moves to now; an unsent insert stops before the update |
| Database.DatabaseService.GetUserByPhone | src/database/services/user.rs:7-29 | the single user stored under "whatsapp:" and the number, or none when no row or several rows match |
| Database.DatabaseService.GetUserByTelegram | src/database/services/user.rs:32-57 | the single user with the Telegram id, or none when no row or several rows match |
| Database.DatabaseService.CreatePendingTelegramUser | src/database/services/user.rs:60-79 | a pending Telegram user is stored when accepted |
| Database.DatabaseService.ApproveTelegramUser | src/database/services/user.rs:90-108 | an accepted update makes the pending rows with the id active; the answer is whether the server accepted, not whether a row changed |
| Database.DatabaseService.ApproveWhatsappUser | src/database/services/user.rs:111-128 | an active WhatsApp user stored under "whatsapp:" and the number is inserted when accepted |
| Database.DatabaseService.GetPendingUsers | src/database/services/user.rs:130-146 | the users read are exactly the stored pending users |
| DatabaseQueries.EventsOfSession | src/database/services/cost.rs:170-189 | an event is selected exactly when it is stored with the session's id |
| DatabaseQueries.SumCostsAppend | src/database/services/session.rs:98-116 | the sum of cost amounts is additive over concatenation |
| DatabaseQueries.SessionTotalIsSum | src/database/services/session.rs:98-116 | the session total is the sum over the session's own events |
| DatabaseQueries.SessionTotalReconciles | src/database/services/cost.rs:230-242 | the notification's buckets plus the unbucketed events add up to exactly the total recorded on the session |
| DatabaseQueries.OtherSessionsDoNotCount | src/database/services/session.rs:98-116 | logging an event of another session leaves a session's total as it was |
| DatabaseQueries.MostRecentConversation | src/database/services/session.rs:236-248 | the found conversation is the user's, active within the last day, and no such conversation is more recent; none exactly when the user has no such conversation |
| DatabaseQueries.InsertByCreation | src/database/services/session.rs:275 | inserting a message keeps the messages ordered by creation time and adds exactly that message |
| DatabaseQueries.AppendLater | src/database/services/session.rs:275 | a message created after all others may be appended to an ordered sequence |
| DatabaseQueries.MessagesInOrder | src/database/services/session.rs:269-279 | the conversation's messages, exactly those, ordered by creation time |
| DatabaseQueries.ConversationContextMessages | src/database/services/session.rs:269-295 | the context of a recent conversation carries exactly the stored messages of that conversation, as many as it has, oldest first, each read back as its query and structured response |
| DatabaseQueries.UsersWithPhone | src/database/services/user.rs:7-20 | a user is selected exactly when stored with that phone number |
| DatabaseQueries.UsersWithTelegramId | src/database/services/user.rs:32-45 | a user is selected exactly when stored with that Telegram id |
| DatabaseQueries.PendingUsers | src/database/services/user.rs:130-146 | a user is selected exactly when stored as pending |
| DatabaseQueries.Single | src/database/services/user.rs:14-20 | a single-row read finds a user exactly when one row matches, and it is that row |
| DatabaseQueries.ApproveRows | src/database/services/user.rs:90-108 | the pending rows with the Telegram id become active and no other row changes |
| DatabaseQueries.ApprovalClearsPending | src/database/services/user.rs:90-108 | after approval no user with the id is pending, users of other ids are untouched, and approving again changes nothing |
| DatabaseQueries.FoundAfterInsert | src/database/services/user.rs:7-29 | one new row under an unused phone number is then found by the lookup |
| DatabaseQueries.DuplicateHidesBoth | src/database/services/user.rs:7-29 | a second row with the same phone number makes the single-row lookup find nobody |
| DatabaseQueries.RecordResult | src/database/services/session.rs:46-96 | the result fields are set on the rows with the session id, their other fields and all other rows unchanged |
| DatabaseQueries.RecordQueryType | src/database/services/session.rs:118-144 | the query type is set on the rows with the session id and no other row changes |
| DatabaseQueries.TouchConversation | src/database/services/session.rs:355-369 | the last activity of the conversation with the id moves to now and no other row changes |
| DatabaseQueries.TouchedConversationIsRecent | src/database/services/session.rs:232-370 | a conversation just written to is the recent conversation found next, active now |
| SessionHelpers.TelegramContext | src/communication/session_helpers.rs:7-9 | a Telegram session for the user under a fresh session id, with the Telegram id set and nothing else |
| SessionHelpers.FailureResult | src/communication/session_helpers.rs:42-47 | a failed query is recorded as unsuccessful, with the error's text, no metadata and the elapsed milliseconds as an i32 |
| SessionHelpers.SuccessResult | src/communication/session_helpers.rs:62-67 | a successful query is recorded with no error, the response's metadata and the elapsed milliseconds as an i32 |
| SessionHelpers.CreateSessionOrError | src/communication/session_helpers.rs:11-29 | the call fails exactly when the session could not be created, alerting "Failed to create session" then, and otherwise stores the processing session |
| SessionHelpers.CompleteSessionWithError | src/communication/session_helpers.rs:31-52 | the failure alert goes out first, then the session is recorded as failed; a failed query never draws a cost notification |
| SessionHelpers.OpenedThenCompleted | src/communication/session_helpers.rs:11-72 | a session opened under a fresh id and then completed adds one row after the untouched earlier ones; it keeps its query, type, platform and creation time and, once the update is stored, records "success" with the response's metadata or "error" with the error's text |
| SessionHelpers.CompleteSessionWithSuccess | src/communication/session_helpers.rs:54-72 | the session is recorded as successful with the response's metadata, and its cost notification follows when the row was updated |
| Llm.LLMErrorText | src/llm/mod.rs:56-72 | each error's display text ends with the message it carries, for the variants that carry one |
| Llm.ParseErrorHidesDetail | src/llm/mod.rs:58-59 | a parse error displays the same fixed sentence whatever detail it holds |
| Llm.ToolDefinitions | src/llm/mod.rs:91-168 | exactly seven tool definitions, the i-th named by the i-th tool name |
| Llm.ToolOf | src/llm/mod.rs:303-341 | every query but the unsupported one comes from exactly one of the named tools |
| Llm.Strings | src/llm/mod.rs:329-334 | the keywords kept are exactly the string items of the array, never more than it holds |
| Llm.ToolCallNames | src/llm/mod.rs:299-344 | a call without a name is a parse error, an unknown tool is an unsupported query (not an error), and a known tool that succeeds yields that tool's query |
| Llm.FindPriceListInput | src/llm/mod.rs:327-336 | `find_price_list` succeeds exactly when "keywords" is an array; the brand defaults to "kei"; the keywords are its string items |
| Llm.StockToolNeedsQuery | src/llm/mod.rs:305-311 | `get_stock_info` succeeds exactly when "query" is a string, and asks for stock of that text |
| Llm.FirstToolUse | src/llm/mod.rs:270-276 | the position found is a tool_use block with none before it, and nothing is found exactly when no block is tool_use |
| Llm.OnlyFirstToolUseCounts | src/llm/mod.rs:271-293 | blocks after the first tool_use block never change the decision |
| Llm.FirstToolUseOfPrefix | src/llm/mod.rs:271-276 | appending blocks leaves the first tool_use position and block unchanged |
| Llm.ContinuationProvider | src/llm/mod.rs:219-226 | the conversation continues with Groq exactly when the session last used "groq"; Claude otherwise |
| LlmOrchestrator.SuccessNeedsAnswer | src/llm/llm_providers/claude.rs:75-186 | a request to either provider succeeds only if the provider answered, and an unreachable provider never succeeds |
| LlmOrchestrator.ChargedToSessionTrans | src/llm/llm_providers/claude.rs:170-183 | cost rows charged to the session by successive calls are charged to it overall |
| LlmOrchestrator.ClaudeRequest | src/llm/llm_providers/claude.rs:75-186 | the result is Claude's classified reply; exactly one cost event with the reply's token counts is appended when the call is charged and the insert accepted; no other table changes |
| LlmOrchestrator.GroqRequest | src/llm/llm_providers/groq.rs:87-211 | the result is Groq's classified reply; exactly one cost event with the prompt and completion tokens is appended when charged and accepted; no other table changes |
| LlmOrchestrator.Request | src/llm/llm_providers/claude.rs:75-186 | one request to the chosen provider: its outcome, only session cost rows appended, nothing else changed |
| LlmOrchestrator.ExecuteTool | src/llm/mod.rs:347-361 | a tool runs exactly when it is `list_available_pricelists` and price lists are configured, and then lists every entry of the brands its "brand" input selects |
| LlmOrchestrator.TryParse | src/llm/llm_providers/claude.rs:22-62 | at most two prompts, the first the query; a second exactly after a parse error, using the stricter prompt quoting the error; a single attempt never ends in a parse error; success means the provider answered the last prompt; the outcome is one `TryParseYields` allows: the first attempt's when it is not a retried parse error, otherwise the retry's |
| LlmOrchestrator.Attempt | src/llm/llm_providers/claude.rs:34-58 | one request and the reading of its response: a failed request is the outcome and is reported as failing in the request stage; an answered one comes to what its response comes to (`AttemptYields`) |
| LlmOrchestrator.TryParseFirstOutcome | src/llm/llm_providers/claude.rs:34-58 | a first request that fails with anything but a parse error, or a first response decided without a tool round to anything but a parse error, is the outcome of `try_parse` |
| LlmOrchestrator.TryParseDeterminedWithoutTools | src/llm/llm_providers/claude.rs:22-62 | with no price lists configured or no rounds left, `try_parse` has exactly one possible outcome |
| LlmOrchestrator.AttemptDeterminedWithoutTools | src/llm/mod.rs:260-297 | with no tool round possible, one request and its response have exactly one outcome |
| LlmOrchestrator.ParseResponseWithMultistep | src/llm/mod.rs:260-297 | a decided response returns that decision with no further request and no cost; after an information tool call the outcome is what `try_parse` yields, with one round fewer, on the continued query carrying the listing of the selected brands and the original query, sent to the provider the session last used |
| LlmOrchestrator.RunToolRound | src/llm/mod.rs:276-285 | the tool branch: the listing holds every entry of the selected brands, the continued prompt carries it and the original query, and the outcome is what `try_parse` yields on that prompt with one round fewer |
| LlmOrchestrator.ContinueWithToolResult | src/llm/mod.rs:199-227 | the follow-up goes to the provider the session last used, with the tool's result and the original query as its first prompt, and its outcome is one `try_parse` on that prompt yields |
| LlmOrchestrator.PrimaryProvider | src/llm/mod.rs:238-256 | Groq is primary exactly when the configured name is "groq"; any other name means Claude |
| LlmOrchestrator.Other | src/llm/mod.rs:240-255 | the fallback provider is never the one that failed |
| LlmOrchestrator.ContinuationStaysWithProvider | src/llm/mod.rs:237-253 | the session names the provider being tried, so a tool round continues with that same provider, before and after a fallback |
| LlmOrchestrator.ParseQuery | src/llm/mod.rs:229-258 | the primary provider first; with a known primary, a failure tries the other provider once and the session then names it; an unknown primary tries Claude alone; the outcome is what the last provider's `try_parse` yields, and the other provider is tried only after the primary's `try_parse` yielded a failure; only session cost rows are appended |
| LlmProviders.Field | src/llm/llm_providers/claude.rs:149-168 | a nested field is found only inside a present value |
| LlmProviders.Tokens | src/llm/llm_providers/claude.rs:149-168 | a token count is zero when absent or not a number, the integer itself when it fits, and always a 32-bit value |
| LlmProviders.ClaudeApiError | src/llm/llm_providers/claude.rs:117-145 | an error object is overloaded exactly for "overloaded_error", a parse error carrying the whole reply exactly for an invalid request about tools or schema, and otherwise a client error naming type and message |
| LlmProviders.ClaudeOutcomeSpec | src/llm/llm_providers/claude.rs:75-186 | a Claude request succeeds exactly when it is charged and then returns the reply unchanged; an unsent request is a client error; a parse error only comes from a tool complaint |
| LlmProviders.OverloadedExample | src/llm/llm_providers/claude.rs:128-129 | an overloaded reply is reported as overloaded even when its message mentions tools |
| LlmProviders.GroqTool | src/llm/llm_providers/groq.rs:72-80 | a Groq tool is a "function" with the Claude tool's name and its input schema as parameters |
| LlmProviders.GroqTools | src/llm/llm_providers/groq.rs:68-85 | one Groq tool per Claude tool |
| LlmProviders.GroqToolDefinitions | src/llm/llm_providers/groq.rs:68-85 | the loop builds exactly the converted tool list |
| LlmProviders.GroqToolsKeepNames | src/llm/llm_providers/groq.rs:68-85 | Groq is offered the same seven tools as Claude, in the same order and under the same names |
| LlmProviders.GroqCallCost | src/llm/llm_providers/groq.rs:142-178 | a Groq call is a "groq_api" charge per million tokens of the rate-weighted prompt and completion tokens, counting both, charged to the session's user |
| LlmProviders.GroqShape | src/llm/llm_providers/groq.rs:180-210 | the reply becomes one content block when it has a first tool call or a text message, and otherwise the fixed format error |
| LlmProviders.GroqOutcomeSpec | src/llm/llm_providers/groq.rs:87-211 | Groq's parse error arises exactly from a failed tool call; a request succeeds exactly when charged, the cost was logged and the reply has a usable message |
| LlmProviders.GroqReplyReadsLikeClaude | src/llm/llm_providers/groq.rs:188-203 | a reshaped Groq reply has a tool_use block exactly when Groq called a tool; a text-only reply is an unsupported query |
| LlmProviders.RetryRulesDiffer | src/llm/llm_providers/groq.rs:40-53 | the written and the corrected retry rules differ only on Groq's parse errors from the request stage |
| LlmProviders.GroqToolUseFailureNotRetriedAsWritten | src/llm/llm_providers/groq.rs:132-140 | a failed Groq tool call is a parse error that the loop as written returns at once, while the corrected rule retries it |
| LlmProviders.RetryPrompt | src/llm/llm_providers/claude.rs:32-36 | the second prompt contains the original query and the schema reminder, and is longer than the query |
| Numbers.AsI32 | src/llm/llm_providers/claude.rs:149-153 | the `as i32` cast: a 32-bit value congruent to the input modulo 2^32, the input itself when it fits |
| Numbers.AsI32WrapsAtTwoToThe31 | src/llm/llm_providers/claude.rs:149-153 | a count of 2^31 read as an i32 comes out as the least i32, and 2^32 + 5 as 5 |
| Numbers.AsI64 | src/llm/llm_providers/claude.rs:149-153 | `as_i64` yields a value exactly for a JSON number that is an integer within the i64 range, and then that integer |
| ClaudeLegacy.AllStrings | src/claude/mod.rs:22 | an array reads as strings exactly when every item is a string, and then item for item |
| ClaudeLegacy.DecodePriceList | src/claude/mod.rs:19-23 | a price-list payload decodes only to a price-list request, and a missing brand reads "kei" |
| ClaudeLegacy.DecodeLegacyQuery | src/claude/mod.rs:16-28 | a bare string decodes exactly when it names a unit variant, "MetalPricing" or "UnsupportedQuery"; a unit variant also decodes from an object with its name as the only key and null as the value |
| ClaudeLegacy.MissingBrandIsKei | src/claude/mod.rs:19-32 | a price-list request without a brand is for "kei" with the given keywords |
| ClaudeLegacy.ParseResponse | src/claude/mod.rs:255-270 | the response parses exactly when the first content block has a text that is JSON decoding to a query; any failure is a parse error |
| ClaudeLegacy.TextReplyIsParsed | src/claude/mod.rs:274-284 | the single-content-block shape the Groq fallback hands on is read back as its text |
| ClaudeLegacy.LegacyClaudeOutcome | src/claude/mod.rs:172-190 | an error reply is an overload error when its type says so and a client error otherwise |
| ClaudeLegacy.LegacyReadsToolComplaintAsClientError | src/claude/mod.rs:172-190 | this request reads every Claude reply as the current one does, except that a complaint about the tool input is a client error here |
| ClaudeLegacy.LegacyClaudeChargeAgrees | src/claude/mod.rs:193-252 | this Claude charge agrees with the current one on amount and units, records the input rate as unit cost and always the Telegram platform |
| ClaudeLegacy.LegacyGroqChargeAgrees | src/claude/mod.rs:333-377 | the fallback is charged like a current Groq call, with the input rate as unit cost, and is marked as a fallback |
| ClaudeLegacy.LegacyClaudeRequest | src/claude/mod.rs:127-253 | the reply's reading is returned, and an answered call is charged once, whether or not the charge was stored |
| ClaudeLegacy.TryClaude | src/claude/mod.rs:93-125 | at most two requests: the second, with the stricter prompt, exactly when the first response arrived and failed to parse; the result is the retry's outcome then and the first attempt's otherwise (`TryClaudeOutcome`), so a failed request is returned at once |
| ClaudeLegacy.FallbackOutcome | src/claude/mod.rs:286-388 | without a key the fallback fails with "GROQ_API_KEY not found"; it succeeds exactly when a key is set and the reply's first choice carries a text |
| ClaudeLegacy.UnderstandUsingGroq | src/claude/mod.rs:286-388 | nothing is sent without a key; the call is charged only when the reply carries a text, and that text is handed on as a single content block |
| ClaudeLegacy.LegacyParseQuery | src/claude/mod.rs:77-91 | Claude is tried first and Groq exactly when Claude failed; the result is Claude's outcome when it succeeded, else Groq's reply parsed (`LegacyOutcome`) |
| ClaudeLegacy.LegacyOutcomeCases | src/claude/mod.rs:77-125 | a parsable first Claude response is the answer; a Claude failure without a Groq key is reported as the missing key; a failure means Claude failed first |
| QueryTypes.ErrorText | src/query/mod.rs:18-43 | the display text of every error that carries a detail ends with that detail |
| QueryTypes.TextResponse | src/query/mod.rs:126-129 | a plain text reply carries the text, no file and no metadata |
| QueryFulfilment.TrimIdle | src/query/mod.rs:104 | trimming a text that already has visible ends changes nothing |
| QueryFulfilment.ImageTextInQuery | src/query/mod.rs:99-105 | an image from which nothing is read leaves the user's text as the query, unchanged; readable image text goes on the first line, with the trimmed user text after it |
| QueryFulfilment.Lift | src/query/mod.rs:1 | a query of the legacy model is read as the current query of the same name, never as a stock or price-list listing request |
| QueryFulfilment.LiftInjective | src/query/mod.rs:1 | no two legacy queries are read as the same query |
| QueryFulfilment.Padded | src/query/mod.rs:257 | the number in decimal, zero-padded on the left to the width, all digits |
| QueryFulfilment.DateStamp | src/query/mod.rs:256-257 | the `%Y%m%d` stamp of a date is eight digits |
| QueryFulfilment.NatDigitsBound | src/query/mod.rs:257 | a number below 10^w has at most w digits |
| QueryFulfilment.Power10 | src/query/mod.rs:257 | powers of ten are positive |
| QueryFulfilment.OrdinalSuffixIsEnglish | src/query/mod.rs:268-273 | for every day of a month the suffix table agrees with the English rule: 11th, 12th, 13th, otherwise by the last digit |
| QueryFulfilment.MonthName | src/query/mod.rs:265 | the month's full English name |
| QueryFulfilment.DocumentNumberParts | src/query/mod.rs:255-261 | a document number splits back at '-' into the prefix, the eight-digit date stamp and the four-digit random number |
| QueryFulfilment.PriceLines | src/query/mod.rs:246-250 | one line per item, in order |
| QueryFulfilment.FormatPriceOnlyResponse | src/query/mod.rs:243-253 | the loop builds the item lines and joins them with newlines |
| QueryFulfilment.OneLinePerItem | src/query/mod.rs:243-253 | with descriptions and prices free of newlines, the answer has exactly one line per item, in order |
| QueryFulfilment.DocumentFile | src/query/mod.rs:164-188 | the document is attached from under "artifacts/" as a ".pdf" file |
| QueryFulfilment.Enclosed | src/query/mod.rs:164 | a text put between a prefix and a suffix starts with the one and ends with the other |
| QueryFulfilment.HelpText | src/query/mod.rs:80-83 | the help file's contents when it could be read, and the fixed rephrase sentence otherwise |
| QueryFulfilment.RespondFailsOnlyFor | src/query/mod.rs:119-225 | only a failed metal-price fetch and an unpriceable quotation or proforma invoice are errors; a missing price list, a price-only request with nothing priced and a failed stock check are answered in text |
| QueryFulfilment.RespondFiles | src/query/mod.rs:119-225 | a file is attached only to a found price list, as its configured path, and to a created quotation or proforma invoice, under "artifacts/" |
| QueryFulfilment.DispatchQuery | src/query/mod.rs:119-225 | the reply is the handler table's for the query, given what the price and stock services return; only a metal-price query touches the price cache and only a stock query the stock table |
| QueryFulfilment.CreateDocument | src/query/mod.rs:145-191 | a quotation or proforma is the priced document under its generated name, or the quotation error when some item has no price |
| QueryFulfilment.FulfilQuery | src/query/mod.rs:112-241 | the query is parsed as the older `parse_query` does; a parse failure is a language-model error carrying its text; a parsed query is answered by the handler table |
| QueryFulfilment.FulfilImageQuery | src/query/mod.rs:85-110 | an OCR failure is an OCR error carrying its text; otherwise the combined query is parsed and answered exactly as `fulfil_query` answers it: a parse failure as a language-model error, a parsed query by the handler table |
| ErrorHandler.UserMessage | src/communication/error_handler.rs:4-17 | metal-price, quotation, language-model, OCR and transcription errors each get their own message, and every other error shares the "could not service request" one |
| ErrorHandler.MessageIgnoresDetail | src/communication/error_handler.rs:4-17 | the user's message depends on the kind of error only, never on its detail |
| ErrorHandler.CreateErrorResponse | src/communication/error_handler.rs:19-25 | the error response carries the user's message alone, with no file and no metadata |
| WhatsappHelpers.ToQueryError | src/communication/whatsapp/whatsapp_helpers.rs:46-51 | an image failure becomes an OCR error and anything else a language-model error, each carrying the WhatsApp error's text |
| WhatsappHelpers.ConvertedErrorMessages | src/communication/whatsapp/whatsapp_helpers.rs:46-51 | after conversion, an image failure tells the user the image could not be read and any other failure that the query was not understood |
| WhatsappHelpers.MapSegments | src/communication/whatsapp/whatsapp_helpers.rs:30 | every path segment is encoded, one for one, in order |
| WhatsappHelpers.MediaUrlKeepsSegments | src/communication/whatsapp/whatsapp_helpers.rs:28-32 | as long as the encoder never yields '/', the encoded path has exactly the file path's segments, each encoded |
| WhatsappHelpers.IdentityEncodingKeepsPath | src/communication/whatsapp/whatsapp_helpers.rs:28-32 | with the identity encoding the media URL is the base URL, '/', and the path itself |
| WhatsappHelpers.JoinSplit | src/communication/whatsapp/whatsapp_helpers.rs:29-31 | joining the '/'-separated segments of a path gives the path back |
| WhatsappHelpers.ProcessQueryResponse | src/communication/whatsapp/whatsapp_helpers.rs:18-44 | on success the session is completed first (the cost notification following when its row was updated), then the file goes out as media or else the text; on failure the alert and the failed completion come first and the user gets the error's message; the completed row is the one `RecordResult` gives; the reply is charged once Twilio answers, and a failure status is reported to the admin |
| WhatsappHelpers.DeliveryAlerts | src/communication/whatsapp/message_sender.rs:37-94 | an admin alert exactly when Twilio answered with a failure status, naming the media URL or the status and the recipient |
| WhatsappHelpers.ReplyCharge | src/communication/whatsapp/message_sender.rs:49-99 | an outgoing message is charged once Twilio answered and the insert was accepted, as a "whatsapp_outgoing" event of the session |
| WhatsappHelpers.OneReplyAfterCompletion | src/communication/whatsapp/whatsapp_helpers.rs:24-43 | exactly one message goes to the user, right after the session's completion effects |
| Ocr.OcrErrorText | src/ocr/mod.rs:5-9 | the error text is the fixed prefix followed by the message unchanged |
| Ocr.Readable | src/ocr/mod.rs:47-51 | blank text reads as the fixed sentence and other text is trimmed; either way the result is non-empty with visible ends |
| Ocr.TrimmedEnds | src/ocr/mod.rs:50 | a non-empty trimmed text starts and ends with a visible character |
| Ocr.ExtractTextFromImage | src/ocr/mod.rs:22-52 | the loop over the blocks builds exactly the specified line text, and the result is that text made readable, or the request's error |
| Ocr.LineTextAppend | src/ocr/mod.rs:36-45 | the text of two runs of blocks is the two texts one after the other |
| Ocr.NothingReadableIff | src/ocr/mod.rs:36-48 | the fixed sentence is returned exactly when every LINE block's text is blank or there is none; other blocks never count |
| Ocr.OnlyOtherBlocksReadAsNothing | src/ocr/mod.rs:36-48 | a reply with no blocks, or only blocks that are not LINE blocks with text, reads as the fixed sentence |
| Ocr.SingleLineIsTrimmed | src/ocr/mod.rs:38-50 | one LINE block with visible text comes back trimmed, without the newline the loop adds |
| Transcription.TranscriptionErrorText | src/transcription/mod.rs:7-11 | the error text is the fixed prefix followed by the message unchanged |
| Transcription.EstimatedDuration | src/transcription/mod.rs:67-68 | one second per 16000 bytes, rounded down, and never under ten seconds |
| Transcription.WhisperCharge | src/transcription/mod.rs:66-82 | a transcription is charged 0.004 per hour of estimated audio, at least ten seconds' worth, as a Whisper cost of the session |
| Transcription.TranscribeAudio | src/transcription/mod.rs:28-90 | the result is the specified outcome, and the cost is logged exactly once a transcription came back and the insert was accepted, whether or not it is blank |
| Transcription.TranscriptionOutcome | src/transcription/mod.rs:59-89 | a charged transcription gives its trimmed text, or the fixed sentence exactly when it is blank; a reply without a text field is an error; a success is never empty |
| Stock.StockRequestJson | src/stock/mod.rs:9-13 | the serialised request carries the id and the query as string fields |
| Stock.OptionalString | src/stock/mod.rs:19 | an optional string field reads as absent when missing or null, and as a string when it is one |
| Stock.DecodeStockResponse | src/stock/mod.rs:15-20 | a decoded reply has exactly the id, stock information and optional error of the JSON object |
| Stock.DecodeEncodedResponse | src/stock/mod.rs:15-20 | decoding the Tally client's encoding of a reply gives the reply back |
| Stock.ReplyText | src/stock/mod.rs:87 | the waiting request receives the client's error when there is one, the stock information otherwise |
| Stock.DeliverKeepsOthers | src/stock/mod.rs:84-93 | handling a reply keeps the table consistent and never touches a request it does not name |
| Stock.FirstReplyAnswers | src/stock/mod.rs:84-93 | a waiting request is answered by the first reply that names it; other replies and later ones for the same id leave the answer alone; with no reply naming it, it keeps waiting |
| Stock.AnsweredStaysAnswered | src/stock/mod.rs:84-93 | once answered, a request keeps the answer it was given |
| Stock.ParsedReply | src/stock/mod.rs:84 | a websocket text yields a reply only when it parses as JSON and decodes |
| Stock.ParsedReplies | src/stock/mod.rs:79-94 | each arriving text is read on its own, in arrival order |
| Stock.StockOutcomeIsFirstReply | src/stock/mod.rs:37-94 | once the request is sent, the caller gets the first reply naming its id, its error or else its stock, and the timeout when no reply names it |
| Stock.StockService.constructor | src/stock/mod.rs:29-34 | a new service has no Tally client and nothing pending |
| Stock.StockService.SendStockRequest | src/stock/mod.rs:38-67 | the request is recorded as pending before the sender is checked, so it stays pending when the send fails; it is sent only to an open client; with no client the result is "Tally client not connected" |
| Stock.StockService.HandleTallyResponse | src/stock/mod.rs:79-94 | the text is parsed and decoded, and a reply for a pending id answers that request and nothing else |
| Stock.StockService.RequestStock | src/stock/mod.rs:37-94 | the outcome is the first reply naming the request, the send error, or the timeout; the table ends as the arrivals leave it |
| Stock.StockService.AwaitStockReply | src/stock/mod.rs:71-75 | the answer handed over when there is one, and "Request timeout" otherwise |
| Telegram.StatusMessage | src/communication/telegram.rs:98-107 | a known user who is not active is told "pending" exactly for a pending account, "suspended" exactly for a suspended one, and "access denied" for every other status |
| Telegram.GateAdmitsOnlyActiveUsers | src/communication/telegram.rs:96-136 | only an active user stored under the sender's Telegram id gets past the gate; an unknown sender is registered exactly when the lookup finds no row; an unreachable server turns the sender away with the system error |
| Telegram.NewcomerWaitsForApproval | src/communication/telegram.rs:111-124 | after a first message registers a pending row, the next message is told to wait for approval |
| Telegram.ApprovalActivatesRows | src/database/services/user.rs:90-108 | approving a Telegram id turns exactly the pending rows under that id active and leaves its other rows as they were |
| Telegram.ApprovedUserIsAdmitted | src/communication/telegram.rs:221-243 | once the admin's approval is accepted, the waiting user gets past the gate as the same row, now active |
| Telegram.GateUser | src/communication/telegram.rs:96-136 | the gate's decision and messages for the stored rows; the user rows grow by the pending newcomer exactly when the sender is unknown and the insert is accepted; no other table changes |
| Telegram.ParseCommand | src/communication/telegram.rs:207-341 | a text that is no command is a query, and the query keeps the whole text |
| Telegram.PlainTextIsQuery | src/communication/telegram.rs:207-341 | every command starts with "/", so an empty text or one not starting with "/" is always a query |
| Telegram.ApproveTelegramArgument | src/communication/telegram.rs:221-223 | "/approve_telegram " followed by anything approves the trimmed rest |
| Telegram.ApproveWhatsappArgument | src/communication/telegram.rs:252-254 | "/approve_whatsapp " followed by anything approves the trimmed rest as a phone number |
| Telegram.LlmArgument | src/communication/telegram.rs:314-316 | "/llm " followed by anything names the trimmed rest as the model |
| Telegram.PendingListing | src/communication/telegram.rs:286-291 | the pending list after its header has one newline-ended line per pending user with a Telegram id, in order, and nothing else |
| Telegram.PendingLinesAppend | src/communication/telegram.rs:287-291 | each further pending user appends exactly its own line |
| Telegram.PendingReply | src/communication/telegram.rs:277-304 | the loop builds the `/pending` reply: the error text, "No pending approvals" for none, or the header and one line per listed user |
| Telegram.AdminCommandsNeedAdmin | src/communication/telegram.rs:209-339 | an admin command from anyone else gets "Admin access required" and changes no user row; only an admin's approval changes rows; `/help` answers with the help text |
| Telegram.WhatsappApprovalStoresActiveUser | src/database/services/user.rs:111-128 | an accepted WhatsApp approval appends one active row under "whatsapp:" and the number, keeping every earlier row |
| Telegram.RunCommand | src/communication/telegram.rs:209-339 | a command's reply and new user rows are those its admin check and the server's reply give; the primary model changes exactly for an admin's `/llm` naming "claude" or "groq"; no other table changes |
| Telegram.DeliveryCleansUp | src/communication/telegram.rs:383-394 | the text is sent first; a file is sent exactly when the response has one, and removed after it was sent exactly when its path does not mention "assets" |
| Telegram.RepliedAt | src/communication/telegram.rs:87-469 | an effect list holding a message to the chat counts as replied |
| Telegram.LargestPhoto | src/communication/telegram.rs:479-482 | the index of a photo of greatest area, the last of equally large ones, and none exactly for no photos |
| Telegram.LargestPhotoIsUnique | src/communication/telegram.rs:480 | the photo as large as any and larger than every later one is the one chosen |
| Telegram.MediaOutcome | src/communication/telegram.rs:471-527 | a photo or voice query succeeds exactly when the file was named and downloaded and fulfilment succeeded, with fulfilment's response; otherwise the user is told the image or audio could not be processed |
| Telegram.CompleteQuery | src/communication/telegram.rs:163-202 | the session is completed with the outcome and its elapsed time: the session rows become `CompletedSessions` of the outcome, and no row is added or removed |
| Telegram.HandleMedia | src/communication/telegram.rs:138-204 | a notice first; a failed session gives the alert and "System error" and opens nothing; otherwise the session is opened ("image" or "audio") and completed with the medium's outcome (`QuerySessions`), and the chat ends with the response or the medium's error message |
| Telegram.HandleAsk | src/communication/telegram.rs:341-380 | no response exactly when the session could not be opened (then the alert and "System error"); otherwise a "text" session is opened and completed with the answer (`QuerySessions`), and the response is fulfilment's or its error message |
| Telegram.QuerySessionsRow | src/communication/telegram.rs:138-204 | a query under a fresh id adds exactly one Telegram row for the user with the query's text and type, "processing" until its completion is stored and then "success" or "error"; a session that could not be created adds none |
| Telegram.HandleMessage | src/communication/telegram.rs:87-469 | a sender who is not admitted gets only the gate's effects; sessions are opened only for queries, and an admitted user's query leaves the rows `QuerySessions` gives for its text, type and outcome; user rows change only for a newcomer or an admin's approval; the primary model changes only for an admin's `/llm`; every message gets a reply |
| WhatsappWebhook.SenderPhoneRoundTrip | src/communication/whatsapp/mod.rs:147-150 | a Twilio sender "whatsapp:" plus a number yields that number, which the lookup prefixes back to the original sender; a sender without the prefix is used as it is |
| WhatsappWebhook.StoredPhoneDefaults | src/communication/whatsapp/mod.rs:274-279 | a served user's session carries the stored number without its prefix, and the empty string when there is none or it is not prefixed |
| WhatsappWebhook.WebhookContext | src/communication/whatsapp/mod.rs:152-193 | every request's session is a WhatsApp session under a fresh id, belonging to the served user and to the nil user otherwise |
| WhatsappWebhook.JobsOnlyForServedRequests | src/communication/whatsapp/mod.rs:156-190 | only an active user's request starts background work; a failed lookup is answered "System error" and an unknown sender "Access denied", neither with a job |
| WhatsappWebhook.JobsAreAcknowledged | src/communication/whatsapp/mod.rs:199-265 | a request that starts a job is answered "Processing" and is not a help request; an image job needs an image content type and carries the body as caption; a text job has no media and carries the body as the query |
| WhatsappWebhook.HelpThenMediaCheck | src/communication/whatsapp/mod.rs:199-214 | "help" or "/help" is answered with the help text before media is looked at; any media that is not an image is refused without a job |
| WhatsappWebhook.RefusedRequestsRecorded | src/communication/whatsapp/mod.rs:157-189 | a refused sender's session is one "unauthorized" or "unknown_user" row under the nil user carrying the sender's number; a failed lookup opens no session |
| WhatsappWebhook.SendTextResponse | src/communication/whatsapp/message_sender.rs:103-128 | the outgoing message is charged when its insert is accepted and returned unchanged as the reply body; nothing else changes |
| WhatsappWebhook.WebhookHandler | src/communication/whatsapp/mod.rs:141-266 | the reply and job are those the gate's verdict gives; sessions grow by the request's session row; the incoming message is charged unless the lookup failed, and the reply always; only a served user's failed session raises an alert; users are never changed |

Some source functions only compute a value and are modelled by a Dafny function without a contract of its own.
Each such function is listed below with the rows above that state what it promises:
- `Llm.HandleToolCall` (src/llm/mod.rs:299-344): Llm.ToolCallNames, Llm.FindPriceListInput, Llm.StockToolNeedsQuery.
- `FileServe.IsSafeFilename` (src/communication/whatsapp/file_serve.rs:13-23): FileServe.SafeFilenameIff and the example rows after it.
- `FileServe.ServeFile`, `FileServe.ServeAssetsFile` (src/communication/whatsapp/file_serve.rs:25-78): FileServe.ServeFromSpec, FileServe.HandlersReadOnlyInTheirDirectory.
- `QueryFulfilment.Respond` (src/query/mod.rs:119-225): QueryFulfilment.RespondFailsOnlyFor, QueryFulfilment.RespondFiles, QueryFulfilment.DispatchQuery.
- `QueryFulfilment.CombinedQuery` (src/query/mod.rs:99-105): QueryFulfilment.ImageTextInQuery, QueryFulfilment.FulfilImageQuery.
- `QueryFulfilment.OrdinalSuffix` (src/query/mod.rs:268-273): QueryFulfilment.OrdinalSuffixIsEnglish.
- `QueryFulfilment.DocumentNumber` (src/query/mod.rs:255-261): QueryFulfilment.DocumentNumberParts, QueryFulfilment.DocumentFile.
- `Prices.ShouldSendAlert` (src/prices/mod.rs:65-73): Prices.AlertWindows, Prices.AfterTickSpec.
- `Prices.FetchOutcome` (src/prices/mod.rs:139-195): Prices.FetchOutcomeSpec, Prices.PriceService.FetchPrice.
- `PriceList.FindPricelist` (src/prices/price_list.rs:56-69): PriceList.FindPricelistSpec, PriceList.NoKeywordsFindNothing, PriceList.FindConfiguredList.
- `ItemPrices.GetPrice` (src/prices/item_prices.rs:479-485): ItemPrices.GetPriceFromList, ItemPrices.GetPriceNormalizedQuery, ItemPrices.EmptyListPricesNothing.
- `ItemPrices.Description`, `ItemPrices.BriefDescription` and the per-variant description functions (src/prices/item_prices.rs:15-298): the ItemPrices rows from ItemPrices.LtBodyComposed to ItemPrices.HtAlwaysArmoured.
- `CostService.TruncatedQuery` (src/database/services/cost.rs:216-220): CostService.TruncatedQuerySpec, CostService.TruncationAgreesWhenNoPanic.
- `CostService.Breakdown` (src/database/services/cost.rs:244-280): CostService.BreakdownShowsPositiveBuckets.
- `CostService.ClaudeRatesFrom` (src/database/services/cost.rs:30-51): CostService.RatesFallBackToDefaults, CostService.GetClaudeRates.
- `LlmProviders.ClaudeOutcome` (src/llm/llm_providers/claude.rs:75-186): LlmProviders.ClaudeOutcomeSpec.
- `LlmProviders.GroqOutcome` (src/llm/llm_providers/groq.rs:87-211): LlmProviders.GroqOutcomeSpec.
- `ClaudeLegacy.TryClaudeOutcome` (src/claude/mod.rs:93-125): ClaudeLegacy.TryClaude, ClaudeLegacy.LegacyOutcomeCases.
- `Ocr.OcrResult` (src/ocr/mod.rs:22-52): Ocr.ExtractTextFromImage, Ocr.OnlyOtherBlocksReadAsNothing, Ocr.SingleLineIsTrimmed.
- `Transcription.TranscriptionResult` (src/transcription/mod.rs:59-89): Transcription.TranscriptionOutcome, Transcription.TranscribeAudio.
- `Telegram.UserGate` (src/communication/telegram.rs:96-136): Telegram.GateAdmitsOnlyActiveUsers, Telegram.NewcomerWaitsForApproval, Telegram.ApprovedUserIsAdmitted.
- `Telegram.CommandReply` (src/communication/telegram.rs:209-339): Telegram.AdminCommandsNeedAdmin, Telegram.RunCommand.
- `Telegram.Delivery` (src/communication/telegram.rs:383-394): Telegram.DeliveryCleansUp.
- `Stock.Deliver`, `Stock.DeliverAll` (src/stock/mod.rs:84-93): Stock.DeliverKeepsOthers, Stock.FirstReplyAnswers, Stock.AnsweredStaysAnswered.
- `WebhookValidation.DataString` (src/communication/whatsapp/webhook_validation.rs:42-56): WebhookValidation.BuildTwilioDataString, WebhookValidation.DataStringStartsWithUrl, WebhookValidation.DataStringLength.
- `WhatsappWebhook.WebhookGate` (src/communication/whatsapp/mod.rs:156-190): WhatsappWebhook.JobsOnlyForServedRequests, WhatsappWebhook.WebhookHandler.
- `WhatsappWebhook.ServedAnswer` (src/communication/whatsapp/mod.rs:199-265): WhatsappWebhook.JobsAreAcknowledged, WhatsappWebhook.HelpThenMediaCheck.

## Left out

Where the repository's files disagree with each other, the model picks one reading:
- `src/query/mod.rs` imports the older `claude::Query`, yet matches a stock query that only `src/llm/mod.rs` declares. `QueryFulfilment.FulfilQuery` dispatches over `Llm.Query`. The older client's result is read through `QueryFulfilment.Lift`.
- `src/query/mod.rs:146` calls `generate_quotation` with one argument, while `src/quotation/mod.rs:50` takes three. The model passes the request, the quotation number and the date.
- `get_prices_only` and `DocumentType::get_ref_prefix` are not defined in any file here. Whether a query asks for prices only, and the document's reference prefix, are inputs.
- `src/query/mod.rs` builds `Response` without its `query_metadata` field. The model leaves the metadata empty there.
- `OcrService::new(database)` and the three-argument `extract_text_from_image` called from `src/query/mod.rs` differ from `src/ocr/mod.rs`. The model follows `src/ocr/mod.rs`, so OCR writes no cost event.
- `src/communication/telegram.rs` calls `fulfil_query` with a mutable context, `fulfil_audio_query` and `set_primary_model`. None of them is defined in `src/query/mod.rs`. Fulfilment's outcome is therefore an input of the Telegram front end, and the model chosen by `/llm` is returned as `primary`.
- `create_whatsapp_session_context` is not defined in `src/communication/session_helpers.rs`. It is modelled like the nil-user context: the user's id, platform "whatsapp" and the stored phone number.
- `QueryError::TranscriptionError` is used by `src/communication/error_handler.rs` but is missing from `src/query/mod.rs`. The model's `QueryError` has it.
- `admin_telegram_id` is read in `src/database/services/user.rs` but not declared in `src/database/services/mod.rs`. It is a constant field of `Database.DatabaseService`.
- `ParseError` is a unit variant in `src/llm/mod.rs` and `groq.rs`, but carries a string in `claude.rs`. The model gives it a string, and the unit uses pass "".

What the model does not cover:
- Formatting of money with `{:.2}`/`{:.3}` is a `money` parameter. `normalize_decimal` is a `norm` parameter. Neither is interpreted.
- Text.Lower and Text.Upper change only the ASCII letters A-Z and a-z. The source's Unicode `to_lowercase`/`to_uppercase` also folds other letters, so a brand, tag or metal name such as "KÉI" folds differently in the model (src/prices/item_prices.rs:473 and 480, src/prices/price_list.rs:46 and 58, src/quotation/mod.rs:92, src/prices/mod.rs:150, src/database/services/cost.rs:274).
- Clocks are inputs: `Local::now()`, which `generate_document_details` reads twice, is one date, and the wall clock of the alert loop and the elapsed times are numbers.
- The cost notification is modelled as a structured `CostNotification` value, not as the formatted text.
- Prices.PriceService.FetchPrice: the cache never expires and holds any number of metals; the `ExpirableCache` five-minute expiry and capacity of two are not modelled.
- Prices.PriceService.Run: the endless loop is run over a finite sequence of minutes, each with its clock reading, client, page contents and channel as inputs. The 60-second and two-second sleeps are not modelled. Scraping the metal-price page is the `fetch` input.
- PDF rendering (`create_quotation_pdf`) is not modelled, including its `unwrap` panic. The document's file name is returned as the file.
- Stock.StockService.RequestStock: the request's cancellation ("Request cancelled") is not modelled. Fresh request ids are a precondition.
- Stock.StockService.AwaitStockReply: the ten-second timeout is modelled as "no reply among the arrivals". A timed-out entry stays in the pending table, as it does in the source.
- Serde decoding of quotation, price-only and stock payloads is a `Decoders` input. JSON objects are lists of fields, and a duplicated key resolves to its first occurrence, where serde_json keeps the last one; the replies modelled have no duplicated keys.
- Telegram.HandleMessage: send failures of the bot API (the `?` after each send) are not modelled; every send succeeds. Failures to delete a file are only logged in the source and are not modelled.
- WhatsappWebhook.WebhookHandler: the TwiML envelope and HTTP response are not modelled, only the reply text. Background work is returned as a `Job` value, not run; `WhatsappHelpers.ProcessQueryResponse` models what a job does with its result.
- Telegram.MediaOutcome: the underlying query error of an image or voice query is replaced by the medium's error, as in the source. The detail it carries is not modelled.
- The `error_sender` channel is modelled as `Alerted` effects; delivery to the admin is not modelled.
- Telegram.Area: the `u32` product wraps modulo 2^32, as in a release build. A debug build would panic instead.
- `as i32` casts of token counts and elapsed milliseconds wrap modulo 2^32 (`Numbers.AsI32`). Arithmetic on the resulting `i32` sums (such as `prompt_tokens + completion_tokens`) is unbounded in the model, where a debug build would panic on overflow.
- WebhookValidation.ValidateTwilioSignature: HMAC-SHA1 and base64 are inputs; creating the HMAC never fails.
- ClaudeLegacy.DecodeLegacyQuery: serde also reads a struct variant's fields from a JSON array in declaration order (`{"GetPriceList": ["kei", ["cable"]]}`); the model reads only the object form.
- LlmOrchestrator.ParseResponseWithMultistep: the order in which `list_available_pricelists` walks its `HashMap` is not modelled. After a tool round the outcome is therefore stated as one that some order of the listed rows gives (`TryParseYields`), not as a single value; without price lists or rounds left it is a single value (`TryParseDeterminedWithoutTools`).
- LlmOrchestrator.TryParse: the recursion through information-tool rounds is bounded by `rounds`. With no rounds left, an information tool call falls through to `handle_tool_call`.
- The LLM API is a deterministic function of provider and prompt. Every cost insert of one request is answered by the same `costReply`.
- Concurrency (Tokio tasks, the `Mutex` around the runtime configuration and the pending table) is not modelled; each operation runs alone.
- Networking, Telegram and Twilio clients, websockets, logging and metrics are not modelled.

## Findings

| source | as written | input that shows it | evidently intended | confidence | as-written member | corrected member |
|---|---|---|---|---|---|---|
| src/database/services/cost.rs:210-217 | the notification truncates a query longer than 100 bytes with `&query_text[..97]`, a byte slice | 96 ASCII characters, then "é" (two bytes), then three more characters: byte 97 falls inside "é" and the slice panics | cut at the last character boundary at or before byte 97, then add "..." | not executed | CostService.TruncatedQueryAsWritten | CostService.TruncatedQuery |
| src/llm/llm_providers/groq.rs:132-140 | a Groq reply with error code "tool_use_failed" is returned as `ParseError` "for retry", but `try_parse` (groq.rs:51) returns every request-stage error at once | a reply `{"error": {"code": "tool_use_failed"}}` to the first attempt: the query fails with no second attempt | the failed tool call is retried once with the stricter prompt, as Claude's loop does | not executed | LlmProviders.RetriesAsWritten | LlmProviders.Retries |
