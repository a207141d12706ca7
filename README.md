# Exchange-rate crawler: extraction, Woori retry and product derivation

This project models the deterministic core of `needto.js`, a crawler that reads cash
exchange rates from four Korean banks (KB, Hana, Woori, Shinhan) and from the KB Star FX
mid-rate feed, reduces every source to one record shape, and derives nine synthetic
"product" rate lists from those records (TOSS, TRB, TRW, KAKAO, WOORI_POCKET, SOL_TRAVEL,
AIR_HANA, AIR_WOORI, AIR_KB) before stamping one shared `kst_time` on all of them.

Modules, in dependency order:

- `Options` (`options.dfy`): the `Option` datatype.
- `JsText` (`js_text.dfy`): the JavaScript string built-ins the crawler relies on:
  `trim`, `includes`, `replace(/,/g, '')`, `String(n)`, `padStart` and `join`.
- `JsNumber` (`js_number.dfy`): numbers as NaN or an exact real.
  - It covers `parseFloat`, `toFixed(2)`, truthiness, `x > 0` and `|| 0`.
  - `Round2` is rounding to hundredths, halves away from zero.
  - `Round2MatchesToFixed` proves that `parseFloat(x.toFixed(2))` equals `Round2(x)`.
    The proof goes through both string conversions.
- `Rates` (`rates.dfy`): the record and quote shapes and the two currency lists.
  - It also holds `FilterMap`, the `.each` loop with a conditional `push`, and `Find`,
    which is `Array.prototype.find`.
- `BankPages` (`bank_pages.dfy`): the row rules and crawl loops of `crawlKB`,
  `crawlHana`, `crawlShinhan` and `crawlKBStarFX`.
  - A page is its rows of cell texts, already extracted.
  - `None` stands for a page whose fetch or parse threw.
- `Woori` (`woori.dfy`): the Woori source.
  - It covers the calendar step `setDate(getDate() - 1)`, `makeWooriDate` and the
    `Cookie` header built from `set-cookie`.
  - It covers the session with its first-match `__ID` cascade, the form post and the
    reply reading of `fetchWooriRates`.
  - It ends with the seven-day retry loop of `crawlWoori`.
- `Derivation` (`derivation.dfy`): the margin tables and every derived product.
  - It holds the fixed concatenation order (`Assemble`) and the stamping (`Publish`).
  - `RunAll` is the imperative `runAll`. It grows `finalData` block by block under the
    source's own guards and is proved equal to `Publish(Assemble(...), kst)`.

Behaviour a reader might not expect, which the model keeps as the code has it:

- The TOSS VND record and the TRB and TRW lists are read from the Hana list
  (needto.js:284, 301-313), not from the session-bound Woori source.
- The TOSS VND record is not a copy of the Hana record with a new bank code. It is a
  fresh record: buy = sell = the Hana base rate, spread 0, and the Hana unit
  (needto.js:286-294).
- Only Woori and Shinhan demand `base_rate > 0`. KB and Hana keep any truthy base rate,
  which includes a negative one (needto.js:43, 71).
- The Hana unit is whatever number the name carries in parentheses, so it need not be
  1 or 100. A written "(0)" gives unit 0, because the captured string "0" is truthy
  (needto.js:67).
- KB Star FX quotes are not filtered on their base rate at all (needto.js:234-243).

## Model

| member | source | states |
|---|---|---|
| JsText.Trim | needto.js:36-37 | `trim()`: the result is the input with its leading white-space run removed and only white space after it; it neither starts nor ends with white space |
| JsText.StripCommas | needto.js:40 | `replace(/,/g, '')`: no comma is left, nothing grows, and a comma-free text is unchanged |
| JsText.StripCommasConcat | needto.js:40 | stripping commas from a concatenation strips each part, so every other character is kept in its order |
| JsText.StripCommasCount | needto.js:40 | the result is shorter than the input by exactly its number of commas; with `StripCommasConcat` no comma is replaced by anything and every other character stays |
| JsText.IntToStringInjective | needto.js:87 | `String(yyyy)`: distinct integers print as distinct texts |
| JsText.PadStart | needto.js:85-86 | `padStart(2, '0')`: a short string is left-filled with the pad character up to the width and ends with the original; a long one is unchanged |
| JsNumber.OrZero | needto.js:195 | `x \|\| 0`: a truthy number is kept; 0 and NaN become 0 |
| JsNumber.ParseOrZero | needto.js:69 | `parseFloat(s \|\| 0)`: the empty text reads as 0, any other text as `parseFloat` reads it |
| JsNumber.ParseFloat | needto.js:40 | `parseFloat`: leading white space skipped, an optional sign, then the longest decimal literal; NaN without one. `ParseDigits` and `Round2MatchesToFixed` state what it reads |
| JsNumber.ParseDigits | needto.js:40 | a plain digit string reads as the number it denotes |
| JsNumber.ToFixed2 | needto.js:43 | `toFixed(2)`: NaN prints as "NaN", a negative number as "-" and its magnitude; `Round2MatchesToFixed` states what the printed text reads back as |
| JsNumber.FixedThenParse | needto.js:43 | `parseFloat(x.toFixed(2))`, the rounding the crawler writes everywhere; `Round2MatchesToFixed` proves it equal to `Round2` |
| JsNumber.Round2 | needto.js:43 | the result is NaN exactly when the input is; `RoundHalfAwayNearest` and `RoundHalfAwayMonotone` state the rounding itself |
| JsNumber.RoundHalfAwayNearest | needto.js:43 | the rounded value is a whole number of hundredths within half a hundredth of the input |
| JsNumber.RoundHalfAwayMonotone | needto.js:43 | rounding to hundredths never reverses the order of two numbers |
| JsNumber.Round2MatchesToFixed | needto.js:43 | `parseFloat(x.toFixed(2))`, taken through both string conversions, is rounding to hundredths with halves away from zero, and NaN stays NaN |
| Rates.FilterMap | needto.js:33-46 | collecting the accepted rows never yields more records than rows |
| Rates.FilterMapSound | needto.js:33-46 | every collected record is the rule's result for some input row |
| Rates.FilterMapComplete | needto.js:33-46 | every row the rule accepts contributes its record |
| Rates.Find | needto.js:284 | `find`: a result is the first element satisfying the test; no result means no element satisfies it |
| BankPages.ParseAmount | needto.js:40 | `parseFloat(text.replace(/,/g, ''))`, the reading of every KB, Woori and feed amount; `GroupedAmount` states what it reads |
| BankPages.GroupedAmount | needto.js:40 | digits with a thousands separator read as the number without it, and Hana's `getVal` (needto.js:69) reads them the same |
| BankPages.UnitFromName | needto.js:39 | the unit is 1 or 100, and it is 100 exactly when the name contains "100" |
| BankPages.KBRow | needto.js:34-43 | a KB row yields a record exactly when it has more than 5 cells, a target currency and a truthy base rate; the record takes code, unit, base, buy and sell from cells 0, 1, 2, 5 and 6 (a missing cell 6 reads as 0), and its spread is the rounded buy minus base |
| BankPages.KBRecordsNormalized | needto.js:33-46 | every KB record has a target currency, a truthy base rate, the rounded spread and a unit of 1 or 100 |
| BankPages.CrawlKB | needto.js:25-49 | the loop returns the records of the accepted rows in table order, and nothing for a page that failed |
| BankPages.MatchHanaName | needto.js:64 | a match of the Hana name pattern yields a three-letter upper-case code; `MatchHanaNameLazy` states exactly which names match and with what |
| BankPages.HanaNamePerUnit | needto.js:64-67 | "미국 USD" matches with code USD and no unit |
| BankPages.HanaNamePerHundred | needto.js:64-67 | "일본 JPY (100)" matches with code JPY and unit 100 |
| BankPages.HanaNameNeedsPrefix | needto.js:64 | a bare "USD" does not match, as the pattern needs a prefix and white space before the code |
| BankPages.MatchHanaNameLazy | needto.js:64 | a name matches with a given label exactly when some prefix free of line terminators is followed by white space, three capitals and the unit group that give that label, and no shorter prefix is |
| BankPages.HanaNameCode | needto.js:64 | a word without white space, then white space, then three capitals always matches, with those capitals as the code and the unit read after them |
| BankPages.HanaNamePlain | needto.js:64-67 | such a name ending at the code matches with no unit |
| BankPages.HanaNameWithUnit | needto.js:64-67 | such a name followed by optional white space and digits in parentheses matches with those digits as the unit, whatever follows |
| BankPages.SpanValue | needto.js:69 | `getVal`: `parseFloat(text.replace(/,/g, '') \|\| 0)`; the empty text reads as 0 by `ParseOrZero`, and `GroupedAmount` states what grouped digits read as |
| BankPages.HanaRow | needto.js:63-71 | a Hana item yields a record exactly when its trimmed name matches, the code is a target currency and the base rate is truthy; the customer buys at `acmnSllRt` and sells at `acmnBuyRt`; the unit is the parenthesised number or 1; the spread is the rounded buy minus base |
| BankPages.HanaRecordsNormalized | needto.js:62-74 | every Hana record is a normalised HANA record |
| BankPages.CrawlHana | needto.js:54-77 | the loop returns the records of the accepted items in list order, and nothing for a page that failed |
| BankPages.CellValue | needto.js:195 | the Shinhan cell reader always yields a number, never NaN |
| BankPages.ShinhanRow | needto.js:189-199 | a Shinhan row yields a record exactly when it has more than 8 cells, a target code in cell 1 and a positive base rate; base, sell and buy come from cells 2, 5 and 7 |
| BankPages.FrameRates | needto.js:184-204 | the evaluate callback returns the frame's records when there are any, and null otherwise |
| BankPages.FirstFrameRates | needto.js:183-206 | the records of the first frame whose callback returns any; `ShinhanFromFirstFrame` and `FirstProductiveFrame` state that choice in both directions |
| BankPages.ShinhanFromFirstFrame | needto.js:183-206 | the Shinhan records all come from one frame, the first with records; every frame before it evaluated and had none |
| BankPages.FirstProductiveFrame | needto.js:183-206 | a frame with records preceded only by frames without records is the frame whose records are taken |
| BankPages.ShinhanRecordsNormalized | needto.js:183-206 | every Shinhan record is normalised and has a positive base rate |
| BankPages.EvaluateFrame | needto.js:184-204 | the callback's loop computes `FrameRates` |
| BankPages.CrawlShinhan | needto.js:172-210 | the frame loop stops at the first frame with records and returns them; a failed launch or a throwing frame gives nothing |
| BankPages.FxQuotes | needto.js:231-245 | the feed rule: FX currencies only, unit 100 for JPY, the rate as parsed; `FxQuotesShape` and `FxQuotesUnfiltered` state it |
| BankPages.FxQuotesShape | needto.js:229-245 | every quote has one of the five FX currencies (never VND); its unit is 100 exactly for JPY and 1 otherwise; there are no more quotes than feed entries |
| BankPages.FxQuotesUnfiltered | needto.js:234-243 | the feed applies no base-rate filter: when every entry is an FX currency with a rate, there is one quote per entry, in order, with the entry's code, unit and parsed rate |
| BankPages.CrawlKBStarFX | needto.js:215-252 | the loop returns the quotes of the kept entries in feed order, stopping at an entry whose rate is not a string, and nothing for a failed request |
| Woori.PrevDay | needto.js:163 | the day before a valid date is a valid date |
| Woori.NextDayUndoesPrevDay | needto.js:163 | stepping back a day and forward again is the identity, both ways round, so no date is skipped or repeated |
| Woori.MakeWooriDate | needto.js:83-88 | month and day are two digits that read back as the month and the day; `y` is the year in decimal; `full` and `dot` join the parts with nothing and with "." |
| Woori.WooriDateDeterminesDate | needto.js:83-88 | two valid dates with the same fields are the same date: the year is printed without loss and month and day read back |
| Woori.CookiePair | needto.js:100 | `split(';')[0]`: the prefix of the header before its first ';', with no ';' in it |
| Woori.CookieHeaderRoundTrip | needto.js:99-100 | splitting the joined header at "; " gives back exactly the cookie pairs |
| Woori.CookieHeader | needto.js:100 | the `Cookie` header: the front pairs of the `set-cookie` headers joined with "; "; `CookieHeaderCarriesPairs` states what it carries |
| Woori.CookieHeaderCarriesPairs | needto.js:99-100 | splitting the header built from the landing page's `set-cookie` headers gives back the front pair of each, in order |
| Woori.FirstMatch | needto.js:102-105 | the token comes from the first pattern that matches; no token means no pattern matched |
| Woori.WooriSession | needto.js:89-108 | a session carries the cookie header of the landing page and the first matched token; there is none when the page failed or no pattern matched |
| Woori.RateRequest | needto.js:110-114 | the post goes to the `__ID` URL of the session with its cookie header and sends `BAS_DT_601` as the date's `full` field |
| Woori.WooriRow | needto.js:132-147 | a Woori row yields a record exactly when it has more than 8 cells, a target currency and a positive base rate; buy, sell and base come from cells 4, 6 and 8 |
| Woori.WooriRates | needto.js:128-151 | a reply gives records only when it arrived, lacks the not-yet-published notice and has accepted rows; every other reply gives null |
| Woori.WooriRecordsNormalized | needto.js:131-150 | every Woori record is normalised, has a positive base rate and a unit of 1 or 100 |
| Woori.CollectWooriRows | needto.js:131-150 | the row loop collects exactly the accepted rows in order |
| Woori.ReadWooriReply | needto.js:128-151 | reading a reply computes `WooriRates` |
| Woori.FetchWooriRates | needto.js:109-153 | one query returns what the server's reply to that date's request yields |
| Woori.NextAsked | needto.js:159-163 | the next date queried is today first, then the day before the last one queried |
| Woori.CrawlWoori | needto.js:154-167 | no session means no query and no records; otherwise at most 7 queries, the first for today and each one day before the previous; every query but the last failed; the result is the last query's records, or nothing after 7 failures |
| Woori.RetryDays | needto.js:159-164 | with a session held: at most 7 queries, today first and each a day before the last; every query but the last failed; the records are the last query's, or none after 7 failures |
| Derivation.MarginFor | needto.js:365 | a currency in the table gets its pair; any other gets `DEFAULT` `[0.08, 0.08]` |
| Derivation.MarginTablesComplete | needto.js:16-20 | each bank table prices all six target currencies, every pair lies within [0, 1] on the selling side and is not negative on the buying side, and so does `DEFAULT` |
| Derivation.AtBase | needto.js:337-358 | WOORI_POCKET and SOL_TRAVEL keep length, order, currency, unit and base rate of their source, and buy and sell at the base rate with spread 0 |
| Derivation.Trb | needto.js:302 | TRB keeps length, order, currency, unit and base of Hana, buys at the base rate, sells at the rounded 99% of it, spread 0 |
| Derivation.TrwMargin | needto.js:304-305 | the TRW margin is 0 exactly for USD, JPY and EUR, and 0.008 exactly for the others |
| Derivation.Trw | needto.js:303-312 | TRW keeps length, order, currency, unit and base of Hana, each record priced with the TRW margin |
| Derivation.TrwRecord | needto.js:303-311 | one TRW record; `TrwPrices` and `TrwUsdExample` state its prices |
| Derivation.TrwPrices | needto.js:303-312 | for a positive base rate TRW never sells above its buying price and its spread is not negative; for USD, JPY and EUR it buys at the rounded base rate with spread 0 |
| Derivation.Airport | needto.js:363-373 | an airport list keeps length, order, currency, unit and base rate of its source, each record priced with its currency's pair from the table |
| Derivation.ScaledOrder | needto.js:369 | for a positive base rate the rounded selling price is never above the rounded buying price |
| Derivation.ScaledSpread | needto.js:369-370 | for a positive base rate the rounded spread is not negative, and buy minus spread is the base rate to within a hundredth |
| Derivation.Margined | needto.js:368-370 | a record priced with a margin pair; `MarginedPricesOrdered` and `ScaledSpread` state its prices |
| Derivation.AirportRecord | needto.js:364-371 | one airport record priced with its currency's pair or DEFAULT; `AirportPrices` and the two examples state it |
| Derivation.MarginedPricesOrdered | needto.js:363-373 | an airport record with a sane pair and a positive base rate sells no higher than it buys, has a spread that is not negative, and buy minus spread is the base rate to within a hundredth |
| Derivation.AirportPrices | needto.js:363-377 | with a sane table, every airport record of a positive base rate has the ordered prices above |
| Derivation.AirportJpyExample | needto.js:363-373 | a Hana JPY base of 900 gives AIR_HANA 940.50 to buy, 837.00 to sell and a spread of 40.50 |
| Derivation.AirportDefaultExample | needto.js:365 | a GBP base of 1750 at KB falls back to `DEFAULT`: 1890 to buy, 1610 to sell, a spread of 140 |
| Derivation.TrwUsdExample | needto.js:303-311 | a Hana USD base of 1400 gives TRW 1400 to buy, 1386 to sell and spread 0 |
| Derivation.TossQuotes | needto.js:273-281 | one TOSS record per quote, in order, at the quote's currency, unit and base rate |
| Derivation.Toss | needto.js:272-298 | the TOSS list; `TossSelection` states its records and their order |
| Derivation.TossSelection | needto.js:272-298 | TOSS is empty without quotes; otherwise it is the quote records followed by at most one VND record, present exactly when Hana has a VND record and built from the first one; every TOSS record trades at its base rate; with FX-only quotes VND appears at most once |
| Derivation.Kakao | needto.js:317-330 | the KAKAO list; `KakaoSelection` states when it has its one record |
| Derivation.KakaoSelection | needto.js:317-330 | KAKAO has one record exactly when the quotes include USD: USD at unit 1 at the first USD quote's rate; otherwise none |
| Derivation.BaseRateRecord | needto.js:273-281 | a record built from a base rate buys and sells at it with spread 0 |
| Derivation.AtBaseKeepsNormalized | needto.js:337-358 | WOORI_POCKET, SOL_TRAVEL and TRB records of normalised sources keep the spread rule, since the rounded difference of equal prices is 0 |
| Derivation.Assemble | needto.js:265-377 | `finalData` before stamping, in its fixed block order; `AssembledSize` and `AssembledCurrencies` state its parts |
| Derivation.AssembledCurrencies | needto.js:265-377 | with target-currency bank lists and FX-currency quotes, every assembled record has a target currency |
| Derivation.AssembledSize | needto.js:265-377 | the bank lists come first, unchanged; the total is 2 per KB record, 4 per Hana record, 3 per Woori record, 2 per Shinhan record, plus the TOSS and KAKAO records, so an empty source contributes nothing |
| Derivation.Publish | needto.js:384-387 | stamping keeps every record and its position and gives all of them the same `kst_time` |
| Derivation.TotalOutage | needto.js:265-387 | with every source empty the run stores nothing |
| Derivation.AppendToss | needto.js:272-298 | the TOSS block appends `Toss` to the data |
| Derivation.AppendKakao | needto.js:317-330 | the KAKAO block appends `Kakao` to the data |
| Derivation.AppendWhenAny | needto.js:375-377 | a guarded block appends its list, which is empty whenever its source is |
| Derivation.RunAll | needto.js:265-387 | `finalData`, built step by step under the source's guards, is the fixed-order concatenation stamped with one `kst_time` |

## Left out

- HTTP requests, EUC-KR decoding, cheerio selection and the Puppeteer browser are not
  modelled. A page is given as its rows of cell texts, or `None` when fetching or
  parsing threw. The browser is always closed in `finally`; that is not modelled either.
- `Promise.all` is left out: the five crawled lists are parameters of `RunAll`.
- The Supabase client and insert, dotenv, `console.log`/`console.table` and the
  success and failure messages are left out.
- IEEE-754 doubles are not modelled: numbers are exact reals. The margin products
  (`base * (1 + 0.042)`) are computed exactly, so a double product a hair below a
  half-hundredth can round differently in JavaScript.
- `parseFloat` reads only plain decimals (`12`, `1.5`, `.5`, with a sign). Exponents,
  `Infinity` and hexadecimal are not read. `toFixed` is modelled for every finite
  value, but not its switch to exponent notation from 1e21 up.
- The Woori `__ID` regular expressions are given as a list of matcher functions; only
  "the first that matches wins" is modelled.
- The Hana name pattern is modelled on its own terms (lazy prefix, white space, three
  capitals, optional parenthesised digits). JavaScript regex semantics in general are
  not modelled.
- The `kst_time` text (`Date`, the +9 hours offset, `toISOString`) is an opaque string
  parameter.
- `new Date()` is the `today` parameter of `CrawlWoori`. The time of day and time zones
  are not modelled; only the calendar date is.
- Strings are sequences of Unicode scalar values, not UTF-16 code units.
- The margin lookup `config[code]` uses a Dafny map, so inherited object keys such as
  `constructor` are not modelled.
- Woori.CrawlWoori: the server is a pure function of the request, so a server whose
  answer changes over time is not modelled.
- Derivation.TrwPrices, Derivation.MarginedPricesOrdered, Derivation.AirportPrices: the
  price ordering is stated for a positive base rate only. A zero or negative base
  rate, which KB and Hana can let through, is not covered.
- The TRB list's own ordering (its selling price below its buying price) is not stated;
  `Trb` states each price exactly.
