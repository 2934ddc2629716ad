# PumpFun trading bot: a verified model of its trading core

`PumpFunTradingBot` (`pumpfun-trading-bot.js`) watches a token feed and
sends a Telegram message for every token that passes three thresholds.
When auto-trading is on, it also places a buy order for that token. Chat
messages starting with `/buy` or `/sell` place orders by hand. A filled
order adds a row to the `trades` table and sends `Trade executed: ...`; a
rejected order sends `Trade failed: ...`.

This project models the decision and bookkeeping part of the bot in Dafny:

- `Filters` (`filters.dfy`) models `applyTradingFilters`: an
  order-preserving filter with three strict comparisons.
- `Strings` (`strings.dfy`) holds the JavaScript string operations the
  bot uses.
  - `startsWith`.
  - `split(' ')`, which keeps empty pieces.
  - `toUpperCase` on ASCII words.
  - Decimal printing of an integral score.
  - Counting the messages that start with a prefix.
- `Commands` (`commands.dfy`) covers command handling.
  - The `/buy` and `/sell` prefix tests of the text handler.
  - The `const [_, amount, contract] = command.split(' ')` destructuring.
    An index past the end is `undefined`, modelled as `None`.
  - The `/buy <amount> <contract>` command that the auto-trader builds.
- `Notices` (`notices.dfy`) covers the three messages the bot sends: the
  opportunity notice, the executed notice and the failed notice.
  - Each notice is a value, and `Text` renders the exact string
    `sendNotification` posts.
  - The executed notice puts the direction in capitals. A missing amount
    prints as `undefined`.
  - In the failed notice, the venue's message is used when it is present
    and non-empty. Otherwise the error's own message is used.
- `Bookkeeping` (`books.dfy`) treats the state the bot changes as a value:
  the rows written to `trades` and the notices sent.
  - `Trade` models one `executeTrade`.
  - `HandleText` models the chat text handler.
  - `Cycle` models one run of the monitoring interval body.
  - The module also proves the bookkeeping invariant. Rows already stored
    at start-up stay at the head of the ledger. The rows added since are,
    in order, the fills the "Trade executed" messages report: the i-th new
    row has the direction, amount and price of the i-th executed message.
- `Bot` (`bot.dfy`) is the class `TradingBot`.
  - Its `ledger` and `notifications` fields change in place.
  - It has three methods: `ExecuteTrade`, `OnText` and `MonitoringCycle`.
    `MonitoringCycle` is a `while` loop over the candidates.
  - Each method is proved to change the state exactly as the matching
    `Bookkeeping` function says, and to keep the invariant.

Inputs the model takes:

- The answer of the trading venue's HTTP endpoint is an input
  `VenueOutcome`: either `Success(price)`, or `Failure(venueMessage?, errorMessage)`.
- The scraped token list is an input of `MonitoringCycle`.
- The thresholds and the auto-trade settings are a `Config` value, in
  place of `config.json`.

What the code does not do, and the model therefore does not do either:

- There is no intent validation. A bare `/buy` trades with an `undefined`
  amount and contract (`Commands.NoValidation`).
- There is no dedupe or cooldown before an auto-trade, so each cycle buys
  every candidate again.
- There is no per-contract locking, and no `InvalidIntent` or `PersistenceFailure` outcome.
- The text handler runs two independent `if`s. Because no text starts
  with both prefixes, at most one trade is started (`Commands.Dispatch`).

## Model

| member | source | states |
|---|---|---|
| Filters.ApplyTradingFilters | pumpfun-trading-bot.js:111-116 | the result is never longer than the input; a token is in it iff it was scraped and its safety score, 24h volume and engagement are all strictly above the thresholds |
| Filters.FilterIsSubsequence | pumpfun-trading-bot.js:112 | the candidates are the scraped tokens with some removed, in the scraped order |
| Filters.FilterMultiplicity | pumpfun-trading-bot.js:112-116 | a passing token is kept as many times as it was scraped; a failing one is kept zero times |
| Filters.FilterAppend | pumpfun-trading-bot.js:112 | filtering two concatenated lists equals concatenating the two filtered lists |
| Filters.FilterIdempotent | pumpfun-trading-bot.js:112-116 | filtering the candidates again returns them unchanged |
| Filters.BoundaryExcluded | pumpfun-trading-bot.js:113-115 | a token whose score, volume or engagement equals its threshold is dropped |
| Filters.JustAboveKept | pumpfun-trading-bot.js:113-115 | a scraped token one above every threshold is kept |
| Strings.Split | pumpfun-trading-bot.js:69 | `split(' ')` returns at least one piece, and no piece contains a space |
| Strings.JoinSplit | pumpfun-trading-bot.js:69 | joining the pieces of a split with single spaces gives back the text |
| Strings.SplitAfterWord | pumpfun-trading-bot.js:69 | a leading space-free word is glued onto the first piece of the rest |
| Strings.SplitJoin | pumpfun-trading-bot.js:69 | splitting space-free words joined by single spaces gives back the words |
| Strings.ToUpper | pumpfun-trading-bot.js:84 | `direction.toUpperCase()`; its contract is `ToUpperCapitals` |
| Strings.ToUpperCapitals | pumpfun-trading-bot.js:84 | upper-casing keeps the length, turns each ASCII lower-case letter into its capital, keeps every other character, and leaves no lower-case letter |
| Strings.IntToText | pumpfun-trading-bot.js:101 | how the template literal prints the safety score; its contract is `IntToTextValue` |
| Strings.NatToTextValue | pumpfun-trading-bot.js:101 | a natural number prints as digits with no leading zero (unless it is 0) that read back as the number |
| Strings.IntToTextValue | pumpfun-trading-bot.js:101 | a negative number prints as `-` and its magnitude's digits; any other as digits reading back as it |
| Strings.StartsWithAppend | pumpfun-trading-bot.js:57-60 | appending text keeps a prefix test of the original's prefix unchanged |
| Commands.PrefixesExclusive | pumpfun-trading-bot.js:57-62 | no text starts with both `/buy` and `/sell` |
| Commands.Dispatch | pumpfun-trading-bot.js:56-63 | the trades started are `[Buy]` iff the text starts with `/buy`, `[Sell]` iff it starts with `/sell`, and none iff neither |
| Commands.DirectionFromPrefix | pumpfun-trading-bot.js:57-61 | the direction depends on the prefix alone, whatever text follows it |
| Commands.ParseWords | pumpfun-trading-bot.js:69 | for space-free words, the amount is word 1 and the contract word 2, each `undefined` when the command has too few words |
| Commands.ParseCommand | pumpfun-trading-bot.js:69 | the amount and contract bound by destructuring the split command; its contract is in `ParseWords` and `NoValidation` |
| Commands.AutoCommand | pumpfun-trading-bot.js:105 | the `/buy <amount> <contract>` command the auto-trader builds; its contract is `AutoCommandRoundTrip` |
| Commands.AutoCommandRoundTrip | pumpfun-trading-bot.js:105 | the built `/buy <amount> <contract>` dispatches as a buy and parses back to exactly that amount and contract, when neither contains a space |
| Commands.NoValidation | pumpfun-trading-bot.js:69-75 | `/buy` alone parses to no amount and no contract; `/sell 5` has no contract; a doubled space shifts the words |
| Notices.FailureReason | pumpfun-trading-bot.js:87 | the reason is the venue message when it is present and non-empty, otherwise the error message |
| Notices.ExecutedText | pumpfun-trading-bot.js:84 | the executed message is `Trade executed: ` + `BUY`/`SELL` + the amount word (or `undefined`) + ` @ $` + the price |
| Notices.Text | pumpfun-trading-bot.js:84-101 | the string `sendNotification` posts for a notice; its contract is in `TextTellsKind`, `ExecutedText` and the examples |
| Notices.OpportunityDetails | pumpfun-trading-bot.js:98-101 | the lines of the opportunity message after the banner; its contract is `OpportunityExample` |
| Notices.FilledBuyExample | pumpfun-trading-bot.js:84 | a buy of 5 filled at 2.05 is posted as `Trade executed: BUY 5 @ $2.05` |
| Notices.MissingAmountExample | pumpfun-trading-bot.js:84 | a `/sell` with no amount word filled at 1 is posted as `Trade executed: SELL undefined @ $1` |
| Notices.OpportunityExample | pumpfun-trading-bot.js:97-101 | token ABC at 2.0, liquidity 100, score 85 is announced as the banner, then `ABC (ABC)`, `Price: $2.0`, `Liquidity: $100`, `Safety Score: 85%` on separate lines |
| Notices.TextTellsKind | pumpfun-trading-bot.js:84-101 | a posted message starts with the prefix of its own kind (opportunity, executed, failed) and with no other |
| Notices.CountAppend | pumpfun-trading-bot.js:119-125 | sending one more notice raises its kind's count by one and leaves the other kinds' counts unchanged |
| Notices.Fills | pumpfun-trading-bot.js:84 | the (direction, amount, price) reported by each executed notice, in order; there are as many as executed notices |
| Notices.Opportunities | pumpfun-trading-bot.js:97-101 | the tokens the opportunity notices are about, in order; as many as opportunity notices |
| Notices.Reports | pumpfun-trading-bot.js:84-87 | the executed and failed notices, in order; as many as both kinds together, and none is an opportunity notice |
| Notices.FillsAppend | pumpfun-trading-bot.js:119-125 | the fills of two runs of notices are the fills of the first, then those of the second |
| Notices.OpportunitiesAppend | pumpfun-trading-bot.js:119-125 | the same for the tokens of opportunity notices |
| Notices.ReportsAppend | pumpfun-trading-bot.js:119-125 | the same for the trade notices |
| Notices.CountIsPrefixCount | pumpfun-trading-bot.js:84-101 | the number of notices of a kind equals the number of posted messages that start with that kind's prefix |
| Bookkeeping.Trade | pumpfun-trading-bot.js:68-88 | success appends exactly one row (parsed contract, direction, raw amount word, venue price) after the old rows; failure appends none; either way exactly one notice of the matching kind is appended |
| Bookkeeping.TradeMessage | pumpfun-trading-bot.js:84-87 | a trade's message is `Trade executed: <DIRECTION> <amount> @ $<price>` on success, and `Trade failed: ` + the venue message or, when that is absent or empty, the error message |
| Bookkeeping.TradeNotice | pumpfun-trading-bot.js:84-87 | the notice `executeTrade` sends once its venue call has ended; its rendering is stated by `TradeMessage` and its kind by `Trade` |
| Bookkeeping.HandleText | pumpfun-trading-bot.js:56-63 | the text handler's two `if`s; its contract is in `HandleTextDispatches` and `HandleTextKeepsAccounted` |
| Bookkeeping.HandleTextDispatches | pumpfun-trading-bot.js:56-63 | text with neither prefix changes nothing; otherwise exactly one trade runs, in the prefix's direction, on the whole text |
| Bookkeeping.StepNotices | pumpfun-trading-bot.js:96-106 | one candidate adds one opportunity notice and, iff auto-trading is on, one trade notice; earlier notices stay |
| Bookkeeping.CycleNotices | pumpfun-trading-bot.js:94-107 | a cycle adds as many opportunity notices as candidates, plus as many trade notices as candidates iff auto-trading is on; earlier notices stay |
| Bookkeeping.StepLedger | pumpfun-trading-bot.js:104-105 | one candidate adds a row iff auto-trading is on and the venue fills; the row is a buy |
| Bookkeeping.CycleLedger | pumpfun-trading-bot.js:94-107 | a cycle only appends rows: one per filled order when auto-trading is on, none when it is off; every new row is a buy |
| Bookkeeping.CandidateStep | pumpfun-trading-bot.js:96-106 | the per-candidate callback: opportunity notice, then, with auto-trading on, `executeTrade` on the built `/buy` command; its contract is in `StepAdds`, `StepNotices`, `StepLedger`, `StepRecord` and `StepOpportunity` |
| Bookkeeping.StepAdds | pumpfun-trading-bot.js:96-106 | the callback appends exactly the candidate's opportunity notice and, iff auto-trading is on, the notice of the trade on the built command |
| Bookkeeping.StepPrefix | pumpfun-trading-bot.js:96-106 | the callback only appends notices, at least one |
| Bookkeeping.StepRecord | pumpfun-trading-bot.js:105 | when the amount and the address contain no space, the row an auto-trade stores holds the configured amount, the candidate's address, `buy` and the venue price |
| Bookkeeping.StepOpportunity | pumpfun-trading-bot.js:97-101 | the callback's new notices hold exactly one opportunity notice, about its own candidate |
| Bookkeeping.StepReport | pumpfun-trading-bot.js:97-105 | with auto-trading on and no spaces in the amount or the address, the callback adds the opportunity notice and then a buy of the configured amount at the venue's price, or the venue's failure |
| Bookkeeping.Cycle | pumpfun-trading-bot.js:93-107 | the cycle body as the callback applied to each candidate in turn; its contract is in the `Cycle*` lemmas |
| Bookkeeping.CyclePrefix | pumpfun-trading-bot.js:93-107 | a cycle only appends notices |
| Bookkeeping.CycleAdds | pumpfun-trading-bot.js:96-107 | the notices a cycle adds are those of its first candidate, then those of the rest |
| Bookkeeping.CycleOpportunities | pumpfun-trading-bot.js:96-101 | whatever the auto-trade setting, the opportunity notices a cycle adds are about its candidates, one each, in candidate order |
| Bookkeeping.CycleReports | pumpfun-trading-bot.js:104-105 | with auto-trading on and no spaces in the amount or any address, the trade notices a cycle adds are, candidate by candidate, the expected buy report at the venue's price or the venue's failure reason |
| Bookkeeping.CycleRecords | pumpfun-trading-bot.js:94-107 | with auto-trading on and no spaces in the amount or any address, the rows a cycle adds are exactly the expected buys, one per filled candidate, in candidate order |
| Bookkeeping.CycleWithoutAutoTrade | pumpfun-trading-bot.js:96-104 | with auto-trading off, a cycle leaves the ledger unchanged and sends only the opportunity notices, in candidate order |
| Bookkeeping.RowFills | pumpfun-trading-bot.js:79-82 | the (direction, amount, price) of each stored row, one per row |
| Bookkeeping.OpportunityKeepsAccounted | pumpfun-trading-bot.js:97-101 | an opportunity notice keeps the invariant: the new rows are still, in order, the fills of the executed notices |
| Bookkeeping.TradeKeepsAccounted | pumpfun-trading-bot.js:77-88 | a trade, filled or failed, keeps that invariant: a fill adds one row and one executed notice with the same direction, amount and price |
| Bookkeeping.HandleTextKeepsAccounted | pumpfun-trading-bot.js:56-63 | handling any chat text keeps the invariant |
| Bookkeeping.StepKeepsAccounted | pumpfun-trading-bot.js:96-106 | one candidate's callback keeps the invariant |
| Bookkeeping.CycleKeepsAccounted | pumpfun-trading-bot.js:94-107 | a whole cycle keeps the invariant |
| Bookkeeping.AccountedInMessages | pumpfun-trading-bot.js:79-84 | under the invariant, the rows added since start are as many as the posted messages that start with `Trade executed: ` |
| Bot.TradingBot.constructor | pumpfun-trading-bot.js:20-26 | a new bot holds the stored rows, has sent nothing, and satisfies the invariant |
| Bot.TradingBot.ExecuteTrade | pumpfun-trading-bot.js:68-88 | the new ledger and notices are exactly `Trade` of the old ones, and the invariant is kept |
| Bot.TradingBot.OnText | pumpfun-trading-bot.js:56-63 | the new state is exactly `HandleText` of the old one, and the invariant is kept |
| Bot.TradingBot.MonitoringCycle | pumpfun-trading-bot.js:93-107 | the loop over the filtered candidates leaves exactly the state `Cycle` gives, and the invariant is kept |
| Bot.SingleCandidateAutoTrade | pumpfun-trading-bot.js:93-107 | one passing token with auto-trading on and a filled order gives one buy row (configured amount, token address, price) and two messages, the opportunity notice then `Trade executed: BUY <amount> @ $<price>` |
| Bot.AutoTradeScenario | pumpfun-trading-bot.js:93-107 | thresholds 70/1000/10, amount 5, token ABC (85, 5000, 50) filled at 2.05: one row `(ABC, buy, 5, 2.05)` and the message `Trade executed: BUY 5 @ $2.05` |

## Left out

- Telegraf setup, `bot.launch`, `ctx.reply`, and the `/start` and `/balance` commands with `getBalance` (lines 21, 48-54, 65, 129-134): chat and network I/O.
- The HTTP calls: the venue POST and the Telegram `sendMessage` in `sendNotification` (lines 78, 119-125). The venue's answer is the `VenueOutcome` parameter. A notification is the notice appended to `notifications`, so delivery failures are not modelled. `parse_mode: 'Markdown'` is not modelled either.
- SQLite (lines 22, 28-40). The `trades` table is the `ledger` sequence. The following are not modelled:
  - the asynchronous `db.run` and its possible failure;
  - the `id` and `timestamp` columns;
  - the `REAL` coercion of amount and price.
- Puppeteer, scraping and analysis (lines 14-15, 127, 136): `scrapeAndAnalyze` is not part of this model, and its result is the `tokens` parameter of `MonitoringCycle`. A scraping failure, which would reject the interval callback, is not modelled.
- `setInterval` timing and overlapping cycles (line 92). A cycle is one call of `MonitoringCycle`.
- The un-awaited `forEach(async ...)` (line 96). Candidates are processed one after another.
  - Opportunity notices are sent in candidate order in the source too, because each is sent before the callback's first `await`.
  - A trade's message and row appear right after its candidate's notice here. In the source they arrive when the venue answers, so the orders stated by `CycleRecords`, `CycleReports` and `Cycle` hold only in the sequential reading. `CycleOpportunities` holds in either reading.
- `parseFloat` and floating-point prices (line 72). The amount is kept as the raw word. That word is what is stored and printed. The order body's `parseFloat(amount)` and `config.telegram.api_key` are not modelled, because the venue's answer is an input.
- Token fields: the scores are integers, and price and liquidity are kept as the text they print as.
  - Missing or non-numeric scores are not modelled: in JavaScript, `undefined > 70` is false.
  - Printing a non-integral safety score is not modelled.
- `Strings.ToUpper` maps ASCII letters only. That is enough for the only inputs, `buy` and `sell`.
- `Notices.FailureReason`: the `||` fallback is modelled for an absent or empty venue message (`response`, `data` or `message` missing, or `""`). Other falsy values, such as `0` or `false`, are not modelled.
- `console.error` (line 86): logging only.
- The `config.json` fragment (lines 1-9) is represented by the `Config` value.
- The code has no dedupe, cooldown, locking, intent validation or `PersistenceFailure` path, so none is modelled.
