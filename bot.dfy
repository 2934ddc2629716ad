/**
 * `PumpFunTradingBot` as an object: the `trades` table becomes the `ledger`
 * field and every `sendNotification` an append to `notifications`. Each
 * method is proved to change the state exactly as the matching function of
 * module Bookkeeping says, and to keep the bookkeeping invariant.
 */
module Bot {
  import opened Wrappers
  import opened Strings
  import opened Commands
  import opened Filters
  import opened Notices
  import opened Bookkeeping

  class TradingBot {
    const config: Config
    /** The rows `pumpfun.db` already held when the bot started. */
    const initialLedger: seq<TradeRecord>
    var ledger: seq<TradeRecord>
    var notifications: seq<Notice>

    ghost function Snapshot(): State
      reads this
    {
      State(ledger, notifications)
    }

    ghost predicate Valid()
      reads this
    {
      Accounted(initialLedger, Snapshot())
    }

    constructor (config: Config, stored: seq<TradeRecord>)
      ensures Valid()
      ensures this.config == config && initialLedger == stored
      ensures ledger == stored && notifications == []
    {
      this.config := config;
      initialLedger := stored;
      ledger := stored;
      notifications := [];
    }

    /** `executeTrade(command, direction)`, the venue's answer being `venue`. */
    method ExecuteTrade(command: string, direction: Direction, venue: VenueOutcome)
      requires Valid()
      modifies this
      ensures Valid()
      ensures Snapshot() == Trade(old(Snapshot()), command, direction, venue)
    {
      TradeKeepsAccounted(initialLedger, Snapshot(), command, direction, venue);
      var parsed := ParseCommand(command);
      match venue {
        case Success(price) =>
          ledger := ledger + [TradeRecord(parsed.contract, direction, parsed.amount, price)];
        case Failure(_, _) =>
      }
      notifications := notifications + [TradeNotice(parsed, direction, venue)];
    }

    /** The `bot.on('text')` handler. */
    method OnText(text: string, venue: VenueOutcome)
      requires Valid()
      modifies this
      ensures Valid()
      ensures Snapshot() == HandleText(old(Snapshot()), text, venue)
    {
      if StartsWith(text, "/buy") {
        ExecuteTrade(text, Buy, venue);
      }
      if StartsWith(text, "/sell") {
        ExecuteTrade(text, Sell, venue);
      }
    }

    /**
     * One run of the `startMonitoring` interval body on the scraped `tokens`;
     * `venues[i]` answers the auto-trade order for the i-th candidate.
     */
    method MonitoringCycle(tokens: seq<Token>, venues: seq<VenueOutcome>)
      requires Valid()
      requires |venues| == |ApplyTradingFilters(tokens, config.policy)|
      modifies this
      ensures Valid()
      ensures Snapshot()
        == Cycle(old(Snapshot()), ApplyTradingFilters(tokens, config.policy), venues, config.autoTrade)
    {
      var candidates := ApplyTradingFilters(tokens, config.policy);
      var i := 0;
      while i < |candidates|
        invariant 0 <= i <= |candidates|
        invariant Valid()
        invariant Cycle(Snapshot(), candidates[i..], venues[i..], config.autoTrade)
               == Cycle(old(Snapshot()), candidates, venues, config.autoTrade)
      {
        var token := candidates[i];
        OpportunityKeepsAccounted(initialLedger, Snapshot(), token);
        notifications := notifications + [Opportunity(token)];
        if config.autoTrade.enabled {
          ExecuteTrade(AutoCommand(config.autoTrade.amount, token.contractAddress), Buy, venues[i]);
        }
        assert candidates[i..][1..] == candidates[i + 1..];
        assert venues[i..][1..] == venues[i + 1..];
        i := i + 1;
      }
    }
  }

  /**
   * The end-to-end run on one scraped token that passes the thresholds, with
   * auto-trading on and a venue that fills at `price`: one buy row is stored
   * with the configured amount text, the token's address and the venue's
   * price, and two messages are sent, the opportunity notice and then the
   * executed notice.
   */
  lemma SingleCandidateAutoTrade(cfg: Config, token: Token, price: string)
    requires cfg.autoTrade.enabled && Passes(token, cfg.policy)
    requires ' ' !in cfg.autoTrade.amount && ' ' !in token.contractAddress
    ensures ApplyTradingFilters([token], cfg.policy) == [token]
    ensures var t := Cycle(State([], []), [token], [Success(price)], cfg.autoTrade);
      && t.ledger == [TradeRecord(Some(token.contractAddress), Buy, Some(cfg.autoTrade.amount), price)]
      && t.notifications == [Opportunity(token), Executed(Buy, Some(cfg.autoTrade.amount), price)]
      && Text(t.notifications[1]) == "Trade executed: BUY " + cfg.autoTrade.amount + " @ $" + price
  {
    var auto := cfg.autoTrade;
    var start := State([], []);
    assert [token][1..] == [];
    assert [Success(price)][1..] == [];
    var step := CandidateStep(start, token, Success(price), auto);
    assert Cycle(start, [token], [Success(price)], auto) == step;
    StepRecord(start, token, Success(price), auto);
    StepNotices(start, token, Success(price), auto);
    AutoCommandRoundTrip(auto.amount, token.contractAddress);
    ExecutedText(Buy, Some(auto.amount), price);
    assert "Trade executed: " + "BUY" + " " + auto.amount + " @ $" + price
        == "Trade executed: BUY " + auto.amount + " @ $" + price;
  }

  /**
   * Thresholds 70 / 1000 / 10, auto-trading 5 units, token "ABC" scoring 85
   * with volume 5000 and engagement 50, filled at 2.05.
   */
  lemma AutoTradeScenario()
    ensures var cfg := Config(Policy(70, 1000, 10), AutoTrade(true, "5"));
      var abc := Token("ABC", "ABC", "2.0", "100", 5000, 50, 85);
      var t := Cycle(State([], []), ApplyTradingFilters([abc], cfg.policy), [Success("2.05")], cfg.autoTrade);
      && t.ledger == [TradeRecord(Some("ABC"), Buy, Some("5"), "2.05")]
      && t.notifications == [Opportunity(abc), Executed(Buy, Some("5"), "2.05")]
      && Text(t.notifications[1]) == "Trade executed: BUY 5 @ $2.05"
  {
    SingleCandidateAutoTrade(Config(Policy(70, 1000, 10), AutoTrade(true, "5")),
      Token("ABC", "ABC", "2.0", "100", 5000, 50, 85), "2.05");
    FilledBuyExample();
  }
}
