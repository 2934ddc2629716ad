/**
 * The state `PumpFunTradingBot` changes, as a value: the rows of the
 * `trades` table and the notifications sent to the chat. `Trade` is one
 * `executeTrade` call, `HandleText` the chat text handler and `Cycle` one
 * run of the `startMonitoring` interval body, each taken sequentially.
 */
module Bookkeeping {
  import opened Wrappers
  import opened Strings
  import opened Commands
  import opened Filters
  import opened Notices

  /**
   * A row of the `trades` table. Contract and amount are the raw words of the
   * command (the amount is the string, not its `parseFloat` value); the price
   * is whatever the venue answered.
   */
  datatype TradeRecord = TradeRecord(
    contract: Option<string>,
    direction: Direction,
    amount: Option<string>,
    price: string)

  /**
   * How the order POST ended: a response carrying a price, or a thrown
   * error with its optional `response.data.message` and its `message`.
   */
  datatype VenueOutcome =
    | Success(price: string)
    | Failure(venueMessage: Option<string>, errorMessage: string)

  /** `config.autoTrade`; the amount is kept as the text the template literal prints. */
  datatype AutoTrade = AutoTrade(enabled: bool, amount: string)

  datatype Config = Config(policy: Policy, autoTrade: AutoTrade)

  datatype State = State(ledger: seq<TradeRecord>, notifications: seq<Notice>)

  /** `sendNotification(message)`: one message more, nothing else changes. */
  function Notify(s: State, n: Notice): State
  {
    State(s.ledger, s.notifications + [n])
  }

  /** The notice `executeTrade` sends once its venue call has ended. */
  function TradeNotice(parsed: ParsedCommand, direction: Direction, venue: VenueOutcome): Notice
  {
    match venue
    case Success(price) => Executed(direction, parsed.amount, price)
    case Failure(venueMessage, errorMessage) => Failed(FailureReason(venueMessage, errorMessage))
  }

  /**
   * One `executeTrade(command, direction)` whose venue call ends in `venue`:
   * the amount and contract are words 1 and 2 of the command; a success adds
   * exactly one row, holding them, the direction and the venue's price, and
   * the "executed" notice; a failure adds no row and the "failed" notice.
   */
  function Trade(s: State, command: string, direction: Direction, venue: VenueOutcome): (t: State)
    ensures |t.ledger| == |s.ledger| + (if venue.Success? then 1 else 0)
    ensures t.ledger[..|s.ledger|] == s.ledger
    ensures venue.Success? ==>
      (t.ledger[|s.ledger|]
       == TradeRecord(ParseCommand(command).contract, direction, ParseCommand(command).amount, venue.price))
    ensures t.notifications == s.notifications + [TradeNotice(ParseCommand(command), direction, venue)]
    ensures KindOf(TradeNotice(ParseCommand(command), direction, venue))
         == if venue.Success? then ExecutedKind else FailedKind
  {
    var parsed := ParseCommand(command);
    var notified := Notify(s, TradeNotice(parsed, direction, venue));
    match venue
    case Success(price) =>
      State(s.ledger + [TradeRecord(parsed.contract, direction, parsed.amount, price)], notified.notifications)
    case Failure(_, _) =>
      notified
  }

  /**
   * The posted trade message: `Trade executed: <DIRECTION> <amount> @ $<price>`
   * with the raw amount word (`undefined` when missing), or `Trade failed: `
   * and the venue's message when it has a non-empty one, else the error's.
   */
  lemma TradeMessage(command: string, direction: Direction, venue: VenueOutcome)
    ensures venue.Success? ==>
      Text(TradeNotice(ParseCommand(command), direction, venue))
      == "Trade executed: " + (if direction == Buy then "BUY" else "SELL") + " "
         + Show(ParseCommand(command).amount) + " @ $" + venue.price
    ensures venue.Failure? && venue.venueMessage.Some? && venue.venueMessage.value != "" ==>
      Text(TradeNotice(ParseCommand(command), direction, venue)) == "Trade failed: " + venue.venueMessage.value
    ensures venue.Failure? && (venue.venueMessage == None || venue.venueMessage == Some("")) ==>
      Text(TradeNotice(ParseCommand(command), direction, venue)) == "Trade failed: " + venue.errorMessage
  {
    if venue.Success? {
      ExecutedText(direction, ParseCommand(command).amount, venue.price);
    }
  }

  /** The chat text handler: `if (startsWith('/buy')) ...; if (startsWith('/sell')) ...`. */
  function HandleText(s: State, text: string, venue: VenueOutcome): State
  {
    var afterBuy := if StartsWith(text, "/buy") then Trade(s, text, Buy, venue) else s;
    if StartsWith(text, "/sell") then Trade(afterBuy, text, Sell, venue) else afterBuy
  }

  /**
   * A chat message starts at most one trade, in the direction its prefix
   * names, with no threshold check; any other text changes nothing.
   */
  lemma HandleTextDispatches(s: State, text: string, venue: VenueOutcome)
    ensures Dispatch(text) == [] ==> HandleText(s, text, venue) == s
    ensures |Dispatch(text)| == 1 ==> HandleText(s, text, venue) == Trade(s, text, Dispatch(text)[0], venue)
  {
    PrefixesExclusive(text);
  }

  /**
   * The body of the per-candidate callback: the opportunity notice, then,
   * when auto-trading is on, `executeTrade` on the synthesised `/buy` command
   * whose venue call ends in `venue`.
   */
  function CandidateStep(s: State, c: Token, venue: VenueOutcome, auto: AutoTrade): State
  {
    var noticed := Notify(s, Opportunity(c));
    if auto.enabled then Trade(noticed, AutoCommand(auto.amount, c.contractAddress), Buy, venue)
    else noticed
  }

  /**
   * One monitoring cycle: the callback for each filtered candidate in turn;
   * `venues[i]` is how the order for `candidates[i]` ended.
   */
  function Cycle(s: State, candidates: seq<Token>, venues: seq<VenueOutcome>, auto: AutoTrade): State
    requires |venues| == |candidates|
    decreases |candidates|
  {
    if candidates == [] then s
    else Cycle(CandidateStep(s, candidates[0], venues[0], auto), candidates[1..], venues[1..], auto)
  }

  /** The number of trade notices, executed or failed. */
  function TradeNotices(ns: seq<Notice>): nat
  {
    Count(ns, ExecutedKind) + Count(ns, FailedKind)
  }

  /** The callback adds the opportunity notice and, with auto-trading on, one trade notice. */
  lemma StepNotices(s: State, c: Token, venue: VenueOutcome, auto: AutoTrade)
    ensures var t := CandidateStep(s, c, venue, auto);
      && |t.notifications| == |s.notifications| + (if auto.enabled then 2 else 1)
      && t.notifications[..|s.notifications|] == s.notifications
      && Count(t.notifications, OpportunityKind) == Count(s.notifications, OpportunityKind) + 1
      && TradeNotices(t.notifications) == TradeNotices(s.notifications) + (if auto.enabled then 1 else 0)
  {
    var noticed := Notify(s, Opportunity(c));
    CountAppend(s.notifications, Opportunity(c), OpportunityKind);
    CountAppend(s.notifications, Opportunity(c), ExecutedKind);
    CountAppend(s.notifications, Opportunity(c), FailedKind);
    if auto.enabled {
      var command := AutoCommand(auto.amount, c.contractAddress);
      var n := TradeNotice(ParseCommand(command), Buy, venue);
      var t := Trade(noticed, command, Buy, venue);
      CountAppend(noticed.notifications, n, OpportunityKind);
      CountAppend(noticed.notifications, n, ExecutedKind);
      CountAppend(noticed.notifications, n, FailedKind);
      assert t.notifications[..|s.notifications|] == noticed.notifications[..|s.notifications|];
    }
  }

  /**
   * A cycle sends one opportunity notice per candidate, and one trade notice
   * per candidate exactly when auto-trading is on; earlier messages stay.
   */
  lemma {:induction false} CycleNotices(s: State, candidates: seq<Token>, venues: seq<VenueOutcome>, auto: AutoTrade)
    requires |venues| == |candidates|
    decreases |candidates|
    ensures var t := Cycle(s, candidates, venues, auto);
      && |t.notifications| == |s.notifications| + |candidates| * (if auto.enabled then 2 else 1)
      && t.notifications[..|s.notifications|] == s.notifications
      && Count(t.notifications, OpportunityKind) == Count(s.notifications, OpportunityKind) + |candidates|
      && TradeNotices(t.notifications) == TradeNotices(s.notifications) + (if auto.enabled then |candidates| else 0)
  {
    if candidates != [] {
      var step := CandidateStep(s, candidates[0], venues[0], auto);
      StepNotices(s, candidates[0], venues[0], auto);
      CycleNotices(step, candidates[1..], venues[1..], auto);
      var t := Cycle(step, candidates[1..], venues[1..], auto);
      assert t.notifications[..|s.notifications|] == t.notifications[..|step.notifications|][..|s.notifications|];
    }
  }

  /** The notices one candidate's callback adds, in order: its opportunity notice, then its trade notice when auto-trading is on. */
  lemma StepAdds(s: State, c: Token, venue: VenueOutcome, auto: AutoTrade)
    ensures CandidateStep(s, c, venue, auto).notifications
         == s.notifications + [Opportunity(c)]
            + (if auto.enabled
               then [TradeNotice(ParseCommand(AutoCommand(auto.amount, c.contractAddress)), Buy, venue)]
               else [])
  {
    if !auto.enabled {
      assert s.notifications + [Opportunity(c)] + [] == s.notifications + [Opportunity(c)];
    }
  }

  /** The callback only appends notices, at least one. */
  lemma StepPrefix(s: State, c: Token, venue: VenueOutcome, auto: AutoTrade)
    ensures var t := CandidateStep(s, c, venue, auto);
      |s.notifications| < |t.notifications| && t.notifications[..|s.notifications|] == s.notifications
  {
    StepAdds(s, c, venue, auto);
  }

  /** A cycle only appends notices. */
  lemma {:induction false} CyclePrefix(s: State, candidates: seq<Token>, venues: seq<VenueOutcome>, auto: AutoTrade)
    requires |venues| == |candidates|
    decreases |candidates|
    ensures var t := Cycle(s, candidates, venues, auto);
      |s.notifications| <= |t.notifications| && t.notifications[..|s.notifications|] == s.notifications
  {
    if candidates != [] {
      var step := CandidateStep(s, candidates[0], venues[0], auto);
      StepPrefix(s, candidates[0], venues[0], auto);
      CyclePrefix(step, candidates[1..], venues[1..], auto);
      var t := Cycle(step, candidates[1..], venues[1..], auto);
      assert t.notifications[..|s.notifications|] == t.notifications[..|step.notifications|][..|s.notifications|];
    }
  }

  /** The notices a cycle adds are those its first candidate adds, then those the rest add. */
  lemma CycleAdds(s: State, candidates: seq<Token>, venues: seq<VenueOutcome>, auto: AutoTrade)
    requires |venues| == |candidates| && candidates != []
    ensures var step := CandidateStep(s, candidates[0], venues[0], auto);
      var t := Cycle(s, candidates, venues, auto);
      && |s.notifications| <= |step.notifications| <= |t.notifications|
      && t.notifications[|s.notifications|..]
         == step.notifications[|s.notifications|..] + t.notifications[|step.notifications|..]
  {
    var step := CandidateStep(s, candidates[0], venues[0], auto);
    StepPrefix(s, candidates[0], venues[0], auto);
    CyclePrefix(step, candidates[1..], venues[1..], auto);
    var t := Cycle(step, candidates[1..], venues[1..], auto).notifications;
    var i := |s.notifications|;
    var j := |step.notifications|;
    assert t[..j] == step.notifications;
    assert t[i..] == t[i..j] + t[j..];
    assert t[i..j] == t[..j][i..];
  }

  /** The callback's notices hold exactly one opportunity notice, about its own candidate. */
  lemma StepOpportunity(s: State, c: Token, venue: VenueOutcome, auto: AutoTrade)
    ensures var t := CandidateStep(s, c, venue, auto);
      |s.notifications| <= |t.notifications| && Opportunities(t.notifications[|s.notifications|..]) == [c]
  {
    StepAdds(s, c, venue, auto);
    var trade := if auto.enabled
      then [TradeNotice(ParseCommand(AutoCommand(auto.amount, c.contractAddress)), Buy, venue)]
      else [];
    var t := CandidateStep(s, c, venue, auto);
    assert t.notifications[|s.notifications|..] == [Opportunity(c)] + trade;
    OpportunitiesAppend([Opportunity(c)], trade);
    assert [Opportunity(c)][..0] == [];
    if auto.enabled {
      assert trade[..0] == [];
    }
  }

  /**
   * Whatever the auto-trade setting, the opportunity notices a cycle sends
   * are about its candidates, one each, in candidate order.
   */
  lemma {:induction false} CycleOpportunities(s: State, candidates: seq<Token>, venues: seq<VenueOutcome>, auto: AutoTrade)
    requires |venues| == |candidates|
    decreases |candidates|
    ensures var t := Cycle(s, candidates, venues, auto);
      |s.notifications| <= |t.notifications| && Opportunities(t.notifications[|s.notifications|..]) == candidates
  {
    if candidates == [] {
      assert Cycle(s, candidates, venues, auto).notifications[|s.notifications|..] == [];
    } else {
      var c := candidates[0];
      var step := CandidateStep(s, c, venues[0], auto);
      CycleAdds(s, candidates, venues, auto);
      var rest := Cycle(s, candidates, venues, auto).notifications[|step.notifications|..];
      CycleOpportunities(step, candidates[1..], venues[1..], auto);
      StepOpportunity(s, c, venues[0], auto);
      OpportunitiesAppend(step.notifications[|s.notifications|..], rest);
      assert candidates == [c] + candidates[1..];
    }
  }

  /** The trade notice an auto-trade sends when its order ends in `venue`, written without any parsing. */
  function ExpectedReport(venue: VenueOutcome, amount: string): Notice
  {
    match venue
    case Success(price) => Executed(Buy, Some(amount), price)
    case Failure(venueMessage, errorMessage) => Failed(FailureReason(venueMessage, errorMessage))
  }

  function AutoReports(venues: seq<VenueOutcome>, amount: string): seq<Notice>
  {
    if venues == [] then [] else [ExpectedReport(venues[0], amount)] + AutoReports(venues[1..], amount)
  }

  /** With auto-trading on and no spaces in the words, the callback adds its opportunity notice and the expected report. */
  lemma StepReport(s: State, c: Token, venue: VenueOutcome, auto: AutoTrade)
    requires auto.enabled
    requires ' ' !in auto.amount && ' ' !in c.contractAddress
    ensures CandidateStep(s, c, venue, auto).notifications[|s.notifications|..]
         == [Opportunity(c), ExpectedReport(venue, auto.amount)]
    ensures Reports([Opportunity(c), ExpectedReport(venue, auto.amount)]) == [ExpectedReport(venue, auto.amount)]
  {
    StepAdds(s, c, venue, auto);
    AutoCommandRoundTrip(auto.amount, c.contractAddress);
    var added := [Opportunity(c), ExpectedReport(venue, auto.amount)];
    assert added[..1] == [Opportunity(c)];
    assert [Opportunity(c)][..0] == [];
  }

  /**
   * With auto-trading on and no spaces in the amount or the addresses, the
   * trade notices a cycle sends report, candidate by candidate, a buy of
   * the configured amount at the venue's price or the venue's failure.
   */
  lemma {:induction false} CycleReports(s: State, candidates: seq<Token>, venues: seq<VenueOutcome>, auto: AutoTrade)
    requires |venues| == |candidates|
    requires auto.enabled
    requires ' ' !in auto.amount
    requires forall k :: 0 <= k < |candidates| ==> ' ' !in candidates[k].contractAddress
    decreases |candidates|
    ensures var t := Cycle(s, candidates, venues, auto);
      |s.notifications| <= |t.notifications| && Reports(t.notifications[|s.notifications|..]) == AutoReports(venues, auto.amount)
  {
    if candidates == [] {
      assert Cycle(s, candidates, venues, auto).notifications[|s.notifications|..] == [];
    } else {
      var c := candidates[0];
      var step := CandidateStep(s, c, venues[0], auto);
      CycleAdds(s, candidates, venues, auto);
      var rest := Cycle(s, candidates, venues, auto).notifications[|step.notifications|..];
      CycleReports(step, candidates[1..], venues[1..], auto);
      StepReport(s, c, venues[0], auto);
      ReportsAppend([Opportunity(c), ExpectedReport(venues[0], auto.amount)], rest);
    }
  }

  /** The callback adds one row exactly when it trades and the venue succeeds; the row is a buy. */
  lemma StepLedger(s: State, c: Token, venue: VenueOutcome, auto: AutoTrade)
    ensures var t := CandidateStep(s, c, venue, auto);
      && |t.ledger| == |s.ledger| + (if auto.enabled && venue.Success? then 1 else 0)
      && t.ledger[..|s.ledger|] == s.ledger
      && forall k :: |s.ledger| <= k < |t.ledger| ==> t.ledger[k].direction == Buy
  {
  }

  function CountSuccesses(venues: seq<VenueOutcome>): nat
  {
    if venues == [] then 0 else (if venues[0].Success? then 1 else 0) + CountSuccesses(venues[1..])
  }

  /**
   * A cycle only appends to the ledger: one row per successful auto-trade
   * when auto-trading is on, none at all when it is off, and every new row a buy.
   */
  lemma {:induction false} CycleLedger(s: State, candidates: seq<Token>, venues: seq<VenueOutcome>, auto: AutoTrade)
    requires |venues| == |candidates|
    decreases |candidates|
    ensures var t := Cycle(s, candidates, venues, auto);
      && |t.ledger| == |s.ledger| + (if auto.enabled then CountSuccesses(venues) else 0)
      && t.ledger[..|s.ledger|] == s.ledger
      && forall k :: |s.ledger| <= k < |t.ledger| ==> t.ledger[k].direction == Buy
  {
    if candidates != [] {
      var step := CandidateStep(s, candidates[0], venues[0], auto);
      StepLedger(s, candidates[0], venues[0], auto);
      CycleLedger(step, candidates[1..], venues[1..], auto);
      var t := Cycle(step, candidates[1..], venues[1..], auto);
      assert t.ledger[..|s.ledger|] == t.ledger[..|step.ledger|][..|s.ledger|];
      forall k | |s.ledger| <= k < |step.ledger|
        ensures t.ledger[k].direction == Buy
      {
        assert t.ledger[k] == t.ledger[..|step.ledger|][k];
      }
    }
  }

  /**
   * The rows an auto-trading cycle should add, written without any parsing:
   * for each candidate whose order succeeded, a buy of the configured amount
   * of that candidate's contract at the venue's price.
   */
  function AutoRecords(candidates: seq<Token>, venues: seq<VenueOutcome>, amount: string): seq<TradeRecord>
    requires |venues| == |candidates|
  {
    if candidates == [] then []
    else
      (if venues[0].Success?
       then [TradeRecord(Some(candidates[0].contractAddress), Buy, Some(amount), venues[0].price)]
       else [])
      + AutoRecords(candidates[1..], venues[1..], amount)
  }

  /** The callback's row, when there is one, holds the configured amount and the candidate's address. */
  lemma StepRecord(s: State, c: Token, venue: VenueOutcome, auto: AutoTrade)
    requires ' ' !in auto.amount && ' ' !in c.contractAddress
    ensures CandidateStep(s, c, venue, auto).ledger
      == s.ledger + (if auto.enabled && venue.Success?
                     then [TradeRecord(Some(c.contractAddress), Buy, Some(auto.amount), venue.price)] else [])
  {
    AutoCommandRoundTrip(auto.amount, c.contractAddress);
    var t := CandidateStep(s, c, venue, auto);
    if !(auto.enabled && venue.Success?) {
      assert s.ledger + [] == s.ledger;
    } else {
      assert t.ledger == t.ledger[..|s.ledger|] + [t.ledger[|s.ledger|]];
    }
  }

  /**
   * With auto-trading on and no spaces in the amount or the addresses, the
   * rows a cycle adds are exactly the expected ones.
   */
  lemma {:induction false} CycleRecords(s: State, candidates: seq<Token>, venues: seq<VenueOutcome>, auto: AutoTrade)
    requires |venues| == |candidates|
    requires auto.enabled
    requires ' ' !in auto.amount
    requires forall k :: 0 <= k < |candidates| ==> ' ' !in candidates[k].contractAddress
    decreases |candidates|
    ensures Cycle(s, candidates, venues, auto).ledger == s.ledger + AutoRecords(candidates, venues, auto.amount)
  {
    if candidates == [] {
      assert s.ledger + [] == s.ledger;
    } else {
      var c := candidates[0];
      var step := CandidateStep(s, c, venues[0], auto);
      StepRecord(s, c, venues[0], auto);
      CycleRecords(step, candidates[1..], venues[1..], auto);
    }
  }

  /** With auto-trading off, a cycle adds no row and only the opportunity notices, in candidate order. */
  lemma {:induction false} CycleWithoutAutoTrade(s: State, candidates: seq<Token>, venues: seq<VenueOutcome>, auto: AutoTrade)
    requires |venues| == |candidates|
    requires !auto.enabled
    decreases |candidates|
    ensures Cycle(s, candidates, venues, auto)
         == State(s.ledger, s.notifications + seq(|candidates|, k requires 0 <= k < |candidates| => Opportunity(candidates[k])))
  {
    if candidates == [] {
      assert s.notifications + [] == s.notifications;
    } else {
      var step := CandidateStep(s, candidates[0], venues[0], auto);
      CycleWithoutAutoTrade(step, candidates[1..], venues[1..], auto);
      var all := seq(|candidates|, k requires 0 <= k < |candidates| => Opportunity(candidates[k]));
      var rest := seq(|candidates| - 1, k requires 0 <= k < |candidates| - 1 => Opportunity(candidates[1..][k]));
      assert all == [Opportunity(candidates[0])] + rest;
      assert step.notifications + rest == s.notifications + all;
    }
  }

  /** The fill a stored row records: its direction, amount word and price. */
  function RowFills(rows: seq<TradeRecord>): (fs: seq<Fill>)
    ensures |fs| == |rows|
  {
    if rows == [] then []
    else
      var r := rows[|rows| - 1];
      RowFills(rows[..|rows| - 1]) + [Fill(r.direction, r.amount, r.price)]
  }

  /**
   * The bookkeeping invariant: `base` (the rows already stored when the bot
   * started) is still at the head of the ledger, and the rows added since
   * are, in order, the fills the "Trade executed" notifications report:
   * the i-th new row has the direction, amount and price of the i-th
   * executed notice.
   */
  ghost predicate Accounted(base: seq<TradeRecord>, s: State)
  {
    && |base| <= |s.ledger|
    && s.ledger[..|base|] == base
    && RowFills(s.ledger[|base|..]) == Fills(s.notifications)
  }

  lemma OpportunityKeepsAccounted(base: seq<TradeRecord>, s: State, t: Token)
    requires Accounted(base, s)
    ensures Accounted(base, Notify(s, Opportunity(t)))
  {
    assert (s.notifications + [Opportunity(t)])[..|s.notifications|] == s.notifications;
  }

  lemma TradeKeepsAccounted(base: seq<TradeRecord>, s: State, command: string, direction: Direction, venue: VenueOutcome)
    requires Accounted(base, s)
    ensures Accounted(base, Trade(s, command, direction, venue))
  {
    var t := Trade(s, command, direction, venue);
    var n := TradeNotice(ParseCommand(command), direction, venue);
    assert (s.notifications + [n])[..|s.notifications|] == s.notifications;
    assert t.ledger[..|base|] == t.ledger[..|s.ledger|][..|base|];
    if venue.Success? {
      var added := s.ledger[|base|..];
      assert t.ledger[|base|..] == added + [t.ledger[|s.ledger|]];
      assert (added + [t.ledger[|s.ledger|]])[..|added|] == added;
    } else {
      assert t.ledger == s.ledger;
    }
  }

  lemma HandleTextKeepsAccounted(base: seq<TradeRecord>, s: State, text: string, venue: VenueOutcome)
    requires Accounted(base, s)
    ensures Accounted(base, HandleText(s, text, venue))
  {
    if StartsWith(text, "/buy") {
      TradeKeepsAccounted(base, s, text, Buy, venue);
    }
    var afterBuy := if StartsWith(text, "/buy") then Trade(s, text, Buy, venue) else s;
    if StartsWith(text, "/sell") {
      TradeKeepsAccounted(base, afterBuy, text, Sell, venue);
    }
  }

  lemma StepKeepsAccounted(base: seq<TradeRecord>, s: State, c: Token, venue: VenueOutcome, auto: AutoTrade)
    requires Accounted(base, s)
    ensures Accounted(base, CandidateStep(s, c, venue, auto))
  {
    OpportunityKeepsAccounted(base, s, c);
    if auto.enabled {
      TradeKeepsAccounted(base, Notify(s, Opportunity(c)), AutoCommand(auto.amount, c.contractAddress), Buy, venue);
    }
  }

  lemma {:induction false} CycleKeepsAccounted(base: seq<TradeRecord>, s: State, candidates: seq<Token>, venues: seq<VenueOutcome>, auto: AutoTrade)
    requires |venues| == |candidates|
    requires Accounted(base, s)
    decreases |candidates|
    ensures Accounted(base, Cycle(s, candidates, venues, auto))
  {
    if candidates != [] {
      StepKeepsAccounted(base, s, candidates[0], venues[0], auto);
      CycleKeepsAccounted(base, CandidateStep(s, candidates[0], venues[0], auto), candidates[1..], venues[1..], auto);
    }
  }

  /**
   * The invariant read off the chat: the rows added since start are as many
   * as the posted messages that begin with "Trade executed: ".
   */
  lemma AccountedInMessages(base: seq<TradeRecord>, s: State)
    requires Accounted(base, s)
    ensures |s.ledger| - |base| == CountWithPrefix(Texts(s.notifications), "Trade executed: ")
  {
    assert |RowFills(s.ledger[|base|..])| == |s.ledger| - |base|;
    CountIsPrefixCount(s.notifications, ExecutedKind);
  }
}
