/**
 * The messages `PumpFunTradingBot` passes to `sendNotification`. Each is
 * kept as the notice it stands for; `Text` renders the exact string posted
 * to the chat, and the three kinds can be told apart by their first words.
 */
module Notices {
  import opened Wrappers
  import opened Strings
  import opened Commands
  import opened Filters

  datatype Notice =
    | Opportunity(token: Token)
    | Executed(direction: Direction, amount: Option<string>, price: string)
    | Failed(reason: string)

  datatype Kind = OpportunityKind | ExecutedKind | FailedKind

  function KindOf(n: Notice): Kind
  {
    match n
    case Opportunity(_) => OpportunityKind
    case Executed(_, _, _) => ExecutedKind
    case Failed(_) => FailedKind
  }

  const OpportunityPrefix := "\U{1F4C8} Trading opportunity detected:\n"
  const ExecutedPrefix := "Trade executed: "
  const FailedPrefix := "Trade failed: "

  function Prefix(k: Kind): string
  {
    match k
    case OpportunityKind => OpportunityPrefix
    case ExecutedKind => ExecutedPrefix
    case FailedKind => FailedPrefix
  }

  /** How a template literal prints a value that may be `undefined`. */
  function Show(v: Option<string>): string
  {
    match v
    case Some(s) => s
    case None => "undefined"
  }

  /** `error.response?.data?.message || error.message`: an absent or empty venue message falls back. */
  function FailureReason(venueMessage: Option<string>, errorMessage: string): (reason: string)
    ensures venueMessage.Some? && venueMessage.value != "" ==> reason == venueMessage.value
    ensures venueMessage == None || venueMessage == Some("") ==> reason == errorMessage
  {
    if venueMessage.Some? && venueMessage.value != "" then venueMessage.value else errorMessage
  }

  function OpportunityDetails(t: Token): string
  {
    t.symbol + " (" + t.contractAddress + ")\nPrice: $" + t.priceText
      + "\nLiquidity: $" + t.liquidityText + "\nSafety Score: " + IntToText(t.safetyScore) + "%"
  }

  /** The string `sendNotification` posts for a notice. */
  function Text(n: Notice): string
  {
    match n
    case Opportunity(t) => OpportunityPrefix + OpportunityDetails(t)
    case Executed(direction, amount, price) =>
      ExecutedPrefix + ToUpper(DirectionText(direction)) + " " + Show(amount) + " @ $" + price
    case Failed(reason) => FailedPrefix + reason
  }

  /** The executed message names the direction in capitals, then the amount word (`undefined` when missing) and the price. */
  lemma ExecutedText(direction: Direction, amount: Option<string>, price: string)
    ensures Text(Executed(direction, amount, price))
         == "Trade executed: " + (if direction == Buy then "BUY" else "SELL") + " " + Show(amount) + " @ $" + price
  {
    if direction == Buy {
      assert ToUpper("buy") == "BUY";
    } else {
      assert ToUpper("sell") == "SELL";
    }
  }

  /** A buy of 5 filled at 2.05 is posted as `Trade executed: BUY 5 @ $2.05`. */
  lemma FilledBuyExample()
    ensures Text(Executed(Buy, Some("5"), "2.05")) == "Trade executed: BUY 5 @ $2.05"
  {
    ExecutedText(Buy, Some("5"), "2.05");
    assert "Trade executed: " + "BUY" + " " == "Trade executed: BUY ";
    assert "Trade executed: BUY " + "5" + " @ $" == "Trade executed: BUY 5 @ $";
  }

  /** A `/sell` with no amount word, filled at 1, prints the amount as `undefined`. */
  lemma MissingAmountExample()
    ensures Text(Executed(Sell, None, "1")) == "Trade executed: SELL undefined @ $1"
  {
    ExecutedText(Sell, None, "1");
    assert "Trade executed: " + "SELL" + " " == "Trade executed: SELL ";
    assert "Trade executed: SELL " + "undefined" + " @ $" == "Trade executed: SELL undefined @ $";
  }

  /**
   * The opportunity message for token ABC at 2.0 with liquidity 100 and
   * safety score 85: the banner line, then symbol and address, price,
   * liquidity and the score with a percent sign, one per line.
   */
  lemma OpportunityExample()
    ensures Text(Opportunity(Token("ABC", "ABC", "2.0", "100", 5000, 50, 85)))
         == OpportunityPrefix + "ABC (ABC)\nPrice: $2.0\nLiquidity: $100\nSafety Score: 85%"
  {
    assert NatToText(8) == "8";
    assert IntToText(85) == "85";
    assert "ABC" + " (" == "ABC (";
    assert "ABC (" + "ABC" == "ABC (ABC";
    assert "ABC (ABC" + ")\nPrice: $" == "ABC (ABC)\nPrice: $";
    assert "ABC (ABC)\nPrice: $" + "2.0" == "ABC (ABC)\nPrice: $2.0";
    assert "ABC (ABC)\nPrice: $2.0" + "\nLiquidity: $" == "ABC (ABC)\nPrice: $2.0\nLiquidity: $";
    assert "ABC (ABC)\nPrice: $2.0\nLiquidity: $" + "100" == "ABC (ABC)\nPrice: $2.0\nLiquidity: $100";
    assert "ABC (ABC)\nPrice: $2.0\nLiquidity: $100" + "\nSafety Score: "
        == "ABC (ABC)\nPrice: $2.0\nLiquidity: $100\nSafety Score: ";
    assert "ABC (ABC)\nPrice: $2.0\nLiquidity: $100\nSafety Score: " + "85"
        == "ABC (ABC)\nPrice: $2.0\nLiquidity: $100\nSafety Score: 85";
    var details := "ABC (ABC)\nPrice: $2.0\nLiquidity: $100\nSafety Score: 85%";
    assert "ABC (ABC)\nPrice: $2.0\nLiquidity: $100\nSafety Score: 85" + "%" == details;
    var t := Token("ABC", "ABC", "2.0", "100", 5000, 50, 85);
    assert OpportunityDetails(t) == details;
  }

  /** A posted message begins with the prefix of its own kind and with no other. */
  lemma TextTellsKind(n: Notice, k: Kind)
    ensures StartsWith(Text(n), Prefix(k)) <==> KindOf(n) == k
  {
    var m := Text(n);
    match n
    case Opportunity(t) =>
      StartsWithAppend(OpportunityPrefix, OpportunityDetails(t), OpportunityPrefix);
      assert m[0] == OpportunityPrefix[0] != ExecutedPrefix[0] == FailedPrefix[0];
    case Executed(direction, amount, price) =>
      StartsWithAppend(ExecutedPrefix, m[|ExecutedPrefix|..], ExecutedPrefix);
      assert m[0] == 'T' != OpportunityPrefix[0];
      assert m[6] == 'e' != FailedPrefix[6];
    case Failed(reason) =>
      StartsWithAppend(FailedPrefix, reason, FailedPrefix);
      assert m[0] == 'T' != OpportunityPrefix[0];
      assert m[6] == 'f' != ExecutedPrefix[6];
  }

  /** The number of notices of kind `k`. */
  function Count(ns: seq<Notice>, k: Kind): nat
  {
    if ns == [] then 0
    else Count(ns[..|ns| - 1], k) + (if KindOf(ns[|ns| - 1]) == k then 1 else 0)
  }

  lemma CountAppend(ns: seq<Notice>, n: Notice, k: Kind)
    ensures Count(ns + [n], k) == Count(ns, k) + (if KindOf(n) == k then 1 else 0)
  {
    assert (ns + [n])[..|ns|] == ns;
  }

  /** The messages as posted, in order. */
  function Texts(ns: seq<Notice>): (msgs: seq<string>)
    ensures |msgs| == |ns|
  {
    if ns == [] then [] else Texts(ns[..|ns| - 1]) + [Text(ns[|ns| - 1])]
  }

  /** Counting notices of a kind is counting the posted messages that carry its prefix. */
  lemma {:induction false} CountIsPrefixCount(ns: seq<Notice>, k: Kind)
    ensures CountWithPrefix(Texts(ns), Prefix(k)) == Count(ns, k)
  {
    if ns != [] {
      var init := ns[..|ns| - 1];
      CountIsPrefixCount(init, k);
      TextTellsKind(ns[|ns| - 1], k);
      assert Texts(ns)[..|ns| - 1] == Texts(init);
    }
  }

  /** What an executed notice reports: the direction, the amount word and the venue's price. */
  datatype Fill = Fill(direction: Direction, amount: Option<string>, price: string)

  /** The fills the executed notices report, in the order they were sent. */
  function Fills(ns: seq<Notice>): (fs: seq<Fill>)
    ensures |fs| == Count(ns, ExecutedKind)
  {
    if ns == [] then []
    else
      Fills(ns[..|ns| - 1])
      + (match ns[|ns| - 1]
         case Executed(direction, amount, price) => [Fill(direction, amount, price)]
         case _ => [])
  }

  /** The tokens the opportunity notices are about, in the order they were sent. */
  function Opportunities(ns: seq<Notice>): (ts: seq<Token>)
    ensures |ts| == Count(ns, OpportunityKind)
  {
    if ns == [] then []
    else
      Opportunities(ns[..|ns| - 1])
      + (match ns[|ns| - 1]
         case Opportunity(t) => [t]
         case _ => [])
  }

  /** The trade notices, executed or failed, in the order they were sent. */
  function Reports(ns: seq<Notice>): (rs: seq<Notice>)
    ensures |rs| == Count(ns, ExecutedKind) + Count(ns, FailedKind)
    ensures forall i :: 0 <= i < |rs| ==> KindOf(rs[i]) != OpportunityKind
  {
    if ns == [] then []
    else Reports(ns[..|ns| - 1]) + (if ns[|ns| - 1].Opportunity? then [] else [ns[|ns| - 1]])
  }

  lemma {:induction false} FillsAppend(a: seq<Notice>, b: seq<Notice>)
    decreases |b|
    ensures Fills(a + b) == Fills(a) + Fills(b)
  {
    if b == [] {
      assert a + b == a;
    } else {
      var init := b[..|b| - 1];
      FillsAppend(a, init);
      assert (a + b)[..|a + b| - 1] == a + init;
      assert (a + b)[|a + b| - 1] == b[|b| - 1];
    }
  }

  lemma {:induction false} OpportunitiesAppend(a: seq<Notice>, b: seq<Notice>)
    decreases |b|
    ensures Opportunities(a + b) == Opportunities(a) + Opportunities(b)
  {
    if b == [] {
      assert a + b == a;
    } else {
      var init := b[..|b| - 1];
      OpportunitiesAppend(a, init);
      assert (a + b)[..|a + b| - 1] == a + init;
      assert (a + b)[|a + b| - 1] == b[|b| - 1];
    }
  }

  lemma {:induction false} ReportsAppend(a: seq<Notice>, b: seq<Notice>)
    decreases |b|
    ensures Reports(a + b) == Reports(a) + Reports(b)
  {
    if b == [] {
      assert a + b == a;
    } else {
      var init := b[..|b| - 1];
      ReportsAppend(a, init);
      assert (a + b)[..|a + b| - 1] == a + init;
      assert (a + b)[|a + b| - 1] == b[|b| - 1];
    }
  }
}
