/**
 * Chat-command handling of pumpfun-trading-bot.js: the `/buy` and `/sell`
 * prefix tests of the text handler, the `command.split(' ')` destructuring
 * in `executeTrade`, and the command the auto-trader synthesises. There is
 * no validation anywhere: a missing amount or contract is `undefined`.
 */
module Commands {
  import opened Wrappers
  import opened Strings

  datatype Direction = Buy | Sell

  /** The direction string passed to `executeTrade`. */
  function DirectionText(d: Direction): string
  {
    match d
    case Buy => "buy"
    case Sell => "sell"
  }

  /** No text starts with both `/buy` and `/sell`: they differ at their second character. */
  lemma PrefixesExclusive(text: string)
    ensures !(StartsWith(text, "/buy") && StartsWith(text, "/sell"))
  {
    if StartsWith(text, "/buy") {
      assert text[1] == text[..4][1] == 'b';
      if |text| >= 5 {
        assert text[..5][1] == 'b' != "/sell"[1];
      }
    }
  }

  /**
   * The trades the text handler starts for one chat message, in order: the
   * handler runs two independent `if`s, one for each prefix.
   */
  function Dispatch(text: string): (ds: seq<Direction>)
    ensures |ds| <= 1
    ensures ds == [Buy] <==> StartsWith(text, "/buy")
    ensures ds == [Sell] <==> StartsWith(text, "/sell")
    ensures ds == [] <==> !StartsWith(text, "/buy") && !StartsWith(text, "/sell")
  {
    PrefixesExclusive(text);
    assert [Buy] != [Sell] by { assert [Buy][0] != [Sell][0]; }
    (if StartsWith(text, "/buy") then [Buy] else [])
      + (if StartsWith(text, "/sell") then [Sell] else [])
  }

  /** The direction is decided by the prefix alone, whatever follows it (`/buyers x` is a buy). */
  lemma DirectionFromPrefix(rest: string)
    ensures Dispatch("/buy" + rest) == [Buy]
    ensures Dispatch("/sell" + rest) == [Sell]
  {
    StartsWithAppend("/buy", rest, "/buy");
    StartsWithAppend("/sell", rest, "/sell");
  }

  /** What `const [_, amount, contract] = command.split(' ')` binds. */
  datatype ParsedCommand = ParsedCommand(amount: Option<string>, contract: Option<string>)

  /** Array destructuring: an index past the end reads `undefined`. */
  function Element(parts: seq<string>, i: nat): Option<string>
  {
    if i < |parts| then Some(parts[i]) else None
  }

  function ParseCommand(command: string): ParsedCommand
  {
    var parts := Split(command);
    ParsedCommand(Element(parts, 1), Element(parts, 2))
  }

  /**
   * For a command made of space-free words, the amount is word 1 and the
   * contract word 2, each `undefined` when the command has too few words;
   * word 0 (the command itself) and any words after the contract are ignored.
   */
  lemma ParseWords(words: seq<string>)
    requires |words| >= 1
    requires forall k :: 0 <= k < |words| ==> ' ' !in words[k]
    ensures ParseCommand(Join(words)).amount == (if |words| > 1 then Some(words[1]) else None)
    ensures ParseCommand(Join(words)).contract == (if |words| > 2 then Some(words[2]) else None)
  {
    SplitJoin(words);
  }

  /** The text run through `executeTrade` by the auto-trader: `/buy <amount> <contract>`. */
  function AutoCommand(amount: string, contract: string): string
  {
    "/buy " + amount + " " + contract
  }

  /**
   * The synthesised command is dispatched as a buy and parses back to the
   * configured amount and the candidate's address, provided neither holds a space.
   */
  lemma AutoCommandRoundTrip(amount: string, contract: string)
    requires ' ' !in amount && ' ' !in contract
    ensures Dispatch(AutoCommand(amount, contract)) == [Buy]
    ensures ParseCommand(AutoCommand(amount, contract)) == ParsedCommand(Some(amount), Some(contract))
  {
    var words := ["/buy", amount, contract];
    assert forall k :: 0 <= k < |words| ==> ' ' !in words[k];
    assert Join(words) == "/buy" + " " + (amount + " " + contract) by {
      assert words[1..] == [amount, contract];
      assert [amount, contract][1..] == [contract];
      assert Join([contract]) == contract;
      assert Join([amount, contract]) == amount + " " + contract;
    }
    assert "/buy" + " " == "/buy ";
    assert AutoCommand(amount, contract) == Join(words);
    ParseWords(words);
    DirectionFromPrefix(" " + amount + " " + contract);
    assert AutoCommand(amount, contract) == "/buy" + (" " + amount + " " + contract);
  }

  /**
   * Nothing is validated: a bare `/buy` yields neither amount nor contract,
   * and a doubled space shifts the words, so the amount is empty and the
   * contract is the number.
   */
  lemma NoValidation()
    ensures ParseCommand("/buy") == ParsedCommand(None, None)
    ensures ParseCommand("/sell 5") == ParsedCommand(Some("5"), None)
    ensures ParseCommand("/buy  5 X") == ParsedCommand(Some(""), Some("5"))
  {
    ParseWords(["/buy"]);
    assert Join(["/sell", "5"]) == "/sell 5";
    ParseWords(["/sell", "5"]);
    var words := ["/buy", "", "5", "X"];
    assert Join(words) == "/buy  5 X";
    ParseWords(words);
  }
}
