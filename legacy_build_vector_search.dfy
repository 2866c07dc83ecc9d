/**
 * The older index-building script: its `join_string` takes the row as a
 * tuple of five strings and, unlike the current one, has no fallback for a
 * colours value that does not parse. Its sanitising helpers are the same as
 * the current script's and are modelled there once.
 */
module LegacyBuildVectorSearch {
  import opened Wrappers
  import opened Text
  import opened BuildVectorSearch

  /** How the tuple-based `join_string` can fail. */
  datatype JoinError =
    | Unbound        // an empty tuple: the loop never runs, `final_string` is unbound
    | Unpack         // a tuple of other than five fields cannot be unpacked
    | ParseFailure   // the colours value does not parse as a list of strings

  /**
   * One pass of the loop body over `(title, promotion, specs, price, colors)`.
   * `parse` stands for `ast.literal_eval` followed by the join's check that
   * every element is a string; `None` is a raise.
   */
  function OnePass(item: seq<string>, parse: string -> Option<seq<string>>): Result<string, JoinError>
    requires |item| == 5
  {
    var lead := LeadingSegments(item[0], item[1], item[2], item[3]);
    if item[4] == "" then Ok(lead)
    else match parse(item[4])
      case None => Err(ParseFailure)
      case Some(colors) => Ok(lead + (ColorPrefix + Join(", ", colors)))
  }

  /** What the tuple-based `join_string` returns or raises. */
  function LegacyProductText(item: seq<string>, parse: string -> Option<seq<string>>): Result<string, JoinError> {
    if |item| == 0 then Err(Unbound)
    else if |item| != 5 then Err(Unpack)
    else OnePass(item, parse)
  }

  /**
   * `join_string(item)`: the loop runs once per field, but every pass
   * unpacks the same tuple and rebuilds the text from scratch, so the result
   * is that of a single pass.
   */
  method LegacyJoinString(item: seq<string>, parse: string -> Option<seq<string>>)
    returns (r: Result<string, JoinError>)
    ensures r == LegacyProductText(item, parse)
  {
    var finalString: Option<string> := None;
    for i := 0 to |item|
      invariant i > 0 ==> |item| == 5 && finalString.Some? && OnePass(item, parse) == Ok(finalString.value)
      invariant i == 0 ==> finalString.None?
    {
      if |item| != 5 {
        return Err(Unpack);
      }
      var title, promotion, specs, price, colors := item[0], item[1], item[2], item[3], item[4];
      var text := "";
      if title != "" {
        text := text + title;
      }
      ghost var lead := Segment("", title, title);
      assert text == lead;
      if promotion != "" {
        text := text + (" " + CleanMarkup(promotion));
      }
      lead := lead + Segment(" ", promotion, CleanMarkup(promotion));
      assert text == lead;
      if specs != "" {
        text := text + (" " + CleanMarkup(specs));
      }
      lead := lead + Segment(" ", specs, CleanMarkup(specs));
      assert text == lead;
      if price != "" {
        text := text + (PricePrefix + price);
      }
      lead := lead + Segment(PricePrefix, price, price);
      assert text == lead == LeadingSegments(title, promotion, specs, price);
      if colors != "" {
        var parsed := parse(colors);
        if parsed.None? {
          return Err(ParseFailure);
        }
        text := text + (ColorPrefix + Join(", ", parsed.value));
      }
      finalString := Some(text);
    }
    if finalString.None? {
      return Err(Unbound);
    }
    return Ok(finalString.value);
  }

  /**
   * Where the old script succeeds on a value that starts with '[' (or has
   * no colours), it produces the same text as the current one; on a
   * non-empty value that does not parse the old one fails where the current
   * one falls back to the value itself.
   */
  lemma LegacyAgreesWithCurrent(item: seq<string>, parse: string -> Option<seq<string>>)
    requires |item| == 5
    ensures var row := Row(item[0], item[1], item[2], item[3], item[4]);
            (item[4] == "" || (item[4][0] == '[' && parse(item[4]).Some?)) ==>
              LegacyProductText(item, parse) == Ok(ProductText(row, parse))
    ensures item[4] != "" && parse(item[4]).None? ==>
              LegacyProductText(item, parse) == Err(ParseFailure)
              && ProductText(Row(item[0], item[1], item[2], item[3], item[4]), parse)
                 == LeadingSegments(item[0], item[1], item[2], item[3]) + (ColorPrefix + item[4])
  {
    var lead := LeadingSegments(item[0], item[1], item[2], item[3]);
    if item[4] == "" {
      assert lead + "" == lead;
    }
  }

  /** The old script fails exactly on a malformed tuple or an unparsable colours value. */
  lemma LegacyFailsIff(item: seq<string>, parse: string -> Option<seq<string>>)
    ensures LegacyProductText(item, parse).Err? <==>
            |item| != 5 || (item[4] != "" && parse(item[4]).None?)
  {
  }
}
