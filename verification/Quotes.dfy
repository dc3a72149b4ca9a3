/** Picking the best of several exchange quotes (swap/reverse.rs). */
module Quotes {
  import opened Wrappers
  import opened Decimal

  datatype Direction = In | Out

  /** A quote: its amount as text, and the route data that goes with it. */
  datatype Response = Response(quote: string, data: string)

  datatype ParsedQuote = ParsedQuote(amount: nat, data: string)

  datatype QuoteError = NoQuote | InvalidAmount(text: string)

  function Amount(q: Response): Option<nat> {
    ParseUnsigned(q.quote, U128_MAX)
  }

  predicate Better(a: nat, b: nat, direction: Direction) {
    if direction.In? then a > b else a < b
  }

  /** The first `n` amounts parse. */
  predicate AllParse(quotes: seq<Response>, n: nat)
    requires n <= |quotes|
  {
    forall j | 0 <= j < n :: Amount(quotes[j]).Some?
  }

  /** `quotes[i]` is the first of the best among the first `n`: the most output for an input, the least
      input for an output. */
  predicate IsBest(quotes: seq<Response>, n: nat, i: nat, direction: Direction)
    requires i < n <= |quotes| && AllParse(quotes, n)
  {
    var best := Amount(quotes[i]).value;
    match direction
    case In =>
      && (forall j | 0 <= j < n :: best >= Amount(quotes[j]).value)
      && (forall j | 0 <= j < i :: best > Amount(quotes[j]).value)
    case Out =>
      && (forall j | 0 <= j < n :: best <= Amount(quotes[j]).value)
      && (forall j | 0 <= j < i :: best < Amount(quotes[j]).value)
  }

  /** The best quote, with the data it came with, provided there is one and every amount parses: the most
      output, or the least input, the first one among equals. */
  method PickBestQuoteWithData(quotes: seq<Response>, direction: Direction)
    returns (r: Result<ParsedQuote, QuoteError>, ghost chosen: nat)
    ensures r.Ok? <==> quotes != [] && AllParse(quotes, |quotes|)
    ensures r.Ok? ==>
              && chosen < |quotes| && IsBest(quotes, |quotes|, chosen, direction)
              && r.value == ParsedQuote(Amount(quotes[chosen]).value, quotes[chosen].data)
    ensures r.Err? ==>
              if quotes == [] then r.error == NoQuote
              else && chosen < |quotes| && AllParse(quotes, chosen) && Amount(quotes[chosen]).None?
                   && r.error == InvalidAmount(quotes[chosen].quote)
  {
    hide Amount;
    chosen := 0;
    if quotes == [] { return Err(NoQuote), 0; }
    var best: Option<ParsedQuote> := None;
    for i := 0 to |quotes|
      invariant AllParse(quotes, i)
      invariant if i == 0 then best == None
                else && chosen < i && IsBest(quotes, i, chosen, direction)
                     && best == Some(ParsedQuote(Amount(quotes[chosen]).value, quotes[chosen].data))
    {
      var amount := Amount(quotes[i]);
      if amount.None? { return Err(InvalidAmount(quotes[i].quote)), i; }
      assert AllParse(quotes, i + 1);
      if best.None? || Better(amount.value, best.value.amount, direction) {
        best := Some(ParsedQuote(amount.value, quotes[i].data));
        chosen := i;
      }
    }
    r := if best.Some? then Ok(best.value) else Err(NoQuote);
  }
}
