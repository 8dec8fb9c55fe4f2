# Option series resolution — a Dafny model

This project models the core of the ACTIV option-series sample. Given an underlying
symbol and an option-series filter, the sample asks the content gateway for the
underlying's option roots. For each root it builds symbol patterns that only match
the contracts the filter admits. It then sends those patterns in one pattern-match
request and turns every valid reply block into an `OptionInfo` contract.

The model covers four pieces:

- The filter (`SeriesFilter`): the date and strike bounds, the call/put choice,
  the exchange list and the at-the-money range, with the two bound checks.
- The pattern builder (`Patterns`): cracking the root symbol at its last `.`,
  the fast path that emits wildcard patterns, and the slow path that emits the
  filtered cross product of expirations, strikes, exchanges and sides.
- The contract classifier (`Classifier`): the `OptionInfo` constructor, its
  `setField` and its getters, including the in-the-money rule.
- The resolver (`Series`): the root request, the reference price taken from the
  underlying's trade or close, the pattern list accumulated over every root, and
  the contracts collected from the pattern-match reply.

Both gateway replies are inputs to the model (`Gateway.Reply`), so nothing is sent.
The alias-symbol encoder and the two root-list decoders belong to the gateway
library. They appear as function-valued fields of `Gateway.Symbology`, and each may
fail with a status, as the library's exceptions do. Dates are day ordinals and
rationals are exact reals.

Where the source dereferences or casts without checking, the model states the
condition as a precondition:

- `SeriesFilter.Usable`: an at-the-money filter has a range.
- `Patterns.ListsTyped` (through `Patterns.RootReady`, required only where the
  builder decodes a root: off the fast path and for a symbol with a '.'): the
  expiration-list field, when defined, is a binary string; the strike-list
  field, when defined, is a blob, but only once the expiration list has decoded,
  since a decoder exception returns before the strike list is cast.
- `Series.PriceFieldsPresent`: the underlying block carries a trade field, and a
  close field when the trade is not defined.
- `Series.ContractReady`: each contract block carries an option-type field, and
  every defined strike field is a rational and every defined expiration field a
  date (`Gateway.Fits`), since the constructor casts each one it copies.

Every other failure is modelled as the status the code returns or swallows.

## Model

| member | source | states |
|---|---|---|
| SeriesFilter.DoFilterExpirationDate | src/com/activfinancial/samples/contentgatewayapi/optionseriessample/OptionSeriesFilter.java:343-363 | The status is SUCCESS or OUT_OF_RANGE, and SUCCESS exactly when the date lies in the inclusive window of the initialised bounds (`InDateWindow`); a null or uninitialised bound does not restrict |
| SeriesFilter.DoFilterStrikePrice | src/com/activfinancial/samples/contentgatewayapi/optionseriessample/OptionSeriesFilter.java:365-390 | SUCCESS exactly when the strike is in the inclusive strike window and, when the proximity test applies (at-the-money, nonzero range, nonzero reference), within the range of the reference; with a zero reference or without at-the-money only the window counts |
| SeriesFilter.FilterExpirations | src/com/activfinancial/samples/contentgatewayapi/optionseriessample/OptionSeriesFilter.java:230-232 | The kept dates are an order-preserving subsequence of the root's dates, and a date is kept iff it is in the root's list and in the date window; each kept date occurs as often as in the root's list, so duplicates are not collapsed |
| SeriesFilter.FilterStrikes | src/com/activfinancial/samples/contentgatewayapi/optionseriessample/OptionSeriesFilter.java:242-244 | The kept strikes are an order-preserving subsequence, and a strike is kept iff it is in the root's list, in the strike window and near the money; each kept strike occurs as often as in the root's list |
| SeriesFilter.FastPathExcludesNothing | src/com/activfinancial/samples/contentgatewayapi/optionseriessample/OptionSeriesFilter.java:191-196 | Under the shortcut's conditions neither bound check can reject a date or a strike, so the wildcard shortcut loses no contract |
| Patterns.LastIndexOf | src/com/activfinancial/samples/contentgatewayapi/optionseriessample/OptionSeriesFilter.java:327-329 | -1 iff the character is absent; otherwise the index holds the character and none follows it |
| Patterns.CrackOptionRoot | src/com/activfinancial/samples/contentgatewayapi/optionseriessample/OptionSeriesFilter.java:326-340 | INVALID_PARAMETER iff the symbol has no '.'; otherwise the symbol is base + "." + exchange with a dot-free exchange |
| Patterns.CrackJoin | src/com/activfinancial/samples/contentgatewayapi/optionseriessample/OptionSeriesFilter.java:326-340 | Round trip: cracking base + "." + exchange, for a dot-free exchange, gives back exactly that base and exchange |
| Patterns.WildcardPatterns | src/com/activfinancial/samples/contentgatewayapi/optionseriessample/OptionSeriesFilter.java:203-207 | One pattern per exchange code, in list order, the i-th being root + "/*." + code i |
| Patterns.FastPathPatterns | src/com/activfinancial/samples/contentgatewayapi/optionseriessample/OptionSeriesFilter.java:198-208 | One pattern per exchange code, or exactly one when the list is empty |
| Patterns.Sides | src/com/activfinancial/samples/contentgatewayapi/optionseriessample/OptionSeriesFilter.java:258-277 | A side is emitted iff the call/put choice admits it, call comes before put when both are admitted, and a null choice (`Unset`) admits none |
| Patterns.Venues | src/com/activfinancial/samples/contentgatewayapi/optionseriessample/OptionSeriesFilter.java:257-280 | The exchange codes patterns are built for are the filter's list, or the single wildcard "*" when the list is empty |
| Patterns.CombosLength | src/com/activfinancial/samples/contentgatewayapi/optionseriessample/OptionSeriesFilter.java:254-280 | The nested loops produce \|dates\| * \|strikes\| * \|exchanges\| * \|sides\| combinations |
| Patterns.CombosAt | src/com/activfinancial/samples/contentgatewayapi/optionseriessample/OptionSeriesFilter.java:254-280 | Loop order: the combination (date i, strike j, exchange v, side l) sits at its lexicographic index, expiration outermost and side innermost |
| Patterns.CombosMember | src/com/activfinancial/samples/contentgatewayapi/optionseriessample/OptionSeriesFilter.java:254-280 | A combination is produced iff each of its four coordinates is in its list |
| Patterns.EncodeCombos | src/com/activfinancial/samples/contentgatewayapi/optionseriessample/OptionSeriesFilter.java:256-284 | Each pattern is the encoding of the combination at its position; the first encoder failure stops the loop with that status, and the patterns before it stay in the list |
| Patterns.RootExpirations | src/com/activfinancial/samples/contentgatewayapi/optionseriessample/OptionSeriesFilter.java:309-319 | The expiration universe is the decoder's result on the expiration-list field when that field is present and defined, and empty otherwise |
| Patterns.RootStrikes | src/com/activfinancial/samples/contentgatewayapi/optionseriessample/OptionSeriesFilter.java:296-306 | The strike universe is the decoder's result on the strike-list field when that field is present and defined, and empty otherwise |
| Patterns.RootUniverse | src/com/activfinancial/samples/contentgatewayapi/optionseriessample/OptionSeriesFilter.java:211-240 | An undecodable block gives its status; otherwise the expiration list is decoded first and its failure wins whatever the strike-list field holds, then the strike list; on success the universe is exactly the two decoded lists |
| Patterns.RootUniverseIgnoresOtherFields | src/com/activfinancial/samples/contentgatewayapi/optionseriessample/OptionSeriesFilter.java:296-319 | The universe reads only the strike-list and expiration-list fields: inserting a field with any other id anywhere in the block changes neither its well-typedness nor the universe or error status |
| Patterns.SlowPathPatterns | src/com/activfinancial/samples/contentgatewayapi/optionseriessample/OptionSeriesFilter.java:246-292 | The patterns encode the filtered combinations in order up to the first encoder failure, whose status is returned; without a failure, SUCCESS iff some (expiration, strike) pair survived the filter, FAILURE otherwise |
| Patterns.CalculateOptionPatterns | src/com/activfinancial/samples/contentgatewayapi/optionseriessample/OptionSeriesFilter.java:174-293 | The call only appends to the caller's list; a symbol without '.' returns INVALID_PARAMETER and adds nothing, whatever the block's fields hold; off the fast path, a block that cannot be decoded or a list decoder that throws returns that status and adds nothing |
| Patterns.AppendOnly | src/com/activfinancial/samples/contentgatewayapi/optionseriessample/OptionSeriesFilter.java:174-293 | The status and the added patterns do not depend on what the list held before the call |
| Patterns.FastPath | src/com/activfinancial/samples/contentgatewayapi/optionseriessample/OptionSeriesFilter.java:191-208 | On the shortcut (`IsFastPath`: both sides, all four bounds unset, not at-the-money) the added patterns are root + "/*" alone, or root + "/*." + code for each exchange code in order; the status is FAILURE |
| Patterns.SlowPath | src/com/activfinancial/samples/contentgatewayapi/optionseriessample/OptionSeriesFilter.java:210-292 | With an encoder that never fails: SUCCESS iff at least one (expiration, strike) pair survives the filter, FAILURE otherwise; the number of added patterns is the product of the four list lengths; pattern i encodes combination i |
| Patterns.SlowPathSound | src/com/activfinancial/samples/contentgatewayapi/optionseriessample/OptionSeriesFilter.java:218-289 | Every added pattern encodes a combination the filter admits (date and strike in the root's lists and windows, near the money, allowed side, listed exchange), even when the encoder fails part-way |
| Patterns.SlowPathComplete | src/com/activfinancial/samples/contentgatewayapi/optionseriessample/OptionSeriesFilter.java:218-289 | With an encoder that never fails, every admitted combination's encoding is among the added patterns |
| Patterns.RootWithoutExpirationsAddsNothing | src/com/activfinancial/samples/contentgatewayapi/optionseriessample/OptionSeriesFilter.java:219-292 | A root whose expiration-list field is absent or undefined adds no pattern on the slow path; its status is FAILURE, or the strike decoder's status when that throws |
| Patterns.FastPathReportsFailure | src/com/activfinancial/samples/contentgatewayapi/optionseriessample/OptionSeriesFilter.java:172-208 | The shortcut adds at least one pattern yet returns FAILURE, contrary to the method's documentation |
| Patterns.UnsetSideAddsNothing | src/com/activfinancial/samples/contentgatewayapi/optionseriessample/OptionSeriesFilter.java:246-289 | With a null call/put choice (the setter at lines 69-71 accepts one) the slow path adds no pattern, yet returns SUCCESS iff some (expiration, strike) pair survives the filter, since line 287 sets it regardless of the side tests at 258-277 |
| Classifier.LastDefined | src/com/activfinancial/samples/contentgatewayapi/optionseriessample/OptionInfo.java:43-47 | Some value iff a defined field carries the id, and then it is the value of the last such field in wire order |
| Classifier.SetField | src/com/activfinancial/samples/contentgatewayapi/optionseriessample/OptionInfo.java:75-97 | Storing a field puts its value under its id, keeps the side and the reference price, and preserves the in-the-money rule |
| Classifier.CopyDefined | src/com/activfinancial/samples/contentgatewayapi/optionseriessample/OptionInfo.java:43-47 | Copying the defined fields in order keeps the side and the reference price, and preserves the in-the-money rule |
| Classifier.CopyDefinedField | src/com/activfinancial/samples/contentgatewayapi/optionseriessample/OptionInfo.java:43-47 | After the copy an id is stored iff it was stored before or some defined field carries it, and its value is the last defined one |
| Classifier.CopyDefinedStrikeAndExpiration | src/com/activfinancial/samples/contentgatewayapi/optionseriessample/OptionInfo.java:75-97 | The strike and the expiration become the last defined strike and expiration fields, and stay unchanged when there are none |
| Classifier.NewOptionInfo | src/com/activfinancial/samples/contentgatewayapi/optionseriessample/OptionInfo.java:34-49 | A new contract is a call iff its option-type field holds the call enumeration, carries the given reference price, and satisfies the strict in-the-money rule (`InTheMoneyRule`) |
| Classifier.ClassifiedContract | src/com/activfinancial/samples/contentgatewayapi/optionseriessample/OptionInfo.java:34-49 | A new contract is a call iff its option-type field is the call enumeration; it holds exactly the defined fields, each with its last defined value; its strike and expiration come from those fields; it is in the money iff it has a strike and a nonzero reference and the reference is strictly above (call) or below (put) the strike |
| Classifier.MoneySuffix | src/com/activfinancial/samples/contentgatewayapi/optionseriessample/OptionInfo.java:66-68 | No suffix iff the reference price is zero; otherwise "in the money" iff the contract is in the money |
| Classifier.AtTheMoneyIsNotInTheMoney | src/com/activfinancial/samples/contentgatewayapi/optionseriessample/OptionInfo.java:80-91 | A contract struck exactly at the reference price is never in the money |
| Series.RootRequestBlocks | src/com/activfinancial/samples/contentgatewayapi/optionseriessample/GetOptionSeriesHelper.java:72-76 | The root request is the option-root block, followed by the trade/close block iff the filter is at-the-money: two blocks at-the-money, one otherwise |
| Series.FirstUnderlying | src/com/activfinancial/samples/contentgatewayapi/optionseriessample/GetOptionSeriesHelper.java:124-125 | The index of the first valid block without a relationship; none iff there is no such block |
| Series.PriceOf | src/com/activfinancial/samples/contentgatewayapi/optionseriessample/GetOptionSeriesHelper.java:126-143 | The trade when it is defined, else the close when it is defined, else zero; an undecodable block or a wrongly typed value also leaves zero |
| Series.ScanPrice | src/com/activfinancial/samples/contentgatewayapi/optionseriessample/GetOptionSeriesHelper.java:124-146 | The scan prices the first underlying block, and gives zero when there is none |
| Series.ReferencePrice | src/com/activfinancial/samples/contentgatewayapi/optionseriessample/GetOptionSeriesHelper.java:121-156 | Zero unless at-the-money filtering is on; then the price of the first underlying block, or zero without one |
| Series.LaterUnderlyingsIgnored | src/com/activfinancial/samples/contentgatewayapi/optionseriessample/GetOptionSeriesHelper.java:124-146 | Whatever follows the first underlying block does not change the reference price |
| Series.RootPatterns | src/com/activfinancial/samples/contentgatewayapi/optionseriessample/GetOptionSeriesHelper.java:162-168 | The loop over the root reply only appends to the pattern list |
| Series.RootPatternsConcatenate | src/com/activfinancial/samples/contentgatewayapi/optionseriessample/GetOptionSeriesHelper.java:162-168 | The pattern list is the concatenation, in reply order, of each option-root block's own contribution; statuses are ignored and nothing is deduplicated |
| Series.Classifiables | src/com/activfinancial/samples/contentgatewayapi/optionseriessample/GetOptionSeriesHelper.java:99-103 | The kept blocks are an order-preserving subsequence of the reply, and a block is kept iff it is valid and decodable; each kept block occurs as often as in the reply |
| Series.CollectOptions | src/com/activfinancial/samples/contentgatewayapi/optionseriessample/GetOptionSeriesHelper.java:97-113 | Collecting only appends to the caller's contract list |
| Series.ClassifyAll | src/com/activfinancial/samples/contentgatewayapi/optionseriessample/GetOptionSeriesHelper.java:105-107 | One contract per kept block, in order, each built from that block's fields and the reference price |
| Series.CollectOptionsExact | src/com/activfinancial/samples/contentgatewayapi/optionseriessample/GetOptionSeriesHelper.java:97-113 | The contract list grows by exactly one classified contract per valid, decodable block, in reply order, and by nothing else |
| Series.GetOptionSeries | src/com/activfinancial/samples/contentgatewayapi/optionseriessample/GetOptionSeriesHelper.java:60-118 | A null filter is an illegal argument. Otherwise a failed root query returns its status with no contracts added and no pattern request; after it, the pattern query's status is returned; contracts are added only on success, and only appended |
| Series.PatternRequestFromRoots | src/com/activfinancial/samples/contentgatewayapi/optionseriessample/GetOptionSeriesHelper.java:161-171 | Once the root query succeeds, the pattern request is every option root's contribution in reply order at the reference price, whatever the pattern reply is |
| Series.GetOptionSeriesSucceeds | src/com/activfinancial/samples/contentgatewayapi/optionseriessample/GetOptionSeriesHelper.java:60-118 | When both queries succeed, the pattern request is the concatenation of every option root's patterns, built against the reference price, and the contract list gains one classified contract per valid, decodable block |

## Left out

- Transport: sending both requests, the client, and the request parameter objects. The replies are inputs.
- The alias-symbol encoder (`buildAliasSymbol`) and the strike-list and expiration-list decoders belong to the gateway library, which is not part of this model. They are uninterpreted functions that may fail with a status.
- The field-list validator is not part of this model. `Gateway.Lookup` returns the first field carrying an id; iteration follows the wire order of `Decoding.Decoded`.
- The table number (the equity-option alias table) is the same for every pattern, so `SymbolPattern` keeps only the pattern text.
- The proximity test compares `getDouble()` values in floating point. The model compares exact reals, so rounding at the edge of the range is not modelled.
- The filter's ask, bid, volume and open-interest fields, and their accessors, are never read by the core.
- Cloning the reference price and each copied field only copies values, so it is the identity here. A failure while cloning a contract field is treated like a decoding failure: the block is skipped.
- `toString` of `OptionInfo`: only its money suffix is modelled (`MoneySuffix`). Field-name lookup and the ordering of the field map's keys belong to the library.
- A null exchange list throws a null-reference exception in the source. The model's list is never null. A null call/put choice is modelled (`SeriesFilter.CallPut.Unset`).
- Classifier.NewOptionInfo: the source decides `isCall` by comparing the option-type field's text with the text of the call enumeration. The model compares the decoded value with `Enum(OptionTypeCall)`. A field of another type whose text equals that constant is therefore a call in the source and a put in the model. Rendering a value as text belongs to the library.
- The branch at OptionSeriesFilter.java:333 can never be taken, because `lastIndexOf` returns an index below the length. It is therefore not modelled; `CrackOptionRoot` yields an empty exchange when the symbol ends in '.'.
- Exceptions the source does not catch become preconditions (`Usable`, `ListsTyped`, `PriceFieldsPresent`, `ContractReady`) instead of modelled errors.
- Patterns.SlowPath: its count and position facts assume an encoder that never fails (`AliasTotal`). With a failing encoder, `EncodeCombos` and `SlowPathSound` state what remains.
- The fast path returns FAILURE although its documentation promises SUCCESS once a pattern is added. The model follows the code (see `Patterns.FastPathReportsFailure`); the resolver ignores this status anyway.
