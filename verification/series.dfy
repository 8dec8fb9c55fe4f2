/** The series resolver: the root query, the reference price, the pattern list
    accumulated over all roots, and the contracts built from the pattern-match
    reply. Both gateway replies are inputs; nothing is sent. */
module Series {
  import opened Wrappers
  import opened Gateway
  import opened Seqs
  import opened SeriesFilter
  import opened Patterns
  import opened Classifier

  /** One block of a gateway request: a relationship and the fields wanted from it. */
  datatype RequestBlock = RequestBlock(relationship: Relationship, fieldIds: seq<FieldId>)

  /** The option roots of the underlying, with their strike and expiration lists. */
  const OptionRootRequest := RequestBlock(OptionRoot, [StrikePriceList, ExpirationDateList])

  /** The underlying itself, with its trade and close. */
  const LastTradeRequest := RequestBlock(NoRelationship, [Trade, Close])

  /** What one resolution returns: the filter was null, or a status, the contract
      list after the call, and the two requests built on the way (the pattern
      request is absent when the root query failed). */
  datatype SeriesOutcome =
    | IllegalArgument(message: string)
    | Completed(status: Status, options: seq<OptionInfo>,
                rootRequest: seq<RequestBlock>, patternRequest: Option<seq<SymbolPattern>>)

  predicate IsUnderlying(b: ResponseBlock) {
    b.valid && b.relationship == NoRelationship
  }

  predicate IsRoot(b: ResponseBlock) {
    b.valid && b.relationship == OptionRoot
  }

  // ---------------------------------------------------------------- the root request

  /** The root query asks for the roots, and for the underlying's prices only in
      at-the-money mode. */
  function RootRequestBlocks(f: Filter): (r: seq<RequestBlock>)
    ensures |r| == if f.atTheMoney then 2 else 1
    ensures r[0] == OptionRootRequest
    ensures LastTradeRequest in r <==> f.atTheMoney
    ensures forall i | 0 <= i < |r| :: r[i] == OptionRootRequest || r[i] == LastTradeRequest
  {
    if f.atTheMoney then [OptionRootRequest, LastTradeRequest] else [OptionRootRequest]
  }

  // ---------------------------------------------------------------- the reference price

  /** Index of the first valid block without a relationship. */
  function FirstUnderlying(blocks: seq<ResponseBlock>): (r: Option<nat>)
    ensures r.Some? ==> r.value < |blocks| && IsUnderlying(blocks[r.value])
    ensures r.Some? ==> forall j | 0 <= j < r.value :: !IsUnderlying(blocks[j])
    ensures r.None? <==> forall j | 0 <= j < |blocks| :: !IsUnderlying(blocks[j])
  {
    if |blocks| == 0 then None
    else if IsUnderlying(blocks[0]) then Some(0)
    else
      match FirstUnderlying(blocks[1..])
      case None => None
      case Some(k) => Some(k + 1)
  }

  /** The source reads the trade field, and the close field when the trade is
      not defined, without a null check. */
  predicate PriceFieldsPresent(b: ResponseBlock) {
    b.data.Decoded? ==>
      && Lookup(b.data.fields, Trade).Some?
      && (Lookup(b.data.fields, Trade).value.status != Defined ==> Lookup(b.data.fields, Close).Some?)
  }

  predicate UnderlyingReady(f: Filter, blocks: seq<ResponseBlock>) {
    f.atTheMoney && FirstUnderlying(blocks).Some? ==> PriceFieldsPresent(blocks[FirstUnderlying(blocks).value])
  }

  /** The underlying's price: the trade if defined, else the close if defined,
      else zero. A block that cannot be decoded, or a price of the wrong type,
      leaves zero. */
  function PriceOf(b: ResponseBlock): (p: real)
    requires PriceFieldsPresent(b)
    ensures b.data.Undecodable? ==> p == 0.0
    ensures b.data.Decoded? ==>
              var trade := Lookup(b.data.fields, Trade).value;
              && (trade.status == Defined ==> p == (if trade.value.Rational? then trade.value.r else 0.0))
              && (trade.status != Defined ==>
                    var close := Lookup(b.data.fields, Close).value;
                    p == if close.status == Defined && close.value.Rational? then close.value.r else 0.0)
  {
    match b.data
    case Undecodable(_) => 0.0
    case Decoded(fields) =>
      var trade := Lookup(fields, Trade).value;
      if trade.status == Defined then
        match trade.value
        case Rational(t) => t
        case _ => 0.0
      else
        var close := Lookup(fields, Close).value;
        if close.status == Defined then
          match close.value
          case Rational(c) => c
          case _ => 0.0
        else 0.0
  }

  /** The scan of the root reply, stopping at the first underlying block. */
  function ScanPrice(blocks: seq<ResponseBlock>): (p: real)
    requires FirstUnderlying(blocks).Some? ==> PriceFieldsPresent(blocks[FirstUnderlying(blocks).value])
    ensures FirstUnderlying(blocks).None? ==> p == 0.0
    ensures FirstUnderlying(blocks).Some? ==> p == PriceOf(blocks[FirstUnderlying(blocks).value])
  {
    if |blocks| == 0 then 0.0
    else if IsUnderlying(blocks[0]) then PriceOf(blocks[0])
    else
      assert FirstUnderlying(blocks[1..]).Some? ==> blocks[1..][FirstUnderlying(blocks[1..]).value] == blocks[FirstUnderlying(blocks).value];
      ScanPrice(blocks[1..])
  }

  /** The reference price: zero unless at-the-money filtering was asked for. */
  function ReferencePrice(f: Filter, blocks: seq<ResponseBlock>): (p: real)
    requires UnderlyingReady(f, blocks)
    ensures !f.atTheMoney ==> p == 0.0
    ensures f.atTheMoney && FirstUnderlying(blocks).None? ==> p == 0.0
    ensures f.atTheMoney && FirstUnderlying(blocks).Some? ==> p == PriceOf(blocks[FirstUnderlying(blocks).value])
  {
    if f.atTheMoney then ScanPrice(blocks) else 0.0
  }

  /** Only the first underlying block counts; later ones are ignored. */
  lemma {:induction false} LaterUnderlyingsIgnored(f: Filter, pre: seq<ResponseBlock>, b: ResponseBlock, post: seq<ResponseBlock>)
    requires forall j | 0 <= j < |pre| :: !IsUnderlying(pre[j])
    requires IsUnderlying(b) && PriceFieldsPresent(b)
    ensures UnderlyingReady(f, pre + [b] + post)
    ensures ReferencePrice(f, pre + [b] + post) == if f.atTheMoney then PriceOf(b) else 0.0
  {
    var blocks := pre + [b] + post;
    FirstUnderlyingAfter(pre, b, post);
    assert blocks[|pre|] == b;
  }

  lemma {:induction false} FirstUnderlyingAfter(pre: seq<ResponseBlock>, b: ResponseBlock, post: seq<ResponseBlock>)
    requires forall j | 0 <= j < |pre| :: !IsUnderlying(pre[j])
    requires IsUnderlying(b)
    ensures FirstUnderlying(pre + [b] + post) == Some(|pre|)
  {
    if |pre| > 0 {
      FirstUnderlyingAfter(pre[1..], b, post);
      assert (pre + [b] + post)[1..] == pre[1..] + [b] + post;
    }
  }

  // ---------------------------------------------------------------- the pattern list

  /** Every option-root block whose list fields the builder casts (`RootReady`)
      holds them with the types the casts expect. */
  predicate RootsWellTyped(f: Filter, blocks: seq<ResponseBlock>, sym: Symbology) {
    forall i | 0 <= i < |blocks| :: IsRoot(blocks[i]) ==> RootReady(f, blocks[i], sym)
  }

  lemma RootsReadyTail(f: Filter, blocks: seq<ResponseBlock>, sym: Symbology)
    requires RootsWellTyped(f, blocks, sym) && |blocks| > 0
    ensures IsRoot(blocks[0]) ==> RootReady(f, blocks[0], sym)
    ensures RootsWellTyped(f, blocks[1..], sym)
  {
    forall i | 0 <= i < |blocks| - 1 && IsRoot(blocks[1..][i])
      ensures RootReady(f, blocks[1..][i], sym)
    {
      assert blocks[1..][i] == blocks[i + 1];
    }
  }

  /** The loop over the root reply: each option-root block appends its patterns,
      whatever status the builder returns. */
  function RootPatterns(f: Filter, blocks: seq<ResponseBlock>, lastTrade: real, sym: Symbology,
                        acc: seq<SymbolPattern>): (r: seq<SymbolPattern>)
    requires Usable(f) && RootsWellTyped(f, blocks, sym)
    ensures |acc| <= |r| && r[..|acc|] == acc
    decreases |blocks|
  {
    if |blocks| == 0 then acc
    else
      RootsReadyTail(f, blocks, sym);
      var next := Step(f, blocks[0], lastTrade, sym, acc);
      var r := RootPatterns(f, blocks[1..], lastTrade, sym, next);
      assert r[..|next|][..|acc|] == r[..|acc|];
      r
  }

  /** What one block contributes on its own: an option root's patterns, or nothing. */
  function Contribution(f: Filter, b: ResponseBlock, lastTrade: real, sym: Symbology): seq<SymbolPattern>
    requires Usable(f) && (IsRoot(b) ==> RootReady(f, b, sym))
  {
    if IsRoot(b) then CalculateOptionPatterns(b, f, [], lastTrade, sym).patterns else []
  }

  /** The blocks' contributions, concatenated in block order. */
  function Contributions(f: Filter, blocks: seq<ResponseBlock>, lastTrade: real, sym: Symbology): seq<SymbolPattern>
    requires Usable(f) && RootsWellTyped(f, blocks, sym)
    decreases |blocks|
  {
    if |blocks| == 0 then []
    else
      assert RootsWellTyped(f, blocks[1..], sym);
      Contribution(f, blocks[0], lastTrade, sym) + Contributions(f, blocks[1..], lastTrade, sym)
  }

  /** One iteration of the loop over the root reply. */
  function Step(f: Filter, b: ResponseBlock, lastTrade: real, sym: Symbology, acc: seq<SymbolPattern>): seq<SymbolPattern>
    requires Usable(f) && (IsRoot(b) ==> RootReady(f, b, sym))
  {
    if IsRoot(b) then CalculateOptionPatterns(b, f, acc, lastTrade, sym).patterns else acc
  }

  lemma StepAppends(f: Filter, b: ResponseBlock, lastTrade: real, sym: Symbology, acc: seq<SymbolPattern>)
    requires Usable(f) && (IsRoot(b) ==> RootReady(f, b, sym))
    ensures Step(f, b, lastTrade, sym, acc) == acc + Contribution(f, b, lastTrade, sym)
  {
    if IsRoot(b) {
      AppendOnly(b, f, acc, lastTrade, sym);
    }
  }

  lemma RootPatternsUnfold(f: Filter, blocks: seq<ResponseBlock>, lastTrade: real, sym: Symbology, acc: seq<SymbolPattern>)
    requires Usable(f) && RootsWellTyped(f, blocks, sym) && |blocks| > 0
    ensures RootsWellTyped(f, blocks[1..], sym)
    ensures RootPatterns(f, blocks, lastTrade, sym, acc) == RootPatterns(f, blocks[1..], lastTrade, sym, Step(f, blocks[0], lastTrade, sym, acc))
    ensures Contributions(f, blocks, lastTrade, sym) == Contribution(f, blocks[0], lastTrade, sym) + Contributions(f, blocks[1..], lastTrade, sym)
  {
    assert RootsWellTyped(f, blocks[1..], sym);
  }

  /** The accumulated list is the concatenation of every block's own contribution:
      nothing is deduplicated, and a root whose builder fails does not stop the others. */
  lemma {:induction false} RootPatternsConcatenate(f: Filter, blocks: seq<ResponseBlock>, lastTrade: real, sym: Symbology,
                                                   acc: seq<SymbolPattern>)
    requires Usable(f) && RootsWellTyped(f, blocks, sym)
    ensures RootPatterns(f, blocks, lastTrade, sym, acc) == acc + Contributions(f, blocks, lastTrade, sym)
    decreases |blocks|
  {
    if |blocks| > 0 {
      var b := blocks[0];
      var rest := blocks[1..];
      assert RootsWellTyped(f, rest, sym);
      var next := Step(f, b, lastTrade, sym, acc);
      StepAppends(f, b, lastTrade, sym, acc);
      RootPatternsConcatenate(f, rest, lastTrade, sym, next);
      RootPatternsUnfold(f, blocks, lastTrade, sym, acc);
      var c := Contribution(f, b, lastTrade, sym);
      var cs := Contributions(f, rest, lastTrade, sym);
      AppendAssoc(acc, c, cs);
    }
  }

  // ---------------------------------------------------------------- the contracts

  predicate Classifiable(b: ResponseBlock) {
    b.valid && b.data.Decoded?
  }

  /** The source reads the option-type field without a null check and casts the
      strike and expiration fields. */
  predicate ContractReady(b: ResponseBlock) {
    Classifiable(b) ==> AllFit(b.data.fields) && Lookup(b.data.fields, OptionType).Some?
  }

  /** A block the classifier turns into a contract. */
  predicate Ready(b: ResponseBlock) {
    Classifiable(b) && ContractReady(b)
  }

  predicate AllReady(kept: seq<ResponseBlock>) {
    forall i | 0 <= i < |kept| :: Ready(kept[i])
  }

  predicate ContractsReady(blocks: seq<ResponseBlock>) {
    forall i | 0 <= i < |blocks| :: ContractReady(blocks[i])
  }

  /** The valid, decodable blocks, in reply order. */
  function Classifiables(blocks: seq<ResponseBlock>): (kept: seq<ResponseBlock>)
    ensures IsSubsequence(kept, blocks)
    ensures forall b :: b in kept <==> b in blocks && Classifiable(b)
    ensures forall b :: multiset(kept)[b] == if Classifiable(b) then multiset(blocks)[b] else 0
  {
    assert |blocks| > 0 ==> blocks == [blocks[0]] + blocks[1..];
    if |blocks| == 0 then []
    else if Classifiable(blocks[0]) then [blocks[0]] + Classifiables(blocks[1..])
    else Classifiables(blocks[1..])
  }

  /** The loop over the pattern-match reply: a contract per valid block, skipping
      invalid blocks and blocks whose decoding throws. */
  function CollectOptions(lastTrade: real, blocks: seq<ResponseBlock>, options: seq<OptionInfo>): (r: seq<OptionInfo>)
    requires ContractsReady(blocks)
    ensures |options| <= |r| && r[..|options|] == options
    decreases |blocks|
  {
    if |blocks| == 0 then options
    else
      var b := blocks[0];
      var next := if Classifiable(b) then options + [NewOptionInfo(lastTrade, b.data.fields)] else options;
      assert ContractsReady(blocks[1..]);
      var r := CollectOptions(lastTrade, blocks[1..], next);
      assert r[..|next|][..|options|] == r[..|options|];
      r
  }

  /** Classifies each block of a list of valid, decodable blocks, in order. */
  function ClassifyAll(lastTrade: real, kept: seq<ResponseBlock>): (r: seq<OptionInfo>)
    requires AllReady(kept)
    ensures |r| == |kept|
    ensures forall i | 0 <= i < |kept| :: r[i] == NewOptionInfo(lastTrade, kept[i].data.fields)
  {
    if |kept| == 0 then []
    else [NewOptionInfo(lastTrade, kept[0].data.fields)] + ClassifyAll(lastTrade, kept[1..])
  }

  lemma ClassifiablesReady(blocks: seq<ResponseBlock>)
    requires ContractsReady(blocks)
    ensures AllReady(Classifiables(blocks))
  {
    var kept := Classifiables(blocks);
    forall i | 0 <= i < |kept|
      ensures Ready(kept[i])
    {
      assert kept[i] in kept;
    }
  }

  /** The list gains exactly one contract per valid, decodable block, in order. */
  lemma {:induction false} CollectOptionsExact(lastTrade: real, blocks: seq<ResponseBlock>, options: seq<OptionInfo>)
    requires ContractsReady(blocks)
    ensures AllReady(Classifiables(blocks))
    ensures CollectOptions(lastTrade, blocks, options) == options + ClassifyAll(lastTrade, Classifiables(blocks))
    decreases |blocks|
  {
    ClassifiablesReady(blocks);
    if |blocks| > 0 {
      var b := blocks[0];
      var rest := blocks[1..];
      assert ContractsReady(rest);
      var next := if Classifiable(b) then options + [NewOptionInfo(lastTrade, b.data.fields)] else options;
      CollectOptionsExact(lastTrade, rest, next);
      if Classifiable(b) {
        var tail := ClassifyAll(lastTrade, Classifiables(rest));
        var head := [NewOptionInfo(lastTrade, b.data.fields)];
        assert Classifiables(blocks) == [b] + Classifiables(rest);
        assert ClassifyAll(lastTrade, Classifiables(blocks)) == head + tail;
        AppendAssoc(options, head, tail);
      }
    }
  }

  // ---------------------------------------------------------------- the resolution

  /** What the source needs of its inputs: a usable filter, and replies whose
      fields the code dereferences or casts without checking. */
  predicate SeriesReady(f: Filter, rootReply: Reply, patternReply: Reply, sym: Symbology) {
    && Usable(f)
    && (rootReply.status == Success ==> RootsWellTyped(f, rootReply.blocks, sym) && UnderlyingReady(f, rootReply.blocks))
    && (rootReply.status == Success && patternReply.status == Success ==> ContractsReady(patternReply.blocks))
  }

  /** One resolution: the root query's reply, then the pattern-match reply to the
      patterns built from it. */
  function GetOptionSeries(filter: Option<Filter>, rootReply: Reply, patternReply: Reply, sym: Symbology,
                           options: seq<OptionInfo>): (r: SeriesOutcome)
    requires filter.Some? ==> SeriesReady(filter.value, rootReply, patternReply, sym)
    ensures filter.None? <==> r.IllegalArgument?
    ensures filter.Some? ==> r.Completed? && r.rootRequest == RootRequestBlocks(filter.value)
    ensures r.Completed? ==> |options| <= |r.options| && r.options[..|options|] == options
    ensures r.Completed? && rootReply.status != Success ==>
              r.status == rootReply.status && r.options == options && r.patternRequest.None?
    ensures r.Completed? && rootReply.status == Success ==>
              r.status == patternReply.status && r.patternRequest.Some?
    ensures r.Completed? && r.status != Success ==> r.options == options
  {
    match filter
    case None => IllegalArgument("Filter should not be null.")
    case Some(f) =>
      var request := RootRequestBlocks(f);
      if rootReply.status != Success then Completed(rootReply.status, options, request, None)
      else
        var lastTrade := ReferencePrice(f, rootReply.blocks);
        var patterns := RootPatterns(f, rootReply.blocks, lastTrade, sym, []);
        if patternReply.status != Success then Completed(patternReply.status, options, request, Some(patterns))
        else Completed(Success, CollectOptions(lastTrade, patternReply.blocks, options), request, Some(patterns))
  }

  /** The pattern request is built from the root reply alone, before the
      pattern query is sent: it is every option root's contribution in reply
      order, whatever the pattern reply turns out to be. */
  lemma PatternRequestFromRoots(f: Filter, rootReply: Reply, patternReply: Reply, sym: Symbology, options: seq<OptionInfo>)
    requires SeriesReady(f, rootReply, patternReply, sym)
    requires rootReply.status == Success
    ensures var r := GetOptionSeries(Some(f), rootReply, patternReply, sym, options);
            r.patternRequest == Some(Contributions(f, rootReply.blocks, ReferencePrice(f, rootReply.blocks), sym))
  {
    RootPatternsConcatenate(f, rootReply.blocks, ReferencePrice(f, rootReply.blocks), sym, []);
  }

  /** When both queries succeed: the pattern request is every option root's
      contribution in reply order, priced against the reference price, and the
      contract list gains one classified contract per valid decodable block. */
  lemma GetOptionSeriesSucceeds(f: Filter, rootReply: Reply, patternReply: Reply, sym: Symbology, options: seq<OptionInfo>)
    requires SeriesReady(f, rootReply, patternReply, sym)
    requires rootReply.status == Success && patternReply.status == Success
    ensures var r := GetOptionSeries(Some(f), rootReply, patternReply, sym, options);
            var lastTrade := ReferencePrice(f, rootReply.blocks);
            var kept := Classifiables(patternReply.blocks);
            && r.status == Success
            && r.patternRequest == Some(Contributions(f, rootReply.blocks, lastTrade, sym))
            && AllReady(kept)
            && r.options == options + ClassifyAll(lastTrade, kept)
  {
    var lastTrade := ReferencePrice(f, rootReply.blocks);
    RootPatternsConcatenate(f, rootReply.blocks, lastTrade, sym, []);
    CollectOptionsExact(lastTrade, patternReply.blocks, options);
  }
}
