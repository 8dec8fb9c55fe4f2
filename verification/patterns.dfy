/** The pattern builder: from one option-root response block and the filter,
    the search patterns appended to the pattern-match request. */
module Patterns {
  import opened Wrappers
  import opened Gateway
  import opened Seqs
  import opened SeriesFilter

  /** One entry of the pattern-match request. Every pattern of this core is
      looked up in the equity-option alias table, so the table is implicit. */
  datatype SymbolPattern = SymbolPattern(pattern: string)

  /** A root symbol split at its last '.': the option root and the exchange. */
  datatype CrackedRoot = CrackedRoot(base: string, exchange: string)

  /** The result of one pattern-builder call: its status and the pattern list
      after the call. */
  datatype PatternStep = PatternStep(status: Status, patterns: seq<SymbolPattern>)

  // ---------------------------------------------------------------- cracking the root symbol

  /** Index of the last occurrence of `c` in `s`, or -1. */
  function LastIndexOf(s: string, c: char): (i: int)
    ensures -1 <= i < |s|
    ensures i == -1 <==> c !in s
    ensures 0 <= i ==> s[i] == c && c !in s[i + 1..]
  {
    if |s| == 0 then -1
    else if s[|s| - 1] == c then |s| - 1
    else
      var front := s[..|s| - 1];
      var i := LastIndexOf(front, c);
      assert s == front + [s[|s| - 1]];
      assert 0 <= i ==> s[i + 1..] == front[i + 1..] + [s[|s| - 1]];
      i
  }

  /** Splits a root symbol at its last '.'. A symbol without '.' is an invalid parameter. */
  function CrackOptionRoot(rootSymbol: string): (r: Result<CrackedRoot, Status>)
    ensures r.Err? <==> '.' !in rootSymbol
    ensures r.Err? ==> r.error == InvalidParameter
    ensures r.Ok? ==> rootSymbol == r.value.base + "." + r.value.exchange && '.' !in r.value.exchange
  {
    var i := LastIndexOf(rootSymbol, '.');
    if i == -1 then Err(InvalidParameter)
    else
      assert rootSymbol == rootSymbol[..i] + "." + rootSymbol[i + 1..];
      Ok(CrackedRoot(rootSymbol[..i], rootSymbol[i + 1..]))
  }

  /** Cracking inverts joining a root and a dot-free exchange code with '.'. */
  lemma CrackJoin(base: string, exchange: string)
    requires '.' !in exchange
    ensures CrackOptionRoot(base + "." + exchange) == Ok(CrackedRoot(base, exchange))
  {
    var s := base + "." + exchange;
    var i := LastIndexOf(s, '.');
    assert s[|base|] == '.';
    assert i == |base|;
    assert s[..i] == base;
    assert s[i + 1..] == exchange;
  }

  // ---------------------------------------------------------------- fast path

  /** One wildcard pattern per exchange code, in list order. */
  function WildcardPatterns(root: string, exchanges: seq<string>): (ps: seq<SymbolPattern>)
    ensures |ps| == |exchanges|
    ensures forall i | 0 <= i < |exchanges| :: ps[i].pattern == root + "/*." + exchanges[i]
  {
    if |exchanges| == 0 then []
    else [SymbolPattern(root + "/*." + exchanges[0])] + WildcardPatterns(root, exchanges[1..])
  }

  /** The fast path's patterns: the whole root, once per exchange, or once for any exchange. */
  function FastPathPatterns(root: string, exchanges: seq<string>): (ps: seq<SymbolPattern>)
    ensures |ps| == if |exchanges| == 0 then 1 else |exchanges|
  {
    if |exchanges| == 0 then [SymbolPattern(root + "/*")]
    else WildcardPatterns(root, exchanges)
  }

  // ---------------------------------------------------------------- slow path: the cross product

  predicate SideAllowed(cp: CallPut, side: OptionSide) {
    match side
    case CallSide => cp == Both || cp == Call
    case PutSide => cp == Both || cp == Put
  }

  /** The sides `callPut` admits, call before put. */
  function Sides(cp: CallPut): (sides: seq<OptionSide>)
    ensures |sides| <= 2
    ensures |sides| == 0 <==> cp == Unset
    ensures forall s :: s in sides <==> SideAllowed(cp, s)
    ensures |sides| == 2 ==> sides == [CallSide, PutSide]
  {
    match cp
    case Both => [CallSide, PutSide]
    case Call => [CallSide]
    case Put => [PutSide]
    case Unset => []
  }

  /** The exchange codes patterns are built for: the filter's list, or the single wildcard "*". */
  function Venues(exchanges: seq<string>): (venues: seq<string>)
    ensures |venues| >= 1
    ensures |exchanges| > 0 ==> venues == exchanges
    ensures |exchanges| == 0 ==> venues == ["*"]
  {
    if |exchanges| == 0 then ["*"] else exchanges
  }

  /** One (expiration, strike, side, exchange) combination the slow path encodes. */
  datatype Combo = Combo(expiration: Date, strike: real, side: OptionSide, exchange: string)

  function SideCombos(date: Date, strike: real, venue: string, sides: seq<OptionSide>): seq<Combo> {
    seq(|sides|, l requires 0 <= l < |sides| => Combo(date, strike, sides[l], venue))
  }

  function ExchangeCombos(date: Date, strike: real, venues: seq<string>, sides: seq<OptionSide>): seq<Combo> {
    Flatten(seq(|venues|, v requires 0 <= v < |venues| => SideCombos(date, strike, venues[v], sides)))
  }

  function StrikeCombos(date: Date, strikes: seq<real>, venues: seq<string>, sides: seq<OptionSide>): seq<Combo> {
    Flatten(seq(|strikes|, j requires 0 <= j < |strikes| => ExchangeCombos(date, strikes[j], venues, sides)))
  }

  /** Expiration outermost, then strike, then exchange, then side. */
  function Combos(dates: seq<Date>, strikes: seq<real>, venues: seq<string>, sides: seq<OptionSide>): seq<Combo> {
    Flatten(seq(|dates|, i requires 0 <= i < |dates| => StrikeCombos(dates[i], strikes, venues, sides)))
  }

  lemma ExchangeCombosLength(date: Date, strike: real, venues: seq<string>, sides: seq<OptionSide>)
    ensures |ExchangeCombos(date, strike, venues, sides)| == |venues| * |sides|
  {
    var blocks := seq(|venues|, v requires 0 <= v < |venues| => SideCombos(date, strike, venues[v], sides));
    FlattenLength(blocks, |sides|);
  }

  lemma ExchangeCombosAt(date: Date, strike: real, venues: seq<string>, sides: seq<OptionSide>, v: nat, l: nat)
    requires v < |venues| && l < |sides|
    ensures v * |sides| + l < |ExchangeCombos(date, strike, venues, sides)|
    ensures ExchangeCombos(date, strike, venues, sides)[v * |sides| + l] == Combo(date, strike, sides[l], venues[v])
  {
    var blocks := seq(|venues|, v' requires 0 <= v' < |venues| => SideCombos(date, strike, venues[v'], sides));
    FlattenAt(blocks, |sides|, v, l);
  }

  lemma StrikeCombosLength(date: Date, strikes: seq<real>, venues: seq<string>, sides: seq<OptionSide>)
    ensures |StrikeCombos(date, strikes, venues, sides)| == |strikes| * (|venues| * |sides|)
  {
    var blocks := seq(|strikes|, j requires 0 <= j < |strikes| => ExchangeCombos(date, strikes[j], venues, sides));
    forall j | 0 <= j < |strikes|
      ensures |blocks[j]| == |venues| * |sides|
    {
      ExchangeCombosLength(date, strikes[j], venues, sides);
    }
    FlattenLength(blocks, |venues| * |sides|);
  }

  /** Position `n` of the block for strike `j` lands at `j * m + n`. */
  lemma StrikeBlockAt(date: Date, strikes: seq<real>, venues: seq<string>, sides: seq<OptionSide>, j: nat, n: nat)
    requires j < |strikes| && n < |venues| * |sides|
    ensures var k := j * (|venues| * |sides|) + n;
            && k < |StrikeCombos(date, strikes, venues, sides)|
            && n < |ExchangeCombos(date, strikes[j], venues, sides)|
            && StrikeCombos(date, strikes, venues, sides)[k] == ExchangeCombos(date, strikes[j], venues, sides)[n]
  {
    var m := |venues| * |sides|;
    var blocks := seq(|strikes|, j' requires 0 <= j' < |strikes| => ExchangeCombos(date, strikes[j'], venues, sides));
    forall k | 0 <= k < |strikes|
      ensures |blocks[k]| == m
    {
      ExchangeCombosLength(date, strikes[k], venues, sides);
    }
    FlattenAt(blocks, m, j, n);
  }

  lemma StrikeCombosAt(date: Date, strikes: seq<real>, venues: seq<string>, sides: seq<OptionSide>, j: nat, v: nat, l: nat)
    requires j < |strikes| && v < |venues| && l < |sides|
    ensures var k := j * (|venues| * |sides|) + v * |sides| + l;
            && k < |StrikeCombos(date, strikes, venues, sides)|
            && StrikeCombos(date, strikes, venues, sides)[k] == Combo(date, strikes[j], sides[l], venues[v])
  {
    ExchangeCombosAt(date, strikes[j], venues, sides, v, l);
    ExchangeCombosLength(date, strikes[j], venues, sides);
    StrikeBlockAt(date, strikes, venues, sides, j, v * |sides| + l);
  }

  /** The slow path emits the product of the four list lengths. */
  lemma CombosLength(dates: seq<Date>, strikes: seq<real>, venues: seq<string>, sides: seq<OptionSide>)
    ensures |Combos(dates, strikes, venues, sides)| == |dates| * (|strikes| * (|venues| * |sides|))
  {
    var blocks := seq(|dates|, i requires 0 <= i < |dates| => StrikeCombos(dates[i], strikes, venues, sides));
    forall i | 0 <= i < |dates|
      ensures |blocks[i]| == |strikes| * (|venues| * |sides|)
    {
      StrikeCombosLength(dates[i], strikes, venues, sides);
    }
    FlattenLength(blocks, |strikes| * (|venues| * |sides|));
  }

  /** Position `n` of the block for expiration `i` lands at `i * m + n`. */
  lemma DateBlockAt(dates: seq<Date>, strikes: seq<real>, venues: seq<string>, sides: seq<OptionSide>, i: nat, n: nat)
    requires i < |dates| && n < |strikes| * (|venues| * |sides|)
    ensures var k := i * (|strikes| * (|venues| * |sides|)) + n;
            && k < |Combos(dates, strikes, venues, sides)|
            && n < |StrikeCombos(dates[i], strikes, venues, sides)|
            && Combos(dates, strikes, venues, sides)[k] == StrikeCombos(dates[i], strikes, venues, sides)[n]
  {
    var m := |strikes| * (|venues| * |sides|);
    var blocks := seq(|dates|, i' requires 0 <= i' < |dates| => StrikeCombos(dates[i'], strikes, venues, sides));
    forall k | 0 <= k < |dates|
      ensures |blocks[k]| == m
    {
      StrikeCombosLength(dates[k], strikes, venues, sides);
    }
    FlattenAt(blocks, m, i, n);
  }

  /** The slow path's order: expiration outermost, then strike, then exchange,
      then side; each combination sits at its lexicographic index. */
  lemma CombosAt(dates: seq<Date>, strikes: seq<real>, venues: seq<string>, sides: seq<OptionSide>, i: nat, j: nat, v: nat, l: nat)
    requires i < |dates| && j < |strikes| && v < |venues| && l < |sides|
    ensures var k := i * (|strikes| * (|venues| * |sides|)) + j * (|venues| * |sides|) + v * |sides| + l;
            && k < |Combos(dates, strikes, venues, sides)|
            && Combos(dates, strikes, venues, sides)[k] == Combo(dates[i], strikes[j], sides[l], venues[v])
  {
    StrikeCombosAt(dates[i], strikes, venues, sides, j, v, l);
    StrikeCombosLength(dates[i], strikes, venues, sides);
    DateBlockAt(dates, strikes, venues, sides, i, j * (|venues| * |sides|) + v * |sides| + l);
  }

  lemma ExchangeCombosMember(date: Date, strike: real, venues: seq<string>, sides: seq<OptionSide>, c: Combo)
    ensures c in ExchangeCombos(date, strike, venues, sides)
            <==> c.expiration == date && c.strike == strike && c.exchange in venues && c.side in sides
  {
    var blocks := seq(|venues|, v requires 0 <= v < |venues| => SideCombos(date, strike, venues[v], sides));
    FlattenMember(blocks, c);
    if c.expiration == date && c.strike == strike && c.exchange in venues && c.side in sides {
      var v :| 0 <= v < |venues| && venues[v] == c.exchange;
      var l :| 0 <= l < |sides| && sides[l] == c.side;
      assert blocks[v][l] == c;
    }
  }

  lemma StrikeCombosMember(date: Date, strikes: seq<real>, venues: seq<string>, sides: seq<OptionSide>, c: Combo)
    ensures c in StrikeCombos(date, strikes, venues, sides)
            <==> c.expiration == date && c.strike in strikes && c.exchange in venues && c.side in sides
  {
    var blocks := seq(|strikes|, j requires 0 <= j < |strikes| => ExchangeCombos(date, strikes[j], venues, sides));
    FlattenMember(blocks, c);
    if c in StrikeCombos(date, strikes, venues, sides) {
      var j :| 0 <= j < |strikes| && c in blocks[j];
      ExchangeCombosMember(date, strikes[j], venues, sides, c);
    }
    if c.expiration == date && c.strike in strikes && c.exchange in venues && c.side in sides {
      var j :| 0 <= j < |strikes| && strikes[j] == c.strike;
      ExchangeCombosMember(date, strikes[j], venues, sides, c);
      assert c in blocks[j];
    }
  }

  /** A combination occurs iff each of its four coordinates is in its list. */
  lemma CombosMember(dates: seq<Date>, strikes: seq<real>, venues: seq<string>, sides: seq<OptionSide>, c: Combo)
    ensures c in Combos(dates, strikes, venues, sides)
            <==> c.expiration in dates && c.strike in strikes && c.exchange in venues && c.side in sides
  {
    var blocks := seq(|dates|, i requires 0 <= i < |dates| => StrikeCombos(dates[i], strikes, venues, sides));
    FlattenMember(blocks, c);
    if c in Combos(dates, strikes, venues, sides) {
      var i :| 0 <= i < |dates| && c in blocks[i];
      StrikeCombosMember(dates[i], strikes, venues, sides, c);
    }
    if c.expiration in dates && c.strike in strikes && c.exchange in venues && c.side in sides {
      var i :| 0 <= i < |dates| && dates[i] == c.expiration;
      StrikeCombosMember(dates[i], strikes, venues, sides, c);
      assert c in blocks[i];
    }
  }

  // ---------------------------------------------------------------- encoding

  function AliasOf(sym: Symbology, root: string, c: Combo): Result<string, Status> {
    sym.buildAlias(root, c.expiration, c.side, c.strike, c.exchange)
  }

  /** The encoder never throws. */
  ghost predicate AliasTotal(sym: Symbology) {
    forall root, date, side, strike, venue :: sym.buildAlias(root, date, side, strike, venue).Ok?
  }

  /** Patterns built so far, and the status of the exception that stopped the loop, if any. */
  datatype Encoding = Encoding(patterns: seq<SymbolPattern>, error: Option<Status>)

  /** Encodes the combinations in order, stopping at the first one the encoder rejects;
      the patterns already built stay in the list. */
  function EncodeCombos(sym: Symbology, root: string, cs: seq<Combo>): (r: Encoding)
    ensures |r.patterns| <= |cs|
    ensures forall i | 0 <= i < |r.patterns| :: AliasOf(sym, root, cs[i]) == Ok(r.patterns[i].pattern)
    ensures r.error.None? ==> |r.patterns| == |cs|
    ensures r.error.Some? ==> |r.patterns| < |cs| && AliasOf(sym, root, cs[|r.patterns|]) == Err(r.error.value)
  {
    if |cs| == 0 then Encoding([], None)
    else match AliasOf(sym, root, cs[0])
      case Err(s) => Encoding([], Some(s))
      case Ok(p) =>
        var rest := EncodeCombos(sym, root, cs[1..]);
        var r := Encoding([SymbolPattern(p)] + rest.patterns, rest.error);
        assert forall i | 0 <= i < |r.patterns| :: AliasOf(sym, root, cs[i]) == Ok(r.patterns[i].pattern) by {
          forall i | 1 <= i < |r.patterns|
            ensures AliasOf(sym, root, cs[i]) == Ok(r.patterns[i].pattern)
          {
            assert r.patterns[i] == rest.patterns[i - 1];
            assert cs[i] == cs[1..][i - 1];
          }
        }
        assert rest.error.Some? ==> cs[|r.patterns|] == cs[1..][|rest.patterns|];
        r
  }

  // ---------------------------------------------------------------- the root's universe

  /** A root's expiration and strike universes, as decoded from its block. */
  datatype Universe = Universe(expirations: seq<Date>, strikes: seq<real>)

  /** The expiration universe: the decoded list when the list field is defined,
      otherwise empty; a decoder exception is `Err`. */
  function RootExpirations(fields: seq<Field>, sym: Symbology): (r: Result<seq<Date>, Status>)
    requires ExpirationListFits(fields)
    ensures var fd := Lookup(fields, ExpirationDateList);
            && (fd.Some? && fd.value.status == Defined ==> r == sym.expirationDateList(fd.value.value.text))
            && (!(fd.Some? && fd.value.status == Defined) ==> r == Ok([]))
  {
    match Lookup(fields, ExpirationDateList)
    case Some(fd) => if fd.status == Defined then sym.expirationDateList(fd.value.text) else Ok([])
    case None => Ok([])
  }

  /** The strike universe: the decoded list when the list field is defined,
      otherwise empty; a decoder exception is `Err`. */
  function RootStrikes(fields: seq<Field>, sym: Symbology): (r: Result<seq<real>, Status>)
    requires StrikeListFits(fields)
    ensures var fd := Lookup(fields, StrikePriceList);
            && (fd.Some? && fd.value.status == Defined ==> r == sym.strikePriceList(fd.value.value.bytes))
            && (!(fd.Some? && fd.value.status == Defined) ==> r == Ok([]))
  {
    match Lookup(fields, StrikePriceList)
    case Some(fd) => if fd.status == Defined then sym.strikePriceList(fd.value.bytes) else Ok([])
    case None => Ok([])
  }

  /** What the casts of the root-list decoding need: the expiration list is cast
      once the block decodes, the strike list only once the expiration list has
      decoded without an exception. */
  predicate ListsTyped(data: Decoding, sym: Symbology) {
    data.Decoded? ==>
      && ExpirationListFits(data.fields)
      && (RootExpirations(data.fields, sym).Ok? ==> StrikeListFits(data.fields))
  }

  /** Decodes the block, then its expiration list, then its strike list; the
      first step that throws decides the status. */
  function RootUniverse(data: Decoding, sym: Symbology): (r: Result<Universe, Status>)
    requires ListsTyped(data, sym)
    ensures data.Undecodable? ==> r == Err(data.code)
    ensures data.Decoded? ==>
              && (r.Ok? <==> RootExpirations(data.fields, sym).Ok? && RootStrikes(data.fields, sym).Ok?)
              && (RootExpirations(data.fields, sym).Err? ==> r == Err(RootExpirations(data.fields, sym).error))
              && (RootExpirations(data.fields, sym).Ok? && RootStrikes(data.fields, sym).Err? ==>
                    r == Err(RootStrikes(data.fields, sym).error))
              && (r.Ok? ==> r.value.expirations == RootExpirations(data.fields, sym).value
                            && r.value.strikes == RootStrikes(data.fields, sym).value)
  {
    match data
    case Undecodable(s) => Err(s)
    case Decoded(fields) =>
      match RootExpirations(fields, sym)
      case Err(s) => Err(s)
      case Ok(dates) =>
        match RootStrikes(fields, sym)
        case Err(s) => Err(s)
        case Ok(strikes) => Ok(Universe(dates, strikes))
  }

  /** The universe depends on the two list fields only: inserting a field that
      carries any other id keeps the block well typed and leaves the universe,
      and every decoder status, as it was. */
  lemma RootUniverseIgnoresOtherFields(a: seq<Field>, x: Field, b: seq<Field>, sym: Symbology)
    requires x.id != ExpirationDateList && x.id != StrikePriceList
    requires ListsTyped(Decoded(a + b), sym)
    ensures ListsTyped(Decoded(a + [x] + b), sym)
    ensures RootUniverse(Decoded(a + [x] + b), sym) == RootUniverse(Decoded(a + b), sym)
  {
    LookupSkipsOtherIds(a, x, b, ExpirationDateList);
    LookupSkipsOtherIds(a, x, b, StrikePriceList);
    assert ExpirationListFits(a + [x] + b);
    assert RootExpirations(a + [x] + b, sym) == RootExpirations(a + b, sym);
  }

  // ---------------------------------------------------------------- the builder

  function SlowPathCombos(u: Universe, f: Filter, lastTrade: real): seq<Combo>
    requires Usable(f)
  {
    Combos(FilterExpirations(u.expirations, f), FilterStrikes(u.strikes, f, lastTrade),
           Venues(f.exchangeList), Sides(f.callPut))
  }

  /** A combination the filter admits for this universe. */
  predicate Admissible(u: Universe, f: Filter, lastTrade: real, c: Combo) {
    && c.expiration in u.expirations && InDateWindow(c.expiration, f)
    && c.strike in u.strikes && InStrikeWindow(c.strike, f) && NearTheMoney(c.strike, f, lastTrade)
    && SideAllowed(f.callPut, c.side)
    && c.exchange in Venues(f.exchangeList)
  }

  /** The slow path for one root: the filtered cross product, encoded in order.
      Patterns encode the combinations in order up to the first encoder failure,
      whose status is returned; without a failure the status is SUCCESS iff some
      (expiration, strike) pair survived the filter, and FAILURE otherwise. */
  function SlowPathPatterns(root: string, u: Universe, f: Filter, lastTrade: real, sym: Symbology): (r: PatternStep)
    requires Usable(f)
    ensures var cs := SlowPathCombos(u, f, lastTrade);
            && |r.patterns| <= |cs|
            && (forall i | 0 <= i < |r.patterns| :: AliasOf(sym, root, cs[i]) == Ok(r.patterns[i].pattern))
            && (|r.patterns| < |cs| ==> AliasOf(sym, root, cs[|r.patterns|]) == Err(r.status))
            && (|r.patterns| == |cs| ==>
                  && (r.status == Success || r.status == Failure)
                  && (r.status == Success <==>
                        |FilterExpirations(u.expirations, f)| > 0 && |FilterStrikes(u.strikes, f, lastTrade)| > 0))
  {
    var dates := FilterExpirations(u.expirations, f);
    var strikes := FilterStrikes(u.strikes, f, lastTrade);
    var enc := EncodeCombos(sym, root, SlowPathCombos(u, f, lastTrade));
    var status :=
      if enc.error.Some? then enc.error.value
      else if |dates| > 0 && |strikes| > 0 then Success
      else Failure;
    PatternStep(status, enc.patterns)
  }

  /** The builder reads the root's list fields only for a symbol with a '.'
      and only off the fast path. */
  predicate RootReady(f: Filter, b: ResponseBlock, sym: Symbology) {
    !IsFastPath(f) && '.' in b.symbol ==> ListsTyped(b.data, sym)
  }

  /** Appends to `patterns` the patterns for one option-root block. The status
      starts as FAILURE and only the slow path's pair loop sets SUCCESS. */
  function CalculateOptionPatterns(block: ResponseBlock, f: Filter, patterns: seq<SymbolPattern>,
                                   lastTrade: real, sym: Symbology): (r: PatternStep)
    requires Usable(f) && RootReady(f, block, sym)
    ensures |patterns| <= |r.patterns| && r.patterns[..|patterns|] == patterns
    ensures '.' !in block.symbol ==> r == PatternStep(InvalidParameter, patterns)
    ensures '.' in block.symbol && !IsFastPath(f) && RootUniverse(block.data, sym).Err? ==>
              r == PatternStep(RootUniverse(block.data, sym).error, patterns)
  {
    match CrackOptionRoot(block.symbol)
    case Err(s) => PatternStep(s, patterns)
    case Ok(cracked) =>
      var root := cracked.base;
      if IsFastPath(f) then
        PatternStep(Failure, patterns + FastPathPatterns(root, f.exchangeList))
      else
        match RootUniverse(block.data, sym)
        case Err(s) => PatternStep(s, patterns)
        case Ok(u) =>
          var added := SlowPathPatterns(root, u, f, lastTrade, sym);
          PatternStep(added.status, patterns + added.patterns)
  }

  /** The patterns a call adds do not depend on what the list held before. */
  lemma AppendOnly(block: ResponseBlock, f: Filter, patterns: seq<SymbolPattern>, lastTrade: real, sym: Symbology)
    requires Usable(f) && RootReady(f, block, sym)
    ensures var r := CalculateOptionPatterns(block, f, patterns, lastTrade, sym);
            var r0 := CalculateOptionPatterns(block, f, [], lastTrade, sym);
            r.status == r0.status && r.patterns == patterns + r0.patterns
  {
  }

  /** Fast path: one wildcard pattern per exchange (or one for any exchange) over
      the root base, and the status stays FAILURE although patterns were added. */
  lemma FastPath(block: ResponseBlock, f: Filter, patterns: seq<SymbolPattern>, lastTrade: real, sym: Symbology)
    requires Usable(f) && RootReady(f, block, sym)
    requires IsFastPath(f) && '.' in block.symbol
    ensures var r := CalculateOptionPatterns(block, f, patterns, lastTrade, sym);
            var root := CrackOptionRoot(block.symbol).value.base;
            var added := r.patterns[|patterns|..];
            && r.status == Failure
            && |added| == (if |f.exchangeList| == 0 then 1 else |f.exchangeList|)
            && (|f.exchangeList| == 0 ==> added == [SymbolPattern(root + "/*")])
            && (forall i | 0 <= i < |f.exchangeList| :: added[i].pattern == root + "/*." + f.exchangeList[i])
  {
    var r := CalculateOptionPatterns(block, f, patterns, lastTrade, sym);
    var root := CrackOptionRoot(block.symbol).value.base;
    assert r.patterns == patterns + FastPathPatterns(root, f.exchangeList);
  }

  /** Slow path with an encoder that never throws: one pattern per admitted
      combination in the lexicographic order of `Combos`, and SUCCESS iff at least
      one (expiration, strike) pair survived the filter. */
  lemma SlowPath(block: ResponseBlock, f: Filter, patterns: seq<SymbolPattern>, lastTrade: real, sym: Symbology, u: Universe)
    requires Usable(f) && RootReady(f, block, sym)
    requires !IsFastPath(f) && '.' in block.symbol
    requires RootUniverse(block.data, sym) == Ok(u)
    requires AliasTotal(sym)
    ensures var r := CalculateOptionPatterns(block, f, patterns, lastTrade, sym);
            var root := CrackOptionRoot(block.symbol).value.base;
            var dates := FilterExpirations(u.expirations, f);
            var strikes := FilterStrikes(u.strikes, f, lastTrade);
            var cs := SlowPathCombos(u, f, lastTrade);
            var added := r.patterns[|patterns|..];
            && (r.status == Success <==> |dates| > 0 && |strikes| > 0)
            && (r.status == Success || r.status == Failure)
            && |added| == |dates| * (|strikes| * (|Venues(f.exchangeList)| * |Sides(f.callPut)|))
            && |added| == |cs|
            && (forall i | 0 <= i < |cs| :: AliasOf(sym, root, cs[i]) == Ok(added[i].pattern))
  {
    var root := CrackOptionRoot(block.symbol).value.base;
    var cs := SlowPathCombos(u, f, lastTrade);
    var enc := EncodeCombos(sym, root, cs);
    CombosLength(FilterExpirations(u.expirations, f), FilterStrikes(u.strikes, f, lastTrade),
                 Venues(f.exchangeList), Sides(f.callPut));
  }

  /** Slow-path soundness: every added pattern encodes a combination the filter
      admits, even when the encoder throws part-way. */
  lemma SlowPathSound(block: ResponseBlock, f: Filter, patterns: seq<SymbolPattern>, lastTrade: real, sym: Symbology, u: Universe)
    requires Usable(f) && RootReady(f, block, sym)
    requires !IsFastPath(f) && '.' in block.symbol
    requires RootUniverse(block.data, sym) == Ok(u)
    ensures var r := CalculateOptionPatterns(block, f, patterns, lastTrade, sym);
            var root := CrackOptionRoot(block.symbol).value.base;
            forall p | p in r.patterns[|patterns|..] ::
              exists c :: Admissible(u, f, lastTrade, c) && AliasOf(sym, root, c) == Ok(p.pattern)
  {
    var r := CalculateOptionPatterns(block, f, patterns, lastTrade, sym);
    var root := CrackOptionRoot(block.symbol).value.base;
    var dates := FilterExpirations(u.expirations, f);
    var strikes := FilterStrikes(u.strikes, f, lastTrade);
    var venues := Venues(f.exchangeList);
    var sides := Sides(f.callPut);
    var cs := Combos(dates, strikes, venues, sides);
    var enc := EncodeCombos(sym, root, cs);
    assert r.patterns[|patterns|..] == enc.patterns;
    forall p | p in enc.patterns
      ensures exists c :: Admissible(u, f, lastTrade, c) && AliasOf(sym, root, c) == Ok(p.pattern)
    {
      var i :| 0 <= i < |enc.patterns| && enc.patterns[i] == p;
      CombosMember(dates, strikes, venues, sides, cs[i]);
      assert Admissible(u, f, lastTrade, cs[i]);
    }
  }

  /** Slow-path completeness: with an encoder that never throws, every admitted
      combination's encoding is among the added patterns. */
  lemma SlowPathComplete(block: ResponseBlock, f: Filter, patterns: seq<SymbolPattern>, lastTrade: real, sym: Symbology, u: Universe, c: Combo)
    requires Usable(f) && RootReady(f, block, sym)
    requires !IsFastPath(f) && '.' in block.symbol
    requires RootUniverse(block.data, sym) == Ok(u)
    requires AliasTotal(sym)
    requires Admissible(u, f, lastTrade, c)
    ensures var r := CalculateOptionPatterns(block, f, patterns, lastTrade, sym);
            var root := CrackOptionRoot(block.symbol).value.base;
            SymbolPattern(AliasOf(sym, root, c).value) in r.patterns[|patterns|..]
  {
    var r := CalculateOptionPatterns(block, f, patterns, lastTrade, sym);
    var root := CrackOptionRoot(block.symbol).value.base;
    var cs := SlowPathCombos(u, f, lastTrade);
    var added := SlowPathPatterns(root, u, f, lastTrade, sym);
    assert r.patterns == patterns + added.patterns;
    assert r.patterns[|patterns|..] == added.patterns;
    assert |added.patterns| == |cs|;
    CombosMember(FilterExpirations(u.expirations, f), FilterStrikes(u.strikes, f, lastTrade),
                 Venues(f.exchangeList), Sides(f.callPut), c);
    var i :| 0 <= i < |cs| && cs[i] == c;
    assert added.patterns[i] == SymbolPattern(AliasOf(sym, root, c).value);
  }

  /** A root whose expiration-list field is absent or undefined has an empty
      expiration universe: the slow path adds nothing, and the status is FAILURE
      unless the strike list's decoder throws, whose status is then returned. */
  lemma RootWithoutExpirationsAddsNothing(block: ResponseBlock, f: Filter, patterns: seq<SymbolPattern>,
                                          lastTrade: real, sym: Symbology)
    requires Usable(f) && RootReady(f, block, sym)
    requires !IsFastPath(f) && '.' in block.symbol && block.data.Decoded?
    requires var fd := Lookup(block.data.fields, ExpirationDateList); !(fd.Some? && fd.value.status == Defined)
    ensures var r := CalculateOptionPatterns(block, f, patterns, lastTrade, sym);
            var strikes := RootStrikes(block.data.fields, sym);
            && r.patterns == patterns
            && (strikes.Ok? ==> r.status == Failure)
            && (strikes.Err? ==> r.status == strikes.error)
  {
    var strikes := RootStrikes(block.data.fields, sym);
    if strikes.Ok? {
      var u := Universe([], strikes.value);
      assert RootUniverse(block.data, sym) == Ok(u);
      assert FilterExpirations(u.expirations, f) == [];
      assert SlowPathCombos(u, f, lastTrade) == [];
      var root := CrackOptionRoot(block.symbol).value.base;
      var added := SlowPathPatterns(root, u, f, lastTrade, sym);
      assert added.patterns == [];
      assert patterns + added.patterns == patterns;
    }
  }

  /** With no call/put choice the pair loop still runs and sets SUCCESS for every
      surviving (expiration, strike) pair, although no side test admits a
      pattern: nothing is added, yet the status is SUCCESS whenever a pair
      survives, contrary to the loop's own comment. */
  lemma UnsetSideAddsNothing(block: ResponseBlock, f: Filter, patterns: seq<SymbolPattern>,
                             lastTrade: real, sym: Symbology, u: Universe)
    requires Usable(f) && RootReady(f, block, sym)
    requires f.callPut == Unset && '.' in block.symbol && RootUniverse(block.data, sym) == Ok(u)
    ensures var r := CalculateOptionPatterns(block, f, patterns, lastTrade, sym);
            && r.patterns == patterns
            && (r.status == Success <==>
                  |FilterExpirations(u.expirations, f)| > 0 && |FilterStrikes(u.strikes, f, lastTrade)| > 0)
            && (r.status == Success || r.status == Failure)
  {
    var dates := FilterExpirations(u.expirations, f);
    var strikes := FilterStrikes(u.strikes, f, lastTrade);
    var venues := Venues(f.exchangeList);
    assert Sides(f.callPut) == [];
    CombosLength(dates, strikes, venues, []);
    assert |venues| * 0 == 0;
    assert |strikes| * 0 == 0;
    assert |dates| * 0 == 0;
    assert SlowPathCombos(u, f, lastTrade) == [];
    var root := CrackOptionRoot(block.symbol).value.base;
    var added := SlowPathPatterns(root, u, f, lastTrade, sym);
    assert added.patterns == [];
    assert patterns + added.patterns == patterns;
  }

  /** The fast path's status contradicts its documentation ("success if at least
      one item was added"): patterns are added and FAILURE is returned. */
  lemma FastPathReportsFailure(block: ResponseBlock, f: Filter, patterns: seq<SymbolPattern>, lastTrade: real, sym: Symbology)
    requires Usable(f) && RootReady(f, block, sym)
    requires IsFastPath(f) && '.' in block.symbol
    ensures var r := CalculateOptionPatterns(block, f, patterns, lastTrade, sym);
            r.status == Failure && |r.patterns| > |patterns|
  {
    FastPath(block, f, patterns, lastTrade, sym);
  }
}
