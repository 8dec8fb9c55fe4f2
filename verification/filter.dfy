/** The option-series filter and its two bound checks. */
module SeriesFilter {
  import opened Wrappers
  import opened Gateway
  import opened Seqs

  /** The call/put choice. `Unset` is the null the setter accepts: it is not
      BOTH, so the shortcut is skipped, and it admits neither side. */
  datatype CallPut = Call | Put | Both | Unset

  /** A filter bound as the source holds it: a null reference, an object that
      was never initialised, or a limit. The fast-path test looks for `Null`;
      the bound checks only honour a `Limit`. */
  datatype Bound<T> = Null | Uninitialized | Limit(value: T)

  /** The filter. The ask/bid/volume/open-interest fields of the source are
      never read and are not modelled. */
  datatype Filter = Filter(
    startDate: Bound<Date>,
    endDate: Bound<Date>,
    lowStrike: Bound<real>,
    highStrike: Bound<real>,
    callPut: CallPut,
    exchangeList: seq<string>,
    atTheMoney: bool,
    atTheMoneyRange: Option<real>)

  /** The at-the-money test dereferences the range whenever `atTheMoney` holds. */
  predicate Usable(f: Filter) {
    f.atTheMoney ==> f.atTheMoneyRange.Some?
  }

  /** The filter cannot exclude any contract: no side, date, strike or
      proximity restriction (a null bound, not merely an uninitialised one). */
  predicate IsFastPath(f: Filter) {
    && f.callPut == Both
    && f.startDate.Null? && f.endDate.Null?
    && f.lowStrike.Null? && f.highStrike.Null?
    && !f.atTheMoney
  }

  // ---------------------------------------------------------------- reference predicates

  /** Inclusive date window: a set start is at or before the date, a set end at or after it. */
  predicate InDateWindow(date: Date, f: Filter) {
    && (f.startDate.Limit? ==> f.startDate.value <= date)
    && (f.endDate.Limit? ==> date <= f.endDate.value)
  }

  /** Inclusive strike window. */
  predicate InStrikeWindow(strike: real, f: Filter) {
    && (f.lowStrike.Limit? ==> f.lowStrike.value <= strike)
    && (f.highStrike.Limit? ==> strike <= f.highStrike.value)
  }

  function Abs(x: real): real {
    if x < 0.0 then -x else x
  }

  /** The proximity test is in force only with a nonzero range and a nonzero reference price. */
  predicate ProximityApplies(f: Filter, lastTrade: real) {
    f.atTheMoney && f.atTheMoneyRange.Some? && f.atTheMoneyRange.value != 0.0 && lastTrade != 0.0
  }

  predicate NearTheMoney(strike: real, f: Filter, lastTrade: real) {
    ProximityApplies(f, lastTrade) ==> Abs(strike - lastTrade) <= f.atTheMoneyRange.value
  }

  // ---------------------------------------------------------------- the checks as written

  /** One expiration date against the date bounds, as the source checks it. */
  function DoFilterExpirationDate(date: Date, f: Filter): (s: Status)
    ensures s == Success || s == OutOfRange
    ensures s == Success <==> InDateWindow(date, f)
  {
    if f.startDate.Limit? || f.endDate.Limit? then
      if f.endDate.Limit? && date > f.endDate.value then OutOfRange
      else if f.startDate.Limit? && date < f.startDate.value then OutOfRange
      else Success
    else Success
  }

  /** One strike against the strike bounds and the at-the-money proximity. */
  function DoFilterStrikePrice(strike: real, f: Filter, lastTrade: real): (s: Status)
    requires Usable(f)
    ensures s == Success || s == OutOfRange
    ensures s == Success <==> InStrikeWindow(strike, f) && NearTheMoney(strike, f, lastTrade)
    ensures lastTrade == 0.0 ==> (s == Success <==> InStrikeWindow(strike, f))
    ensures !f.atTheMoney ==> (s == Success <==> InStrikeWindow(strike, f))
  {
    if (f.highStrike.Limit? || f.lowStrike.Limit?)
       && ((f.highStrike.Limit? && strike > f.highStrike.value)
           || (f.lowStrike.Limit? && strike < f.lowStrike.value))
    then OutOfRange
    else if f.atTheMoney && f.atTheMoneyRange.value != 0.0 && lastTrade != 0.0
            && Abs(strike - lastTrade) > f.atTheMoneyRange.value
    then OutOfRange
    else Success
  }

  // ---------------------------------------------------------------- filtering a universe

  /** The root's expiration universe, filtered in order. */
  function FilterExpirations(dates: seq<Date>, f: Filter): (kept: seq<Date>)
    ensures IsSubsequence(kept, dates)
    ensures forall d :: d in kept <==> d in dates && InDateWindow(d, f)
    ensures forall d :: multiset(kept)[d] == if InDateWindow(d, f) then multiset(dates)[d] else 0
  {
    if |dates| == 0 then []
    else
      var rest := FilterExpirations(dates[1..], f);
      assert dates == [dates[0]] + dates[1..];
      if DoFilterExpirationDate(dates[0], f) == Success then [dates[0]] + rest
      else rest
  }

  /** The root's strike universe, filtered in order against the reference price. */
  function FilterStrikes(strikes: seq<real>, f: Filter, lastTrade: real): (kept: seq<real>)
    requires Usable(f)
    ensures IsSubsequence(kept, strikes)
    ensures forall k :: k in kept <==> k in strikes && InStrikeWindow(k, f) && NearTheMoney(k, f, lastTrade)
    ensures forall k :: multiset(kept)[k] ==
              if InStrikeWindow(k, f) && NearTheMoney(k, f, lastTrade) then multiset(strikes)[k] else 0
  {
    if |strikes| == 0 then []
    else
      var rest := FilterStrikes(strikes[1..], f, lastTrade);
      assert strikes == [strikes[0]] + strikes[1..];
      if DoFilterStrikePrice(strikes[0], f, lastTrade) == Success then [strikes[0]] + rest
      else rest
  }

  /** Under the fast-path conditions the filter excludes nothing, which is what
      makes one wildcard pattern per exchange a faithful shortcut. */
  lemma FastPathExcludesNothing(f: Filter, lastTrade: real, date: Date, strike: real)
    requires IsFastPath(f)
    ensures DoFilterExpirationDate(date, f) == Success
    ensures DoFilterStrikePrice(strike, f, lastTrade) == Success
  {
  }
}
