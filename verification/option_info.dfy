/** The contract classifier: one option contract built from its decoded fields
    and the underlying's reference price. */
module Classifier {
  import opened Wrappers
  import opened Gateway

  /** One returned contract. The datatype's destructors are the source's getters
      (`isCall`, `isInTheMoney`, `getExpirationDate`, `getStrikePrice`,
      `getLastTrade`); None is a null reference. */
  datatype OptionInfo = OptionInfo(
    isCall: bool,
    inTheMoney: bool,
    expirationDate: Option<Date>,
    strikePrice: Option<real>,
    lastTrade: real,
    fields: map<FieldId, Value>)

  /** Ids of the fields whose status is defined. */
  function DefinedIds(fs: seq<Field>): set<FieldId> {
    set i | 0 <= i < |fs| && fs[i].status == Defined :: fs[i].id
  }

  /** The value of the last defined field carrying `id`, in wire order. */
  function LastDefined(fs: seq<Field>, id: FieldId): (r: Option<Value>)
    ensures r.Some? <==> exists i | 0 <= i < |fs| :: fs[i].status == Defined && fs[i].id == id
    ensures r.Some? ==> exists i | 0 <= i < |fs| ::
              && fs[i].status == Defined && fs[i].id == id && fs[i].value == r.value
              && forall j | i < j < |fs| :: !(fs[j].status == Defined && fs[j].id == id)
  {
    if |fs| == 0 then None
    else
      var last := fs[|fs| - 1];
      if last.status == Defined && last.id == id then Some(last.value)
      else
        var r := LastDefined(fs[..|fs| - 1], id);
        assert forall i | 0 <= i < |fs| - 1 :: fs[..|fs| - 1][i] == fs[i];
        r
  }

  /** Scanning from the front: a later defined field overrides an earlier one. */
  lemma {:induction false} LastDefinedCons(fs: seq<Field>, id: FieldId)
    requires |fs| > 0
    ensures LastDefined(fs, id) ==
              if LastDefined(fs[1..], id).Some? then LastDefined(fs[1..], id)
              else if fs[0].status == Defined && fs[0].id == id then Some(fs[0].value)
              else None
  {
    if |fs| > 1 {
      var front := fs[..|fs| - 1];
      LastDefinedCons(front, id);
      assert fs[1..][..|fs| - 2] == front[1..];
      assert fs[1..][|fs| - 2] == fs[|fs| - 1];
    }
  }

  /** The in-the-money rule: strict comparison against a nonzero reference price,
      `>` for a call and `<` for a put; false without a strike or a reference. */
  predicate InTheMoneyRule(info: OptionInfo) {
    info.inTheMoney ==
      (&& info.strikePrice.Some?
       && info.lastTrade != 0.0
       && if info.isCall then info.lastTrade > info.strikePrice.value
          else info.lastTrade < info.strikePrice.value)
  }

  /** Stores one defined field, and reacts to the strike and the expiration. */
  function SetField(info: OptionInfo, f: Field): (r: OptionInfo)
    requires f.status == Defined && Fits(f)
    ensures r.isCall == info.isCall && r.lastTrade == info.lastTrade
    ensures r.fields == info.fields[f.id := f.value]
    ensures InTheMoneyRule(info) ==> InTheMoneyRule(r)
  {
    var stored := info.(fields := info.fields[f.id := f.value]);
    match f.id
    case StrikePrice =>
      var strike := f.value.r;
      var itm :=
        if info.lastTrade != 0.0 then
          if info.isCall then info.lastTrade > strike else info.lastTrade < strike
        else info.inTheMoney;
      stored.(strikePrice := Some(strike), inTheMoney := itm)
    case ExpirationDate => stored.(expirationDate := Some(f.value.date))
    case _ => stored
  }

  /** Copies every defined field in wire order. */
  function CopyDefined(info: OptionInfo, fs: seq<Field>): (r: OptionInfo)
    requires AllFit(fs)
    ensures r.isCall == info.isCall && r.lastTrade == info.lastTrade
    ensures InTheMoneyRule(info) ==> InTheMoneyRule(r)
    decreases |fs|
  {
    if |fs| == 0 then info
    else
      var next := if fs[0].status == Defined then SetField(info, fs[0]) else info;
      assert AllFit(fs[1..]);
      CopyDefined(next, fs[1..])
  }

  /** The copied field map: the last defined value of each id overrides what was there. */
  lemma {:induction false} CopyDefinedField(info: OptionInfo, fs: seq<Field>, id: FieldId)
    requires AllFit(fs)
    ensures var r := CopyDefined(info, fs);
            && (id in r.fields <==> id in info.fields || LastDefined(fs, id).Some?)
            && (id in r.fields ==>
                  r.fields[id] == if LastDefined(fs, id).Some? then LastDefined(fs, id).value else info.fields[id])
    decreases |fs|
  {
    if |fs| > 0 {
      var next := if fs[0].status == Defined then SetField(info, fs[0]) else info;
      assert AllFit(fs[1..]);
      LastDefinedCons(fs, id);
      CopyDefinedField(next, fs[1..], id);
    }
  }

  /** The strike and expiration end up as the last defined strike and expiration fields. */
  lemma {:induction false} CopyDefinedStrikeAndExpiration(info: OptionInfo, fs: seq<Field>)
    requires AllFit(fs)
    ensures var r := CopyDefined(info, fs);
            && (LastDefined(fs, StrikePrice).None? ==> r.strikePrice == info.strikePrice)
            && (LastDefined(fs, StrikePrice).Some? ==>
                  r.strikePrice.Some? && LastDefined(fs, StrikePrice) == Some(Rational(r.strikePrice.value)))
            && (LastDefined(fs, ExpirationDate).None? ==> r.expirationDate == info.expirationDate)
            && (LastDefined(fs, ExpirationDate).Some? ==>
                  r.expirationDate.Some? && LastDefined(fs, ExpirationDate) == Some(Day(r.expirationDate.value)))
    decreases |fs|
  {
    if |fs| > 0 {
      var next := if fs[0].status == Defined then SetField(info, fs[0]) else info;
      assert AllFit(fs[1..]);
      LastDefinedCons(fs, StrikePrice);
      LastDefinedCons(fs, ExpirationDate);
      CopyDefinedStrikeAndExpiration(next, fs[1..]);
      assert Fits(fs[0]);
    }
  }

  /** Builds a contract: the side is fixed from the option-type field before any
      field is copied, then every defined field is copied in wire order. */
  function NewOptionInfo(lastTrade: real, fs: seq<Field>): (r: OptionInfo)
    requires AllFit(fs) && Lookup(fs, OptionType).Some?
    ensures r.isCall <==> Lookup(fs, OptionType).value.value == Enum(OptionTypeCall)
    ensures r.lastTrade == lastTrade
    ensures InTheMoneyRule(r)
  {
    var isCall := Lookup(fs, OptionType).value.value == Enum(OptionTypeCall);
    CopyDefined(OptionInfo(isCall, false, None, None, lastTrade, map[]), fs)
  }

  lemma DefinedIdsAreLastDefined(fs: seq<Field>)
    ensures forall id :: id in DefinedIds(fs) <==> LastDefined(fs, id).Some?
  {
    forall id ensures id in DefinedIds(fs) <==> LastDefined(fs, id).Some? {
      if LastDefined(fs, id).Some? {
        var i :| 0 <= i < |fs| && fs[i].status == Defined && fs[i].id == id;
      }
    }
  }

  /** What a built contract holds: the side from the option-type field alone;
      exactly the defined fields, each with its last defined value; the strike
      and expiration from their fields when present; and in-the-money by strict
      comparison with a nonzero reference price, false otherwise. */
  lemma ClassifiedContract(lastTrade: real, fs: seq<Field>)
    requires AllFit(fs) && Lookup(fs, OptionType).Some?
    ensures var r := NewOptionInfo(lastTrade, fs);
            && (r.isCall <==> Lookup(fs, OptionType).value.value == Enum(OptionTypeCall))
            && r.lastTrade == lastTrade
            && r.fields.Keys == DefinedIds(fs)
            && (forall id | id in r.fields :: Some(r.fields[id]) == LastDefined(fs, id))
            && (r.strikePrice.Some? <==> LastDefined(fs, StrikePrice).Some?)
            && (r.strikePrice.Some? ==> LastDefined(fs, StrikePrice) == Some(Rational(r.strikePrice.value)))
            && (r.expirationDate.Some? <==> LastDefined(fs, ExpirationDate).Some?)
            && (r.expirationDate.Some? ==> LastDefined(fs, ExpirationDate) == Some(Day(r.expirationDate.value)))
            && (r.inTheMoney <==>
                  && r.strikePrice.Some? && lastTrade != 0.0
                  && if r.isCall then lastTrade > r.strikePrice.value else lastTrade < r.strikePrice.value)
  {
    var isCall := Lookup(fs, OptionType).value.value == Enum(OptionTypeCall);
    var start := OptionInfo(isCall, false, None, None, lastTrade, map[]);
    forall id {
      CopyDefinedField(start, fs, id);
    }
    CopyDefinedStrikeAndExpiration(start, fs);
    DefinedIdsAreLastDefined(fs);
  }

  /** The suffix the textual form ends with: nothing without a reference price. */
  function MoneySuffix(info: OptionInfo): (s: string)
    ensures s == "" <==> info.lastTrade == 0.0
    ensures info.lastTrade != 0.0 ==> (s == " is in the money." <==> info.inTheMoney)
  {
    if info.lastTrade != 0.0 then
      if info.inTheMoney then " is in the money." else " is out of the money."
    else ""
  }

  /** Strictness: a strike equal to the reference price is never in the money. */
  lemma AtTheMoneyIsNotInTheMoney(lastTrade: real, fs: seq<Field>)
    requires AllFit(fs) && Lookup(fs, OptionType).Some?
    requires NewOptionInfo(lastTrade, fs).strikePrice == Some(lastTrade)
    ensures !NewOptionInfo(lastTrade, fs).inTheMoney
  {
    ClassifiedContract(lastTrade, fs);
  }
}
