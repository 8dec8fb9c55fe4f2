/** The content gateway as the option-series core sees it: status codes, field
    identifiers, decoded field lists and response blocks. Everything here is
    data handed to the core; no request is ever sent by the model. */
module Gateway {
  import opened Wrappers

  /** Middleware status codes. `Code` stands for any other status carried by an
      exception thrown out of the gateway library. */
  datatype Status = Success | Failure | InvalidParameter | OutOfRange | Code(n: int)

  /** Relationship of a response block to the requested symbol. */
  datatype Relationship = NoRelationship | OptionRoot | OtherRelationship(id: int)

  /** A calendar date, as an ordinal day; `compareTo` on dates is this order. */
  type Date = int

  type Byte = b: int | 0 <= b < 256

  /** The field identifiers the core reads; every other field is `OtherField`. */
  datatype FieldId =
    | Trade | Close | OptionType | StrikePrice | ExpirationDate
    | StrikePriceList | ExpirationDateList
    | OtherField(id: int)

  datatype FieldStatus = Defined | NotDefined

  /** Values of the option-type enumeration. */
  datatype Enumeration = OptionTypeCall | OptionTypePut | OtherEnumeration(code: int)

  /** A decoded field value. Rationals are exact; see README for the
      floating-point conversion that is abstracted away. */
  datatype Value =
    | Rational(r: real)
    | Day(date: Date)
    | Blob(bytes: seq<Byte>)
    | BinaryString(text: string)
    | Enum(e: Enumeration)
    | Text(s: string)

  datatype Field = Field(id: FieldId, status: FieldStatus, value: Value)

  /** The outcome of decoding one block's field data: either the library threw
      (with a status), or it produced the block's fields in wire order. */
  datatype Decoding = Undecodable(code: Status) | Decoded(fields: seq<Field>)

  datatype ResponseBlock = ResponseBlock(valid: bool, relationship: Relationship, symbol: string, data: Decoding)

  /** What one gateway query answered: its status and its response blocks. */
  datatype Reply = Reply(status: Status, blocks: seq<ResponseBlock>)

  /** Side of an option contract, as the alias encoder takes it. */
  datatype OptionSide = CallSide | PutSide

  /** The foreign symbology collaborators, left uninterpreted: the option alias
      encoder and the two universe decoders. Each may throw, which is `Err`. */
  datatype Symbology = Symbology(
    buildAlias: (string, Date, OptionSide, real, string) -> Result<string, Status>,
    strikePriceList: seq<Byte> -> Result<seq<real>, Status>,
    expirationDateList: string -> Result<seq<Date>, Status>)

  /** The contract builder casts every defined strike and expiration field it
      copies; the source would otherwise throw an uncaught ClassCastException. */
  predicate Fits(f: Field) {
    f.status == Defined ==>
      match f.id
      case StrikePrice => f.value.Rational?
      case ExpirationDate => f.value.Day?
      case _ => true
  }

  predicate AllFit(fields: seq<Field>) {
    forall i | 0 <= i < |fields| :: Fits(fields[i])
  }

  /** The expiration-list field the pattern builder reads, when defined, holds
      the binary string its cast expects. */
  predicate ExpirationListFits(fields: seq<Field>) {
    Lookup(fields, ExpirationDateList).Some? && Lookup(fields, ExpirationDateList).value.status == Defined
    ==> Lookup(fields, ExpirationDateList).value.value.BinaryString?
  }

  /** The strike-list field the pattern builder reads, when defined, holds the
      blob its cast expects. */
  predicate StrikeListFits(fields: seq<Field>) {
    Lookup(fields, StrikePriceList).Some? && Lookup(fields, StrikePriceList).value.status == Defined
    ==> Lookup(fields, StrikePriceList).value.value.Blob?
  }

  /** Field lookup by id: the first field carrying `id`, or None (a null
      reference in the source) when the block has no such field. */
  function Lookup(fields: seq<Field>, id: FieldId): (r: Option<Field>)
    ensures r.None? <==> forall i | 0 <= i < |fields| :: fields[i].id != id
    ensures r.Some? ==> exists i | 0 <= i < |fields| ::
              fields[i] == r.value && fields[i].id == id
              && forall j | 0 <= j < i :: fields[j].id != id
  {
    if |fields| == 0 then None
    else if fields[0].id == id then Some(fields[0])
    else
      var r := Lookup(fields[1..], id);
      if r.Some? then
        ghost var i :| 0 <= i < |fields[1..]| && fields[1..][i] == r.value && fields[1..][i].id == id
                      && forall j | 0 <= j < i :: fields[1..][j].id != id;
        assert fields[i + 1] == r.value;
        r
      else r
  }

  /** A field carrying another id, wherever it is inserted, does not change a lookup. */
  lemma {:induction false} LookupSkipsOtherIds(a: seq<Field>, x: Field, b: seq<Field>, id: FieldId)
    requires x.id != id
    ensures Lookup(a + [x] + b, id) == Lookup(a + b, id)
  {
    if |a| == 0 {
      assert a + [x] + b == [x] + b;
      assert ([x] + b)[1..] == b;
      assert a + b == b;
    } else {
      LookupSkipsOtherIds(a[1..], x, b, id);
      assert (a + [x] + b)[1..] == a[1..] + [x] + b;
      assert (a + b)[1..] == a[1..] + b;
      assert (a + [x] + b)[0] == a[0] == (a + b)[0];
    }
  }
}
