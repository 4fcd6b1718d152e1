/**
 * The inverse of the query encoder: reading a bag back from a query, field
 * by field of the same whitelist. The client has no such decoder; it is here
 * as the partner that shows the encoder loses nothing it should keep.
 *
 * Two shapes are lost on the wire and are excluded: an empty list and the
 * list holding one empty string both encode as "", and an empty `details`
 * map encodes as nothing at all.
 */
module Decode {
  import opened Wrappers
  import Text
  import opened Params

  /** Reads one query value back as a value of the declared kind. */
  function ParseValue(kind: Kind, text: string): (r: Option<ParamValue>)
    ensures r.Some? ==> KindOf(r.value) == kind
    ensures kind == MapKind ==> r.None?
  {
    match kind
    case StringKind => Some(Str(text))
    case ListKind => Some(StrList(Text.Split(text)))
    case BoolKind => (match Text.ParseBool(text) case Some(x) => Some(Flag(x)) case None => None)
    case IntKind => (match Text.ParseInt(text) case Some(n) => Some(Num(n)) case None => None)
    case MapKind => None
  }

  /** A value the encoder keeps in full. */
  predicate Recoverable(v: ParamValue) {
    match v
    case StrList(xs) => |xs| >= 1 && forall i :: 0 <= i < |xs| ==> Text.NoComma(xs[i])
    case Details(m) => |m| >= 1
    case _ => true
  }

  /** Every scalar rendering parses back to the value it came from. */
  lemma RenderRoundTrip(v: ParamValue)
    requires !v.Details? && Recoverable(v)
    ensures ParseValue(KindOf(v), Render(v)) == Some(v)
  {
    match v
    case Str(_) =>
    case StrList(xs) => Text.SplitJoin(xs);
    case Flag(x) => Text.FormatBoolRoundTrip(x);
    case Num(n) => Text.ItoaRoundTrip(n);
  }

  /** Reads back the fields of a whitelist from a query. */
  function DecodeFields(fields: seq<Field>, u: Query): (b: map<string, ParamValue>)
    ensures b.Keys <= Names(fields)
  {
    if |fields| == 0 then map[]
    else
      var f := fields[0];
      var rest := DecodeFields(fields[1..], u);
      NamesCons(fields);
      if f.kind == MapKind then
        (if DetailKey(0) in u then rest[f.name := Details(ReadDetails(u))] else rest)
      else if f.name in u && ParseValue(f.kind, u[f.name]).Some? then
        rest[f.name := ParseValue(f.kind, u[f.name]).value]
      else rest
  }

  /** The whitelisted part of a bag: what an encoder can send at all. */
  function Listed(fields: seq<Field>, b: map<string, ParamValue>): map<string, ParamValue> {
    map k | k in Names(fields) && k in b :: b[k]
  }

  /** What a query must say about each field for the decode to read it back. */
  predicate Readable(fields: seq<Field>, u: Query, b: map<string, ParamValue>) {
    && (forall i :: 0 <= i < |fields| && fields[i].kind != MapKind ==>
          (fields[i].name in u <==> fields[i].name in b)
          && (fields[i].name in b ==> ParseValue(fields[i].kind, u[fields[i].name]) == Some(b[fields[i].name])))
    && (forall i :: 0 <= i < |fields| && fields[i].kind == MapKind ==>
          (DetailKey(0) in u <==> fields[i].name in b)
          && (fields[i].name in b ==> b[fields[i].name] == Details(ReadDetails(u))))
  }

  lemma {:induction false} DecodeFieldsMeaning(fields: seq<Field>, u: Query, b: map<string, ParamValue>)
    requires Readable(fields, u, b)
    ensures DecodeFields(fields, u) == Listed(fields, b)
    decreases |fields|
  {
    if |fields| > 0 {
      var f := fields[0];
      assert Readable(fields[1..], u, b) by {
        forall i | 0 <= i < |fields[1..]| ensures fields[1..][i] == fields[i + 1] { }
      }
      DecodeFieldsMeaning(fields[1..], u, b);
      NamesCons(fields);
      var r := DecodeFields(fields, u);
      var l := Listed(fields, b);
      var lr := Listed(fields[1..], b);
      forall k ensures (k in r <==> k in l) && (k in r ==> r[k] == l[k]) {
        if k == f.name {
          if f.kind == MapKind {
            assert DetailKey(0) in u <==> f.name in b;
          } else {
            assert f.name in u <==> f.name in b;
          }
        } else {
          assert (k in r <==> k in lr) && (k in r ==> r[k] == lr[k]);
        }
      }
    }
  }

  /** The first detail name is among the names of a non-empty flattened map. */
  lemma FirstDetailName(n: nat)
    requires n >= 1
    ensures DetailKey(0) in DetailNames(n)
    decreases n
  {
    if n > 1 { FirstDetailName(n - 1); }
  }

  /**
   * Decoding an encoded bag gives back its whitelisted part, whatever the
   * iteration order of `details`, provided every value is one the encoder
   * keeps in full.
   */
  lemma DecodeEncode(pt: ParamsType, bag: Bag, order: seq<string>)
    requires WellFormed(pt)
    requires WellTyped(pt, bag)
    requires OrderFits(Entries(bag), order)
    requires forall k :: k in Entries(bag) ==> Recoverable(Entries(bag)[k])
    ensures DecodeFields(pt.fields, ToURLValues(pt, bag, order)) == Listed(pt.fields, Entries(bag))
  {
    var b := Entries(bag);
    var u := ToURLValues(pt, bag, order);
    EncoderWhitelist(pt, bag, order);
    DetailNamesNotPlain(0);
    forall i | 0 <= i < |pt.fields| && pt.fields[i].kind != MapKind
      ensures (pt.fields[i].name in u <==> pt.fields[i].name in b)
      ensures pt.fields[i].name in b ==> ParseValue(pt.fields[i].kind, u[pt.fields[i].name]) == Some(b[pt.fields[i].name])
    {
      var k := pt.fields[i].name;
      assert Plain(k) && k in Names(pt.fields);
      if k in b {
        RenderRoundTrip(b[k]);
      }
    }
    forall i | 0 <= i < |pt.fields| && pt.fields[i].kind == MapKind
      ensures (DetailKey(0) in u <==> pt.fields[i].name in b)
      ensures pt.fields[i].name in b ==> b[pt.fields[i].name] == Details(ReadDetails(u))
    {
      assert pt.fields[i].name == DetailsName && DetailsName in Names(pt.fields);
      if DetailsName in b {
        DetailsRoundTrip(pt, bag, order);
        FirstDetailName(|b[DetailsName].m|);
      }
    }
    DecodeFieldsMeaning(pt.fields, u, b);
  }
}
