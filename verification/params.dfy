/**
 * Parameter bags and their query encoders.
 *
 * Every `*Params` type of the client is a string-keyed bag of optional
 * values, filled by setters and by a constructor that takes the required
 * parameters, and turned into the request's query by `toURLValues`, which
 * walks a fixed list of whitelisted names. Here one `ParamsType` record
 * describes such a type (its whitelist, its setters, its constructor
 * arguments) and the operations below are written once for all of them.
 */
module Params {
  import Text

  /** A value stored in a bag; the union replaces Go's `interface{}` plus type assertion. */
  datatype ParamValue =
    | Str(s: string)
    | StrList(items: seq<string>)
    | Flag(b: bool)
    | Num(n: int)
    | Details(m: map<string, string>)

  datatype Kind = StringKind | ListKind | BoolKind | IntKind | MapKind

  function KindOf(v: ParamValue): Kind {
    match v
    case Str(_) => StringKind
    case StrList(_) => ListKind
    case Flag(_) => BoolKind
    case Num(_) => IntKind
    case Details(_) => MapKind
  }

  /** The bag field of a params struct: `Nil` is the nil map of a zero-value struct. */
  datatype Bag = Nil | Bag(entries: map<string, ParamValue>)

  function Entries(b: Bag): map<string, ParamValue> {
    if b.Nil? then map[] else b.entries
  }

  /** The encoded query; `url.Values.Set` keeps exactly one value per name. */
  type Query = map<string, string>

  /** One `if v, found := p.p[name]; found { ... }` block of an encoder. */
  datatype Field = Field(name: string, kind: Kind)

  /** A string field, the commonest kind. */
  function S(name: string): Field { Field(name, StringKind) }

  /** A setter `SetX(v)`: stores its argument, of Go type `kind`, under `key`. */
  datatype Setter = Setter(key: string, kind: Kind)

  /** A `*Params` type: encoder whitelist, setters, and the constructor's required names. */
  datatype ParamsType = ParamsType(name: string, fields: seq<Field>, setters: seq<Setter>, required: seq<string>)

  /** The one name under which a string-to-string map is flattened. */
  const DetailsName: string := "details"

  /**
   * A name that cannot be one of the indexed `details[i].key` / `details[i].value`
   * names: those all carry '[' as their eighth character.
   */
  predicate Plain(name: string) {
    !(|name| > 7 && name[7] == '[')
  }

  function Names(fields: seq<Field>): set<string> {
    set i | 0 <= i < |fields| :: fields[i].name
  }

  /** `key` is whitelisted, and every whitelist entry for it has `kind`. */
  predicate Declares(fields: seq<Field>, key: string, kind: Kind) {
    && key in Names(fields)
    && forall i :: 0 <= i < |fields| && fields[i].name == key ==> fields[i].kind == kind
  }

  /** Shape shared by every encoder of the client: plain names, maps only under "details". */
  predicate WellFormed(pt: ParamsType) {
    && (forall i :: 0 <= i < |pt.fields| ==> Plain(pt.fields[i].name))
    && (forall i :: 0 <= i < |pt.fields| && pt.fields[i].kind == MapKind ==> pt.fields[i].name == DetailsName)
  }

  /** Every setter and every constructor argument lands on a whitelisted name of its kind. */
  predicate SettersFeedEncoder(pt: ParamsType) {
    && (forall j :: 0 <= j < |pt.setters| ==> Declares(pt.fields, pt.setters[j].key, pt.setters[j].kind))
    && (forall j :: 0 <= j < |pt.required| ==> Declares(pt.fields, pt.required[j], StringKind))
  }

  /**
   * A parameter type the encoder and its setters agree on: plain whitelisted
   * names, maps only under "details", and setters and constructor arguments
   * that land on whitelisted names of their own kind.
   */
  predicate Consistent(pt: ParamsType) {
    WellFormed(pt) && SettersFeedEncoder(pt)
  }

  /** Whitelisted names present in the bag hold values of their declared kind. */
  predicate WellTyped(pt: ParamsType, b: Bag) {
    forall i :: 0 <= i < |pt.fields| && pt.fields[i].name in Entries(b) ==>
      KindOf(Entries(b)[pt.fields[i].name]) == pt.fields[i].kind
  }

  predicate Distinct(ks: seq<string>) {
    forall i, j :: 0 <= i < j < |ks| ==> ks[i] != ks[j]
  }

  predicate DistinctNames(fields: seq<Field>) {
    forall i, j :: 0 <= i < j < |fields| ==> fields[i].name != fields[j].name
  }

  /** One setter per whitelisted name, storing under that name a value of that kind. */
  function SettersOf(fields: seq<Field>): (ss: seq<Setter>)
    ensures |ss| == |fields|
    ensures forall j :: 0 <= j < |fields| ==> ss[j] == Setter(fields[j].name, fields[j].kind)
  {
    seq(|fields|, j requires 0 <= j < |fields| => Setter(fields[j].name, fields[j].kind))
  }

  /** Setters generated from a whitelist with distinct names feed that whitelist. */
  lemma SettersOfFeed(fields: seq<Field>, j: nat)
    requires DistinctNames(fields)
    requires j < |fields|
    ensures Declares(fields, SettersOf(fields)[j].key, SettersOf(fields)[j].kind)
  {
  }

  /**
   * Two names differ in length, in first letter, or else as whole names: a
   * way of saying "differ" that lets the solver try the cheap witnesses first.
   */
  predicate ShapeDiffers(a: string, b: string) {
    |a| != |b| || (0 < |a| && a[0] != b[0]) || a != b
  }

  lemma NamesDiffer(fields: seq<Field>)
    requires forall i, j :: 0 <= i < j < |fields| ==> ShapeDiffers(fields[i].name, fields[j].name)
    ensures DistinctNames(fields)
  {
  }

  /**
   * A type whose setters are generated from a whitelist with distinct names,
   * and whose constructor arguments sit at string fields (`at` gives where),
   * feeds its encoder.
   */
  lemma GeneratedSettersFeed(pt: ParamsType, at: seq<nat>)
    requires DistinctNames(pt.fields)
    requires pt.setters == SettersOf(pt.fields)
    requires |at| == |pt.required|
    requires forall j :: 0 <= j < |at| ==> at[j] < |pt.fields| && pt.fields[at[j]] == Field(pt.required[j], StringKind)
    ensures SettersFeedEncoder(pt)
  {
    forall j | 0 <= j < |pt.setters| ensures Declares(pt.fields, pt.setters[j].key, pt.setters[j].kind) {
      SettersOfFeed(pt.fields, j);
    }
    forall j | 0 <= j < |pt.required| ensures Declares(pt.fields, pt.required[j], StringKind) {
      assert pt.fields[at[j]].name == pt.required[j];
    }
  }

  // ---------------------------------------------------------------- setters

  /** A setter: creates the bag if it is nil, then stores one key. */
  function ApplySetter(s: Setter, b: Bag, v: ParamValue): (r: Bag)
    requires KindOf(v) == s.kind
    ensures r.Bag?
    ensures r.entries.Keys == Entries(b).Keys + {s.key}
    ensures r.entries[s.key] == v
    ensures forall k :: k in Entries(b) && k != s.key ==> r.entries[k] == Entries(b)[k]
  {
    Bag(Entries(b)[s.key := v])
  }

  /** A setter whose key and kind the encoder declares keeps a well-typed bag well-typed. */
  lemma SetterKeepsWellTyped(pt: ParamsType, s: Setter, b: Bag, v: ParamValue)
    requires Declares(pt.fields, s.key, s.kind)
    requires KindOf(v) == s.kind
    requires WellTyped(pt, b)
    ensures WellTyped(pt, ApplySetter(s, b, v))
  {
  }

  /** Stores `vals[i]` under `keys[i]` in order, as the constructor's assignments do. */
  function Bind(keys: seq<string>, vals: seq<string>): (m: map<string, ParamValue>)
    requires |keys| == |vals|
    ensures m.Keys == set i | 0 <= i < |keys| :: keys[i]
    ensures Distinct(keys) ==> forall i :: 0 <= i < |keys| ==> m[keys[i]] == Str(vals[i])
    decreases |keys|
  {
    if |keys| == 0 then map[]
    else
      var n := |keys| - 1;
      assert forall i :: 0 <= i < n ==> keys[..n][i] == keys[i];
      Bind(keys[..n], vals[..n])[keys[n] := Str(vals[n])]
  }

  /** `New<Type>Params(args...)`: a fresh, non-nil bag holding exactly the required arguments. */
  function NewParams(pt: ParamsType, args: seq<string>): (r: Bag)
    requires |args| == |pt.required|
    ensures r.Bag?
    ensures r.entries.Keys == set i | 0 <= i < |pt.required| :: pt.required[i]
    ensures Distinct(pt.required) ==> forall i :: 0 <= i < |args| ==> r.entries[pt.required[i]] == Str(args[i])
  {
    Bag(Bind(pt.required, args))
  }

  /** A constructed bag is well-typed when the constructor's names are whitelisted strings. */
  lemma NewParamsWellTyped(pt: ParamsType, args: seq<string>)
    requires |args| == |pt.required|
    requires SettersFeedEncoder(pt)
    ensures WellTyped(pt, NewParams(pt, args))
  {
    var b := NewParams(pt, args);
    forall i | 0 <= i < |pt.fields| && pt.fields[i].name in Entries(b)
      ensures KindOf(Entries(b)[pt.fields[i].name]) == pt.fields[i].kind
    {
      var j :| 0 <= j < |pt.required| && pt.required[j] == pt.fields[i].name;
      assert Declares(pt.fields, pt.required[j], StringKind);
      BindStoresStrings(pt.required, args, pt.required[j]);
    }
  }

  lemma {:induction false} BindStoresStrings(keys: seq<string>, vals: seq<string>, k: string)
    requires |keys| == |vals|
    requires k in Bind(keys, vals)
    ensures Bind(keys, vals)[k].Str?
    decreases |keys|
  {
    var n := |keys| - 1;
    if k != keys[n] {
      BindStoresStrings(keys[..n], vals[..n], k);
    }
  }

  // ------------------------------------------------------- details flattening

  function DetailKey(i: nat): string {
    "details[" + Text.Itoa(i) + "].key"
  }

  function DetailValue(i: nat): string {
    "details[" + Text.Itoa(i) + "].value"
  }

  /** The names `details[j].key` and `details[j].value` for j < n. */
  function DetailNames(n: nat): set<string> {
    if n == 0 then {} else DetailNames(n - 1) + {DetailKey(n - 1), DetailValue(n - 1)}
  }

  lemma DetailNamesNotPlain(i: nat)
    ensures !Plain(DetailKey(i)) && !Plain(DetailValue(i))
  {
    assert DetailKey(i)[7] == '[';
    assert DetailValue(i)[7] == '[';
  }

  lemma DetailKeyInjective(i: nat, j: nat)
    requires DetailKey(i) == DetailKey(j)
    ensures i == j
  {
    var a := DetailKey(i);
    assert a[8..|a| - 5] == Text.Itoa(i);
    assert a[8..|a| - 5] == Text.Itoa(j);
    Text.ItoaInjective(i, j);
  }

  lemma DetailValueInjective(i: nat, j: nat)
    requires DetailValue(i) == DetailValue(j)
    ensures i == j
  {
    var a := DetailValue(i);
    assert a[8..|a| - 7] == Text.Itoa(i);
    assert a[8..|a| - 7] == Text.Itoa(j);
    Text.ItoaInjective(i, j);
  }

  lemma DetailKeyIsNotValue(i: nat, j: nat)
    ensures DetailKey(i) != DetailValue(j)
  {
    var a, b := DetailKey(i), DetailValue(j);
    assert a[|a| - 1] == 'y';
    assert b[|b| - 1] == 'e';
  }

  /** The four names of two different indices are pairwise different. */
  lemma DistinctIndexNames(i: nat, j: nat)
    requires i != j
    ensures DetailKey(i) != DetailKey(j) && DetailValue(i) != DetailValue(j)
    ensures DetailKey(i) != DetailValue(j) && DetailValue(i) != DetailKey(j)
  {
    if DetailKey(i) == DetailKey(j) { DetailKeyInjective(i, j); }
    if DetailValue(i) == DetailValue(j) { DetailValueInjective(i, j); }
    DetailKeyIsNotValue(i, j);
    DetailKeyIsNotValue(j, i);
  }

  /** Indices from n on are not among the first n detail names. */
  lemma {:induction false} FreshDetailNames(i: nat, n: nat)
    requires n <= i
    ensures DetailKey(i) !in DetailNames(n) && DetailValue(i) !in DetailNames(n)
    decreases n
  {
    if n > 0 {
      FreshDetailNames(i, n - 1);
      var last := {DetailKey(n - 1), DetailValue(n - 1)};
      assert DetailNames(n) == DetailNames(n - 1) + last;
      assert DetailKey(i) !in last && DetailValue(i) !in last by {
        DistinctIndexNames(i, n - 1);
      }
    }
  }

  /** n map entries are flattened into exactly 2n distinct names. */
  lemma {:induction false} DetailNamesCount(n: nat)
    ensures |DetailNames(n)| == 2 * n
    decreases n
  {
    if n > 0 {
      DetailNamesCount(n - 1);
      var prev, last := DetailNames(n - 1), {DetailKey(n - 1), DetailValue(n - 1)};
      assert |last| == 2 by { DetailKeyIsNotValue(n - 1, n - 1); }
      assert prev !! last by { FreshDetailNames(n - 1, n - 1); }
      assert DetailNames(n) == prev + last;
    }
  }

  lemma {:induction false} DetailNamesAreNotPlain(n: nat, k: string)
    requires k in DetailNames(n)
    ensures !Plain(k)
    decreases n
  {
    if k == DetailKey(n - 1) || k == DetailValue(n - 1) {
      DetailNamesNotPlain(n - 1);
    } else {
      DetailNamesAreNotPlain(n - 1, k);
    }
  }

  /** `order` is one run of Go's `range` over `m`: every key exactly once. */
  predicate Enumerates(order: seq<string>, m: map<string, string>) {
    && Distinct(order)
    && (forall k :: k in m ==> k in order)
    && (forall i :: 0 <= i < |order| ==> order[i] in m)
  }

  /** The `details` loop of the encoders, visiting the keys in `order`. */
  function Flatten(m: map<string, string>, order: seq<string>): (u: Query)
    requires forall i :: 0 <= i < |order| ==> order[i] in m
    ensures u.Keys == DetailNames(|order|)
    decreases |order|
  {
    if |order| == 0 then map[]
    else
      var n := |order| - 1;
      Flatten(m, order[..n])[DetailKey(n) := order[n]][DetailValue(n) := m[order[n]]]
  }

  /** Iteration j of the loop leaves the j-th key and its value under index j. */
  lemma {:induction false} FlattenAt(m: map<string, string>, order: seq<string>, j: nat)
    requires forall i :: 0 <= i < |order| ==> order[i] in m
    requires j < |order|
    ensures DetailKey(j) in Flatten(m, order) && Flatten(m, order)[DetailKey(j)] == order[j]
    ensures DetailValue(j) in Flatten(m, order) && Flatten(m, order)[DetailValue(j)] == m[order[j]]
    decreases |order|
  {
    var n := |order| - 1;
    if j == n {
      FlattenLast(m, order);
    } else {
      FlattenAt(m, order[..n], j);
      assert order[..n][j] == order[j];
      DistinctIndexNames(j, n);
      FlattenEarlier(m, order, DetailKey(j));
      FlattenEarlier(m, order, DetailValue(j));
    }
  }

  /** The last iteration writes the last key and its value. */
  lemma FlattenLast(m: map<string, string>, order: seq<string>)
    requires forall i :: 0 <= i < |order| ==> order[i] in m
    requires |order| > 0
    ensures var n := |order| - 1;
      && DetailKey(n) in Flatten(m, order) && Flatten(m, order)[DetailKey(n)] == order[n]
      && DetailValue(n) in Flatten(m, order) && Flatten(m, order)[DetailValue(n)] == m[order[n]]
  {
    DetailKeyIsNotValue(|order| - 1, |order| - 1);
  }

  /** The last iteration leaves every other name as the earlier iterations wrote it. */
  lemma FlattenEarlier(m: map<string, string>, order: seq<string>, k: string)
    requires forall i :: 0 <= i < |order| ==> order[i] in m
    requires |order| > 0
    requires k != DetailKey(|order| - 1) && k != DetailValue(|order| - 1)
    ensures var prev := Flatten(m, order[..|order| - 1]);
      && (k in Flatten(m, order) <==> k in prev)
      && (k in prev ==> Flatten(m, order)[k] == prev[k])
  {
  }

  /**
   * Reads `details[i].key`/`details[i].value` pairs back, from index i upwards,
   * until a pair is missing. The bound `i < |q|` holds whenever both names of
   * every index up to i are present, so it only serves termination.
   */
  function ReadDetailsFrom(q: Query, i: nat): map<string, string>
    decreases |q| - i
  {
    if i < |q| && DetailKey(i) in q && DetailValue(i) in q
    then ReadDetailsFrom(q, i + 1)[q[DetailKey(i)] := q[DetailValue(i)]]
    else map[]
  }

  function ReadDetails(q: Query): map<string, string> {
    ReadDetailsFrom(q, 0)
  }

  // ------------------------------------------------------------------ encoder

  /** The iteration order supplied for every map value in the bag enumerates that map. */
  predicate OrderFits(b: map<string, ParamValue>, order: seq<string>) {
    forall k :: k in b && b[k].Details? ==> Enumerates(order, b[k].m)
  }

  /** Text of a scalar value: as-is, joined by ", ", "true"/"false", or decimal. */
  function Render(v: ParamValue): string
    requires !v.Details?
  {
    match v
    case Str(s) => s
    case StrList(xs) => Text.Join(xs)
    case Flag(x) => Text.FormatBool(x)
    case Num(n) => Text.Itoa(n)
  }

  /** What one whitelisted name contributes to the query. */
  function Emit(f: Field, b: map<string, ParamValue>, order: seq<string>): Query
    requires OrderFits(b, order)
  {
    if f.name !in b then map[]
    else if b[f.name].Details? then Flatten(b[f.name].m, order)
    else map[f.name := Render(b[f.name])]
  }

  /** The encoder body: each whitelisted name in turn, later `Set`s overriding earlier ones. */
  function EncodeFields(fields: seq<Field>, b: map<string, ParamValue>, order: seq<string>, u: Query): Query
    requires OrderFits(b, order)
    decreases |fields|
  {
    if |fields| == 0 then u else EncodeFields(fields[1..], b, order, u + Emit(fields[0], b, order))
  }

  /** `toURLValues`: a nil bag gives the empty query; otherwise the whitelist is walked. */
  function ToURLValues(pt: ParamsType, bag: Bag, order: seq<string>): (u: Query)
    requires OrderFits(Entries(bag), order)
    ensures bag.Nil? ==> u == map[]
  {
    if bag.Nil? then map[] else EncodeFields(pt.fields, bag.entries, order, map[])
  }

  // ------------------------------------------------- reference semantics

  /** Reference meaning of the scalar part: each whitelisted, present, non-map name, rendered. */
  function ScalarPart(fields: seq<Field>, b: map<string, ParamValue>): Query {
    map k | k in Names(fields) && k in b && !b[k].Details? :: Render(b[k])
  }

  /** Reference meaning of the map part: the flattened `details` map, when whitelisted and present. */
  function DetailsPart(fields: seq<Field>, b: map<string, ParamValue>, order: seq<string>): Query
    requires OrderFits(b, order)
  {
    if DetailsName in Names(fields) && DetailsName in b && b[DetailsName].Details?
    then Flatten(b[DetailsName].m, order)
    else map[]
  }

  /** Map values only under the name "details" (a consequence of well-formed and well-typed). */
  predicate MapsOnlyUnderDetails(fields: seq<Field>, b: map<string, ParamValue>) {
    forall i :: 0 <= i < |fields| && fields[i].name in b && b[fields[i].name].Details? ==>
      fields[i].name == DetailsName
  }

  predicate AllPlain(fields: seq<Field>) {
    forall i :: 0 <= i < |fields| ==> Plain(fields[i].name)
  }

  lemma ScalarPartIsPlain(fields: seq<Field>, b: map<string, ParamValue>, k: string)
    requires AllPlain(fields)
    requires k in ScalarPart(fields, b)
    ensures Plain(k)
  {
  }

  lemma DetailsPartIsNotPlain(fields: seq<Field>, b: map<string, ParamValue>, order: seq<string>, k: string)
    requires OrderFits(b, order)
    requires k in DetailsPart(fields, b, order)
    ensures !Plain(k)
  {
    DetailNamesAreNotPlain(|order|, k);
  }

  lemma NamesCons(fields: seq<Field>)
    requires |fields| >= 1
    ensures Names(fields) == {fields[0].name} + Names(fields[1..])
  {
    forall k | k in Names(fields) ensures k in {fields[0].name} + Names(fields[1..]) {
      var i :| 0 <= i < |fields| && fields[i].name == k;
      if i > 0 { assert fields[1..][i - 1] == fields[i]; }
    }
    forall k | k in Names(fields[1..]) ensures k in Names(fields) {
      var i :| 0 <= i < |fields[1..]| && fields[1..][i].name == k;
      assert fields[i + 1].name == k;
    }
  }

  lemma ScalarCons(fields: seq<Field>, b: map<string, ParamValue>)
    requires |fields| >= 1
    ensures ScalarPart(fields, b) == ScalarPart(fields[..1], b) + ScalarPart(fields[1..], b)
  {
    NamesCons(fields);
    NamesOfHead(fields);
    var s, s1, sr := ScalarPart(fields, b), ScalarPart(fields[..1], b), ScalarPart(fields[1..], b);
    assert s.Keys == s1.Keys + sr.Keys;
    forall k | k in s ensures s[k] == (s1 + sr)[k] {
    }
  }

  lemma NamesOfHead(fields: seq<Field>)
    requires |fields| >= 1
    ensures Names(fields[..1]) == {fields[0].name}
  {
    assert fields[..1][0] == fields[0];
  }

  lemma DetailsCons(fields: seq<Field>, b: map<string, ParamValue>, order: seq<string>)
    requires |fields| >= 1
    requires OrderFits(b, order)
    requires MapsOnlyUnderDetails(fields, b)
    ensures DetailsPart(fields, b, order) == DetailsPart(fields[..1], b, order) + DetailsPart(fields[1..], b, order)
  {
    NamesCons(fields);
    NamesOfHead(fields);
  }

  lemma EmitHead(fields: seq<Field>, b: map<string, ParamValue>, order: seq<string>)
    requires |fields| >= 1
    requires OrderFits(b, order)
    requires MapsOnlyUnderDetails(fields, b)
    ensures Emit(fields[0], b, order) == ScalarPart(fields[..1], b) + DetailsPart(fields[..1], b, order)
  {
    NamesOfHead(fields);
    var f := fields[0];
    if f.name in b && b[f.name].Details? {
      assert f.name == DetailsName;
      assert ScalarPart(fields[..1], b) == map[];
    } else if f.name in b {
      assert ScalarPart(fields[..1], b) == map[f.name := Render(b[f.name])];
    } else {
      assert ScalarPart(fields[..1], b) == map[];
    }
  }

  /** Splits the reference parts of a field list into its head and its tail. */
  lemma PartsOfCons(fields: seq<Field>, b: map<string, ParamValue>, order: seq<string>)
    requires |fields| >= 1
    requires OrderFits(b, order)
    requires MapsOnlyUnderDetails(fields, b)
    ensures ScalarPart(fields, b) == ScalarPart(fields[..1], b) + ScalarPart(fields[1..], b)
    ensures DetailsPart(fields, b, order) == DetailsPart(fields[..1], b, order) + DetailsPart(fields[1..], b, order)
    ensures Emit(fields[0], b, order) == ScalarPart(fields[..1], b) + DetailsPart(fields[..1], b, order)
  {
    ScalarCons(fields, b);
    DetailsCons(fields, b, order);
    EmitHead(fields, b, order);
  }

  /** The encoder computes the reference meaning, from any starting query. */
  lemma {:induction false} EncodeFieldsMeaning(fields: seq<Field>, b: map<string, ParamValue>, order: seq<string>, acc: Query)
    requires OrderFits(b, order)
    requires AllPlain(fields)
    requires MapsOnlyUnderDetails(fields, b)
    ensures EncodeFields(fields, b, order, acc) == acc + ScalarPart(fields, b) + DetailsPart(fields, b, order)
    decreases |fields|
  {
    if |fields| == 0 {
      assert ScalarPart(fields, b) == map[];
      assert DetailsPart(fields, b, order) == map[];
    } else {
      var rest := fields[1..];
      var s1, d1 := ScalarPart(fields[..1], b), DetailsPart(fields[..1], b, order);
      var sr, dr := ScalarPart(rest, b), DetailsPart(rest, b, order);
      assert AllPlain(rest);
      assert MapsOnlyUnderDetails(rest, b) by {
        forall i | 0 <= i < |rest| && rest[i].name in b && b[rest[i].name].Details?
          ensures rest[i].name == DetailsName
        {
          assert rest[i] == fields[i + 1];
        }
      }
      assert AllPlain(fields[..1]);
      PartsOfCons(fields, b, order);
      EncodeFieldsMeaning(rest, b, order, acc + Emit(fields[0], b, order));
      // Scalar names are plain and flattened names are not, so d1 commutes with sr.
      forall k | k in d1 ensures k !in sr {
        DetailsPartIsNotPlain(fields[..1], b, order, k);
        if k in sr { ScalarPartIsPlain(rest, b, k); }
      }
      SwapDisjoint(acc, s1, d1, sr, dr);
    }
  }

  /** Two updates with disjoint names commute. */
  lemma SwapDisjoint(acc: Query, s1: Query, d1: Query, sr: Query, dr: Query)
    requires d1.Keys !! sr.Keys
    ensures (acc + (s1 + d1)) + sr + dr == acc + (s1 + sr) + (d1 + dr)
  {
    var l, r := (acc + (s1 + d1)) + sr + dr, acc + (s1 + sr) + (d1 + dr);
    assert l.Keys == r.Keys;
    forall k | k in l ensures l[k] == r[k] {
    }
  }

  /**
   * The encoder's meaning: a well-typed bag encodes to its whitelisted scalar
   * values, rendered, plus the flattened `details` map when there is one.
   */
  lemma EncodeMeaning(pt: ParamsType, bag: Bag, order: seq<string>)
    requires WellFormed(pt)
    requires WellTyped(pt, bag)
    requires OrderFits(Entries(bag), order)
    ensures ToURLValues(pt, bag, order) ==
      ScalarPart(pt.fields, Entries(bag)) + DetailsPart(pt.fields, Entries(bag), order)
  {
    var b := Entries(bag);
    if bag.Nil? {
      assert ScalarPart(pt.fields, b) == map[];
    } else {
      assert MapsOnlyUnderDetails(pt.fields, b);
      EncodeFieldsMeaning(pt.fields, b, order, map[]);
    }
  }

  /**
   * Whitelist: a plain name is in the query exactly when it is whitelisted and
   * present with a scalar value, and then it carries that value's text; every
   * other name in the query is a flattened `details` name.
   */
  lemma EncoderWhitelist(pt: ParamsType, bag: Bag, order: seq<string>)
    requires WellFormed(pt)
    requires WellTyped(pt, bag)
    requires OrderFits(Entries(bag), order)
    ensures forall k :: Plain(k) ==>
      (k in ToURLValues(pt, bag, order) <==> k in Names(pt.fields) && k in Entries(bag) && !Entries(bag)[k].Details?)
    ensures forall k :: Plain(k) && k in ToURLValues(pt, bag, order) ==>
      !Entries(bag)[k].Details? && ToURLValues(pt, bag, order)[k] == Render(Entries(bag)[k])
    ensures forall k :: k in ToURLValues(pt, bag, order) && !Plain(k) ==>
      DetailsName in Names(pt.fields) && DetailsName in Entries(bag) && Entries(bag)[DetailsName].Details?
  {
    var b := Entries(bag);
    EncodeMeaning(pt, bag, order);
    forall k | !Plain(k) && k in ScalarPart(pt.fields, b) ensures false {
      ScalarPartIsPlain(pt.fields, b, k);
    }
    forall k | Plain(k) && k in DetailsPart(pt.fields, b, order) ensures false {
      DetailsPartIsNotPlain(pt.fields, b, order, k);
    }
  }

  /**
   * `details` holding n entries is emitted as exactly 2n names, `details[i].key`
   * and `details[i].value` for i < n, and reading them back gives the map,
   * whatever the iteration order.
   */
  lemma DetailsRoundTrip(pt: ParamsType, bag: Bag, order: seq<string>)
    requires WellFormed(pt)
    requires WellTyped(pt, bag)
    requires OrderFits(Entries(bag), order)
    requires DetailsName in Names(pt.fields)
    requires DetailsName in Entries(bag) && Entries(bag)[DetailsName].Details?
    ensures var u := ToURLValues(pt, bag, order);
      && (set k | k in u && !Plain(k)) == DetailNames(|Entries(bag)[DetailsName].m|)
      && |set k | k in u && !Plain(k)| == 2 * |Entries(bag)[DetailsName].m|
      && ReadDetails(u) == Entries(bag)[DetailsName].m
  {
    var b := Entries(bag);
    var m := b[DetailsName].m;
    var u := ToURLValues(pt, bag, order);
    var f := Flatten(m, order);
    EncodeMeaning(pt, bag, order);
    assert Enumerates(order, m);
    EnumerationLength(order, m);
    forall k | !Plain(k) ensures (k in u <==> k in f) && (k in u ==> u[k] == f[k]) {
      if k in ScalarPart(pt.fields, b) { ScalarPartIsPlain(pt.fields, b, k); }
    }
    forall k | k in f ensures !Plain(k) {
      DetailNamesAreNotPlain(|order|, k);
    }
    assert (set k | k in u && !Plain(k)) == f.Keys;
    DetailNamesCount(|order|);
    ReadBack(u, m, order);
  }

  /** A `range` run over a map has as many steps as the map has keys. */
  lemma EnumerationLength(order: seq<string>, m: map<string, string>)
    requires Enumerates(order, m)
    ensures |order| == |m|
  {
    DistinctCard(order);
    assert (set x | x in order) == m.Keys;
  }

  lemma {:induction false} DistinctCard(s: seq<string>)
    requires Distinct(s)
    ensures |set x | x in s| == |s|
    decreases |s|
  {
    if |s| > 0 {
      var n := |s| - 1;
      assert Distinct(s[..n]);
      DistinctCard(s[..n]);
      assert (set x | x in s) == (set x | x in s[..n]) + {s[n]};
      assert s[n] !in (set x | x in s[..n]);
    }
  }

  /** Reading back from any query whose non-plain part is exactly the flattened map. */
  lemma ReadBack(q: Query, m: map<string, string>, order: seq<string>)
    requires Enumerates(order, m)
    requires forall k :: !Plain(k) ==>
      (k in q <==> k in Flatten(m, order)) && (k in q ==> q[k] == Flatten(m, order)[k])
    ensures ReadDetails(q) == m
  {
    var n := |order|;
    FlattenInside(q, m, order);
    forall j | 0 <= j < n
      ensures DetailKey(j) in q && q[DetailKey(j)] == order[j]
      ensures DetailValue(j) in q && q[DetailValue(j)] == m[order[j]]
    {
      DetailNamesNotPlain(j);
      FlattenAt(m, order, j);
    }
    DetailNamesNotPlain(n);
    FreshDetailNames(n, n);
    ReadBackFrom(q, m, order, 0);
    assert order[0..] == order;
    EnumerationCovers(order, m);
  }

  /** The flattened names all sit in the query, which therefore has at least 2n names. */
  lemma FlattenInside(q: Query, m: map<string, string>, order: seq<string>)
    requires forall i :: 0 <= i < |order| ==> order[i] in m
    requires forall k :: !Plain(k) ==>
      (k in q <==> k in Flatten(m, order)) && (k in q ==> q[k] == Flatten(m, order)[k])
    ensures 2 * |order| <= |q|
  {
    var f := Flatten(m, order);
    DetailNamesCount(|order|);
    forall k | k in f ensures k in q {
      DetailNamesAreNotPlain(|order|, k);
    }
    SubsetCard(f.Keys, q.Keys);
  }

  lemma EnumerationCovers(order: seq<string>, m: map<string, string>)
    requires Enumerates(order, m)
    ensures (map k | k in order :: m[k]) == m
  {
    var r := map k | k in order :: m[k];
    assert r.Keys == m.Keys;
  }

  lemma SubsetCard(a: set<string>, b: set<string>)
    requires a <= b
    ensures |a| <= |b|
  {
    assert b == a + (b - a);
  }

  lemma {:induction false} ReadBackFrom(q: Query, m: map<string, string>, order: seq<string>, i: nat)
    requires forall j :: 0 <= j < |order| ==> order[j] in m
    requires i <= |order|
    requires 2 * |order| <= |q|
    requires forall j :: 0 <= j < |order| ==>
      && DetailKey(j) in q && q[DetailKey(j)] == order[j]
      && DetailValue(j) in q && q[DetailValue(j)] == m[order[j]]
    requires DetailKey(|order|) !in q
    ensures ReadDetailsFrom(q, i) == map k | k in order[i..] :: m[k]
    decreases |order| - i
  {
    if i == |order| {
      assert order[i..] == [];
    } else {
      ReadBackFrom(q, m, order, i + 1);
      assert i < |q| && DetailKey(i) in q && DetailValue(i) in q;
      PickCons(m, order, i);
    }
  }

  /** Picking the entries of `m` named by `order[i..]`, one name at a time. */
  lemma PickCons(m: map<string, string>, order: seq<string>, i: nat)
    requires i < |order|
    requires forall j :: 0 <= j < |order| ==> order[j] in m
    ensures (map k | k in order[i..] :: m[k]) == (map k | k in order[i + 1..] :: m[k])[order[i] := m[order[i]]]
  {
    assert order[i..] == [order[i]] + order[i + 1..];
  }

  /** A name the encoder does not whitelist never changes the query, whatever it holds. */
  lemma UnlistedKeyIgnored(pt: ParamsType, s: Setter, bag: Bag, v: ParamValue, order: seq<string>)
    requires WellFormed(pt)
    requires WellTyped(pt, bag)
    requires OrderFits(Entries(bag), order)
    requires s.key !in Names(pt.fields)
    requires KindOf(v) == s.kind && !v.Details?
    ensures OrderFits(Entries(ApplySetter(s, bag, v)), order)
    ensures ToURLValues(pt, ApplySetter(s, bag, v), order) == ToURLValues(pt, bag, order)
  {
    var bag' := ApplySetter(s, bag, v);
    var b, b' := Entries(bag), Entries(bag');
    assert OrderFits(b', order);
    assert WellTyped(pt, bag');
    forall k | k in Names(pt.fields) ensures (k in b' <==> k in b) && (k in b ==> b'[k] == b[k]) {
      assert k != s.key;
    }
    EncoderReadsOnlyListed(pt, bag', bag, order);
  }

  /** Two bags that agree on every whitelisted name encode alike. */
  lemma EncoderReadsOnlyListed(pt: ParamsType, bag1: Bag, bag2: Bag, order: seq<string>)
    requires WellFormed(pt)
    requires WellTyped(pt, bag1) && WellTyped(pt, bag2)
    requires OrderFits(Entries(bag1), order) && OrderFits(Entries(bag2), order)
    requires forall k :: k in Names(pt.fields) ==>
      (k in Entries(bag1) <==> k in Entries(bag2)) && (k in Entries(bag1) ==> Entries(bag1)[k] == Entries(bag2)[k])
    ensures ToURLValues(pt, bag1, order) == ToURLValues(pt, bag2, order)
  {
    var b1, b2 := Entries(bag1), Entries(bag2);
    EncodeMeaning(pt, bag1, order);
    EncodeMeaning(pt, bag2, order);
    assert ScalarPart(pt.fields, b1) == ScalarPart(pt.fields, b2);
    assert DetailsPart(pt.fields, b1, order) == DetailsPart(pt.fields, b2, order);
  }

  /** A bag holding one string under a whitelisted string name encodes to just that pair. */
  lemma SingleEntryQuery(pt: ParamsType, key: string, v: string)
    requires WellFormed(pt)
    requires Declares(pt.fields, key, StringKind)
    ensures OrderFits(map[key := Str(v)], [])
    ensures ToURLValues(pt, Bag(map[key := Str(v)]), []) == map[key := v]
  {
    var bag := Bag(map[key := Str(v)]);
    assert WellTyped(pt, bag);
    EncodeMeaning(pt, bag, []);
    assert DetailsPart(pt.fields, bag.entries, []) == map[];
    assert ScalarPart(pt.fields, bag.entries) == map[key := v];
  }

  /** An empty bag, as `New<Type>Params` gives for a type with no required names, encodes to nothing. */
  lemma EmptyBagQuery(pt: ParamsType)
    requires WellFormed(pt)
    ensures ToURLValues(pt, Bag(map[]), []) == map[]
  {
    EncodeMeaning(pt, Bag(map[]), []);
    assert ScalarPart(pt.fields, map[]) == map[];
  }

  /** A freshly constructed bag encodes to exactly its required arguments, each under its own name. */
  lemma NewParamsQuery(pt: ParamsType, args: seq<string>)
    requires |args| == |pt.required|
    requires WellFormed(pt) && SettersFeedEncoder(pt) && Distinct(pt.required)
    ensures OrderFits(NewParams(pt, args).entries, [])
    ensures var u := ToURLValues(pt, NewParams(pt, args), []);
      && (forall k :: k in u <==> k in pt.required)
      && (forall i :: 0 <= i < |args| ==> u[pt.required[i]] == args[i])
  {
    var b := NewParams(pt, args);
    var e := b.entries;
    NewParamsHoldsStrings(pt, args);
    RequiredListed(pt);
    assert forall k :: k in e ==> k in pt.required;
    NewParamsWellTyped(pt, args);
    EncodeMeaning(pt, b, []);
    StringsOnlyQuery(pt.fields, e);
    forall i | 0 <= i < |args| ensures e[pt.required[i]] == Str(args[i]) { }
  }

  /** A bag of listed strings and nothing else encodes to those strings. */
  lemma StringsOnlyQuery(fields: seq<Field>, e: map<string, ParamValue>)
    requires forall k :: k in e ==> e[k].Str? && k in Names(fields)
    ensures OrderFits(e, [])
    ensures ScalarPart(fields, e) + DetailsPart(fields, e, []) == map k | k in e :: e[k].s
  {
    assert DetailsPart(fields, e, []) == map[];
  }

  lemma NewParamsHoldsStrings(pt: ParamsType, args: seq<string>)
    requires |args| == |pt.required|
    ensures forall k :: k in NewParams(pt, args).entries ==> NewParams(pt, args).entries[k].Str?
  {
    var e := NewParams(pt, args).entries;
    forall k | k in e ensures e[k].Str? {
      BindStoresStrings(pt.required, args, k);
    }
  }

  lemma RequiredListed(pt: ParamsType)
    requires SettersFeedEncoder(pt)
    ensures forall k :: k in pt.required ==> k in Names(pt.fields)
  {
    forall k | k in pt.required ensures k in Names(pt.fields) {
      var j :| 0 <= j < |pt.required| && pt.required[j] == k;
      assert Declares(pt.fields, pt.required[j], StringKind);
    }
  }

  /** A whitelisted setter's value appears in the query under its key, rendered. */
  lemma ListedSetterEmitted(pt: ParamsType, s: Setter, bag: Bag, v: ParamValue, order: seq<string>)
    requires WellFormed(pt)
    requires WellTyped(pt, bag)
    requires OrderFits(Entries(bag), order)
    requires Declares(pt.fields, s.key, s.kind)
    requires KindOf(v) == s.kind && !v.Details?
    ensures OrderFits(Entries(ApplySetter(s, bag, v)), order)
    ensures var u := ToURLValues(pt, ApplySetter(s, bag, v), order);
      s.key in u && u[s.key] == Render(v)
  {
    var bag' := ApplySetter(s, bag, v);
    SetterKeepsWellTyped(pt, s, bag, v);
    var i :| 0 <= i < |pt.fields| && pt.fields[i].name == s.key;
    EncodeMeaning(pt, bag', order);
    ScalarKeyIsPlainHelper(pt, i);
    assert s.key in ScalarPart(pt.fields, Entries(bag'));
    forall k | k in DetailsPart(pt.fields, Entries(bag'), order) ensures k != s.key {
      DetailsPartIsNotPlain(pt.fields, Entries(bag'), order, k);
    }
  }

  lemma ScalarKeyIsPlainHelper(pt: ParamsType, i: nat)
    requires WellFormed(pt)
    requires i < |pt.fields|
    ensures Plain(pt.fields[i].name)
  {
  }
}
