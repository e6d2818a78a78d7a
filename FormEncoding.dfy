/** `Object._post` up to, not including, `form_encode`: the property map becomes
    `propertyId[i]` / `propertyValue[i]` entries numbered from 0 in the map's
    iteration order, after which the keyword arguments are copied in over them. */
module FormEncoding {
  import opened Values

  /** Python's `'%d' % n` for a non-negative n. */
  function Decimal(n: nat): (s: string)
    ensures |s| > 0
  {
    if n < 10 then [('0' as int + n) as char]
    else Decimal(n / 10) + [('0' as int + n % 10) as char]
  }

  /** The number a string of decimal digits denotes. */
  function DecimalValue(s: string): (r: int)
  {
    if |s| == 0 then 0
    else DecimalValue(s[..|s| - 1]) * 10 + (s[|s| - 1] as int - '0' as int)
  }

  /** Reading back the digits gives the index back, so distinct indices have
      distinct decimal strings. */
  lemma {:induction false} DecimalRoundTrip(n: nat)
    ensures DecimalValue(Decimal(n)) == n
  {
    if n >= 10 {
      var s := Decimal(n);
      assert s[..|s| - 1] == Decimal(n / 10);
      DecimalRoundTrip(n / 10);
    }
  }

  /** `'%d'` writes only decimal digits, with no leading zero. */
  lemma {:induction false} DecimalDigits(n: nat)
    ensures forall k :: 0 <= k < |Decimal(n)| ==> '0' <= Decimal(n)[k] <= '9'
    ensures Decimal(n)[0] == '0' <==> n == 0
  {
    if n >= 10 {
      DecimalDigits(n / 10);
      assert Decimal(n)[0] == Decimal(n / 10)[0];
    }
  }

  const ID_PREFIX := "propertyId["
  const VALUE_PREFIX := "propertyValue["

  /** `'propertyId[%d]' % i`. */
  function IdKey(i: nat): (r: string)
  {
    ID_PREFIX + Decimal(i) + "]"
  }

  /** `'propertyValue[%d]' % i`. */
  function ValueKey(i: nat): (r: string)
  {
    VALUE_PREFIX + Decimal(i) + "]"
  }

  /** A generated key is its prefix, then digits that read back as its index,
      then the closing bracket. */
  lemma KeysNameTheirIndex(i: nat)
    ensures var r := IdKey(i);
      && |r| > |ID_PREFIX| + 1 && r[..|ID_PREFIX|] == ID_PREFIX && r[|r| - 1] == ']'
      && DecimalValue(r[|ID_PREFIX|..|r| - 1]) == i
    ensures var r := ValueKey(i);
      && |r| > |VALUE_PREFIX| + 1 && r[..|VALUE_PREFIX|] == VALUE_PREFIX && r[|r| - 1] == ']'
      && DecimalValue(r[|VALUE_PREFIX|..|r| - 1]) == i
  {
    var a, b := IdKey(i), ValueKey(i);
    assert a[|ID_PREFIX|..|a| - 1] == Decimal(i);
    assert b[|VALUE_PREFIX|..|b| - 1] == Decimal(i);
    DecimalRoundTrip(i);
  }

  /** The generated keys never coincide: an id key is never a value key, and
      each kind is numbered injectively. */
  lemma GeneratedKeysDistinct(i: nat, j: nat)
    ensures IdKey(i) != ValueKey(j)
    ensures IdKey(i) == IdKey(j) ==> i == j
    ensures ValueKey(i) == ValueKey(j) ==> i == j
  {
    assert IdKey(i)[8] == 'I' && ValueKey(j)[8] == 'V';
    KeysNameTheirIndex(i);
    KeysNameTheirIndex(j);
  }

  /** The entries the first loop of `Object._post` writes when the properties are
      visited in the order `order`. */
  function IndexedProperties(order: seq<string>, properties: map<string, Json>): (r: map<string, Json>)
    requires forall i :: 0 <= i < |order| ==> order[i] in properties
  {
    if |order| == 0 then map[]
    else
      var n := |order| - 1;
      IndexedProperties(order[..n], properties)[IdKey(n) := JStr(order[n])][ValueKey(n) := properties[order[n]]]
  }

  /** Every generated key is `propertyId[i]` or `propertyValue[i]` for some i
      below the number of properties. */
  lemma {:induction false} IndexedPropertiesKeys(order: seq<string>, properties: map<string, Json>, key: string)
    requires forall i :: 0 <= i < |order| ==> order[i] in properties
    requires key in IndexedProperties(order, properties)
    ensures exists i: nat :: i < |order| && (key == IdKey(i) || key == ValueKey(i))
    decreases |order|
  {
    var n := |order| - 1;
    if key != IdKey(n) && key != ValueKey(n) {
      IndexedPropertiesKeys(order[..n], properties, key);
    }
  }

  /** Entry i pairs the i-th property's name with that same property's value. */
  lemma {:induction false} IndexedPropertiesValues(order: seq<string>, properties: map<string, Json>, i: nat)
    requires forall i :: 0 <= i < |order| ==> order[i] in properties
    requires i < |order|
    ensures IdKey(i) in IndexedProperties(order, properties)
    ensures IndexedProperties(order, properties)[IdKey(i)] == JStr(order[i])
    ensures ValueKey(i) in IndexedProperties(order, properties)
    ensures IndexedProperties(order, properties)[ValueKey(i)] == properties[order[i]]
    decreases |order|
  {
    var n := |order| - 1;
    if i < n {
      IndexedPropertiesValues(order[..n], properties, i);
      GeneratedKeysDistinct(i, n);
      GeneratedKeysDistinct(n, i);
    }
  }

  /** The numbering is contiguous: `propertyId[i]` is generated exactly for the
      indices below the number of properties, and so is `propertyValue[i]`. */
  lemma IndexedPropertiesContiguous(order: seq<string>, properties: map<string, Json>, i: nat)
    requires forall i :: 0 <= i < |order| ==> order[i] in properties
    ensures IdKey(i) in IndexedProperties(order, properties) <==> i < |order|
    ensures ValueKey(i) in IndexedProperties(order, properties) <==> i < |order|
  {
    if i < |order| {
      IndexedPropertiesValues(order, properties, i);
    } else {
      if IdKey(i) in IndexedProperties(order, properties) {
        IndexedPropertiesKeys(order, properties, IdKey(i));
        var j: nat :| j < |order| && (IdKey(i) == IdKey(j) || IdKey(i) == ValueKey(j));
        GeneratedKeysDistinct(i, j);
      }
      if ValueKey(i) in IndexedProperties(order, properties) {
        IndexedPropertiesKeys(order, properties, ValueKey(i));
        var j: nat :| j < |order| && (ValueKey(i) == IdKey(j) || ValueKey(i) == ValueKey(j));
        GeneratedKeysDistinct(j, i);
      }
    }
  }

  /** Numbering one more property extends the generated entries by its pair. */
  lemma IndexedPropertiesAppend(order: seq<string>, k: string, properties: map<string, Json>)
    requires forall i :: 0 <= i < |order| ==> order[i] in properties
    requires k in properties
    ensures forall i :: 0 <= i < |order + [k]| ==> (order + [k])[i] in properties
    ensures IndexedProperties(order + [k], properties)
      == IndexedProperties(order, properties)[IdKey(|order|) := JStr(k)][ValueKey(|order|) := properties[k]]
  {
    assert (order + [k])[..|order|] == order;
  }

  /** `Object._post`'s form: every property in some iteration order (the ghost
      `order`), numbered from 0, and then every keyword argument, copied last so
      that it overrides a generated entry with the same key. */
  method EncodeForm(properties: map<string, Json>, args: map<string, Json>)
    returns (form: map<string, Json>, ghost order: seq<string>)
    ensures Enumerates(order, properties.Keys)
    ensures form == IndexedProperties(order, properties) + args
  {
    form := map[];
    order := [];
    var i := 0;
    var rest := properties.Keys;
    while rest != {}
      invariant rest <= properties.Keys
      invariant i == |order|
      invariant forall a, b :: 0 <= a < b < |order| ==> order[a] != order[b]
      invariant forall k :: k in order <==> k in properties.Keys - rest
      invariant forall a :: 0 <= a < |order| ==> order[a] in properties
      invariant form == IndexedProperties(order, properties)
      decreases rest
    {
      var k :| k in rest;
      assert k !in order;
      IndexedPropertiesAppend(order, k, properties);
      form := form[IdKey(i) := JStr(k)];
      form := form[ValueKey(i) := properties[k]];
      order := order + [k];
      i := i + 1;
      rest := rest - {k};
    }
    ghost var generated := form;
    var pending := args.Keys;
    while pending != {}
      invariant pending <= args.Keys
      invariant forall key :: key in form <==> key in generated || (key in args && key !in pending)
      invariant forall key :: key in form ==>
        form[key] == if key in args && key !in pending then args[key] else generated[key]
      decreases pending
    {
      var k :| k in pending;
      form := form[k := args[k]];
      pending := pending - {k};
    }
    assert form == generated + args;
  }

  /** What the server sees in the form. A keyword argument is there with its
      own value; a generated entry the arguments did not override pairs the i-th
      property's name with its value; nothing else is there. */
  lemma FormContents(order: seq<string>, properties: map<string, Json>, args: map<string, Json>, key: string, i: nat)
    requires Enumerates(order, properties.Keys)
    ensures key in IndexedProperties(order, properties) + args <==>
      key in args || exists j: nat :: j < |order| && (key == IdKey(j) || key == ValueKey(j))
    ensures key in args ==> (IndexedProperties(order, properties) + args)[key] == args[key]
    ensures i < |order| && IdKey(i) !in args ==>
      && IdKey(i) in IndexedProperties(order, properties) + args
      && (IndexedProperties(order, properties) + args)[IdKey(i)] == JStr(order[i])
    ensures i < |order| && ValueKey(i) !in args ==>
      && ValueKey(i) in IndexedProperties(order, properties) + args
      && (IndexedProperties(order, properties) + args)[ValueKey(i)] == properties[order[i]]
  {
    if key in IndexedProperties(order, properties) {
      IndexedPropertiesKeys(order, properties, key);
    }
    if exists j: nat :: j < |order| && (key == IdKey(j) || key == ValueKey(j)) {
      var j: nat :| j < |order| && (key == IdKey(j) || key == ValueKey(j));
      IndexedPropertiesValues(order, properties, j);
    }
    if i < |order| {
      IndexedPropertiesValues(order, properties, i);
    }
  }

  /** The server's reading of a form: the properties numbered from 0 below n,
      or None when an entry is missing or a property name is not a string. */
  function DecodeProperties(form: map<string, Json>, n: nat): (r: Option<map<string, Json>>)
  {
    if n == 0 then Some(map[])
    else
      match DecodeProperties(form, n - 1)
      case None => None
      case Some(m) =>
        if IdKey(n - 1) in form && ValueKey(n - 1) in form && form[IdKey(n - 1)].JStr?
        then Some(m[form[IdKey(n - 1)].s := form[ValueKey(n - 1)]])
        else None
  }

  /** Decoding the form recovers the property map exactly, whatever order the
      properties were numbered in, as long as no keyword argument has the shape
      of a generated key. */
  lemma EncodeDecode(order: seq<string>, properties: map<string, Json>, args: map<string, Json>)
    requires Enumerates(order, properties.Keys)
    requires forall i: nat :: IdKey(i) !in args && ValueKey(i) !in args
    ensures |order| == |properties|
    ensures DecodeProperties(IndexedProperties(order, properties) + args, |order|) == Some(properties)
  {
    EnumerationSize(order, properties.Keys);
    DecodePrefix(order, properties, args, |order|);
    assert order[..|order|] == order;
    assert (map k | k in order :: properties[k]) == properties;
  }

  lemma {:induction false} DecodePrefix(order: seq<string>, properties: map<string, Json>, args: map<string, Json>, j: nat)
    requires j <= |order|
    requires forall i :: 0 <= i < |order| ==> order[i] in properties
    requires forall i: nat :: IdKey(i) !in args && ValueKey(i) !in args
    ensures DecodeProperties(IndexedProperties(order, properties) + args, j)
      == Some(map k | k in order[..j] :: properties[k])
    decreases j
  {
    if j > 0 {
      DecodePrefix(order, properties, args, j - 1);
      IndexedPropertiesValues(order, properties, j - 1);
      assert IdKey(j - 1) !in args && ValueKey(j - 1) !in args;
      assert order[..j] == order[..j - 1] + [order[j - 1]];
      assert (map k | k in order[..j] :: properties[k])
          == (map k | k in order[..j - 1] :: properties[k])[order[j - 1] := properties[order[j - 1]]];
    }
  }
}
