// How canonical lengths add up: an array adds its elements, and changing one field of an
// object changes the length by the difference of the two values.
module JsonLength {
  import opened Json
  import Text

  lemma {:induction false} ItemsLengthWhole(whole: Value, whole': Value, items: seq<Value>)
    requires forall i :: 0 <= i < |items| ==> items[i] < whole && items[i] < whole'
    ensures ItemsLength(whole, items) == ItemsLength(whole', items)
    decreases |items|
  {
    if |items| > 0 {
      ItemsLengthWhole(whole, whole', items[1..]);
    }
  }

  lemma {:induction false} ItemsLengthSnoc(whole: Value, items: seq<Value>, last: Value)
    requires forall i :: 0 <= i < |items| ==> items[i] < whole
    requires last < whole
    ensures ItemsLength(whole, items + [last]) ==
            ItemsLength(whole, items) + EncodedLength(last) + (if |items| > 0 then 1 else 0)
    decreases |items|
  {
    var longer := items + [last];
    if |items| == 0 {
      assert longer == [last] && longer[1..] == [];
    } else {
      assert longer[1..] == items[1..] + [last];
      ItemsLengthSnoc(whole, items[1..], last);
    }
  }

  // An array adds its elements.
  lemma ArrayAppend(items: seq<Value>, last: Value)
    ensures EncodedLength(Arr(items + [last])) ==
            EncodedLength(Arr(items)) + EncodedLength(last) + (if |items| > 0 then 1 else 0)
  {
    var whole := Arr(items + [last]);
    assert forall i :: 0 <= i < |items| ==> items[i] == (items + [last])[i];
    assert last == (items + [last])[|items|];
    ItemsLengthSnoc(whole, items, last);
    ItemsLengthWhole(whole, Arr(items), items);
  }

  lemma {:induction false} ArrayPrefix(items: seq<Value>, longer: seq<Value>)
    requires items <= longer
    ensures EncodedLength(Arr(items)) <= EncodedLength(Arr(longer))
    decreases |longer|
  {
    if |items| < |longer| {
      var init := longer[..|longer| - 1];
      ArrayPrefix(items, init);
      ArrayAppend(init, longer[|longer| - 1]);
      assert longer == init + [longer[|longer| - 1]];
    } else {
      assert items == longer;
    }
  }

  lemma FieldsLengthStep(whole: Value, fields: map<string, Value>)
    requires forall j :: j in fields ==> fields[j] < whole
    requires fields != map[]
    ensures var k := Text.Least(fields.Keys);
            FieldsLength(whole, fields) ==
            Text.Utf8Length(k) + 3 + EncodedLength(fields[k]) + (if |fields| > 1 then 1 else 0) + FieldsLength(whole, fields - {k})
  {
  }

  lemma {:induction false} FieldsLengthUpdate(
    whole: Value, whole': Value, fields: map<string, Value>, fields': map<string, Value>, k: string)
    requires forall j :: j in fields ==> fields[j] < whole
    requires forall j :: j in fields' ==> fields'[j] < whole'
    requires k in fields && k in fields' && fields' == fields[k := fields'[k]]
    ensures FieldsLength(whole', fields') - EncodedLength(fields'[k]) == FieldsLength(whole, fields) - EncodedLength(fields[k])
    decreases |fields|
  {
    hide FieldsLength, EncodedLength, Text.Utf8Length;
    assert fields'.Keys == fields.Keys;
    var j := Text.Least(fields.Keys);
    SameSize(fields, fields');
    FieldsLengthStep(whole, fields);
    FieldsLengthStep(whole', fields');
    if j == k {
      assert fields' - {j} == fields - {j};
      FieldsLengthWhole(whole, whole', fields - {j});
    } else {
      assert fields' - {j} == (fields - {j})[k := fields'[k]];
      SmallerMap(fields, j);
      FieldsLengthUpdate(whole, whole', fields - {j}, fields' - {j}, k);
    }
  }

  lemma SameSize(a: map<string, Value>, b: map<string, Value>)
    requires a.Keys == b.Keys
    ensures |a| == |b|
  {
    assert |a.Keys| == |a| && |b.Keys| == |b|;
  }

  lemma SmallerMap(fields: map<string, Value>, k: string)
    requires k in fields
    ensures |fields - {k}| < |fields|
  {
    assert (fields - {k}).Keys == fields.Keys - {k};
    assert |(fields - {k}).Keys| == |fields - {k}| && |fields.Keys| == |fields|;
  }

  lemma {:induction false} FieldsLengthWhole(whole: Value, whole': Value, fields: map<string, Value>)
    requires forall j :: j in fields ==> fields[j] < whole && fields[j] < whole'
    ensures FieldsLength(whole, fields) == FieldsLength(whole', fields)
    decreases |fields|
  {
    if fields != map[] {
      var j := Text.Least(fields.Keys);
      SmallerMap(fields, j);
      FieldsLengthWhole(whole, whole', fields - {j});
    }
  }

  // Changing one field changes the length by the difference of the two values.
  lemma FieldUpdateLength(fields: map<string, Value>, k: string, v: Value)
    requires k in fields
    ensures EncodedLength(Obj(fields[k := v])) - EncodedLength(v) == EncodedLength(Obj(fields)) - EncodedLength(fields[k])
  {
    FieldsLengthUpdate(Obj(fields), Obj(fields[k := v]), fields, fields[k := v], k);
  }
}
