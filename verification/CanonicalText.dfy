// The canonical text itself, octet by octet, as far as its length is concerned: what the
// budgets of checkpoints and compiled contexts measure.
module CanonicalText {
  import opened Json
  import Preview
  import Text

  // The hexadecimal digits of a digest.
  type Hex = h: Digest -> seq<int> | forall d: Digest :: |h(d)| == 64 witness (_ => seq(64, _ => 0x30))

  function Ascii(s: string): seq<int> {
    seq(|s|, i requires 0 <= i < |s| => s[i] as int)
  }

  function Quoted(octets: seq<int>): seq<int> {
    [0x22] + octets + [0x22]
  }

  function Number(n: int): seq<int> {
    if n < 0 then [0x2D] + Ascii(Text.Decimal(-n)) else Ascii(Text.Decimal(n))
  }

  // No white space, members in the order of their keys, texts in UTF-8.
  function Canonical(v: Value, hex: Hex): seq<int>
    decreases v, 1, 0
  {
    match v
    case Null => Ascii("null")
    case Bool(b) => Ascii(if b then "true" else "false")
    case Num(n) => Number(n)
    case Str(s) => Quoted(Preview.Encode(s))
    case Hash(d) => Quoted(Ascii("sha256:") + hex(d))
    case Arr(items) => [0x5B] + Elements(v, items, hex) + [0x5D]
    case Obj(fields) => [0x7B] + Members(v, fields, hex) + [0x7D]
  }

  function Elements(whole: Value, items: seq<Value>, hex: Hex): seq<int>
    requires forall i :: 0 <= i < |items| ==> items[i] < whole
    decreases whole, 0, |items|
  {
    if |items| == 0 then []
    else if |items| == 1 then Canonical(items[0], hex)
    else Canonical(items[0], hex) + [0x2C] + Elements(whole, items[1..], hex)
  }

  function Members(whole: Value, fields: map<string, Value>, hex: Hex): seq<int>
    requires forall k :: k in fields ==> fields[k] < whole
    decreases whole, 0, |fields|
  {
    if fields == map[] then []
    else
      var k := Text.Least(fields.Keys);
      var member := Quoted(Preview.Encode(k)) + [0x3A] + Canonical(fields[k], hex);
      if |fields| == 1 then member else member + [0x2C] + Members(whole, fields - {k}, hex)
  }

  // Theorem: the length the limits are checked against is that of the canonical text.
  lemma {:induction false} LengthIsOfText(v: Value, hex: Hex)
    ensures |Canonical(v, hex)| == EncodedLength(v)
    decreases v, 1, 0
  {
    match v
    case Null =>
    case Bool(_) =>
    case Num(n) => Text.DigitsAreWritten(if n < 0 then -n else n);
    case Str(s) => Preview.EncodedWidth(s);
    case Hash(_) =>
    case Arr(items) => ElementsLength(v, items, hex);
    case Obj(fields) => MembersLength(v, fields, hex);
  }

  lemma {:induction false} ElementsLength(whole: Value, items: seq<Value>, hex: Hex)
    requires forall i :: 0 <= i < |items| ==> items[i] < whole
    ensures |Elements(whole, items, hex)| == ItemsLength(whole, items)
    decreases whole, 0, |items|
  {
    hide Canonical, EncodedLength;
    if |items| > 0 {
      LengthIsOfText(items[0], hex);
      ElementsLength(whole, items[1..], hex);
    }
  }

  lemma {:induction false} MembersLength(whole: Value, fields: map<string, Value>, hex: Hex)
    requires forall k :: k in fields ==> fields[k] < whole
    ensures |Members(whole, fields, hex)| == FieldsLength(whole, fields)
    decreases whole, 0, |fields|
  {
    hide Canonical, EncodedLength;
    if fields != map[] {
      var k := Text.Least(fields.Keys);
      Preview.EncodedWidth(k);
      LengthIsOfText(fields[k], hex);
      MembersLength(whole, fields - {k}, hex);
      if |fields| == 1 {
        OneKey(fields.Keys, k);
        assert fields - {k} == map[];
      }
    }
  }

  lemma OneKey(keys: set<string>, k: string)
    requires |keys| == 1 && k in keys
    ensures keys - {k} == {}
  {
    assert |keys - {k}| == 0;
  }
}
