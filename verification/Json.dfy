// JSON values, canonical digests and content-addressed envelopes.
//
// A canonical digest is modelled by its preimage, so equal digests mean equal
// canonical values: the injectivity the Host relies on. `Hash(d)` is the JSON
// string that spells the digest `d`.
module Json {
  import opened Base
  import Text

  datatype Digest = Digest(preimage: Value)

  datatype Value =
    | Null
    | Bool(b: bool)
    | Num(n: int)
    | Str(s: string)
    | Hash(digest: Digest)
    | Arr(items: seq<Value>)
    | Obj(fields: map<string, Value>)

  predicate IsString(v: Value) { v.Str? || v.Hash? }

  // Bytes of the canonical encoding: keys in code-point order, no white space.
  // Escapes inside strings are not modelled. An array adds its elements.
  function EncodedLength(v: Value): nat
    decreases v, 1, 0
  {
    match v
    case Null => 4
    case Bool(b) => if b then 4 else 5
    case Num(n) => if n < 0 then 1 + Text.Digits(-n) else Text.Digits(n)
    case Str(s) => 2 + Text.Utf8Length(s)
    case Hash(_) => 73
    case Arr(items) => 2 + ItemsLength(v, items)
    case Obj(fields) => 2 + FieldsLength(v, fields)
  }

  function ItemsLength(whole: Value, items: seq<Value>): nat
    requires forall i :: 0 <= i < |items| ==> items[i] < whole
    decreases whole, 0, |items|
  {
    if |items| == 0 then 0
    else EncodedLength(items[0]) + (if |items| > 1 then 1 else 0) + ItemsLength(whole, items[1..])
  }

  function FieldsLength(whole: Value, fields: map<string, Value>): nat
    requires forall k :: k in fields ==> fields[k] < whole
    decreases whole, 0, |fields|
  {
    if fields == map[] then 0
    else
      var k := Text.Least(fields.Keys);
      Text.Utf8Length(k) + 3 + EncodedLength(fields[k]) + (if |fields| > 1 then 1 else 0)
      + FieldsLength(whole, fields - {k})
  }

  function Strings(items: seq<string>): Value {
    Arr(seq(|items|, i requires 0 <= i < |items| => Str(items[i])))
  }

  predicate IsStrings(v: Value) {
    v.Arr? && forall i :: 0 <= i < |v.items| ==> v.items[i].Str?
  }

  function AsStrings(v: Value): seq<string>
    requires IsStrings(v)
  {
    seq(|v.items|, i requires 0 <= i < |v.items| => v.items[i].s)
  }

  lemma StringsRoundTrip(items: seq<string>)
    ensures IsStrings(Strings(items)) && AsStrings(Strings(items)) == items
  {
    assert AsStrings(Strings(items)) == items;
  }

  lemma StringsExact(v: Value)
    requires IsStrings(v)
    ensures Strings(AsStrings(v)) == v
  {
    assert Strings(AsStrings(v)).items == v.items;
  }

  function NullOr(value: Option<string>): Value {
    match value
    case None => Null
    case Some(s) => Str(s)
  }

  // An object of the content-addressed store: the envelope fixes kind and payload.
  datatype StoredObject = StoredObject(digest: Digest, byteLength: nat, kind: string)

  function Envelope(kind: string, payload: Value): Value {
    Obj(map["schemaVersion" := Num(1), "kind" := Str(kind), "payload" := payload])
  }

  function Address(kind: string, payload: Value): Digest {
    Digest(Envelope(kind, payload))
  }

  datatype Opened = Opened(kind: string, payload: Value)

  // What a reader recovers from the bytes at an address, if they are an envelope.
  function Open(d: Digest): Option<Opened> {
    var v := d.preimage;
    if !v.Obj? || v.fields.Keys != {"schemaVersion", "kind", "payload"} then None
    else if v.fields["schemaVersion"] != Num(1) || !v.fields["kind"].Str? then None
    else if !Text.IsLabel(v.fields["kind"].s) then None
    else Some(Opened(v.fields["kind"].s, v.fields["payload"]))
  }

  // The metadata that the store itself reports for an address.
  function Described(kind: string, payload: Value): StoredObject {
    StoredObject(Address(kind, payload), EncodedLength(Envelope(kind, payload)), kind)
  }

  predicate Genuine(o: StoredObject) {
    Open(o.digest).Some? && o == Described(Open(o.digest).value.kind, Open(o.digest).value.payload)
  }

  lemma OpenAddress(kind: string, payload: Value)
    requires Text.IsLabel(kind)
    ensures Open(Address(kind, payload)) == Some(Opened(kind, payload))
    ensures Genuine(Described(kind, payload))
  {
    var f := Envelope(kind, payload).fields;
    assert f.Keys == {"schemaVersion", "kind", "payload"};
    assert f["kind"] == Str(kind) && f["payload"] == payload;
  }

  // An address opens exactly when it is that of an envelope of a proper kind.
  lemma OpenExactly(d: Digest, o: Opened)
    ensures Open(d) == Some(o) <==> Text.IsLabel(o.kind) && d == Address(o.kind, o.payload)
  {
    var f := Envelope(o.kind, o.payload).fields;
    assert f.Keys == {"schemaVersion", "kind", "payload"};
    assert f["kind"] == Str(o.kind) && f["payload"] == o.payload;
    if Open(d) == Some(o) {
      assert d.preimage.fields == f;
    }
  }

  // Equal addresses carry equal metadata: what makes re-admission of an object safe.
  lemma GenuineAgree(a: StoredObject, b: StoredObject)
    requires Genuine(a) && Genuine(b) && a.digest == b.digest
    ensures a == b
  {
  }
}
