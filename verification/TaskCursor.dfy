// The `task.list` cursor: a position and the query it belongs to, as canonical JSON text in
// base64url.
module TaskCursor {
  import opened Base
  import opened TaskList
  import Base64
  import Text

  const MAX_CURSOR := 2048

  // ---- JSON text ----

  function HexDigit(n: nat): char
    requires n < 16
  {
    if n < 10 then ('0' as int + n) as char else ('a' as int + (n - 10)) as char
  }

  function HexValue(c: char): Option<nat> {
    if '0' <= c <= '9' then Some(c as int - '0' as int)
    else if 'a' <= c <= 'f' then Some(c as int - 'a' as int + 10)
    else if 'A' <= c <= 'F' then Some(c as int - 'A' as int + 10)
    else None
  }

  function Hex4(n: nat): string
    requires n < 0x1_0000
  {
    [HexDigit(n / 0x1000), HexDigit(n / 0x100 % 16), HexDigit(n / 16 % 16), HexDigit(n % 16)]
  }

  function ReadHex4(s: string): Option<nat> {
    if |s| < 4 then None
    else if HexValue(s[0]).None? || HexValue(s[1]).None? || HexValue(s[2]).None? || HexValue(s[3]).None? then None
    else Some(HexValue(s[0]).value * 0x1000 + HexValue(s[1]).value * 0x100 + HexValue(s[2]).value * 16 + HexValue(s[3]).value)
  }

  // One code point of a JSON string, escaped to ASCII.
  function EscapeChar(c: char): string {
    var v := c as int;
    if c == '"' then "\\\""
    else if c == '\\' then "\\\\"
    else if v == 8 then "\\b"
    else if v == 12 then "\\f"
    else if v == 10 then "\\n"
    else if v == 13 then "\\r"
    else if v == 9 then "\\t"
    else if 0x20 <= v < 0x7F then [c]
    else if v < 0x1_0000 then "\\u" + Hex4(v)
    else "\\u" + Hex4(0xD800 + (v - 0x1_0000) / 0x400) + "\\u" + Hex4(0xDC00 + (v - 0x1_0000) % 0x400)
  }

  function Escape(s: string): string {
    if |s| == 0 then "" else EscapeChar(s[0]) + Escape(s[1..])
  }

  function Quoted(s: string): string { "\"" + Escape(s) + "\"" }

  datatype Unit = Stop | Bad | Read(c: char, width: nat)

  // The next code point of a string whose opening quote has been read.
  function ReadUnit(s: string): (u: Unit)
    ensures u.Read? ==> 1 <= u.width <= |s|
  {
    if |s| == 0 then Bad
    else if s[0] == '"' then Stop
    else if s[0] != '\\' then if 0x20 <= s[0] as int then Read(s[0], 1) else Bad
    else if |s| == 1 then Bad
    else if s[1] == '"' then Read('"', 2)
    else if s[1] == '\\' then Read('\\', 2)
    else if s[1] == '/' then Read('/', 2)
    else if s[1] == 'b' then Read(8 as char, 2)
    else if s[1] == 'f' then Read(12 as char, 2)
    else if s[1] == 'n' then Read(10 as char, 2)
    else if s[1] == 'r' then Read(13 as char, 2)
    else if s[1] == 't' then Read(9 as char, 2)
    else if s[1] != 'u' then Bad
    else ReadEscape(s)
  }

  // A \u escape, or the two of a surrogate pair.
  function ReadEscape(s: string): (u: Unit)
    requires |s| >= 2
    ensures u.Read? ==> 1 <= u.width <= |s|
  {
    match ReadHex4(s[2..])
    case None => Bad
    case Some(high) =>
      if high < 0xD800 || 0xE000 <= high < 0x1_0000 then Read(high as char, 6)
      else if !(0xD800 <= high < 0xDC00) || |s| < 12 || s[6] != '\\' || s[7] != 'u' then Bad
      else
        match ReadHex4(s[8..])
        case None => Bad
        case Some(low) =>
          if 0xDC00 <= low < 0xE000 then Read((0x1_0000 + (high - 0xD800) * 0x400 + (low - 0xDC00)) as char, 12) else Bad
  }

  datatype Reading<T> = Failed | Got(value: T, rest: string)

  function ReadString(s: string): (r: Reading<string>)
    ensures r.Got? ==> |r.rest| < |s|
  {
    match ReadUnit(s)
    case Stop => Got("", s[1..])
    case Bad => Failed
    case Read(c, width) =>
      match ReadString(s[width..])
      case Failed => Failed
      case Got(more, rest) => Got([c] + more, rest)
  }

  predicate IsDigit(c: char) { '0' <= c <= '9' }

  function ReadDigits(s: string, soFar: nat): Reading<nat> {
    if |s| == 0 || !IsDigit(s[0]) then Got(soFar, s) else ReadDigits(s[1..], soFar * 10 + (s[0] as int - '0' as int))
  }

  function ReadNumber(s: string): Reading<nat> {
    if |s| == 0 || !IsDigit(s[0]) then Failed else ReadDigits(s, 0)
  }

  // ---- Lemmas over the text ----

  lemma Hex4Reads(n: nat, rest: string)
    requires n < 0x1_0000
    ensures ReadHex4(Hex4(n) + rest) == Some(n)
  {
    var s := Hex4(n) + rest;
    assert s[0] == HexDigit(n / 0x1000) && s[1] == HexDigit(n / 0x100 % 16);
    assert s[2] == HexDigit(n / 16 % 16) && s[3] == HexDigit(n % 16);
    HexDigits(n / 0x1000);
    HexDigits(n / 0x100 % 16);
    HexDigits(n / 16 % 16);
    HexDigits(n % 16);
    HexSum(n);
  }

  lemma HexQuotients(n: nat)
    ensures n / 0x100 == n / 16 / 16 && n / 0x1000 == n / 16 / 16 / 16
  {
  }

  lemma HexSum(n: nat)
    ensures n == n / 0x1000 * 0x1000 + n / 0x100 % 16 * 0x100 + n / 16 % 16 * 16 + n % 16
  {
    HexQuotients(n);
    var a := n / 16;
    var b := a / 16;
    assert n == a * 16 + n % 16;
    assert a == b * 16 + a % 16;
    assert b == b / 16 * 16 + b % 16;
  }

  lemma HexDigits(n: nat)
    requires n < 16
    ensures HexValue(HexDigit(n)) == Some(n)
  {
  }

  lemma Halves(v: nat)
    requires v < 0x10_0000
    ensures v / 0x400 < 0x400 && v % 0x400 < 0x400 && v / 0x400 * 0x400 + v % 0x400 == v
  {
  }

  // A surrogate pair reads back as the code point it spells.
  lemma PairEscape(high: nat, low: nat, rest: string)
    requires 0xD800 <= high < 0xDC00 <= low < 0xE000
    ensures |"\\u" + Hex4(high) + "\\u" + Hex4(low)| == 12
    ensures ReadUnit("\\u" + Hex4(high) + "\\u" + Hex4(low) + rest) ==
            Read((0x1_0000 + (high - 0xD800) * 0x400 + (low - 0xDC00)) as char, 12)
  {
    hide ReadHex4;
    var s := "\\u" + Hex4(high) + "\\u" + Hex4(low) + rest;
    assert s[2..] == Hex4(high) + ("\\u" + Hex4(low) + rest);
    assert s[8..] == Hex4(low) + rest;
    assert s[0] == '\\' && s[1] == 'u' && s[6] == '\\' && s[7] == 'u';
    Hex4Reads(high, "\\u" + Hex4(low) + rest);
    Hex4Reads(low, rest);
  }

  lemma PairReads(c: char, rest: string)
    requires 0x1_0000 <= c as int
    ensures ReadUnit(EscapeChar(c) + rest) == Read(c, 12) && |EscapeChar(c)| == 12
  {
    hide Hex4, ReadUnit;
    var v := c as int - 0x1_0000;
    Halves(v);
    PairEscape(0xD800 + v / 0x400, 0xDC00 + v % 0x400, rest);
  }

  lemma EscapeReads(c: char, rest: string)
    requires c as int < 0x1_0000 && (c as int < 0x20 || 0x7F <= c as int) && !(c as int in {8, 9, 10, 12, 13})
    ensures ReadUnit(EscapeChar(c) + rest) == Read(c, 6) && |EscapeChar(c)| == 6
  {
    var s := EscapeChar(c) + rest;
    assert s == "\\u" + Hex4(c as int) + rest;
    assert s[2..] == Hex4(c as int) + rest;
    assert s[0] == '\\' && s[1] == 'u';
    Hex4Reads(c as int, rest);
  }

  lemma UnitReads(c: char, rest: string)
    ensures ReadUnit(EscapeChar(c) + rest) == Read(c, |EscapeChar(c)|)
  {
    var v := c as int;
    if 0x1_0000 <= v {
      PairReads(c, rest);
    } else if (v < 0x20 || 0x7F <= v) && !(v in {8, 9, 10, 12, 13}) {
      EscapeReads(c, rest);
    } else {
      var s := EscapeChar(c) + rest;
      assert s[0] == EscapeChar(c)[0];
      assert |EscapeChar(c)| == 2 ==> s[1] == EscapeChar(c)[1];
    }
  }

  lemma {:induction false} StringReads(s: string, rest: string)
    ensures ReadString(Escape(s) + "\"" + rest) == Got(s, rest)
  {
    hide EscapeChar, ReadUnit;
    var text := Escape(s) + "\"" + rest;
    if |s| == 0 {
      assert text == "\"" + rest && text[1..] == rest;
      StopReads(rest);
    } else {
      var tail := Escape(s[1..]) + "\"" + rest;
      assert text == EscapeChar(s[0]) + tail;
      UnitReads(s[0], tail);
      assert text[|EscapeChar(s[0])|..] == tail;
      StringReads(s[1..], rest);
      assert s == [s[0]] + s[1..];
    }
  }

  lemma StopReads(rest: string)
    ensures ReadUnit("\"" + rest) == Stop
  {
    assert ("\"" + rest)[0] == '"';
  }

  function Scale(n: nat): nat {
    if n < 10 then 10 else Scale(n / 10) * 10
  }

  lemma Distribute(a: nat, s: nat, q: nat, r: nat)
    ensures (a * s + q) * 10 + r == a * (s * 10) + (q * 10 + r)
  {
  }

  lemma OneDigitReads(n: nat, rest: string, soFar: nat)
    requires n < 10
    ensures ReadDigits(Text.Decimal(n) + rest, soFar) == ReadDigits(rest, soFar * 10 + n)
    ensures |Text.Decimal(n)| == 1 && IsDigit(Text.Decimal(n)[0])
  {
    assert (Text.Decimal(n) + rest)[1..] == rest;
  }

  // Digits are read as far as they go.
  lemma {:induction false} DigitsRead(n: nat, rest: string, soFar: nat)
    ensures ReadDigits(Text.Decimal(n) + rest, soFar) == ReadDigits(rest, soFar * Scale(n) + n)
    ensures |Text.Decimal(n)| > 0 && IsDigit(Text.Decimal(n)[0])
  {
    if n < 10 {
      OneDigitReads(n, rest, soFar);
    } else {
      hide ReadDigits, Text.Decimal, Scale;
      var q, r := n / 10, n % 10;
      DecimalSplits(n);
      assert Text.Decimal(n) + rest == Text.Decimal(q) + (Text.Decimal(r) + rest);
      DigitsRead(q, Text.Decimal(r) + rest, soFar);
      OneDigitReads(r, rest, soFar * Scale(q) + q);
      Distribute(soFar, Scale(q), q, r);
    }
  }

  lemma DecimalSplits(n: nat)
    requires n >= 10
    ensures Text.Decimal(n) == Text.Decimal(n / 10) + Text.Decimal(n % 10)
    ensures n == n / 10 * 10 + n % 10 && Scale(n) == Scale(n / 10) * 10
  {
  }

  lemma NumberReads(n: nat, rest: string)
    requires |rest| == 0 || !IsDigit(rest[0])
    ensures ReadNumber(Text.Decimal(n) + rest) == Got(n, rest)
  {
    DigitsRead(n, rest, 0);
    assert (Text.Decimal(n) + rest)[0] == Text.Decimal(n)[0];
  }

  // ---- Flat objects ----

  datatype Scalar = SNull | SBool(b: bool) | SInt(n: nat) | SText(s: string)

  function ScalarText(v: Scalar): string {
    match v
    case SNull => "null"
    case SBool(b) => if b then "true" else "false"
    case SInt(n) => Text.Decimal(n)
    case SText(s) => Quoted(s)
  }

  // Members in the order given; `sort_keys` orders them before they are written.
  function MembersText(members: seq<(string, Scalar)>): string {
    if |members| == 0 then ""
    else
      Quoted(members[0].0) + ":" + ScalarText(members[0].1)
      + (if |members| == 1 then "" else "," + MembersText(members[1..]))
  }

  function ObjectText(members: seq<(string, Scalar)>): string {
    "{" + MembersText(members) + "}"
  }

  function ReadScalar(s: string): Reading<Scalar> {
    if |s| >= 4 && s[..4] == "null" then Got(SNull, s[4..])
    else if |s| >= 4 && s[..4] == "true" then Got(SBool(true), s[4..])
    else if |s| >= 5 && s[..5] == "false" then Got(SBool(false), s[5..])
    else if |s| >= 1 && s[0] == '"' then
      match ReadString(s[1..])
      case Failed => Failed
      case Got(text, rest) => Got(SText(text), rest)
    else
      match ReadNumber(s)
      case Failed => Failed
      case Got(n, rest) => Got(SInt(n), rest)
  }

  // One member: a quoted name, a colon, a scalar.
  function ReadMember(s: string): Reading<(string, Scalar)> {
    if |s| == 0 || s[0] != '"' then Failed
    else
      match ReadString(s[1..])
      case Failed => Failed
      case Got(name, rest) =>
        if |rest| == 0 || rest[0] != ':' then Failed
        else
          match ReadScalar(rest[1..])
          case Failed => Failed
          case Got(v, after) => Got((name, v), after)
  }

  // Members up to the closing brace; a repeated name keeps its last value.
  function ReadMembers(s: string, soFar: map<string, Scalar>, fuel: nat): Option<map<string, Scalar>>
    decreases fuel
  {
    if fuel == 0 then None
    else
      match ReadMember(s)
      case Failed => None
      case Got(m, rest) =>
        if |rest| == 0 then None
        else if rest == "}" then Some(soFar[m.0 := m.1])
        else if rest[0] == ',' then ReadMembers(rest[1..], soFar[m.0 := m.1], fuel - 1)
        else None
  }

  // Every member takes at least one character, so the length bounds how many there are.
  function ReadObject(s: string): Option<map<string, Scalar>> {
    if |s| == 0 || s[0] != '{' then None
    else if s == "{}" then Some(map[])
    else ReadMembers(s[1..], map[], |s|)
  }

  lemma ScalarReads(v: Scalar, rest: string)
    requires |rest| > 0 && !IsDigit(rest[0])
    ensures ReadScalar(ScalarText(v) + rest) == Got(v, rest)
  {
    hide ReadString, ReadNumber, Escape;
    match v
    case SNull => WordReads(v, rest);
    case SBool(_) => WordReads(v, rest);
    case SInt(n) =>
      NumberReads(n, rest);
      DigitsRead(n, rest, 0);
      NotAWord(ScalarText(v) + rest);
    case SText(text) =>
      var s := ScalarText(v) + rest;
      assert s[0] == '"' && s[1..] == Escape(text) + "\"" + rest;
      StringReads(text, rest);
      NotAWord(s);
  }

  lemma WordReads(v: Scalar, rest: string)
    requires v.SNull? || v.SBool?
    ensures ReadScalar(ScalarText(v) + rest) == Got(v, rest)
  {
    hide ReadString, ReadNumber;
    var s := ScalarText(v) + rest;
    if v == SBool(false) {
      assert s[0] == 'f' && s[..5] == "false" && s[5..] == rest;
      assert s[..4][0] == 'f';
    } else {
      assert s[..4] == (if v == SNull then "null" else "true") && s[4..] == rest;
      assert s[..4][0] == (if v == SNull then 'n' else 't');
    }
  }

  lemma NotAWord(s: string)
    requires |s| > 0 && (IsDigit(s[0]) || s[0] == '"')
    ensures (|s| >= 4 ==> s[..4] != "null" && s[..4] != "true") && (|s| >= 5 ==> s[..5] != "false")
  {
    assert |s| >= 4 ==> s[..4][0] == s[0];
    assert |s| >= 5 ==> s[..5][0] == s[0];
  }

  lemma MemberReads(name: string, v: Scalar, rest: string)
    requires |rest| > 0 && !IsDigit(rest[0])
    ensures ReadMember(Quoted(name) + ":" + ScalarText(v) + rest) == Got((name, v), rest)
  {
    hide Escape, ScalarText, ReadString, ReadScalar;
    var s := Quoted(name) + ":" + ScalarText(v) + rest;
    var tail := ":" + ScalarText(v) + rest;
    assert s[0] == '"' && s[1..] == Escape(name) + "\"" + tail;
    StringReads(name, tail);
    assert tail[1..] == ScalarText(v) + rest;
    ScalarReads(v, rest);
  }

  // What reading the members in order builds.
  function Laid(members: seq<(string, Scalar)>, soFar: map<string, Scalar>): map<string, Scalar> {
    if |members| == 0 then soFar else Laid(members[1..], soFar[members[0].0 := members[0].1])
  }

  lemma {:induction false} MembersRead(members: seq<(string, Scalar)>, soFar: map<string, Scalar>, fuel: nat)
    requires 0 < |members| <= fuel
    ensures ReadMembers(MembersText(members) + "}", soFar, fuel) == Some(Laid(members, soFar))
    decreases |members|
  {
    hide Quoted, ScalarText, ReadMember;
    var m := members[0];
    var s := MembersText(members) + "}";
    if |members| == 1 {
      assert s == Quoted(m.0) + ":" + ScalarText(m.1) + "}";
      MemberReads(m.0, m.1, "}");
      assert Laid(members[1..], soFar[m.0 := m.1]) == soFar[m.0 := m.1];
    } else {
      var tail := MembersText(members[1..]) + "}";
      assert s == Quoted(m.0) + ":" + ScalarText(m.1) + ("," + tail);
      MemberReads(m.0, m.1, "," + tail);
      assert ("," + tail)[1..] == tail && ("," + tail) != "}" by {
        assert ("," + tail)[0] == ',' && "}"[0] == '}';
      }
      MembersRead(members[1..], soFar[m.0 := m.1], fuel - 1);
    }
  }

  lemma {:induction false} MembersFit(members: seq<(string, Scalar)>)
    ensures |MembersText(members)| >= |members|
  {
    if |members| > 0 {
      MembersFit(members[1..]);
    }
  }

  lemma ObjectReads(members: seq<(string, Scalar)>)
    requires |members| > 0
    ensures ReadObject(ObjectText(members)) == Some(Laid(members, map[]))
  {
    hide MembersText, ReadMembers, Laid;
    var s := ObjectText(members);
    MembersFit(members);
    assert s[0] == '{' && s[1..] == MembersText(members) + "}";
    assert |s| > 2 || |members| == 1;
    NotEmptyObject(members);
    MembersRead(members, map[], |s|);
  }

  lemma NotEmptyObject(members: seq<(string, Scalar)>)
    requires |members| > 0
    ensures ObjectText(members) != "{}"
  {
    assert MembersText(members)[0] == '"';
    assert ObjectText(members)[1] == '"';
  }

  // ---- The cursor ----

  function OptText(s: Option<string>): Scalar {
    if s.None? then SNull else SText(s.value)
  }

  function CursorMembers(k: Key, q: Query): seq<(string, Scalar)>
    requires k.createdAtMs >= 0
  {
    [("createdAtMs", SInt(k.createdAtMs)),
     ("goalId", OptText(q.goalId)),
     ("includeTerminal", SBool(q.includeTerminal)),
     ("runtimeWorkspaceId", OptText(q.workspaceId)),
     ("taskId", SText(k.taskId)),
     ("v", SInt(2))]
  }

  predicate IsAscii(s: string) {
    forall i :: 0 <= i < |s| ==> s[i] as int < 0x80
  }

  function Octets(s: string): seq<int> {
    seq(|s|, i requires 0 <= i < |s| => s[i] as int)
  }

  // json.loads over octets; only ASCII text is read here.
  function AsciiText(bytes: seq<int>): Option<string> {
    if forall i :: 0 <= i < |bytes| ==> 0 <= bytes[i] < 0x80
    then Some(seq(|bytes|, i requires 0 <= i < |bytes| && 0 <= bytes[i] < 0x80 => bytes[i] as char))
    else None
  }

  // _task_cursor
  function CursorOf(k: Key, q: Query): string
    requires k.createdAtMs >= 0
  {
    var text := ObjectText(CursorMembers(k, q));
    TextIsAscii(CursorMembers(k, q));
    AsciiOctets(text);
    Base64.Encode(Octets(text))
  }

  const FIELDS := {"v", "createdAtMs", "taskId", "goalId", "runtimeWorkspaceId", "includeTerminal"}
  const LEGACY_FIELDS := {"v", "createdAtMs", "taskId", "goalId", "includeTerminal"}

  function TextOrNull(v: Scalar): Option<Option<string>> {
    match v
    case SNull => Some(None)
    case SText(s) => Some(Some(s))
    case _ => None
  }

  // What a decoded payload says, if it is well formed and belongs to the query.
  function PositionIn(f: map<string, Scalar>, q: Query): Result<Key, HostError> {
    if "v" !in f || (f["v"] != SInt(1) && f["v"] != SInt(2)) then Err(ToolArgumentError)
    else
      var legacy := f["v"] == SInt(1);
      if f.Keys != (if legacy then LEGACY_FIELDS else FIELDS) then Err(ToolArgumentError)
      else if !f["createdAtMs"].SInt? || !f["taskId"].SText? || !f["includeTerminal"].SBool? then Err(ToolArgumentError)
      else if !("task:" <= f["taskId"].s) || !Text.Trimmed(f["taskId"].s) then Err(ToolArgumentError)
      else if TextOrNull(f["goalId"]).None? || (!legacy && TextOrNull(f["runtimeWorkspaceId"]).None?) then Err(ToolArgumentError)
      else
        var workspace := if legacy then None else TextOrNull(f["runtimeWorkspaceId"]).value;
        if TextOrNull(f["goalId"]).value != q.goalId || workspace != q.workspaceId || f["includeTerminal"].b != q.includeTerminal
        then Err(ToolArgumentError)
        else Ok(Key(f["createdAtMs"].n, f["taskId"].s))
  }

  // _parse_task_cursor
  function Parse(cursor: Option<string>, q: Query): Result<Option<Key>, HostError> {
    match cursor
    case None => Ok(None)
    case Some(value) =>
      if |value| == 0 || |value| > MAX_CURSOR then Err(ToolArgumentError)
      else
        match Base64.Decode(value)
        case None => Err(ToolArgumentError)
        case Some(bytes) =>
          match AsciiText(bytes)
          case None => Err(ToolArgumentError)
          case Some(text) =>
            match ReadObject(text)
            case None => Err(ToolArgumentError)
            case Some(f) =>
              match PositionIn(f, q)
              case Err(e) => Err(e)
              case Ok(k) => Ok(Some(k))
  }

  // ---- The text is ASCII ----

  lemma EscapeIsAscii(c: char)
    ensures IsAscii(EscapeChar(c))
  {
  }

  lemma {:induction false} EscapedIsAscii(s: string)
    ensures IsAscii(Escape(s))
  {
    hide EscapeChar;
    if |s| > 0 {
      EscapeIsAscii(s[0]);
      EscapedIsAscii(s[1..]);
    }
  }

  lemma {:induction false} DecimalIsAscii(n: nat)
    ensures IsAscii(Text.Decimal(n))
  {
    if n >= 10 {
      DecimalIsAscii(n / 10);
      DecimalIsAscii(n % 10);
    }
  }

  lemma ScalarIsAscii(v: Scalar)
    ensures IsAscii(ScalarText(v))
  {
    match v
    case SInt(n) => DecimalIsAscii(n);
    case SText(s) => EscapedIsAscii(s);
    case _ =>
  }

  lemma {:induction false} MembersAreAscii(members: seq<(string, Scalar)>)
    ensures IsAscii(MembersText(members))
  {
    hide ScalarText, Escape;
    if |members| > 0 {
      EscapedIsAscii(members[0].0);
      ScalarIsAscii(members[0].1);
      MembersAreAscii(members[1..]);
    }
  }

  lemma TextIsAscii(members: seq<(string, Scalar)>)
    ensures IsAscii(ObjectText(members))
  {
    MembersAreAscii(members);
  }

  lemma AsciiOctets(s: string)
    requires IsAscii(s)
    ensures Base64.AreBytes(Octets(s)) && AsciiText(Octets(s)) == Some(s)
  {
    assert AsciiText(Octets(s)).Some? && AsciiText(Octets(s)).value == s;
  }

  // ---- The round trip ----

  lemma LaidCursor(k: Key, q: Query)
    requires k.createdAtMs >= 0
    ensures var f := Laid(CursorMembers(k, q), map[]);
            && f.Keys == FIELDS
            && f["v"] == SInt(2) && f["createdAtMs"] == SInt(k.createdAtMs) && f["taskId"] == SText(k.taskId)
            && f["goalId"] == OptText(q.goalId) && f["runtimeWorkspaceId"] == OptText(q.workspaceId)
            && f["includeTerminal"] == SBool(q.includeTerminal)
  {
    var m := CursorMembers(k, q);
    var f0: map<string, Scalar> := map[];
    var f1 := f0["createdAtMs" := SInt(k.createdAtMs)];
    var f2 := f1["goalId" := OptText(q.goalId)];
    var f3 := f2["includeTerminal" := SBool(q.includeTerminal)];
    var f4 := f3["runtimeWorkspaceId" := OptText(q.workspaceId)];
    var f5 := f4["taskId" := SText(k.taskId)];
    var f6 := f5["v" := SInt(2)];
    assert m[1..][1..] == m[2..] && m[2..][1..] == m[3..] && m[3..][1..] == m[4..] && m[4..][1..] == m[5..];
    assert m[5..][1..] == [];
    assert Laid(m[5..], f5) == Laid([], f6) == f6;
    assert Laid(m[4..], f4) == Laid(m[5..], f5);
    assert Laid(m[3..], f3) == Laid(m[4..], f4);
    assert Laid(m[2..], f2) == Laid(m[3..], f3);
    assert Laid(m[1..], f1) == Laid(m[2..], f2);
    assert Laid(m, f0) == Laid(m[1..], f1);
    assert f6.Keys == FIELDS;
  }

  lemma CursorText(k: Key, q: Query)
    requires k.createdAtMs >= 0
    ensures var value := CursorOf(k, q);
            && |value| > 0
            && Base64.Decode(value).Some?
            && AsciiText(Base64.Decode(value).value) == Some(ObjectText(CursorMembers(k, q)))
            && ReadObject(ObjectText(CursorMembers(k, q))) == Some(Laid(CursorMembers(k, q), map[]))
  {
    hide MembersText, ReadMembers, Laid, CursorMembers, AsciiText;
    MembersCount(k, q);
    var text := ObjectText(CursorMembers(k, q));
    TextIsAscii(CursorMembers(k, q));
    AsciiOctets(text);
    Base64.RoundTrip(Octets(text));
    ObjectReads(CursorMembers(k, q));
  }

  lemma MembersCount(k: Key, q: Query)
    requires k.createdAtMs >= 0
    ensures |CursorMembers(k, q)| == 6
  {
  }

  // Theorem: a cursor reads back as its position, for its own query, exactly when it is at
  // most 2048 characters long; for any other query it is refused.
  lemma CursorRoundTrip(k: Key, q: Query, asked: Query)
    requires k.createdAtMs >= 0 && "task:" <= k.taskId && Text.Trimmed(k.taskId)
    ensures Parse(Some(CursorOf(k, q)), asked) ==
            if |CursorOf(k, q)| <= MAX_CURSOR && asked == q then Ok(Some(k)) else Err(ToolArgumentError)
  {
    hide CursorOf, ObjectText, ReadObject, AsciiText, Laid, CursorMembers;
    CursorText(k, q);
    LaidCursor(k, q);
    var f := Laid(CursorMembers(k, q), map[]);
    assert PositionIn(f, asked) == if asked == q then Ok(k) else Err(ToolArgumentError);
  }

  // ---- Cursors that are too long ----

  // A cursor is accepted exactly when its JSON text has at most 1536 characters.
  lemma CursorFitsIff(k: Key, q: Query)
    requires k.createdAtMs >= 0
    ensures |CursorOf(k, q)| <= MAX_CURSOR <==> |ObjectText(CursorMembers(k, q))| <= 1536
  {
    hide ObjectText, CursorMembers;
    var text := ObjectText(CursorMembers(k, q));
    TextIsAscii(CursorMembers(k, q));
    AsciiOctets(text);
    Base64.EncodedLength(Octets(text));
  }

  lemma {:induction false} EscapeGrows(s: string)
    ensures |Escape(s)| >= |s|
  {
    if |s| > 0 {
      EscapeGrows(s[1..]);
    }
  }

  lemma MembersGrow(members: seq<(string, Scalar)>)
    requires |members| >= 2
    ensures |MembersText(members)| >= |ScalarText(members[1].1)|
  {
    hide Quoted, ScalarText;
    assert members[1..][0] == members[1];
  }

  // Theorem: the walk of a query with a long goal filter stops at its first cursor, however
  // short the position: the cursor the Host writes is one it refuses.
  lemma OverlongCursor(k: Key, q: Query, asked: Query)
    requires k.createdAtMs >= 0 && q.goalId.Some? && |q.goalId.value| > 1536
    ensures |CursorOf(k, q)| > MAX_CURSOR
    ensures Parse(Some(CursorOf(k, q)), asked) == Err(ToolArgumentError)
  {
    hide MembersText, CursorOf, Base64.Decode, ReadObject;
    CursorFitsIff(k, q);
    MembersGrow(CursorMembers(k, q));
    EscapeGrows(q.goalId.value);
  }

  // Which positions are accepted, and for which query: the fields of version 2, or of version 1,
  // which knows no workspace and serves only a query without one.
  lemma PositionExactly(f: map<string, Scalar>, q: Query, k: Key)
    ensures PositionIn(f, q) == Ok(k) <==>
              && (|| (f.Keys == {"v", "createdAtMs", "taskId", "goalId", "runtimeWorkspaceId", "includeTerminal"}
                      && f["v"] == SInt(2) && f["runtimeWorkspaceId"] == OptText(q.workspaceId))
                  || (f.Keys == {"v", "createdAtMs", "taskId", "goalId", "includeTerminal"}
                      && f["v"] == SInt(1) && q.workspaceId == None))
              && f["createdAtMs"].SInt? && f["createdAtMs"].n == k.createdAtMs
              && f["taskId"] == SText(k.taskId) && "task:" <= k.taskId && Text.Trimmed(k.taskId)
              && f["goalId"] == OptText(q.goalId) && f["includeTerminal"] == SBool(q.includeTerminal)
  {
    hide Text.Trimmed;
  }
}
