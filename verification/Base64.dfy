// Base64 with the URL-safe alphabet and no padding, as section 5 of RFC 4648 defines it.
module Base64 {
  import opened Base

  predicate IsByte(b: int) { 0 <= b < 256 }

  predicate AreBytes(s: seq<int>) { forall i :: 0 <= i < |s| ==> IsByte(s[i]) }

  function Symbol(n: int): char
    requires 0 <= n < 64
  {
    if n < 26 then ('A' as int + n) as char
    else if n < 52 then ('a' as int + (n - 26)) as char
    else if n < 62 then ('0' as int + (n - 52)) as char
    else if n == 62 then '-' else '_'
  }

  function Position(c: char): (n: Option<int>)
    ensures n.Some? ==> 0 <= n.value < 64 && Symbol(n.value) == c
  {
    if 'A' <= c <= 'Z' then Some(c as int - 'A' as int)
    else if 'a' <= c <= 'z' then Some(c as int - 'a' as int + 26)
    else if '0' <= c <= '9' then Some(c as int - '0' as int + 52)
    else if c == '-' then Some(62)
    else if c == '_' then Some(63)
    else None
  }

  lemma PositionOfSymbol(n: int)
    requires 0 <= n < 64
    ensures Position(Symbol(n)) == Some(n)
  {
  }

  // The four six-bit groups of three octets, and the octets back from the groups.
  function Group0(x: int): int { x / 4 }
  function Group1(x: int, y: int): int { x % 4 * 16 + y / 16 }
  function Group2(y: int, z: int): int { y % 16 * 4 + z / 64 }
  function Group3(z: int): int { z % 64 }

  function Octet0(a: int, b: int): int { a * 4 + b / 16 }
  function Octet1(b: int, c: int): int { b % 16 * 16 + c / 4 }
  function Octet2(c: int, d: int): int { c % 4 * 64 + d }

  lemma GroupsAreOctets(x: int, y: int, z: int)
    requires IsByte(x) && IsByte(y) && IsByte(z)
    ensures 0 <= Group0(x) < 64 && 0 <= Group1(x, y) < 64 && 0 <= Group2(y, z) < 64 && 0 <= Group3(z) < 64
    ensures Octet0(Group0(x), Group1(x, y)) == x
    ensures Octet1(Group1(x, y), Group2(y, z)) == y
    ensures Octet2(Group2(y, z), Group3(z)) == z
  {
  }

  function Quad(x: int, y: int, z: int): string
    requires IsByte(x) && IsByte(y) && IsByte(z)
  {
    GroupsAreOctets(x, y, z);
    [Symbol(Group0(x)), Symbol(Group1(x, y)), Symbol(Group2(y, z)), Symbol(Group3(z))]
  }

  // A short last group keeps only the symbols that carry octets.
  function Encode(bytes: seq<int>): string
    requires AreBytes(bytes)
  {
    if |bytes| == 0 then ""
    else if |bytes| == 1 then Quad(bytes[0], 0, 0)[..2]
    else if |bytes| == 2 then Quad(bytes[0], bytes[1], 0)[..3]
    else Quad(bytes[0], bytes[1], bytes[2]) + Encode(bytes[3..])
  }

  function Decode(s: string): Option<seq<int>> {
    if |s| == 0 then Some([])
    else if |s| == 1 || Position(s[0]).None? || Position(s[1]).None? then None
    else
      var a, b := Position(s[0]).value, Position(s[1]).value;
      if |s| == 2 then Some([Octet0(a, b)])
      else if Position(s[2]).None? then None
      else
        var c := Position(s[2]).value;
        if |s| == 3 then Some([Octet0(a, b), Octet1(b, c)])
        else if Position(s[3]).None? then None
        else
          match Decode(s[4..])
          case None => None
          case Some(rest) => Some([Octet0(a, b), Octet1(b, c), Octet2(c, Position(s[3]).value)] + rest)
  }

  lemma QuadPositions(x: int, y: int, z: int)
    requires IsByte(x) && IsByte(y) && IsByte(z)
    ensures var q := Quad(x, y, z);
            && Position(q[0]) == Some(Group0(x)) && Position(q[1]) == Some(Group1(x, y))
            && Position(q[2]) == Some(Group2(y, z)) && Position(q[3]) == Some(Group3(z))
  {
    hide Group0, Group1, Group2, Group3, Symbol, Position;
    GroupsAreOctets(x, y, z);
    PositionOfSymbol(Group0(x));
    PositionOfSymbol(Group1(x, y));
    PositionOfSymbol(Group2(y, z));
    PositionOfSymbol(Group3(z));
  }

  // Theorem: what was encoded decodes to itself.
  lemma {:induction false} RoundTrip(bytes: seq<int>)
    requires AreBytes(bytes)
    ensures Decode(Encode(bytes)) == Some(bytes)
  {
    hide Group0, Group1, Group2, Group3, Octet0, Octet1, Octet2, Position, Symbol;
    if |bytes| > 0 {
      var x, y, z := bytes[0], if |bytes| > 1 then bytes[1] else 0, if |bytes| > 2 then bytes[2] else 0;
      var q, s := Quad(x, y, z), Encode(bytes);
      QuadPositions(x, y, z);
      GroupsAreOctets(x, y, z);
      if |bytes| >= 3 {
        RoundTrip(bytes[3..]);
        assert s == q + Encode(bytes[3..]) && s[4..] == Encode(bytes[3..]);
        assert s[0] == q[0] && s[1] == q[1] && s[2] == q[2] && s[3] == q[3];
        assert bytes == [x, y, z] + bytes[3..];
      } else if |bytes| == 2 {
        assert s == [q[0], q[1], q[2]] && bytes == [x, y];
      } else {
        assert s == [q[0], q[1]] && bytes == [x];
      }
    }
  }

  // Four symbols for three octets, and one more symbol than octets in a short last group.
  lemma {:induction false} EncodedLength(bytes: seq<int>)
    requires AreBytes(bytes)
    ensures |Encode(bytes)| == (4 * |bytes| + 2) / 3
  {
    hide Quad;
    if |bytes| >= 3 {
      EncodedLength(bytes[3..]);
      QuadLength(bytes[0], bytes[1], bytes[2]);
    } else if |bytes| == 2 {
      QuadLength(bytes[0], bytes[1], 0);
    } else if |bytes| == 1 {
      QuadLength(bytes[0], 0, 0);
    }
  }

  lemma QuadLength(x: int, y: int, z: int)
    requires IsByte(x) && IsByte(y) && IsByte(z)
    ensures |Quad(x, y, z)| == 4
  {
  }
}
