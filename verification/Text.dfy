// Strings as the Host compares, trims and measures them: code-point order (the order
// SQLite's BINARY collation and Python's `sorted` give), `str.strip`, UTF-8 widths.
module Text {

  predicate Before(a: string, b: string) {
    |b| > 0 && (|a| == 0 || a[0] < b[0] || (a[0] == b[0] && Before(a[1..], b[1..])))
  }

  // At the first character where they differ the smaller one decides, and a text comes before
  // every longer text that begins with it.
  ghost predicate DiffersAt(a: string, b: string, i: nat) {
    && i <= |a| && i < |b| && a[..i] == b[..i]
    && (i == |a| || a[i] < b[i])
  }

  lemma {:induction false} BeforeExactly(a: string, b: string)
    ensures Before(a, b) <==> exists i: nat :: DiffersAt(a, b, i)
  {
    if |a| == 0 {
      if |b| > 0 {
        assert DiffersAt(a, b, 0);
      }
    } else if |b| > 0 && a[0] == b[0] {
      BeforeExactly(a[1..], b[1..]);
      if i: nat :| DiffersAt(a[1..], b[1..], i) {
        assert a[..i + 1] == [a[0]] + a[1..][..i] && b[..i + 1] == [b[0]] + b[1..][..i];
        assert DiffersAt(a, b, i + 1);
      }
      if i: nat :| DiffersAt(a, b, i) {
        assert i > 0;
        assert a[1..][..i - 1] == a[..i][1..] && b[1..][..i - 1] == b[..i][1..];
        assert DiffersAt(a[1..], b[1..], i - 1);
      }
    } else if |b| > 0 {
      if a[0] < b[0] {
        assert DiffersAt(a, b, 0);
      }
      if i: nat :| DiffersAt(a, b, i) {
        assert i > 0 ==> a[..i][0] == b[..i][0];
      }
    }
  }

  predicate AtMost(a: string, b: string) {
    a == b || Before(a, b)
  }

  lemma {:induction false} BeforeTotal(a: string, b: string)
    ensures a == b || Before(a, b) || Before(b, a)
  {
    if |a| > 0 && |b| > 0 && a[0] == b[0] {
      BeforeTotal(a[1..], b[1..]);
      if a[1..] == b[1..] {
        assert a == [a[0]] + a[1..] == b;
      }
    }
  }

  lemma {:induction false} BeforeTransitive(a: string, b: string, c: string)
    requires Before(a, b) && Before(b, c)
    ensures Before(a, c)
  {
    if |a| > 0 && a[0] == b[0] == c[0] {
      BeforeTransitive(a[1..], b[1..], c[1..]);
    }
  }

  lemma {:induction false} BeforeIrreflexive(a: string)
    ensures !Before(a, a)
  {
    if |a| > 0 {
      BeforeIrreflexive(a[1..]);
    }
  }

  lemma BeforeAsymmetric(a: string, b: string)
    requires Before(a, b)
    ensures a != b && !Before(b, a)
  {
    BeforeIrreflexive(a);
    if Before(b, a) {
      BeforeTransitive(a, b, a);
    }
  }

  // The first of a non-empty finite set of keys; canonical JSON writes keys in this order.
  function Least(keys: set<string>): (k: string)
    requires keys != {}
    ensures k in keys && forall j :: j in keys ==> AtMost(k, j)
  {
    LeastExists(keys);
    LeastUnique(keys);
    var k :| k in keys && forall j :: j in keys ==> AtMost(k, j);
    k
  }

  lemma LeastUnique(keys: set<string>)
    ensures forall a, b :: a in keys && b in keys && AtMost(a, b) && AtMost(b, a) ==> a == b
  {
    forall a, b | a in keys && b in keys && AtMost(a, b) && AtMost(b, a)
      ensures a == b
    {
      if a != b {
        BeforeAsymmetric(a, b);
      }
    }
  }

  lemma {:induction false} LeastExists(keys: set<string>)
    requires keys != {}
    ensures exists k :: k in keys && forall j :: j in keys ==> AtMost(k, j)
    decreases |keys|
  {
    var x :| x in keys;
    if keys != {x} {
      var rest := keys - {x};
      assert keys == {x} + rest;
      LeastExists(rest);
      var m :| m in rest && forall j :: j in rest ==> AtMost(m, j);
      var k := if Before(x, m) then x else m;
      BeforeTotal(x, m);
      forall j | j in keys
        ensures AtMost(k, j)
      {
        if j != x {
          assert AtMost(m, j);
          if k == x && m != j {
            BeforeTransitive(x, m, j);
          }
        }
      }
    } else {
      assert AtMost(x, x);
    }
  }

  // The code points Python's `str.strip` removes.
  predicate IsSpace(c: char) {
    var n := c as int;
    || 9 <= n <= 13
    || 28 <= n <= 32
    || n == 0x85 || n == 0xA0 || n == 0x1680
    || 0x2000 <= n <= 0x200A
    || n == 0x2028 || n == 0x2029 || n == 0x202F || n == 0x205F || n == 0x3000
  }

  predicate Trimmed(s: string) {
    |s| > 0 ==> !IsSpace(s[0]) && !IsSpace(s[|s| - 1])
  }

  // Non-empty and equal to its own `strip()`.
  predicate IsLabel(s: string) {
    s != "" && Trimmed(s)
  }

  // Octets of one code point in UTF-8, section 3 of RFC 3629.
  function Utf8Width(c: char): (n: nat)
    ensures 1 <= n <= 4
  {
    var v := c as int;
    if v < 0x80 then 1 else if v < 0x800 then 2 else if v < 0x1_0000 then 3 else 4
  }

  function Utf8Length(s: string): nat {
    if |s| == 0 then 0 else Utf8Width(s[0]) + Utf8Length(s[1..])
  }

  function Digits(n: nat): nat {
    if n < 10 then 1 else 1 + Digits(n / 10)
  }

  function Decimal(n: nat): string {
    if n < 10 then [('0' as int + n) as char] else Decimal(n / 10) + Decimal(n % 10)
  }

  // A number is written with as many characters as it is counted for.
  lemma {:induction false} DigitsAreWritten(n: nat)
    ensures |Decimal(n)| == Digits(n)
  {
    if n >= 10 {
      DigitsAreWritten(n / 10);
    }
  }
}
