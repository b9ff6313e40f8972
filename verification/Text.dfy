/** Text as the wire and the database see it: UTF-8 length, JSON string length, byte order. */
module Text {

  /** UTF-8 length of one character, what `str::len` counts. */
  function CharBytes(c: char): (n: nat)
    ensures 1 <= n <= 4
  {
    var code := c as int;
    if code < 0x80 then 1 else if code < 0x800 then 2 else if code < 0x10000 then 3 else 4
  }

  function Bytes(s: string): nat {
    if s == "" then 0 else CharBytes(s[0]) + Bytes(s[1..])
  }

  /** Length of one character inside a JSON string literal. */
  function JsonCharBytes(c: char): (n: nat)
    ensures n <= 6 * CharBytes(c)
  {
    var code := c as int;
    if c == '\"' || c == '\\' || code == 8 || code == 9 || code == 10 || code == 12 || code == 13 then 2
    else if code < 0x20 then 6
    else CharBytes(c)
  }

  function JsonBytes(s: string): (n: nat)
    ensures n <= 6 * Bytes(s)
  {
    if s == "" then 0 else JsonCharBytes(s[0]) + JsonBytes(s[1..])
  }

  /** Decimal width of a number, as the encoder prints it. */
  function Digits(n: nat): (d: nat)
    ensures d >= 1
  {
    if n < 10 then 1 else 1 + Digits(n / 10)
  }

  function Pow10(k: nat): (p: nat)
    ensures p >= 1
  {
    if k == 0 then 1 else 10 * Pow10(k - 1)
  }

  lemma DigitsBound(n: nat, k: nat)
    requires k >= 1 && n < Pow10(k)
    ensures Digits(n) <= k
  {
    if n >= 10 {
      DigitsBound(n / 10, k - 1);
    }
  }

  /** Every 63-bit sequence prints in at most nineteen digits. */
  lemma {:induction false} SequenceDigits(n: nat)
    requires n <= 0x7fff_ffff_ffff_ffff
    ensures Digits(n) <= 19
  {
    assert Pow10(19) == 10_000_000_000_000_000_000 by {
      assert Pow10(5) == 100_000;
      assert Pow10(10) == 100_000 * Pow10(5);
      assert Pow10(15) == 100_000 * Pow10(10);
    }
    DigitsBound(n, 19);
  }

  // ---------------------------------------------------------------- byte order of BTreeMap keys

  predicate Less(a: string, b: string) {
    if b == "" then false
    else if a == "" then true
    else a[0] < b[0] || (a[0] == b[0] && Less(a[1..], b[1..]))
  }

  /** Dictionary order: a proper prefix comes first, else the first difference decides. */
  lemma LessMeans(a: string, b: string)
    ensures Less(a, b) <==> exists i :: DiffersAt(a, b, i)
  {
    if a != "" && b != "" {
      if a[0] == b[0] {
        LessMeans(a[1..], b[1..]);
        if Less(a, b) {
          var i :| DiffersAt(a[1..], b[1..], i);
          assert a[..i + 1] == [a[0]] + a[1..][..i] && b[..i + 1] == [b[0]] + b[1..][..i];
          assert DiffersAt(a, b, i + 1);
        } else if exists i :: DiffersAt(a, b, i) {
          var i :| DiffersAt(a, b, i);
          assert a[1..][..i - 1] == a[..i][1..] && b[1..][..i - 1] == b[..i][1..];
          assert DiffersAt(a[1..], b[1..], i - 1);
        }
      } else {
        assert DiffersAt(a, b, 0) <==> a[0] < b[0];
        forall i | DiffersAt(a, b, i) ensures i == 0 || a[0] == b[0] {
          DiffersLater(a, b, i);
        }
      }
    } else if b != "" {
      assert DiffersAt(a, b, 0);
    }
  }

  lemma DiffersLater(a: string, b: string, i: int)
    requires DiffersAt(a, b, i)
    ensures i == 0 || a[0] == b[0]
  {
    if i > 0 {
      assert a[..i][0] == a[0] && b[..i][0] == b[0];
    }
  }

  predicate DiffersAt(a: string, b: string, i: int) {
    && 0 <= i <= |a| && i < |b| && a[..i] == b[..i] && (i == |a| || a[i] < b[i])
  }

  lemma LessTotal(a: string, b: string)
    ensures a == b || Less(a, b) || Less(b, a)
    ensures !(Less(a, b) && Less(b, a))
    ensures !Less(a, a)
  {
    if a != "" && b != "" {
      LessTotal(a[1..], b[1..]);
      LessTotal(a[1..], a[1..]);
      assert a == [a[0]] + a[1..] && b == [b[0]] + b[1..];
    } else if a != "" {
      LessTotal(a[1..], a[1..]);
    }
  }

  lemma LessTransitive(a: string, b: string, c: string)
    requires Less(a, b) && Less(b, c)
    ensures Less(a, c)
  {
    if a != "" && a[0] == b[0] == c[0] {
      LessTransitive(a[1..], b[1..], c[1..]);
    }
  }

  predicate IsLeast(k: string, keys: set<string>) {
    k in keys && forall other :: other in keys ==> other == k || Less(k, other)
  }

  lemma LeastExists(keys: set<string>)
    requires keys != {}
    ensures exists k :: IsLeast(k, keys)
  {
    var x :| x in keys;
    if keys == {x} {
      assert IsLeast(x, keys);
    } else {
      var rest := keys - {x};
      LeastExists(rest);
      var y :| IsLeast(y, rest);
      LessTotal(x, y);
      if Less(x, y) {
        forall other | other in keys ensures other == x || Less(x, other) {
          if other != x && other != y {
            LessTransitive(x, y, other);
          }
        }
        assert IsLeast(x, keys);
      } else {
        assert IsLeast(y, keys);
      }
    }
  }

  /** The order in which a BTreeMap or BTreeSet with these keys is walked. */
  ghost function SortedKeys(keys: set<string>): (order: seq<string>)
    ensures forall k :: k in keys <==> k in order
    ensures |order| == |keys|
    decreases |keys|
  {
    if keys == {} then []
    else
      LeastExists(keys);
      var k :| IsLeast(k, keys);
      [k] + SortedKeys(keys - {k})
  }

  lemma LeastUnique(a: string, b: string, keys: set<string>)
    requires IsLeast(a, keys) && IsLeast(b, keys)
    ensures a == b
  {
    LessTotal(a, b);
  }

  lemma SortedKeysFront(keys: set<string>, k: string)
    requires IsLeast(k, keys)
    ensures SortedKeys(keys) == [k] + SortedKeys(keys - {k})
  {
    forall other | IsLeast(other, keys) ensures other == k {
      LeastUnique(k, other, keys);
    }
  }

  /** Walk keys in order by taking the least one first. */
  method WalkOrder(keys: set<string>) returns (order: seq<string>)
    ensures order == SortedKeys(keys)
    decreases |keys|
  {
    if keys == {} {
      return [];
    }
    hide IsLeast, SortedKeys;
    LeastExists(keys);
    var k :| k in keys && IsLeast(k, keys);
    order := WalkOrder(keys - {k});
    SortedKeysFront(keys, k);
    order := [k] + order;
  }

  /** Unicode `White_Space`. */
  predicate IsSpace(c: char) {
    var code := c as int;
    9 <= code <= 13 || code == 32 || code == 0x85 || code == 0xA0 || code == 0x1680 ||
    0x2000 <= code <= 0x200A || code == 0x2028 || code == 0x2029 || code == 0x202F || code == 0x205F || code == 0x3000
  }

  /** `!text.trim().is_empty()`. */
  predicate Named(text: string) {
    exists c :: c in text && !IsSpace(c)
  }
}
