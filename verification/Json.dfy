/**
  JSON values and RFC 6901 pointers.

  A number is its literal text plus the finite double the reader of that text obtains, if any:
  `as_f64().filter(is_finite)`. No theorem assumes anything about how text and double relate.
 */
module Json {
  import opened Common
  import opened Text

  datatype Value =
    | Null
    | Bool(b: bool)
    | Number(text: string, float: Option<real>)
    | Text(s: string)
    | Array(items: seq<Value>)
    | Object(fields: map<string, Value>)

  // ---------------------------------------------------------------- escaping, sections 3 and 4 of RFC 6901

  function ReplaceChar(s: string, c: char, sub: string): string {
    if s == "" then "" else (if s[0] == c then sub else [s[0]]) + ReplaceChar(s[1..], c, sub)
  }

  /** Replace every non-overlapping occurrence of the two characters `a` `b`, left to right. */
  function ReplacePair(s: string, a: char, b: char, sub: char): string {
    if s == "" then ""
    else if |s| >= 2 && s[0] == a && s[1] == b then [sub] + ReplacePair(s[2..], a, b, sub)
    else [s[0]] + ReplacePair(s[1..], a, b, sub)
  }

  function Escape(key: string): string {
    ReplaceChar(ReplaceChar(key, '~', "~0"), '/', "~1")
  }

  function Unescape(token: string): string {
    ReplacePair(ReplacePair(token, '~', '1', '/'), '~', '0', '~')
  }

  function EscapeChar(c: char): string {
    if c == '~' then "~0" else if c == '/' then "~1" else [c]
  }

  /** Every `~` starts one of the two legal escapes. */
  predicate ValidEscapes(s: string) {
    s == "" ||
    if s[0] == '~' then |s| >= 2 && (s[1] == '0' || s[1] == '1') && ValidEscapes(s[2..])
    else ValidEscapes(s[1..])
  }

  lemma ReplaceCharAppend(a: string, b: string, c: char, sub: string)
    ensures ReplaceChar(a + b, c, sub) == ReplaceChar(a, c, sub) + ReplaceChar(b, c, sub)
  {
    if a == "" {
      assert a + b == b;
    } else {
      assert (a + b)[1..] == a[1..] + b;
    }
  }

  lemma EscapeStep(c: char, rest: string)
    ensures Escape([c] + rest) == EscapeChar(c) + Escape(rest)
  {
    var head := if c == '~' then "~0" else [c];
    assert ([c] + rest)[1..] == rest;
    assert ReplaceChar([c] + rest, '~', "~0") == head + ReplaceChar(rest, '~', "~0");
    ReplaceCharAppend(head, ReplaceChar(rest, '~', "~0"), '/', "~1");
    assert ReplaceChar("~0", '/', "~1") == "~0" by {
      assert "~0"[1..] == "0" && "0"[1..] == "";
    }
    assert [c][1..] == "";
  }

  lemma UnescapeEscapeChar(c: char, rest: string)
    ensures Unescape(EscapeChar(c) + rest) == [c] + Unescape(rest)
  {
    var t := EscapeChar(c) + rest;
    var inner := ReplacePair(rest, '~', '1', '/');
    if c == '~' {
      assert t[1..] == "0" + rest && t[1..][1..] == rest;
      assert ReplacePair(t, '~', '1', '/') == "~" + ("0" + inner);
      var u := "~" + ("0" + inner);
      assert u[2..] == inner;
    } else if c == '/' {
      assert t[2..] == rest;
      var u := "/" + inner;
      assert u[1..] == inner;
    } else {
      assert t[1..] == rest;
      var u := [c] + inner;
      assert u[1..] == inner;
    }
  }

  /** Reading an escaped key gives the key back, so escaping is injective. */
  lemma {:induction false} EscapeRoundTrip(key: string)
    ensures Unescape(Escape(key)) == key
  {
    if key == "" {
    } else {
      assert key == [key[0]] + key[1..];
      EscapeStep(key[0], key[1..]);
      UnescapeEscapeChar(key[0], Escape(key[1..]));
      EscapeRoundTrip(key[1..]);
    }
  }

  /** Every legal reference token is the escape of the key it denotes: pointers are canonical. */
  lemma {:induction false} UnescapeRoundTrip(token: string)
    requires ValidEscapes(token) && '/' !in token
    ensures Escape(Unescape(token)) == token
  {
    if token == "" {
    } else {
      var n := if token[0] == '~' then 2 else 1;
      var c := if token[0] != '~' then token[0] else if token[1] == '0' then '~' else '/';
      assert token == EscapeChar(c) + token[n..];
      UnescapeEscapeChar(c, token[n..]);
      EscapeStep(c, Unescape(token[n..]));
      UnescapeRoundTrip(token[n..]);
    }
  }

  lemma {:induction false} EscapeShape(key: string)
    ensures '/' !in Escape(key) && ValidEscapes(Escape(key))
  {
    if key == "" {
    } else {
      assert key == [key[0]] + key[1..];
      EscapeStep(key[0], key[1..]);
      EscapeShape(key[1..]);
      var e := EscapeChar(key[0]);
      assert (e + Escape(key[1..]))[|e|..] == Escape(key[1..]);
    }
  }

  lemma EscapeInjective(a: string, b: string)
    requires Escape(a) == Escape(b)
    ensures a == b
  {
    EscapeRoundTrip(a);
    EscapeRoundTrip(b);
  }

  // ---------------------------------------------------------------- pointers

  predicate PathShape(p: string) {
    p == "" || p[0] == '/'
  }

  const MAX_POINTER_BYTES := 4096

  /** `validate_snapshot_pointer`. */
  predicate ValidPointer(p: string) {
    Bytes(p) <= MAX_POINTER_BYTES && PathShape(p) && ValidEscapes(p)
  }

  function TokenLength(p: string): (n: nat)
    ensures n <= |p|
    ensures '/' !in p[..n]
    ensures n < |p| ==> p[n] == '/'
  {
    if p == "" || p[0] == '/' then 0 else 1 + TokenLength(p[1..])
  }

  predicate IsDigit(c: char) {
    '0' <= c <= '9'
  }

  function DecimalValue(s: string): nat
    requires forall c :: c in s ==> IsDigit(c)
  {
    if s == "" then 0
    else
      assert IsDigit(s[|s| - 1]);
      10 * DecimalValue(s[..|s| - 1]) + (s[|s| - 1] as int - '0' as int)
  }

  /** Array positions are plain decimals without sign or leading zero. */
  function ParseIndex(token: string): Option<nat> {
    if token == "" || (token[0] == '0' && |token| != 1) || (exists c :: c in token && !IsDigit(c)) then None
    else Some(DecimalValue(token))
  }

  /** How a position is printed in a path. */
  function Decimal(n: nat): string {
    if n < 10 then [(n + '0' as int) as char] else Decimal(n / 10) + [(n % 10 + '0' as int) as char]
  }

  lemma DecimalShape(n: nat)
    ensures Decimal(n) != "" && forall c :: c in Decimal(n) ==> IsDigit(c)
    ensures Decimal(n)[0] == '0' ==> n == 0
    ensures DecimalValue(Decimal(n)) == n
    ensures n == 0 ==> |Decimal(n)| == 1
  {
    if n >= 10 {
      DecimalShape(n / 10);
      assert Decimal(n)[..|Decimal(n)| - 1] == Decimal(n / 10);
    } else {
      assert Decimal(n)[..0] == "";
    }
  }

  lemma PlainTokenUnescape(token: string)
    requires '~' !in token
    ensures Unescape(token) == token && Escape(token) == ReplaceChar(token, '/', "~1")
  {
    if token == "" {
    } else {
      PlainTokenUnescape(token[1..]);
      var inner := ReplacePair(token[1..], '~', '1', '/');
      assert ([token[0]] + inner)[1..] == inner;
    }
  }

  function Child(v: Value, token: string): (r: Option<Value>)
  {
    match v
    case Object(fields) =>
      var key := Unescape(token);
      if key in fields then Some(fields[key]) else None
    case Array(items) =>
      var i := ParseIndex(Unescape(token));
      if i.Some? && i.value < |items| then Some(items[i.value]) else None
    case _ => None
  }

  /** `Value::pointer`: walk one reference token at a time. */
  function Lookup(v: Value, p: string): Option<Value>
    decreases |p|
  {
    if p == "" then Some(v)
    else if p[0] != '/' then None
    else
      var n := TokenLength(p[1..]);
      var child := Child(v, p[1..1 + n]);
      if child.None? then None else Lookup(child.value, p[1 + n..])
  }

  /** The plotted value at a pointer: a number with a finite double, else nothing. */
  function NumberAt(v: Value, p: string): Option<real> {
    match Lookup(v, p)
    case Some(Number(_, float)) => float
    case _ => None
  }

  lemma {:induction false} TokenLengthAppend(token: string, rest: string)
    requires '/' !in token && PathShape(rest)
    ensures TokenLength(token + rest) == |token|
  {
    if token == "" {
      assert token + rest == rest;
    } else {
      assert (token + rest)[1..] == token[1..] + rest;
      assert token[0] != '/';
      TokenLengthAppend(token[1..], rest);
    }
  }

  lemma LookupStep(v: Value, token: string, rest: string)
    requires '/' !in token && PathShape(rest)
    ensures var child := Child(v, token);
            Lookup(v, "/" + token + rest) == if child.None? then None else Lookup(child.value, rest)
  {
    hide Child;
    var p := "/" + token + rest;
    assert p[1..] == token + rest;
    TokenLengthAppend(token, rest);
    assert p[1..1 + |token|] == token;
    assert p[1 + |token|..] == rest;
  }

  /** One object step of a pointer: the escaped key selects exactly that member. */
  lemma LookupMember(fields: map<string, Value>, key: string, rest: string)
    requires PathShape(rest)
    ensures Lookup(Object(fields), "/" + Escape(key) + rest)
         == if key in fields then Lookup(fields[key], rest) else None
  {
    hide Lookup, Escape, Unescape;
    EscapeShape(key);
    EscapeRoundTrip(key);
    LookupStep(Object(fields), Escape(key), rest);
  }

  /** A printed position selects exactly that element. */
  lemma LookupItem(items: seq<Value>, i: nat, rest: string)
    requires PathShape(rest)
    ensures Lookup(Array(items), "/" + Decimal(i) + rest) == if i < |items| then Lookup(items[i], rest) else None
  {
    hide Lookup, Unescape, Decimal;
    DecimalShape(i);
    PlainTokenUnescape(Decimal(i));
    LookupStep(Array(items), Decimal(i), rest);
  }

  lemma ValidEscapesSplit(a: string, b: string)
    requires ValidEscapes(a + b) && PathShape(b)
    ensures ValidEscapes(a) && ValidEscapes(b)
  {
    if a == "" {
      assert a + b == b;
    } else if a[0] == '~' {
      assert (a + b)[0] == '~';
      if |a| == 1 {
        assert false;
      } else {
        assert (a + b)[2..] == a[2..] + b;
        ValidEscapesSplit(a[2..], b);
      }
    } else {
      assert (a + b)[1..] == a[1..] + b;
      ValidEscapesSplit(a[1..], b);
    }
  }

  /** A legal nonempty pointer is the escape of its first key followed by a legal pointer. */
  lemma SplitPointer(p: string) returns (key: string, rest: string)
    requires p != "" && PathShape(p) && ValidEscapes(p)
    ensures p == "/" + Escape(key) + rest
    ensures PathShape(rest) && ValidEscapes(rest)
  {
    var n := TokenLength(p[1..]);
    var token := p[1..1 + n];
    rest := p[1 + n..];
    assert p[1..] == token + rest;
    ValidEscapesSplit(token, rest);
    key := Unescape(token);
    assert token == p[1..][..n];
    UnescapeRoundTrip(token);
  }
}
