/** Trace records: their order and the binary form in which sorted runs are spooled. */
module TraceCodec {
  import opened Common

  type Byte = n: int | 0 <= n < 256

  const PAGE_BYTES := 16 * 1024 * 1024
  const TWO_63 := 0x8000_0000_0000_0000
  const TWO_64 := 0x1_0000_0000_0000_0000
  const TWO_52 := 0x10_0000_0000_0000

  /** `bits` is the IEEE 754 binary64 pattern of the timestamp. */
  datatype Record = Record(bits: nat, ordinal: nat, payload: seq<Byte>)

  /** `f64::is_finite`: the exponent field is not all ones. */
  predicate Finite(bits: nat) {
    bits / TWO_52 % 2048 != 2047
  }

  predicate ValidRecord(r: Record) {
    r.bits < TWO_64 && Finite(r.bits) && r.ordinal < TWO_64 && |r.payload| <= PAGE_BYTES
  }

  /** `f64::total_cmp` as an integer: negative patterns count downwards. */
  function TotalOrder(bits: nat): int {
    if bits < TWO_63 then bits else TWO_63 - 1 - bits
  }

  /** `Record::cmp` is at most: timestamp first, arrival second. */
  predicate AtMost(a: Record, b: Record) {
    TotalOrder(a.bits) < TotalOrder(b.bits) || (TotalOrder(a.bits) == TotalOrder(b.bits) && a.ordinal <= b.ordinal)
  }

  // ---------------------------------------------------------------- the number a pattern denotes

  function TwoTo(k: nat): nat {
    if k == 0 then 1 else 2 * TwoTo(k - 1)
  }

  /** The absolute value in units of two to the power of -1074, from exponent and fraction field. */
  function Magnitude(bits: nat): nat {
    var exponent, fraction := bits / TWO_52 % 2048, bits % TWO_52;
    if exponent == 0 then fraction else (TWO_52 + fraction) * TwoTo(exponent - 1)
  }

  predicate Negative(bits: nat) {
    bits >= TWO_63
  }

  /** The binary64 number: `1074` is the exponent of the smallest positive one. */
  ghost function Number(bits: nat): real {
    var units := Magnitude(bits) as real / TwoToPositive(1074) as real;
    if Negative(bits) then -units else units
  }

  function TwoToPositive(k: nat): (p: nat)
    ensures p == TwoTo(k) > 0
  {
    TwoToIsPositive(k);
    TwoTo(k)
  }

  lemma {:induction false} TwoToIsPositive(k: nat)
    ensures TwoTo(k) > 0
  {
    if k == 0 {
    } else {
      TwoToIsPositive(k - 1);
    }
  }

  lemma {:induction false} TwoToGrows(a: nat, b: nat)
    requires a <= b
    ensures TwoTo(a) <= TwoTo(b)
    decreases b
  {
    if a == b {
    } else {
      TwoToGrows(a, b - 1);
    }
  }

  lemma Times(a: nat, b: nat, c: nat)
    requires a <= b
    ensures a * c <= b * c
  {
  }

  /** Among patterns of one sign a larger pattern denotes a larger magnitude. */
  lemma MagnitudeGrows(a: nat, b: nat)
    requires a < b < TWO_63
    ensures Magnitude(a) < Magnitude(b)
  {
    var e, m, f, n := a / TWO_52, a % TWO_52, b / TWO_52, b % TWO_52;
    assert a == e * TWO_52 + m && b == f * TWO_52 + n;
    assert e % 2048 == e && f % 2048 == f;
    if e == f {
      if e > 0 {
        TwoToIsPositive(e - 1);
        ProductGrows(TWO_52 + m, TWO_52 + n, TwoTo(e - 1));
      }
    } else {
      TwoToGrows(e, f - 1);
      Times(TWO_52, TWO_52 + n, TwoTo(f - 1));
      ScaleUp(TWO_52, TwoTo(e), TwoTo(f - 1));
      if e > 0 {
        TwoToIsPositive(e - 1);
        ProductGrows(TWO_52 + m, 2 * TWO_52, TwoTo(e - 1));
        Doubled(TWO_52, TwoTo(e - 1));
      }
    }
  }

  lemma ProductGrows(a: nat, b: nat, c: nat)
    requires a < b && c > 0
    ensures a * c < b * c
  {
    assert (b - a) * c >= 1 * c by {
      Times(1, b - a, c);
    }
    assert b * c - a * c == (b - a) * c;
  }

  lemma ScaleUp(a: nat, b: nat, c: nat)
    requires b <= c
    ensures a * b <= a * c
  {
    Times(b, c, a);
  }

  lemma Doubled(a: nat, b: nat)
    ensures 2 * a * b == a * (2 * b)
  {
  }

  lemma UnsignedMagnitude(bits: nat)
    requires TWO_63 <= bits < TWO_64
    ensures Magnitude(bits) == Magnitude(bits - TWO_63)
  {
    var low := bits - TWO_63;
    assert TWO_63 == 2048 * TWO_52;
    assert bits / TWO_52 == low / TWO_52 + 2048 && bits % TWO_52 == low % TWO_52;
  }

  lemma UnitsOrdered(a: nat, b: nat)
    ensures a <= b <==> a as real / TwoToPositive(1074) as real <= b as real / TwoToPositive(1074) as real
  {
    var p := TwoToPositive(1074) as real;
    Quotients(a as real, b as real, p);
  }

  lemma Quotients(a: real, b: real, p: real)
    requires p > 0.0
    ensures a <= b <==> a / p <= b / p
  {
    assert (a / p) * p == a && (b / p) * p == b;
    if a / p <= b / p {
      assert (b / p - a / p) * p >= 0.0;
    } else {
      assert (a / p - b / p) * p > 0.0;
    }
  }

  /** The total order puts smaller numbers first and negative zero before positive zero. */
  lemma OrderIsNumeric(a: nat, b: nat)
    requires a < TWO_64 && b < TWO_64 && TotalOrder(a) <= TotalOrder(b)
    ensures Number(a) <= Number(b)
    ensures a != b && Number(a) == Number(b) ==> Negative(a) && !Negative(b) && Magnitude(a) == Magnitude(b) == 0
  {
    hide TwoTo, Magnitude;
    if a == b {
    } else if Negative(a) && Negative(b) {
      UnsignedMagnitude(a);
      UnsignedMagnitude(b);
      MagnitudeGrows(b - TWO_63, a - TWO_63);
      UnitsOrdered(Magnitude(b), Magnitude(a));
      UnitsOrdered(Magnitude(a), Magnitude(b));
    } else if !Negative(a) && !Negative(b) {
      MagnitudeGrows(a, b);
      UnitsOrdered(Magnitude(a), Magnitude(b));
      UnitsOrdered(Magnitude(b), Magnitude(a));
    } else {
      UnitsOrdered(0, Magnitude(a));
      UnitsOrdered(0, Magnitude(b));
      UnitsOrdered(Magnitude(a), 0);
      UnitsOrdered(Magnitude(b), 0);
    }
  }

  // ---------------------------------------------------------------- little-endian integers

  function Power(k: nat): nat {
    if k == 0 then 1 else 256 * Power(k - 1)
  }

  function ToBytes(n: nat, k: nat): (b: seq<Byte>)
    ensures |b| == k
  {
    if k == 0 then [] else [n % 256] + ToBytes(n / 256, k - 1)
  }

  function FromBytes(b: seq<Byte>): nat {
    if b == [] then 0 else b[0] + 256 * FromBytes(b[1..])
  }

  lemma {:induction false} IntegerRoundTrip(n: nat, k: nat)
    requires n < Power(k)
    ensures FromBytes(ToBytes(n, k)) == n
  {
    if k == 0 {
    } else {
      IntegerRoundTrip(n / 256, k - 1);
      assert ToBytes(n, k)[1..] == ToBytes(n / 256, k - 1);
    }
  }

  lemma Powers()
    ensures Power(4) == 0x1_0000_0000 && Power(8) == TWO_64
  {
    assert Power(2) == 65536;
    assert Power(4) == 65536 * Power(2);
    assert Power(6) == 65536 * Power(4);
    assert Power(8) == 65536 * Power(6);
  }

  // ---------------------------------------------------------------- records

  datatype ReadError = Truncated | InvalidRecord

  datatype Reading = EndOfRun | Got(record: Record, rest: seq<Byte>)

  function Write(r: Record): seq<Byte> {
    ToBytes(r.bits, 8) + ToBytes(r.ordinal, 8) + ToBytes(|r.payload| % 0x1_0000_0000, 4) + r.payload
  }

  function Read(input: seq<Byte>): Result<Reading, ReadError> {
    if input == [] then Ok(EndOfRun)
    else if |input| < 20 then Err(Truncated)
    else
      var bits, ordinal, length := FromBytes(input[..8]), FromBytes(input[8..16]), FromBytes(input[16..20]);
      if !Finite(bits) || length > PAGE_BYTES then Err(InvalidRecord)
      else if |input| < 20 + length then Err(Truncated)
      else Ok(Got(Record(bits, ordinal, input[20..20 + length]), input[20 + length..]))
  }

  /** Reading undoes writing, whatever follows in the stream. */
  lemma RecordRoundTrip(r: Record, rest: seq<Byte>)
    requires ValidRecord(r)
    ensures Read(Write(r) + rest) == Ok(Got(r, rest))
  {
    hide ToBytes, FromBytes, Finite;
    Powers();
    hide Power;
    IntegerRoundTrip(r.bits, 8);
    IntegerRoundTrip(r.ordinal, 8);
    IntegerRoundTrip(|r.payload|, 4);
    var a, b, c := ToBytes(r.bits, 8), ToBytes(r.ordinal, 8), ToBytes(|r.payload|, 4);
    Layout(a, b, c, r.payload, rest);
    assert |r.payload| % 0x1_0000_0000 == |r.payload|;
  }

  lemma Layout(a: seq<Byte>, b: seq<Byte>, c: seq<Byte>, p: seq<Byte>, rest: seq<Byte>)
    requires |a| == 8 && |b| == 8 && |c| == 4
    ensures var s := a + b + c + p + rest;
            && s[..8] == a && s[8..16] == b && s[16..20] == c && s[20..20 + |p|] == p && s[20 + |p|..] == rest
            && |s| == 20 + |p| + |rest|
  {
  }

  lemma {:induction false} BytesRoundTrip(b: seq<Byte>)
    ensures ToBytes(FromBytes(b), |b|) == b && FromBytes(b) < Power(|b|)
  {
    if b == [] {
    } else {
      BytesRoundTrip(b[1..]);
      assert FromBytes(b) % 256 == b[0] && FromBytes(b) / 256 == FromBytes(b[1..]);
    }
  }

  /** Whatever is read is a valid record, and writing it gives back the very bytes that were read. */
  lemma ReadRoundTrip(input: seq<Byte>)
    ensures var reading := Read(input);
            reading.Ok? && reading.value.Got? ==>
              ValidRecord(reading.value.record) && input == Write(reading.value.record) + reading.value.rest
  {
    var reading := Read(input);
    if reading.Ok? && reading.value.Got? {
      hide ToBytes, FromBytes, Finite;
      Powers();
      hide Power;
      BytesRoundTrip(input[..8]);
      BytesRoundTrip(input[8..16]);
      BytesRoundTrip(input[16..20]);
      var length := FromBytes(input[16..20]);
      Pieces(input, length);
      assert length % 0x1_0000_0000 == length;
    }
  }

  lemma Pieces(input: seq<Byte>, length: nat)
    requires |input| >= 20 + length
    ensures input == input[..8] + input[8..16] + input[16..20] + input[20..20 + length] + input[20 + length..]
  {
  }

  function WriteAll(rs: seq<Record>): seq<Byte> {
    if rs == [] then [] else Write(rs[0]) + WriteAll(rs[1..])
  }

  lemma WriteAllAppend(rs: seq<Record>, r: Record)
    ensures WriteAll(rs + [r]) == WriteAll(rs) + Write(r)
  {
    hide Write;
    if rs == [] {
      assert WriteAll([r]) == Write(r) + WriteAll([]);
    } else {
      assert (rs + [r])[1..] == rs[1..] + [r];
      WriteAllAppend(rs[1..], r);
    }
  }

  /** A run is read back record by record, ending exactly where it ends. */
  lemma ReadRun(rs: seq<Record>)
    requires forall i :: 0 <= i < |rs| ==> ValidRecord(rs[i])
    ensures Read(WriteAll(rs)) == Ok(if rs == [] then EndOfRun else Got(rs[0], WriteAll(rs[1..])))
  {
    hide Read, Write;
    if rs != [] {
      RecordRoundTrip(rs[0], WriteAll(rs[1..]));
    } else {
      ReadNothing();
    }
  }

  lemma ReadNothing()
    ensures Read([]) == Ok(EndOfRun)
  {
  }
}
