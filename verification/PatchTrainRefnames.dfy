/** The order of tags with one key, read off their names: git lists tags by refname. */
module PatchTrainRefnames {
  import opened Values
  import opened PatchTrain

  const DIGITS := "0123456789"

  function Decimal(n: nat): (s: string)
    ensures s != []
    ensures n > 0 ==> s[0] in DIGITS && s[0] != '0'
    ensures n == 0 ==> s == "0"
  {
    if n < 10 then [DIGITS[n]] else Decimal(n / 10) + [DIGITS[n % 10]]
  }

  function Zeros(n: nat): string { if n == 0 then "" else "0" + Zeros(n - 1) }

  function NumText(n: Num): string { Zeros(n.zeros) + Decimal(n.value) }

  /** The tag name of a version, without its prefix. */
  function VersionText(v: Version): string { NumText(v.major) + ("." + (NumText(v.minor) + ("." + NumText(v.patch)))) }

  lemma {:induction false} ZerosAdd(m: nat, n: nat)
    ensures Zeros(m + n) == Zeros(m) + Zeros(n)
  {
    if m > 0 { ZerosAdd(m - 1, n); }
  }

  /** What can follow a numeral in a tag name. */
  predicate Tail(x: string) { x == "" || x[0] == '.' }

  /** Two numerals of one value, past the zeros they share. */
  lemma SharedZeros(a: Num, b: Num, x: string, y: string)
    requires a.value == b.value && a.zeros < b.zeros
    ensures var left, right := Decimal(a.value) + x, "0" + (Zeros(b.zeros - a.zeros - 1) + Decimal(a.value) + y);
            && (Less(NumText(a) + x, NumText(b) + y) <==> Less(left, right))
            && (Less(NumText(b) + y, NumText(a) + x) <==> Less(right, left))
  {
    var p, d, more := Zeros(a.zeros), Decimal(a.value), Zeros(b.zeros - a.zeros - 1);
    var left, right := d + x, "0" + (more + d + y);
    ZerosAdd(a.zeros, b.zeros - a.zeros);
    assert NumText(b) == p + ("0" + more) + d;
    Regroup(p, "", d, x);
    Regroup(p, "0" + more, d, y);
    Regroup("0", more, d, y);
    LessAfterPrefix(p, left, right);
    LessAfterPrefix(p, right, left);
  }

  lemma Regroup(p: string, m: string, d: string, x: string)
    ensures p + m + d + x == p + (m + d + x)
    ensures p + d + x == p + (d + x)
  {
  }

  lemma ZeroWithTail(x: string, more: string)
    requires Tail(x) && more != "" && more[0] == '0'
    ensures Less("0" + x, "0" + more) && !Less("0" + more, "0" + x)
  {
    LessAfterPrefix("0", x, more);
    LessAfterPrefix("0", more, x);
  }

  /** The numeral with fewer zeros comes first exactly when it is zero. */
  lemma FewerZeros(a: Num, b: Num, x: string, y: string)
    requires a.value == b.value && a.zeros < b.zeros && Tail(x) && Tail(y)
    ensures Less(NumText(a) + x, NumText(b) + y) <==> a.value == 0
    ensures Less(NumText(b) + y, NumText(a) + x) <==> a.value != 0
  {
    var d := Decimal(a.value);
    SharedZeros(a, b, x, y);
    if a.value == 0 {
      ZeroWithTail(x, Zeros(b.zeros - a.zeros - 1) + d + y);
    } else {
      DigitsAreAboveZero(d[0]);
    }
  }

  lemma DigitsAreAboveZero(c: char)
    requires c in DIGITS && c != '0'
    ensures c > '0'
  {
  }

  lemma NumOrder(a: Num, b: Num, x: string, y: string)
    requires a.value == b.value && a != b && Tail(x) && Tail(y)
    ensures Less(NumText(a) + x, NumText(b) + y) <==> NumBefore(a, b)
  {
    if a.zeros < b.zeros { FewerZeros(a, b, x, y); } else { FewerZeros(b, a, y, x); }
  }

  /** Of two tags with one key, the first in the listing is the one whose name is first. */
  lemma BeforeIsRefnameOrder(a: Version, b: Version)
    requires SameKey(a, b) && a != b
    ensures Before(a, b) <==> Less(VersionText(a), VersionText(b))
  {
    var x := "." + (NumText(a.minor) + ("." + NumText(a.patch)));
    var y := "." + (NumText(b.minor) + ("." + NumText(b.patch)));
    if a.major != b.major {
      NumOrder(a.major, b.major, x, y);
    } else {
      LessAfterPrefix(NumText(a.major), x, y);
      var u, v := NumText(a.minor) + ("." + NumText(a.patch)), NumText(b.minor) + ("." + NumText(b.patch));
      LessAfterPrefix(".", u, v);
      if a.minor != b.minor {
        NumOrder(a.minor, b.minor, "." + NumText(a.patch), "." + NumText(b.patch));
      } else {
        LessAfterPrefix(NumText(a.minor), "." + NumText(a.patch), "." + NumText(b.patch));
        LessAfterPrefix(".", NumText(a.patch), NumText(b.patch));
        NumOrder(a.patch, b.patch, "", "");
        assert NumText(a.patch) + "" == NumText(a.patch) && NumText(b.patch) + "" == NumText(b.patch);
      }
    }
  }
}
