/** Stable release versions: a strict parser, its printer, and their order. */
module ReleaseVersion {
  import opened Wrappers

  const TWO_64 := 0x1_0000_0000_0000_0000

  type Uint64 = x: int | 0 <= x < TWO_64

  datatype Version = Version(major: Uint64, minor: Uint64, patch: Uint64)

  // ---- Decimal numbers ----

  predicate IsDigit(c: char) { '0' <= c <= '9' }

  function DigitOf(d: nat): char
    requires d < 10
  {
    ('0' as int + d) as char
  }

  function DigitValue(c: char): nat
    requires IsDigit(c)
  {
    c as int - '0' as int
  }

  predicate AllDigits(s: string) { forall i :: 0 <= i < |s| ==> IsDigit(s[i]) }

  function Value(s: string): nat
    requires AllDigits(s)
  {
    if s == "" then 0 else 10 * Value(s[..|s| - 1]) + DigitValue(s[|s| - 1])
  }

  function Decimal(n: nat): string {
    if n < 10 then [DigitOf(n)] else Decimal(n / 10) + [DigitOf(n % 10)]
  }

  /** Canonical decimal: not empty and no leading zero. */
  predicate Canonical(s: string) {
    s != "" && AllDigits(s) && (|s| > 1 ==> s[0] != '0')
  }

  lemma {:induction false} DecimalRoundTrip(n: nat)
    ensures Canonical(Decimal(n)) && Value(Decimal(n)) == n && (n > 0 ==> Decimal(n)[0] != '0')
  {
    if n < 10 {
      assert Decimal(n)[..0] == "" && Value("") == 0;
    } else {
      DecimalRoundTrip(n / 10);
      assert Decimal(n)[..|Decimal(n)| - 1] == Decimal(n / 10);
    }
  }

  lemma {:induction false} PositiveValue(s: string)
    requires s != "" && AllDigits(s) && s[0] != '0'
    ensures Value(s) > 0
  {
    if |s| > 1 {
      PositiveValue(s[..|s| - 1]);
    }
  }

  lemma {:induction false} CanonicalRoundTrip(s: string)
    requires Canonical(s)
    ensures Decimal(Value(s)) == s
  {
    var init, last := s[..|s| - 1], s[|s| - 1];
    if |s| > 1 {
      PositiveValue(init);
      CanonicalRoundTrip(init);
      assert Value(s) / 10 == Value(init) && Value(s) % 10 == DigitValue(last);
      assert DigitOf(DigitValue(last)) == last;
      assert s == init + [last];
    } else {
      assert init == "" && Value(init) == 0 && s == [last];
    }
  }

  // ---- Splitting at dots ----

  function Split(s: string): (parts: seq<string>)
    ensures |parts| >= 1
  {
    if s == "" then [""]
    else
      var rest := Split(s[1..]);
      if s[0] == '.' then [""] + rest else [[s[0]] + rest[0]] + rest[1..]
  }

  function Join(parts: seq<string>): string
    requires |parts| >= 1
  {
    if |parts| == 1 then parts[0] else parts[0] + "." + Join(parts[1..])
  }

  lemma {:induction false} JoinSplit(s: string)
    ensures Join(Split(s)) == s
  {
    if s != "" {
      JoinSplit(s[1..]);
      var rest := Split(s[1..]);
      if s[0] == '.' {
        assert ([""] + rest)[1..] == rest;
      } else if |rest| > 1 {
        assert ([[s[0]] + rest[0]] + rest[1..])[1..] == rest[1..];
      }
    }
  }

  predicate NoDot(s: string) { forall i :: 0 <= i < |s| ==> s[i] != '.' }

  lemma {:induction false} SplitFirst(part: string, rest: string)
    requires NoDot(part)
    ensures Split(part + "." + rest) == [part] + Split(rest)
  {
    var s := part + "." + rest;
    if part == "" {
      assert s[1..] == rest;
    } else {
      SplitFirst(part[1..], rest);
      assert s[1..] == part[1..] + "." + rest;
      assert s[0] == part[0] && [part[0]] + part[1..] == part;
    }
  }

  lemma {:induction false} SplitWhole(part: string)
    requires NoDot(part)
    ensures Split(part) == [part]
  {
    if part != "" {
      SplitWhole(part[1..]);
      assert [part[0]] + part[1..] == part;
    }
  }

  // ---- Parsing and printing ----

  function ParsePart(part: string): Option<Uint64> {
    if !Canonical(part) then None
    else if Value(part) >= TWO_64 then None
    else Some(Value(part))
  }

  function Parse(value: string): Option<Version> {
    if value == "" || value[0] != 'v' || '+' in value || '-' in value then None
    else
      var parts := Split(value[1..]);
      if |parts| != 3 then None
      else
        var major, minor, patch := ParsePart(parts[0]), ParsePart(parts[1]), ParsePart(parts[2]);
        if major.Some? && minor.Some? && patch.Some? then Some(Version(major.value, minor.value, patch.value)) else None
  }

  function Print(v: Version): string {
    "v" + Decimal(v.major) + "." + Decimal(v.minor) + "." + Decimal(v.patch)
  }

  method ParseVersion(value: string) returns (result: Option<Version>)
    ensures result == Parse(value)
  {
    if |value| < 1 || value[0] != 'v' {
      return None;
    }
    if '+' in value || '-' in value {
      return None;
    }
    var parts := Split(value[1..]);
    if |parts| != 3 {
      return None;
    }
    var values: seq<Uint64> := [];
    for index := 0 to 3
      invariant |values| == index
      invariant forall j :: 0 <= j < index ==> ParsePart(parts[j]) == Some(values[j])
    {
      var part := parts[index];
      if part == "" || (|part| > 1 && part[0] == '0') {
        return None;
      }
      for i := 0 to |part|
        invariant AllDigits(part[..i])
      {
        if part[i] < '0' || part[i] > '9' {
          assert !IsDigit(part[i]);
          return None;
        }
      }
      assert part[..|part|] == part;
      var parsed := Value(part);
      if parsed >= TWO_64 {
        return None;
      }
      values := values + [parsed];
    }
    return Some(Version(values[0], values[1], values[2]));
  }

  lemma {:induction false} ComponentParses(n: Uint64)
    ensures ParsePart(Decimal(n)) == Some(n) && NoDot(Decimal(n))
    ensures '+' !in Decimal(n) && '-' !in Decimal(n)
  {
    DecimalRoundTrip(n);
    assert forall c :: c in Decimal(n) ==> IsDigit(c);
  }

  lemma {:induction false} SplitThree(a: string, b: string, c: string)
    requires NoDot(a) && NoDot(b) && NoDot(c)
    ensures Split(a + "." + b + "." + c) == [a, b, c]
  {
    assert a + "." + b + "." + c == a + "." + (b + "." + c);
    SplitFirst(a, b + "." + c);
    SplitFirst(b, c);
    SplitWhole(c);
  }

  /** Every version, up to the 64-bit bound in each component, parses back from its printed form. */
  lemma {:induction false} PrintedParses(v: Version)
    ensures Parse(Print(v)) == Some(v)
  {
    var a, b, c := Decimal(v.major), Decimal(v.minor), Decimal(v.patch);
    ComponentParses(v.major);
    ComponentParses(v.minor);
    ComponentParses(v.patch);
    SplitThree(a, b, c);
    var rest := a + "." + b + "." + c;
    NoSign(a, b, c);
    assert Print(v) == "v" + rest && Print(v)[1..] == rest;
  }

  lemma {:induction false} NoSign(a: string, b: string, c: string)
    requires forall s :: s in [a, b, c] ==> '+' !in s && '-' !in s
    ensures var s := "v" + a + "." + b + "." + c;
            '+' !in s && '-' !in s
  {
  }

  lemma {:induction false} PartPrints(part: string, n: Uint64)
    requires ParsePart(part) == Some(n)
    ensures part == Decimal(n)
  {
    CanonicalRoundTrip(part);
  }

  lemma {:induction false} JoinThree(parts: seq<string>)
    requires |parts| == 3
    ensures Join(parts) == parts[0] + "." + parts[1] + "." + parts[2]
  {
    assert Join(parts[1..]) == parts[1] + "." + Join(parts[1..][1..]);
    assert Join(parts[1..][1..]) == parts[2];
  }

  /** Only canonical text is accepted: parsing succeeds with v exactly on the printed form of v. */
  lemma {:induction false} ParsesIffPrinted(value: string, v: Version)
    ensures Parse(value) == Some(v) <==> value == Print(v)
  {
    PrintedParses(v);
    if Parse(value) == Some(v) {
      ParsedPrints(value, v);
    }
  }

  lemma {:induction false} ParsedPrints(value: string, v: Version)
    requires Parse(value) == Some(v)
    ensures value == Print(v)
  {
    var parts := Split(value[1..]);
    JoinSplit(value[1..]);
    JoinThree(parts);
    PartPrints(parts[0], v.major);
    PartPrints(parts[1], v.minor);
    PartPrints(parts[2], v.patch);
    assert value == "v" + value[1..];
  }

  // ---- Order ----

  method Compare(v: Version, other: Version) returns (r: int)
    ensures r == Order(v, other)
  {
    var pairs := [(v.major, other.major), (v.minor, other.minor), (v.patch, other.patch)];
    for i := 0 to 3
      invariant forall j :: 0 <= j < i ==> pairs[j].0 == pairs[j].1
    {
      assert pairs[0] == (v.major, other.major) && pairs[1] == (v.minor, other.minor);
      if pairs[i].0 < pairs[i].1 {
        return -1;
      }
      if pairs[i].0 > pairs[i].1 {
        return 1;
      }
    }
    assert pairs[0] == (v.major, other.major) && pairs[1] == (v.minor, other.minor);
    assert pairs[2] == (v.patch, other.patch);
    return 0;
  }

  /** The position of a version among all versions. */
  function Weight(v: Version): nat {
    (v.major * TWO_64 + v.minor) * TWO_64 + v.patch
  }

  function Order(v: Version, other: Version): int {
    if v.major != other.major then (if v.major < other.major then -1 else 1)
    else if v.minor != other.minor then (if v.minor < other.minor then -1 else 1)
    else if v.patch != other.patch then (if v.patch < other.patch then -1 else 1)
    else 0
  }

  /** The comparison is the order of one number per version: total, transitive, antisymmetric, and zero
      only between equal versions. */
  lemma {:induction false} OrderIsWeight(v: Version, other: Version)
    ensures Order(v, other) < 0 <==> Weight(v) < Weight(other)
    ensures Order(v, other) == 0 <==> v == other
    ensures Order(v, other) == -Order(other, v)
    ensures v != other ==> Weight(v) != Weight(other)
  {
    var a, b := v.major * TWO_64 + v.minor, other.major * TWO_64 + other.minor;
    assert v.major < other.major ==> a < b;
    assert v.major > other.major ==> a > b;
  }
}
