/** The errors that the IBAN check catches: MOD 97-10 detects every single substitution and neighbouring swap. */
module IbanErrors {
  import opened Iban
  import opened Text

  predicate SameClass(x: char, y: char) {
    (Digit(x) && Digit(y)) || (Letter(x) && Letter(y))
  }

  // ----- arithmetic modulo 97 -----

  function Scale(s: string): nat {
    if s == "" then 1 else Scale(s[..|s| - 1]) * Base(s[|s| - 1])
  }

  lemma {:induction false} ValueConcat(s: string, t: string)
    requires AllAlphanumeric(s) && AllAlphanumeric(t)
    ensures AllAlphanumeric(s + t) && Value(s + t) == Value(s) * Scale(t) + Value(t)
    decreases |t|
  {
    if t == "" {
      assert s + t == s;
    } else {
      var n := |t| - 1;
      ValueConcat(s, t[..n]);
      assert (s + t)[..|s + t| - 1] == s + t[..n];
      Distribute(Value(s), Scale(t[..n]), Value(t[..n]), Base(t[n]));
    }
  }

  lemma Distribute(a: int, b: int, c: int, d: int)
    ensures (a * b + c) * d == a * (b * d) + c * d
  {
  }

  /** A factor with an inverse modulo 97 cancels. */
  lemma FactorCancels(f: int, inverse: int, k: int, y: int)
    requires f * inverse == 97 * k + 1 && (f * y) % 97 == 0
    ensures y % 97 == 0
  {
    var q := (f * y) / 97;
    assert f * y == 97 * q;
    assert inverse * (f * y) == (f * inverse) * y;
    assert (97 * k + 1) * y == 97 * (k * y) + y;
    assert inverse * (97 * q) == 97 * (inverse * q);
    assert y == 97 * (inverse * q - k * y);
    MultiplesVanish(0, inverse * q - k * y);
  }

  /** 97 is prime to every power of ten. */
  lemma {:induction false} ScaleCancels(d: int, t: string)
    requires (d * Scale(t)) % 97 == 0
    ensures d % 97 == 0
    decreases |t|
  {
    if t != "" {
      var n := |t| - 1;
      var y := d * Scale(t[..n]);
      assert d * Scale(t) == Base(t[n]) * y by {
        assert d * (Scale(t[..n]) * Base(t[n])) == (d * Scale(t[..n])) * Base(t[n]);
      }
      if Base(t[n]) == 100 {
        FactorCancels(10, 68, 7, 10 * y);
      }
      FactorCancels(10, 68, 7, y);
      ScaleCancels(d, t[..n]);
    }
  }

  /** Equal remainders after a common continuation come from equal remainders before it. */
  lemma ContinuationCancels(a: int, b: int, t: string, v: int)
    requires (a * Scale(t) + v) % 97 == (b * Scale(t) + v) % 97
    ensures (a - b) % 97 == 0
  {
    assert (a * Scale(t) + v) - (b * Scale(t) + v) == (a - b) * Scale(t);
    DifferenceVanishes(a * Scale(t) + v, b * Scale(t) + v);
    ScaleCancels(a - b, t);
  }

  lemma DifferenceVanishes(a: int, b: int)
    requires a % 97 == b % 97
    ensures (a - b) % 97 == 0
  {
  }

  // ----- one character changed -----

  lemma ValueAround(p: string, x: char, t: string)
    requires AllAlphanumeric(p) && Alphanumeric(x) && AllAlphanumeric(t)
    ensures AllAlphanumeric(p + [x] + t)
    ensures Value(p + [x] + t) == (Value(p) * Base(x) + Code(x)) * Scale(t) + Value(t)
  {
    assert (p + [x])[..|p|] == p;
    ValueConcat(p + [x], t);
  }

  /** Replacing one character by another of its kind changes the remainder. */
  lemma SubstitutionChangesRemainder(p: string, x: char, y: char, t: string)
    requires AllAlphanumeric(p) && AllAlphanumeric(t) && SameClass(x, y) && x != y
    ensures AllAlphanumeric(p + [x] + t) && AllAlphanumeric(p + [y] + t)
    ensures Value(p + [x] + t) % 97 != Value(p + [y] + t) % 97
  {
    ValueAround(p, x, t);
    ValueAround(p, y, t);
    CodesDiffer(x, y);
    CloseValuesDiffer(Value(p) * Base(x) + Code(x), Value(p) * Base(y) + Code(y), t, Value(t));
  }

  lemma CodesDiffer(x: char, y: char)
    requires SameClass(x, y) && x != y
    ensures Base(x) == Base(y) && -36 < Code(x) - Code(y) < 36 && Code(x) != Code(y)
  {
  }

  /** Two nearby values stay distinguishable after a common continuation. */
  lemma CloseValuesDiffer(a: int, b: int, t: string, v: int)
    requires -36 < a - b < 36 && a != b
    ensures (a * Scale(t) + v) % 97 != (b * Scale(t) + v) % 97
  {
    if (a * Scale(t) + v) % 97 == (b * Scale(t) + v) % 97 {
      ContinuationCancels(a, b, t, v);
      SmallDifference(a - b);
    }
  }

  lemma SmallDifference(d: int)
    requires -36 < d < 36 && d % 97 == 0
    ensures d == 0
  {
  }

  // ----- two neighbours swapped -----

  lemma ValueOfPair(x: char, y: char)
    requires Alphanumeric(x) && Alphanumeric(y)
    ensures Value([x, y]) == Code(x) * Base(y) + Code(y) && Scale([x, y]) == Base(x) * Base(y)
  {
    assert [x, y][..1] == [x] && [x][..0] == [];
    assert Value([x]) == Value([x][..0]) * Base(x) + Code(x) && Scale([x]) == Scale([x][..0]) * Base(x);
    assert Value([x, y]) == Value([x]) * Base(y) + Code(y) && Scale([x, y]) == Scale([x]) * Base(y);
  }

  /** Swapping two different neighbours of one kind changes the remainder. */
  lemma SwapChangesRemainder(p: string, x: char, y: char, t: string)
    requires AllAlphanumeric(p) && AllAlphanumeric(t) && SameClass(x, y) && x != y
    ensures AllAlphanumeric(p + [x, y] + t) && AllAlphanumeric(p + [y, x] + t)
    ensures Value(p + [x, y] + t) % 97 != Value(p + [y, x] + t) % 97
  {
    CodesDiffer(x, y);
    ValueAroundPair(p, x, y, t, Base(x));
    ValueAroundPair(p, y, x, t, Base(x));
    SwappedValuesDiffer(Value(p), Code(x), Code(y), Base(x), t, Value(t));
  }

  /** The number written by a prefix of value `p`, two characters of one base and a continuation of value `v`. */
  function Around(p: int, x: int, y: int, base: int, t: string, v: int): int {
    (p * (base * base) + x * base + y) * Scale(t) + v
  }

  lemma SwappedValuesDiffer(p: int, x: int, y: int, base: int, t: string, v: int)
    requires (base == 10 || base == 100) && -36 < x - y < 36 && x != y
    ensures Around(p, x, y, base, t, v) % 97 != Around(p, y, x, base, t, v) % 97
  {
    var a, b := p * (base * base) + x * base + y, p * (base * base) + y * base + x;
    if Around(p, x, y, base, t, v) % 97 == Around(p, y, x, base, t, v) % 97 {
      ContinuationCancels(a, b, t, v);
      assert a - b == (base - 1) * (x - y);
      NineAndNinetyNine(x - y, base - 1);
    }
  }

  lemma ValueAroundPair(p: string, x: char, y: char, t: string, base: int)
    requires AllAlphanumeric(p) && SameClass(x, y) && AllAlphanumeric(t) && base == Base(x)
    ensures AllAlphanumeric(p + [x, y] + t)
    ensures Value(p + [x, y] + t) == Around(Value(p), Code(x), Code(y), base, t, Value(t))
  {
    ValueOfSwap(p, x, y);
    ValueConcat(p + [x, y], t);
  }

  lemma ValueOfSwap(p: string, x: char, y: char)
    requires AllAlphanumeric(p) && SameClass(x, y)
    ensures AllAlphanumeric(p + [x, y])
    ensures Value(p + [x, y]) == Value(p) * (Base(x) * Base(x)) + Code(x) * Base(x) + Code(y)
  {
    ValueConcat(p, [x, y]);
    ValueOfPair(x, y);
  }

  lemma NineAndNinetyNine(d: int, f: int)
    requires (f == 9 || f == 99) && -36 < d < 36 && (f * d) % 97 == 0
    ensures d == 0
  {
    if f == 9 {
      FactorCancels(9, 54, 5, d);
    } else {
      FactorCancels(99, 49, 50, d);
    }
  }

  // ----- on IBANs -----

  lemma StaysShaped(c: string, i: nat, y: char)
    requires Shaped(c) && i < |c| && SameClass(c[i], y)
    ensures Shaped(c[i := y])
  {
  }

  lemma AcceptedMeans(c: string)
    requires Judge(c) == Accepted
    ensures Shaped(c) && Value(Rearranged(c)) % 97 == 1
  {
  }

  lemma OtherRemainderIsRejected(c: string)
    requires Shaped(c) && Value(Rearranged(c)) % 97 != 1
    ensures Judge(c) == Rejected
  {
  }

  function Moved(c: string, i: nat): nat
    requires i < |c| && 4 <= |c|
  {
    if i < 4 then |c| - 4 + i else i - 4
  }

  lemma MovedCharacter(c: string, i: nat, x: char)
    requires 4 <= |c| && i < |c|
    ensures Rearranged(c)[Moved(c, i)] == c[i] && Rearranged(c[i := x]) == Rearranged(c)[Moved(c, i) := x]
  {
  }

  lemma SplitAt(r: string, k: nat, x: char)
    requires k < |r|
    ensures r == r[..k] + [r[k]] + r[k + 1..] && r[k := x] == r[..k] + [x] + r[k + 1..]
  {
  }

  lemma SubstitutedRemainder(r: string, k: nat, x: char)
    requires AllAlphanumeric(r) && k < |r| && SameClass(r[k], x) && r[k] != x
    ensures AllAlphanumeric(r[k := x]) && Value(r[k := x]) % 97 != Value(r) % 97
  {
    SplitAt(r, k, x);
    SubstitutionChangesRemainder(r[..k], r[k], x, r[k + 1..]);
  }

  lemma SubstitutionShows(c: string, d: string, i: nat)
    requires Shaped(c) && i < |c| == |d| && d == c[i := d[i]] && SameClass(c[i], d[i]) && c[i] != d[i]
    ensures Shaped(d) && Value(Rearranged(d)) % 97 != Value(Rearranged(c)) % 97
  {
    StaysShaped(c, i, d[i]);
    MovedCharacter(c, i, d[i]);
    SubstitutedRemainder(Rearranged(c), Moved(c, i), d[i]);
  }

  /** An accepted IBAN in which one digit is replaced by another digit, or one letter by another letter, is rejected. */
  lemma {:induction false} SubstitutionsAreDetected(iban: string, other: string, i: nat)
    requires VerdictOf(iban) == Accepted && i < |Clean(iban)|
    requires |Clean(other)| == |Clean(iban)| && Clean(other) == Clean(iban)[i := Clean(other)[i]]
    requires SameClass(Clean(iban)[i], Clean(other)[i]) && Clean(iban)[i] != Clean(other)[i]
    ensures VerdictOf(other) == Rejected
  {
    AcceptedMeans(Clean(iban));
    SubstitutionShows(Clean(iban), Clean(other), i);
    OtherRemainderIsRejected(Clean(other));
  }

  predicate SwappedAt(c: string, d: string, i: nat)
    requires i + 1 < |c|
  {
    d == c[i := c[i + 1]][i + 1 := c[i]]
  }

  lemma SplitAtPair(r: string, k: nat)
    requires k + 1 < |r|
    ensures r == r[..k] + [r[k], r[k + 1]] + r[k + 2..]
    ensures r[k := r[k + 1]][k + 1 := r[k]] == r[..k] + [r[k + 1], r[k]] + r[k + 2..]
  {
  }

  lemma SwappedRemainder(r: string, k: nat)
    requires AllAlphanumeric(r) && k + 1 < |r| && SameClass(r[k], r[k + 1]) && r[k] != r[k + 1]
    ensures
      var swapped := r[k := r[k + 1]][k + 1 := r[k]];
      AllAlphanumeric(swapped) && Value(swapped) % 97 != Value(r) % 97
  {
    SplitAtPair(r, k);
    SwapChangesRemainder(r[..k], r[k], r[k + 1], r[k + 2..]);
  }

  lemma SwapShows(c: string, d: string, i: nat)
    requires Shaped(c) && i + 1 < |c| && i != 3 && SwappedAt(c, d, i) && SameClass(c[i], c[i + 1]) && c[i] != c[i + 1]
    ensures Shaped(d) && Value(Rearranged(d)) % 97 != Value(Rearranged(c)) % 97
  {
    StaysShaped(c, i, c[i + 1]);
    StaysShaped(c[i := c[i + 1]], i + 1, c[i]);
    MovedCharacter(c, i, c[i + 1]);
    MovedCharacter(c[i := c[i + 1]], i + 1, c[i]);
    MovedCharacter(c, i + 1, c[i]);
    SwappedRemainder(Rearranged(c), Moved(c, i));
  }

  // ----- the last check digit swapped with the first character of the account part -----

  function Power(n: nat): nat {
    if n == 0 then 1 else 10 * Power(n - 1)
  }

  /** The remainders of the powers 10^0, 10^8, ..., 10^64. */
  function Giant(a: nat): nat {
    match a
    case 0 => 1
    case 1 => 81
    case 2 => 62
    case 3 => 75
    case 4 => 61
    case 5 => 91
    case 6 => 96
    case 7 => 16
    case _ => 35
  }

  /** The powers 10^0 to 10^7. */
  function Baby(b: nat): nat {
    match b
    case 0 => 1
    case 1 => 10
    case 2 => 100
    case 3 => 1000
    case 4 => 10000
    case 5 => 100000
    case 6 => 1000000
    case _ => 10000000
  }

  lemma GiantStep(a: nat)
    requires a < 8
    ensures Giant(a + 1) == (81 * Giant(a)) % 97
  {
  }

  lemma {:induction false} PowerSplits(a: nat, b: nat)
    requires b <= 7
    ensures Power(a + b) == Power(a) * Baby(b)
    decreases b
  {
    if b > 0 {
      PowerSplits(a, b - 1);
    }
  }

  lemma {:induction false} GiantPowers(a: nat)
    requires a <= 8
    ensures Power(8 * a) % 97 == Giant(a)
    decreases a
  {
    if a > 0 {
      var x := Power(8 * (a - 1));
      GiantPowers(a - 1);
      PowerSplits(8 * (a - 1), 7);
      assert Power(8 * a) == 10 * Power(8 * (a - 1) + 7);
      GiantStep(a - 1);
      MultiplesVanish(81 * x, 1030927 * x);
      ProductOfRemainders(x, 81);
    }
  }

  lemma ProductOfRemainders(x: nat, k: nat)
    ensures (k * x) % 97 == (k * (x % 97)) % 97
  {
    assert k * x == k * (x % 97) + 97 * (k * (x / 97));
    MultiplesVanish(k * (x % 97), k * (x / 97));
  }

  lemma NeverOne(a: nat, b: nat)
    requires a <= 8 && b <= 7 && a + b > 0
    ensures (Baby(b) * Giant(a)) % 97 != 1
  {
  }

  /** None of the powers 10^1, ..., 10^71 leaves remainder one. */
  lemma PowersAvoidOne(n: nat)
    requires 0 < n < 72
    ensures Power(n) % 97 != 1
  {
    var a, b := n / 8, n % 8;
    PowerSplits(8 * a, b);
    GiantPowers(a);
    ProductOfRemainders(Power(8 * a), Baby(b));
    NeverOne(a, b);
  }

  /** How many decimal digits a string expands to. */
  function Width(s: string): nat {
    if s == "" then 0 else Width(s[..|s| - 1]) + if Digit(s[|s| - 1]) then 1 else 2
  }

  lemma {:induction false} ScaleIsAPower(s: string)
    ensures Scale(s) == Power(Width(s))
    ensures |s| <= Width(s) <= 2 * |s|
    decreases |s|
  {
    if s != "" {
      ScaleIsAPower(s[..|s| - 1]);
    }
  }

  lemma MultiplesVanish(x: int, k: int)
    ensures (x + 97 * k) % 97 == x % 97
  {
  }

  /** A nonzero single digit has an inverse modulo 97. */
  lemma DigitCancels(d: int, m: int)
    requires -10 < d < 10 && d != 0 && (d * m) % 97 == 0
    ensures m % 97 == 0
  {
    if d < 0 {
      assert (-d * m) == -(d * m);
      PositiveDigitCancels(-d, m);
    } else {
      PositiveDigitCancels(d, m);
    }
  }

  lemma PositiveDigitCancels(d: int, m: int)
    requires 0 < d < 10 && (d * m) % 97 == 0
    ensures m % 97 == 0
  {
    match d
    case 1 => FactorCancels(1, 1, 0, m);
    case 2 => FactorCancels(2, 49, 1, m);
    case 3 => FactorCancels(3, 65, 2, m);
    case 4 => FactorCancels(4, 73, 3, m);
    case 5 => FactorCancels(5, 39, 2, m);
    case 6 => FactorCancels(6, 81, 5, m);
    case 7 => FactorCancels(7, 14, 1, m);
    case 8 => FactorCancels(8, 85, 7, m);
    case 9 => FactorCancels(9, 54, 5, m);
    case _ =>
  }

  lemma EdgeSwapShows(c: string, d: string)
    requires Shaped(c) && SwappedAt(c, d, 3) && SameClass(c[3], c[4]) && c[3] != c[4]
    ensures Shaped(d) && Value(Rearranged(d)) % 97 != Value(Rearranged(c)) % 97
  {
    StaysShaped(c, 3, c[4]);
    StaysShaped(c[3 := c[4]], 4, c[3]);
    var middle := c[5..] + c[..3];
    assert Rearranged(c) == [c[4]] + (middle + [c[3]]);
    assert Rearranged(d) == [c[3]] + (middle + [c[4]]);
    EdgeSwapChangesRemainder(middle, c[4], c[3]);
  }

  lemma ValueOfOne(x: char)
    requires Alphanumeric(x)
    ensures Value([x]) == Code(x) && Scale([x]) == Base(x)
  {
    assert [x][..0] == "";
    assert Value([x]) == Value([x][..0]) * Base(x) + Code(x) && Scale([x]) == Scale([x][..0]) * Base(x);
  }

  lemma ValueBetween(x: char, middle: string, y: char)
    requires AllAlphanumeric(middle) && Digit(x) && Digit(y)
    ensures AllAlphanumeric([x] + (middle + [y]))
    ensures Value([x] + (middle + [y])) == Code(x) * Scale(middle + ['0']) + Value(middle) * 10 + Code(y)
  {
    ValueConcat([x], middle + [y]);
    ValueOfOne(x);
    assert (middle + [y])[..|middle|] == middle && (middle + ['0'])[..|middle|] == middle;
  }

  lemma EdgeSwapChangesRemainder(middle: string, x: char, y: char)
    requires AllAlphanumeric(middle) && 0 < |middle| <= 32 && Digit(x) && Digit(y) && x != y
    ensures AllAlphanumeric([x] + (middle + [y])) && AllAlphanumeric([y] + (middle + [x]))
    ensures Value([x] + (middle + [y])) % 97 != Value([y] + (middle + [x])) % 97
  {
    ValueBetween(x, middle, y);
    ValueBetween(y, middle, x);
    EndsDiffer(x, y, Scale(middle + ['0']), Value(middle) * 10) by {
      ScaleIsNotOne(middle + ['0']);
    }
  }

  lemma EndsDiffer(x: char, y: char, scale: int, v: int)
    requires Digit(x) && Digit(y) && x != y && scale % 97 != 1
    ensures (Code(x) * scale + v + Code(y)) % 97 != (Code(y) * scale + v + Code(x)) % 97
  {
    DigitsDiffer(x, y);
    SwappedEnds(Code(x), Code(y), scale, v);
  }

  lemma DigitsDiffer(x: char, y: char)
    requires Digit(x) && Digit(y) && x != y
    ensures -10 < Code(x) - Code(y) < 10 && Code(x) != Code(y)
  {
  }

  lemma SwappedEnds(a: int, b: int, scale: int, v: int)
    requires -10 < a - b < 10 && a != b && scale % 97 != 1
    ensures (a * scale + v + b) % 97 != (b * scale + v + a) % 97
  {
    if (a * scale + v + b) % 97 == (b * scale + v + a) % 97 {
      DifferenceVanishes(a * scale + v + b, b * scale + v + a);
      assert (a * scale + v + b) - (b * scale + v + a) == (a - b) * (scale - 1);
      DigitCancels(a - b, scale - 1);
      OneBelow(scale);
    }
  }

  lemma OneBelow(m: int)
    requires (m - 1) % 97 == 0
    ensures m % 97 == 1
  {
  }

  lemma ScaleIsNotOne(s: string)
    requires 0 < |s| <= 33
    ensures Scale(s) % 97 != 1
  {
    ScaleIsAPower(s);
    PowersAvoidOne(Width(s));
  }

  /** An accepted IBAN in which two different neighbouring digits, or two different neighbouring letters, change
      places is rejected, wherever they stand. */
  lemma SwapsAreDetected(iban: string, other: string, i: nat)
    requires VerdictOf(iban) == Accepted && i + 1 < |Clean(iban)|
    requires SwappedAt(Clean(iban), Clean(other), i)
    requires SameClass(Clean(iban)[i], Clean(iban)[i + 1]) && Clean(iban)[i] != Clean(iban)[i + 1]
    ensures VerdictOf(other) == Rejected
  {
    AcceptedMeans(Clean(iban));
    if i == 3 {
      EdgeSwapShows(Clean(iban), Clean(other));
    } else {
      SwapShows(Clean(iban), Clean(other), i);
    }
    OtherRemainderIsRejected(Clean(other));
  }

  // ----- check digits -----

  /** An IBAN put together from its country, check value and account part. */
  function Assembled(country: string, check: nat, bban: string): string
    requires check < 100
  {
    country + CheckDigits(check) + bban
  }

  function CheckDigits(check: nat): (r: string)
    requires check < 100
    ensures |r| == 2
  {
    ['0' + (check / 10) as char, '0' + (check % 10) as char]
  }

  lemma CheckDigitsValue(check: nat)
    requires check < 100
    ensures AllAlphanumeric(CheckDigits(check)) && Value(CheckDigits(check)) == check
            && Scale(CheckDigits(check)) == 100
  {
    ValueOfPair(CheckDigits(check)[0], CheckDigits(check)[1]);
  }

  predicate KnownBban(country: string, bban: string) {
    |country| == 2 && StructureOf(country).Some? && FitsTemplate(bban, Template(StructureOf(country).value.positions))
  }

  lemma CountryLetters(country: string)
    requires |country| == 2 && StructureOf(country).Some?
    ensures Letter(country[0]) && Letter(country[1])
    ensures 5 <= StructureOf(country).value.length <= 34
  {
  }

  lemma AssembledIsShaped(country: string, check: nat, bban: string)
    requires KnownBban(country, bban) && check < 100
    ensures var c := Assembled(country, check, bban);
            Shaped(c) && WellFormed(c) && AllAlphanumeric(bban + country)
  {
    CountryLetters(country);
    LengthsAgree(country);
    var c := Assembled(country, check, bban);
    assert c[..2] == country && c[4..] == bban;
    forall i | 0 <= i < |bban|
      ensures Alphanumeric(bban[i])
    {
      assert Fits(bban[i], Template(StructureOf(country).value.positions)[i]);
    }
  }

  lemma AssembledValue(country: string, check: nat, bban: string)
    requires |country| == 2 && check < 100 && AllAlphanumeric(bban + country)
    ensures AllAlphanumeric(Rearranged(Assembled(country, check, bban)))
    ensures Value(Rearranged(Assembled(country, check, bban))) == Value(bban + country) * 100 + check
  {
    var c := Assembled(country, check, bban);
    assert c[4..] == bban && c[..4] == country + CheckDigits(check);
    assert Rearranged(c) == bban + country + CheckDigits(check);
    CheckDigitsValue(check);
    ValueConcat(bban + country, CheckDigits(check));
  }

  lemma AssembledIsIban(country: string, check: nat, bban: string)
    requires KnownBban(country, bban) && check < 100
    ensures AllAlphanumeric(bban + country)
    ensures IsIban(Assembled(country, check, bban)) <==> (Value(bban + country) * 100 + check) % 97 == 1
  {
    AssembledIsShaped(country, check, bban);
    AssembledValue(country, check, bban);
  }

  lemma AlphanumericStays(c: char)
    requires Alphanumeric(c)
    ensures UpperOf(c) == [c] && c != ' '
  {
  }

  lemma {:induction false} CleanIsIdempotent(s: string)
    requires AllAlphanumeric(s)
    ensures Clean(s) == s
    decreases |s|
  {
    if s != "" {
      var n := |s| - 1;
      AlphanumericStays(s[n]);
      CleanIsIdempotent(s[..n]);
      assert Clean(s) == Clean(s[..n]) + [s[n]];
    }
  }

  predicate Accepts(country: string, check: nat, bban: string) {
    check < 100 && VerdictOf(Assembled(country, check, bban)) == Accepted
  }

  /** The check values with which an account part is accepted. */
  ghost function AcceptedChecks(country: string, bban: string): iset<nat> {
    iset v: nat | Accepts(country, v, bban)
  }

  /** `check` is the only one of `values` from 02 to 98, and all of them are congruent to it. */
  ghost predicate OnlyCheck(values: iset<nat>, check: nat) {
    && 2 <= check <= 98
    && (forall v: nat :: v < 100 ==> (v in values <==> v % 97 == check % 97))
    && (forall v: nat :: 2 <= v <= 98 ==> (v in values <==> v == check))
  }

  lemma CongruentValues(values: iset<nat>, n: nat) returns (check: nat)
    requires forall v: nat :: v < 100 ==> (v in values <==> (n + v) % 97 == 1)
    ensures OnlyCheck(values, check)
  {
    check := 98 - n % 97;
    forall v: nat | v < 100
      ensures v in values <==> v % 97 == check % 97
    {
      RemainderDecides(n, v, check);
    }
  }

  /** For every country of the table and well-formed account part exactly one check value from 02 to 98 is accepted;
      the values accepted in all are those congruent to it. */
  lemma ExactlyOneCheckValue(country: string, bban: string) returns (check: nat)
    requires KnownBban(country, bban)
    ensures OnlyCheck(AcceptedChecks(country, bban), check)
  {
    KnownIsAlphanumeric(country, bban);
    forall v: nat | v < 100
      ensures v in AcceptedChecks(country, bban) <==> (Value(bban + country) * 100 + v) % 97 == 1
    {
      AcceptsExactly(country, v, bban);
    }
    check := CongruentValues(AcceptedChecks(country, bban), Value(bban + country) * 100);
  }

  lemma KnownIsAlphanumeric(country: string, bban: string)
    requires KnownBban(country, bban)
    ensures AllAlphanumeric(bban + country)
  {
    AssembledIsShaped(country, 0, bban);
  }

  lemma AcceptsExactly(country: string, check: nat, bban: string)
    requires KnownBban(country, bban) && check < 100 && AllAlphanumeric(bban + country)
    ensures Accepts(country, check, bban) <==> (Value(bban + country) * 100 + check) % 97 == 1
  {
    AssembledIsIban(country, check, bban);
    AcceptedWhenIban(country, check, bban);
  }

  lemma AcceptedWhenIban(country: string, check: nat, bban: string)
    requires KnownBban(country, bban) && check < 100
    ensures VerdictOf(Assembled(country, check, bban)) == Accepted <==> IsIban(Assembled(country, check, bban))
  {
    AssembledIsClean(country, check, bban);
  }

  lemma AssembledIsClean(country: string, check: nat, bban: string)
    requires KnownBban(country, bban) && check < 100
    ensures Clean(Assembled(country, check, bban)) == Assembled(country, check, bban)
  {
    CountryLetters(country);
    forall i | 0 <= i < |bban|
      ensures Alphanumeric(bban[i])
    {
      assert Fits(bban[i], Template(StructureOf(country).value.positions)[i]);
    }
    CleanIsIdempotent(Assembled(country, check, bban));
  }

  lemma RemainderDecides(a: nat, v: nat, check: nat)
    requires check == 98 - a % 97
    ensures (a + v) % 97 == 1 <==> v % 97 == check % 97
  {
  }
}
