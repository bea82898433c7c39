/** IBAN validation: the check over the expanded number, the structure table, and the errors the check catches. */
module Iban {
  import opened Results
  import opened Text

  // ----- cleaning and shape -----

  /** Spaces dropped, letters in upper case. */
  function Clean(s: string): string {
    if s == "" then ""
    else
      var n := |s| - 1;
      Clean(s[..n]) + if s[n] == ' ' then "" else UpperOf(s[n])
  }

  predicate Digit(c: char) {
    '0' <= c <= '9'
  }

  predicate Letter(c: char) {
    'A' <= c <= 'Z'
  }

  predicate Alphanumeric(c: char) {
    Digit(c) || Letter(c)
  }

  /** Two letters, two digits, one to thirty letters or digits. */
  predicate Shaped(c: string) {
    && 5 <= |c| <= 34
    && Letter(c[0]) && Letter(c[1]) && Digit(c[2]) && Digit(c[3])
    && forall i :: 4 <= i < |c| ==> Alphanumeric(c[i])
  }

  /** The pattern's end anchor also matches before a final line break. */
  predicate Matches(c: string) {
    Shaped(c) || (c != "" && c[|c| - 1] == '\n' && Shaped(c[..|c| - 1]))
  }

  // ----- the number behind an IBAN -----

  function Code(c: char): nat
    requires Alphanumeric(c)
  {
    if Digit(c) then (c - '0') as nat else (c - 'A') as nat + 10
  }

  predicate AllAlphanumeric(s: string) {
    forall i :: 0 <= i < |s| ==> Alphanumeric(s[i])
  }

  /** A letter becomes two decimal digits. */
  function Base(c: char): nat {
    if Digit(c) then 10 else 100
  }

  /** The number that the expanded string writes in decimal. */
  function Value(s: string): nat
    requires AllAlphanumeric(s)
  {
    if s == "" then 0
    else
      var n := |s| - 1;
      Value(s[..n]) * Base(s[n]) + Code(s[n])
  }

  function Digits(n: nat): string
    requires n < 100
  {
    if n < 10 then ['0' + n as char] else ['0' + (n / 10) as char, '0' + (n % 10) as char]
  }

  predicate AllDigits(s: string) {
    forall i :: 0 <= i < |s| ==> Digit(s[i])
  }

  function Decimal(s: string): nat
    requires AllDigits(s)
  {
    if s == "" then 0 else Decimal(s[..|s| - 1]) * 10 + (s[|s| - 1] - '0') as nat
  }

  function Rearranged(c: string): string
    requires |c| >= 4
  {
    c[4..] + c[..4]
  }

  // ----- the structure table -----

  datatype CharClass = Numeric | AnyAlphanumeric
  datatype Segment = Segment(length: nat, kind: CharClass)
  datatype Structure = Structure(length: nat, positions: seq<Segment>)

  function StructureOf(country: string): Option<Structure> {
    match country
    case "DE" => Some(Structure(22, [Segment(8, Numeric), Segment(10, Numeric)]))
    case "FR" => Some(Structure(27, [Segment(5, Numeric), Segment(5, Numeric), Segment(11, AnyAlphanumeric),
                                     Segment(2, Numeric)]))
    case "IT" => Some(Structure(27, [Segment(1, AnyAlphanumeric), Segment(5, Numeric), Segment(5, Numeric),
                                     Segment(12, AnyAlphanumeric)]))
    case "GB" => Some(Structure(22, [Segment(4, AnyAlphanumeric), Segment(6, Numeric), Segment(8, Numeric)]))
    case "BE" => Some(Structure(16, [Segment(3, Numeric), Segment(7, Numeric), Segment(2, Numeric)]))
    case "NL" => Some(Structure(18, [Segment(4, AnyAlphanumeric), Segment(10, Numeric)]))
    case "ES" => Some(Structure(24, [Segment(4, Numeric), Segment(4, Numeric), Segment(2, Numeric),
                                     Segment(10, Numeric)]))
    case "CH" => Some(Structure(21, [Segment(5, Numeric), Segment(12, AnyAlphanumeric)]))
    case "AT" => Some(Structure(20, [Segment(5, Numeric), Segment(11, Numeric)]))
    case _ => None
  }

  predicate Fits(c: char, kind: CharClass) {
    if kind.Numeric? then Digit(c) else Alphanumeric(c)
  }

  /** The character class of every position of the account part. */
  function Template(positions: seq<Segment>): seq<CharClass> {
    if positions == [] then []
    else
      var n := |positions| - 1;
      Template(positions[..n]) + seq(positions[n].length, _ => positions[n].kind)
  }

  predicate FitsTemplate(bban: string, template: seq<CharClass>) {
    |bban| == |template| && forall i :: 0 <= i < |bban| ==> Fits(bban[i], template[i])
  }

  predicate WellFormed(c: string)
    requires Shaped(c)
  {
    var structure := StructureOf(c[..2]);
    structure.Some? && FitsTemplate(c[4..], Template(structure.value.positions))
  }

  /** An IBAN, position by position: a known country, its template, and remainder one. */
  predicate IsIban(c: string) {
    Shaped(c) && WellFormed(c) && Value(Rearranged(c)) % 97 == 1
  }

  /** A final line break reaches the conversion of characters to numbers, which raises. */
  datatype Verdict = Accepted | Rejected | Raised

  function Judge(c: string): Verdict {
    if IsIban(c) then Accepted
    else if Matches(c) && !Shaped(c) then Raised
    else Rejected
  }

  function VerdictOf(iban: string): Verdict {
    Judge(Clean(iban))
  }

  // ----- validation, step by step -----

  predicate CharClassOk(segment: string, kind: CharClass) {
    segment != "" && forall i :: 0 <= i < |segment| ==> Fits(segment[i], kind)
  }

  lemma DigitsWriteCode(c: char)
    requires Alphanumeric(c)
    ensures Code(c) < 36 && AllDigits(Digits(Code(c)))
    ensures Digit(c) <==> |Digits(Code(c))| == 1
  {
  }

  lemma DecimalAppend(s: string, c: char)
    requires AllDigits(s) && Digit(c)
    ensures Decimal(s + [c]) == Decimal(s) * 10 + (c - '0') as nat
  {
    assert (s + [c])[..|s|] == s;
  }

  /** Writing the code of a character multiplies by its base and adds its code. */
  lemma DecimalGrows(s: string, c: char)
    requires AllDigits(s) && Alphanumeric(c)
    ensures AllDigits(s + Digits(Code(c))) && Decimal(s + Digits(Code(c))) == Decimal(s) * Base(c) + Code(c)
  {
    var n := Code(c);
    DigitsWriteCode(c);
    if Digit(c) {
      DecimalAppend(s, '0' + n as char);
    } else {
      var a, b := '0' + (n / 10) as char, '0' + (n % 10) as char;
      DecimalAppend(s, a);
      DecimalAppend(s + [a], b);
      assert s + Digits(n) == s + [a] + [b];
    }
  }

  method Expand(s: string) returns (expanded: string)
    requires AllAlphanumeric(s)
    ensures AllDigits(expanded) && Decimal(expanded) == Value(s)
  {
    expanded := "";
    for i := 0 to |s|
      invariant AllDigits(expanded) && Decimal(expanded) == Value(s[..i])
    {
      assert s[..i + 1][..i] == s[..i];
      DecimalGrows(expanded, s[i]);
      expanded := expanded + Digits(Code(s[i]));
    }
    assert s[..|s|] == s;
  }

  lemma {:induction false} TemplatePrefix(positions: seq<Segment>, n: nat)
    requires n <= |positions|
    ensures Template(positions[..n]) <= Template(positions)
    decreases |positions|
  {
    if n == |positions| {
      assert positions[..n] == positions;
    } else {
      var m := |positions| - 1;
      TemplatePrefix(positions[..m], n);
      assert positions[..m][..n] == positions[..n];
    }
  }

  lemma OneMoreSegment(positions: seq<Segment>, n: nat)
    requires n < |positions|
    ensures Template(positions[..n + 1]) == Template(positions[..n]) + seq(positions[n].length, _ => positions[n].kind)
  {
    assert positions[..n + 1][..n] == positions[..n];
  }

  /** A segment of the right class fits its stretch of the template. */
  lemma SegmentFits(bban: string, positions: seq<Segment>, n: nat, ok: bool)
    requires n < |positions| && |bban| == |Template(positions)| && |Template(positions[..n + 1])| <= |bban|
    requires
      var from := |Template(positions[..n])|;
      && from + positions[n].length == |Template(positions[..n + 1])| && positions[n].length > 0
      && ok == CharClassOk(bban[from..from + positions[n].length], positions[n].kind)
    ensures
      var from, template := |Template(positions[..n])|, Template(positions);
      ok <==> forall k :: from <= k < from + positions[n].length ==> Fits(bban[k], template[k])
  {
    OneMoreSegment(positions, n);
    TemplatePrefix(positions, n + 1);
    var from, template := |Template(positions[..n])|, Template(positions);
    var segment := bban[from..from + positions[n].length];
    forall k | 0 <= k < positions[n].length
      ensures segment[k] == bban[from + k] && template[from + k] == positions[n].kind
    {
      assert template[from + k] == Template(positions[..n + 1])[from + k];
    }
    forall k | from <= k < from + positions[n].length
      ensures Fits(bban[k], template[k]) <==> Fits(segment[k - from], positions[n].kind)
    {
      assert k == from + (k - from);
    }
  }

  /** Walks the segments of the structure over the account part. */
  method FitsStructure(bban: string, structure: Structure) returns (ok: bool)
    requires |bban| == |Template(structure.positions)|
    requires forall i :: 0 <= i < |structure.positions| ==> structure.positions[i].length > 0
    ensures ok <==> FitsTemplate(bban, Template(structure.positions))
  {
    var positions := structure.positions;
    ghost var template := Template(positions);
    var pos := 0;
    for i := 0 to |positions|
      invariant pos == |Template(positions[..i])| <= |bban|
      invariant forall k :: 0 <= k < pos ==> Fits(bban[k], template[k])
    {
      OneMoreSegment(positions, i);
      TemplatePrefix(positions, i + 1);
      var length := positions[i].length;
      var fits := CharClassOk(bban[pos..pos + length], positions[i].kind);
      SegmentFits(bban, positions, i, fits);
      if !fits {
        return false;
      }
      pos := pos + length;
    }
    assert positions[..|positions|] == positions;
    return true;
  }

  lemma TemplateLength(positions: seq<Segment>)
    requires 2 <= |positions| <= 4
    ensures |Template(positions)| == positions[0].length + positions[1].length
                                     + (if |positions| > 2 then positions[2].length else 0)
                                     + if |positions| > 3 then positions[3].length else 0
  {
    assert positions[..0] == [];
    OneMoreSegment(positions, 0);
    OneMoreSegment(positions, 1);
    if |positions| > 2 {
      OneMoreSegment(positions, 2);
    }
    if |positions| > 3 {
      OneMoreSegment(positions, 3);
    }
    assert positions[..|positions|] == positions;
  }

  /** The lengths of the table are those of the templates, so the segments cover the account part exactly. */
  lemma LengthsAgree(country: string)
    requires StructureOf(country).Some?
    ensures var s := StructureOf(country).value;
            && s.length == 4 + |Template(s.positions)|
            && forall i :: 0 <= i < |s.positions| ==> s.positions[i].length > 0
  {
    TemplateLength(StructureOf(country).value.positions);
  }

  /** Validates an IBAN; raises exactly on an otherwise well-shaped IBAN that ends in a line break. */
  method ValidateIban(iban: string) returns (v: Verdict)
    ensures v == VerdictOf(iban)
  {
    if iban == "" {
      return Rejected;
    }
    var cleaned := Clean(iban);
    if !Matches(cleaned) {
      return Rejected;
    }
    if !Shaped(cleaned) {
      return Raised;
    }
    var rearranged := cleaned[4..] + cleaned[..4];
    var expanded := Expand(rearranged);
    if Decimal(expanded) % 97 != 1 {
      return Rejected;
    }
    var structure := StructureOf(cleaned[..2]);
    if structure.None? {
      return Rejected;
    }
    LengthsAgree(cleaned[..2]);
    if |cleaned| != structure.value.length {
      return Rejected;
    }
    var ok := FitsStructure(cleaned[4..], structure.value);
    return if ok then Accepted else Rejected;
  }
}
