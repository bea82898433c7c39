/** What an accepted IBAN looks like, country by country, against the segments of the structure table. */
module IbanForms {
  import opened Iban

  // ----- the shape of an IBAN, and what its country demands -----

  predicate DigitsIn(c: string, from: nat, to: nat) {
    to <= |c| && forall i :: from <= i < to ==> '0' <= c[i] <= '9'
  }

  /** Two letters, two digits, and from one to thirty letters or digits. */
  predicate HasShape(c: string) {
    && 5 <= |c| <= 34 && 'A' <= c[0] <= 'Z' && 'A' <= c[1] <= 'Z' && DigitsIn(c, 2, 4)
    && forall i :: 4 <= i < |c| ==> 'A' <= c[i] <= 'Z' || '0' <= c[i] <= '9'
  }

  /** The lengths of the nine countries and the places where each demands digits; anywhere else letters will do. */
  predicate HasForm(c: string)
    requires |c| >= 2
  {
    match c[..2]
    case "DE" => |c| == 22 && DigitsIn(c, 4, 22)
    case "FR" => |c| == 27 && DigitsIn(c, 4, 14) && DigitsIn(c, 25, 27)
    case "IT" => |c| == 27 && DigitsIn(c, 5, 15)
    case "GB" => |c| == 22 && DigitsIn(c, 8, 22)
    case "BE" => |c| == 16 && DigitsIn(c, 4, 16)
    case "NL" => |c| == 18 && DigitsIn(c, 8, 18)
    case "ES" => |c| == 24 && DigitsIn(c, 4, 24)
    case "CH" => |c| == 21 && DigitsIn(c, 4, 9)
    case "AT" => |c| == 20 && DigitsIn(c, 4, 20)
    case _ => false
  }

  // ----- the segments say the same -----

  function Stretch(segment: Segment): seq<CharClass> {
    seq(segment.length, _ => segment.kind)
  }

  /** The class that the segments give to place `i`. */
  function ClassAt(positions: seq<Segment>, i: nat): CharClass {
    if positions == [] then AnyAlphanumeric
    else if i < positions[0].length then positions[0].kind
    else ClassAt(positions[1..], i - positions[0].length)
  }

  lemma {:induction false} TemplateFirst(positions: seq<Segment>)
    requires positions != []
    ensures Template(positions) == Stretch(positions[0]) + Template(positions[1..])
    decreases |positions|
  {
    var n := |positions| - 1;
    if n == 0 {
      assert positions[..0] == [] && positions[1..] == [];
    } else {
      TemplateFirst(positions[..n]);
      var rest, first := positions[1..], Stretch(positions[0]);
      assert positions[..n][1..] == rest[..n - 1] && rest[n - 1] == positions[n];
      assert Template(positions[..n]) == first + Template(rest[..n - 1]);
      assert Template(rest) == Template(rest[..n - 1]) + Stretch(positions[n]);
      assert Template(positions) == Template(positions[..n]) + Stretch(positions[n]);
    }
  }

  lemma {:induction false} TemplateAt(positions: seq<Segment>, i: nat)
    requires i < |Template(positions)|
    ensures Template(positions)[i] == ClassAt(positions, i)
    decreases |positions|
  {
    TemplateFirst(positions);
    if i >= positions[0].length {
      TemplateAt(positions[1..], i - positions[0].length);
    }
  }

  /** At most four segments: the class of each place, said at once. */
  lemma FourSegments(positions: seq<Segment>, i: nat)
    requires 2 <= |positions| <= 4
    ensures
      var a := positions[0].length;
      var b := a + positions[1].length;
      var c := b + if |positions| > 2 then positions[2].length else 0;
      ClassAt(positions, i)
      == if i < a then positions[0].kind else if i < b then positions[1].kind
         else if i < c then positions[2].kind
         else if |positions| > 3 && i < c + positions[3].length then positions[3].kind else AnyAlphanumeric
  {
    var one := positions[1..];
    assert one[0] == positions[1];
    if i >= positions[0].length {
      var i1 := i - positions[0].length;
      assert ClassAt(positions, i) == ClassAt(one, i1);
      if i1 >= one[0].length {
        LaterSegments(positions, one[1..], i1 - one[0].length);
        assert ClassAt(one, i1) == ClassAt(one[1..], i1 - one[0].length);
      }
    }
  }

  lemma LaterSegments(positions: seq<Segment>, two: seq<Segment>, i: nat)
    requires 2 <= |positions| <= 4 && two == positions[1..][1..]
    ensures
      var c := if |positions| > 2 then positions[2].length else 0;
      ClassAt(two, i)
      == if i < c then positions[2].kind
         else if |positions| > 3 && i < c + positions[3].length then positions[3].kind else AnyAlphanumeric
  {
    if |positions| > 2 {
      assert two[0] == positions[2];
      if i >= two[0].length {
        var three, i3 := two[1..], i - two[0].length;
        assert ClassAt(two, i) == ClassAt(three, i3);
        if |positions| > 3 {
          assert three[0] == positions[3] && three[1..] == [];
        }
      }
    }
  }

  /** A place of the account part demands a digit. */
  predicate DemandsDigit(country: string, i: nat) {
    match country
    case "DE" | "BE" | "ES" | "AT" => true
    case "FR" => i < 10 || i >= 21
    case "IT" => 1 <= i < 11
    case "GB" | "NL" => i >= 4
    case "CH" => i < 5
    case _ => false
  }

  lemma ClassesOfTable(country: string, i: nat)
    requires StructureOf(country).Some? && i < StructureOf(country).value.length - 4
    ensures
      var positions := StructureOf(country).value.positions;
      && |Template(positions)| == StructureOf(country).value.length - 4
      && (Template(positions)[i] == Numeric <==> DemandsDigit(country, i))
  {
    LengthsAgree(country);
    TemplateAt(StructureOf(country).value.positions, i);
    ClassesOfSegments(country, i);
  }

  lemma ClassesOfSegments(country: string, i: nat)
    requires StructureOf(country).Some? && i < StructureOf(country).value.length - 4
    ensures ClassAt(StructureOf(country).value.positions, i) == Numeric <==> DemandsDigit(country, i)
  {
    FourSegments(StructureOf(country).value.positions, i);
  }

  lemma FormsAgree(c: string)
    requires Shaped(c)
    ensures WellFormed(c) <==> HasForm(c)
  {
    var country := c[..2];
    if StructureOf(country).Some? {
      var n, template := StructureOf(country).value.length - 4, Template(StructureOf(country).value.positions);
      LengthsAgree(country);
      forall i: nat | i < n
        ensures template[i] == Numeric <==> DemandsDigit(country, i)
      {
        ClassesOfTable(country, i);
      }
      if |c| == n + 4 {
        PlacesAgree(c, template);
      }
    }
  }

  lemma PlacesAgree(c: string, template: seq<CharClass>)
    requires Shaped(c) && StructureOf(c[..2]).Some? && |c| == StructureOf(c[..2]).value.length == |template| + 4
    requires forall i: nat :: i < |template| ==> (template[i] == Numeric <==> DemandsDigit(c[..2], i))
    ensures FitsTemplate(c[4..], template) <==> HasForm(c)
  {
    forall i: nat | i < |template|
      ensures Fits(c[4..][i], template[i]) <==> (DemandsDigit(c[..2], i) ==> '0' <= c[i + 4] <= '9')
    {
      assert c[4..][i] == c[i + 4];
    }
    DigitsAreDemanded(c);
  }

  lemma DigitsAreDemanded(c: string)
    requires Shaped(c) && StructureOf(c[..2]).Some? && |c| == StructureOf(c[..2]).value.length
    ensures HasForm(c) <==> forall i: nat :: i < |c| - 4 && DemandsDigit(c[..2], i) ==> '0' <= c[i + 4] <= '9'
  {
    if forall i: nat :: i < |c| - 4 && DemandsDigit(c[..2], i) ==> '0' <= c[i + 4] <= '9' {
      forall j | 4 <= j < |c| && DemandsDigit(c[..2], j - 4)
        ensures '0' <= c[j] <= '9'
      {
        assert c[j] == c[(j - 4) + 4];
      }
    }
  }

  /** An IBAN is accepted if and only if, without spaces and in capitals, it has the shape of one, the length and the
      digits of its country, and leaves remainder one. */
  lemma AcceptedExactlyWhen(iban: string)
    ensures
      var c := Clean(iban);
      VerdictOf(iban) == Accepted <==> HasShape(c) && HasForm(c) && Value(c[4..] + c[..4]) % 97 == 1
  {
    ShapeExactly(Clean(iban));
    AcceptedCleaned(Clean(iban));
  }

  lemma ShapeExactly(c: string)
    ensures Shaped(c) <==> HasShape(c)
  {
  }

  lemma AcceptedCleaned(c: string)
    ensures Judge(c) == Accepted <==> Shaped(c) && HasForm(c) && Value(Rearranged(c)) % 97 == 1
  {
    assert Judge(c) == Accepted <==> IsIban(c);
    if Shaped(c) {
      FormsAgree(c);
    }
  }
}
