/** Parsing an IBAN into its components, and how it relates to validation. */
module IbanParts {
  import opened Results
  import opened Iban

  datatype Components = Components(
    iban: string, country: string, checksum: string, bank: string, branch: Option<string>, account: string, isIso: bool)

  /** A slice whose ends may lie beyond the string. */
  function Slice(s: string, from: nat, to: nat): string
    requires from <= to
  {
    if |s| <= from then "" else if |s| <= to then s[from..] else s[from..to]
  }

  /** Where the k-th segment starts. */
  function Start(positions: seq<Segment>, k: nat): nat
    requires k <= |positions|
  {
    |Template(positions[..k])|
  }

  lemma StartStep(positions: seq<Segment>, k: nat)
    requires k < |positions|
    ensures Start(positions, k + 1) == Start(positions, k) + positions[k].length
  {
    OneMoreSegment(positions, k);
  }

  predicate ArePieces(parts: seq<string>, bban: string, positions: seq<Segment>) {
    |parts| <= |positions|
    && forall k :: 0 <= k < |parts| ==>
                     Start(positions, k) <= Start(positions, k + 1)
                     && parts[k] == Slice(bban, Start(positions, k), Start(positions, k + 1))
  }

  lemma OneMorePiece(parts: seq<string>, bban: string, positions: seq<Segment>)
    requires |parts| < |positions| && ArePieces(parts, bban, positions)
    requires Start(positions, |parts|) <= Start(positions, |parts| + 1)
    ensures ArePieces(parts + [Slice(bban, Start(positions, |parts|), Start(positions, |parts| + 1))], bban, positions)
  {
  }

  method Cut(bban: string, positions: seq<Segment>) returns (parts: seq<string>)
    ensures |parts| == |positions| && ArePieces(parts, bban, positions)
  {
    parts := [];
    var pos := 0;
    for k := 0 to |positions|
      invariant |parts| == k && pos == Start(positions, k)
      invariant ArePieces(parts, bban, positions)
    {
      StartStep(positions, k);
      OneMorePiece(parts, bban, positions);
      parts := parts + [Slice(bban, pos, pos + positions[k].length)];
      pos := pos + positions[k].length;
    }
  }

  /** The components cut out of an account part, however long it is: the first segment, the second if there are more
      than two, and the last. */
  ghost predicate ArePartsOf(bban: string, positions: seq<Segment>, bank: string, branch: Option<string>,
                             account: string) {
    2 <= |positions|
    && exists parts: seq<string> :: |parts| == |positions| && ArePieces(parts, bban, positions)
                                    && bank == parts[0] && account == parts[|parts| - 1]
                                    && branch == if |parts| > 2 then Some(parts[1]) else None
  }

  /** The components of an account part of `n` segments: all of it for two or three, its ends for four. */
  ghost predicate IsSplit(bban: string, n: nat, bank: string, branch: Option<string>, account: string) {
    && (branch.Some? <==> n > 2)
    && (n == 2 ==> bban == bank + account)
    && (n == 3 ==> bban == bank + branch.value + account)
    && (n == 4 ==> exists middle: string :: bban == bank + branch.value + middle + account)
  }

  /** Components of an account part of the right length tile it. */
  lemma PartsSplit(bban: string, positions: seq<Segment>, bank: string, branch: Option<string>, account: string)
    requires 2 <= |positions| <= 4 && |bban| == |Template(positions)|
    requires ArePartsOf(bban, positions, bank, branch, account)
    ensures IsSplit(bban, |positions|, bank, branch, account)
  {
    var parts :| |parts| == |positions| && ArePieces(parts, bban, positions)
                 && bank == parts[0] && account == parts[|parts| - 1]
                 && branch == if |parts| > 2 then Some(parts[1]) else None;
    PiecesJoin(bban, positions, parts);
  }

  method Split(bban: string, positions: seq<Segment>) returns (bank: string, branch: Option<string>, account: string)
    requires 2 <= |positions|
    ensures ArePartsOf(bban, positions, bank, branch, account)
  {
    var parts := Cut(bban, positions);
    bank := parts[0];
    account := parts[|parts| - 1];
    branch := if |parts| > 2 then Some(parts[1]) else None;
  }

  /** A parsed IBAN put together again. */
  ghost predicate Reassembles(c: Components) {
    && c.isIso && StructureOf(c.country).Some? && |c.country + c.checksum| == 4
    && c.country + c.checksum <= c.iban
    && IsSplit(c.iban[4..], |StructureOf(c.country).value.positions|, c.bank, c.branch, c.account)
  }

  lemma AcceptedFits(iban: string)
    requires VerdictOf(iban) == Accepted
    ensures var c := Clean(iban);
            Shaped(c) && StructureOf(c[..2]).Some? && |c[4..]| == |Template(StructureOf(c[..2]).value.positions)|
  {
  }

  /** What the parser finds in a string that matches the pattern. */
  ghost predicate ParsedFrom(cleaned: string, r: Components)
    requires |cleaned| >= 4
  {
    var structure := StructureOf(cleaned[..2]);
    && r.iban == cleaned && r.country == cleaned[..2] && r.checksum == cleaned[2..4] && (r.isIso <==> structure.Some?)
    && (structure.None? ==> r.bank == "" && r.branch == None && r.account == "")
    && (structure.Some? ==> ArePartsOf(cleaned[4..], structure.value.positions, r.bank, r.branch, r.account))
  }

  lemma ParsedReassembles(iban: string, r: Components)
    requires VerdictOf(iban) == Accepted && ParsedFrom(Clean(iban), r)
    ensures Reassembles(r)
  {
    AcceptedFits(iban);
    var c := Clean(iban);
    assert c[..2] + c[2..4] == c[..4];
    PartsSplit(c[4..], StructureOf(c[..2]).value.positions, r.bank, r.branch, r.account);
  }

  /** Parses exactly what matches the pattern, valid or not; a valid IBAN is put together again from its components. */
  method ParseIban(iban: string) returns (r: Option<Components>)
    ensures r.Some? <==> Matches(Clean(iban))
    ensures r.Some? ==> ParsedFrom(Clean(iban), r.value)
    ensures VerdictOf(iban) == Accepted ==> r.Some? && Reassembles(r.value)
  {
    if iban == "" {
      return None;
    }
    var cleaned := Clean(iban);
    if !Matches(cleaned) {
      return None;
    }
    var country := cleaned[..2];
    var structure := StructureOf(country);
    var bank, branch, account := "", None, "";
    if structure.Some? {
      bank, branch, account := Split(cleaned[4..], structure.value.positions);
    }
    var parsed := Components(cleaned, country, cleaned[2..4], bank, branch, account, structure.Some?);
    if VerdictOf(iban) == Accepted {
      ParsedReassembles(iban, parsed);
    }
    return Some(parsed);
  }

  /** The first `n` pieces put together. */
  function Joined(parts: seq<string>, n: nat): string
    requires n <= |parts|
  {
    if n == 0 then "" else Joined(parts, n - 1) + parts[n - 1]
  }

  lemma PrefixGrows(s: string, from: nat, to: nat)
    requires from <= to <= |s|
    ensures s[..from] + Slice(s, from, to) == s[..to]
  {
  }

  lemma {:induction false} JoinedIsPrefix(bban: string, positions: seq<Segment>, parts: seq<string>, n: nat)
    requires |parts| == |positions| && ArePieces(parts, bban, positions) && n <= |parts|
    requires Start(positions, n) <= |bban|
    ensures Joined(parts, n) == bban[..Start(positions, n)]
    decreases n
  {
    if n == 0 {
      assert positions[..0] == [];
    } else {
      StartStep(positions, n - 1);
      JoinedIsPrefix(bban, positions, parts, n - 1);
      PrefixGrows(bban, Start(positions, n - 1), Start(positions, n));
    }
  }

  lemma JoinedOut(parts: seq<string>)
    requires 2 <= |parts|
    ensures Joined(parts, 2) == parts[0] + parts[1]
    ensures |parts| > 2 ==> Joined(parts, 3) == parts[0] + parts[1] + parts[2]
    ensures |parts| > 3 ==> Joined(parts, 4) == parts[0] + parts[1] + parts[2] + parts[3]
  {
    assert Joined(parts, 1) == parts[0];
    assert Joined(parts, 2) == Joined(parts, 1) + parts[1];
  }

  /** The pieces of an account part of the right length tile it. */
  lemma PiecesJoin(bban: string, positions: seq<Segment>, parts: seq<string>)
    requires 2 <= |positions| <= 4 && |parts| == |positions| && ArePieces(parts, bban, positions)
    requires |bban| == |Template(positions)|
    ensures |positions| == 2 ==> bban == parts[0] + parts[1]
    ensures |positions| == 3 ==> bban == parts[0] + parts[1] + parts[2]
    ensures |positions| == 4 ==> bban == parts[0] + parts[1] + parts[2] + parts[3]
  {
    assert positions[..|positions|] == positions;
    JoinedIsPrefix(bban, positions, parts, |parts|);
    JoinedOut(parts);
  }
}
