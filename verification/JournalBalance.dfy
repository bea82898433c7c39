/** The one-pass balance check against the per-currency groups of a multi-currency posting. */
module JournalBalance {
  import opened Results
  import opened Sums
  import opened Ledger

  function SideIn(d: Direction, c: Currency): Entry -> int {
    (e: Entry) => if e.currency == c && e.direction == d then e.amount else 0
  }

  datatype Bucket = Bucket(debit: int, credit: int)

  function Used(entries: seq<Entry>): set<Currency> {
    set i | 0 <= i < |entries| :: entries[i].currency
  }

  ghost predicate Tallies(b: Bucket, entries: seq<Entry>, c: Currency) {
    b == Bucket(SumSeq(entries, SideIn(Debit, c)), SumSeq(entries, SideIn(Credit, c)))
  }

  ghost predicate BucketsOf(totals: map<Currency, Bucket>, entries: seq<Entry>) {
    && totals.Keys == Used(entries)
    && forall c :: c in totals ==> Tallies(totals[c], entries, c)
  }

  /** Every currency group would pass the check made before posting. */
  ghost predicate GroupsPass(entries: seq<Entry>) {
    forall i :: 0 <= i < |entries| ==> Balanced(Group(entries, entries[i].currency))
  }

  function Tally(b: Bucket, e: Entry): Bucket {
    if e.direction == Debit then b.(debit := b.debit + e.amount) else b.(credit := b.credit + e.amount)
  }

  /** Accepts exactly the entries whose every currency group would be posted. */
  method ValidateJournalBalance(entries: seq<Entry>) returns (r: Result<()>)
    ensures r.Ok? <==> entries != [] && AllWellFormed(entries) && GroupsPass(entries)
  {
    var totals: map<Currency, Bucket> := map[];
    for i := 0 to |entries|
      invariant AllWellFormed(entries[..i])
      invariant BucketsOf(totals, entries[..i])
    {
      var e := entries[i];
      if e.direction == OtherDirection || e.amount <= 0 {
        assert !WellFormed(entries[i]);
        return Err(Conflict);
      }
      var bucket := if e.currency in totals then totals[e.currency] else Bucket(0, 0);
      assert entries[..i + 1] == entries[..i] + [e];
      BucketsGrow(totals, entries[..i], e);
      totals := totals[e.currency := Tally(bucket, e)];
    }
    assert entries[..|entries|] == entries;
    assert entries == [] || entries[0].currency in Used(entries);
    if totals == map[] {
      return Err(Conflict);
    }
    BucketsDecide(totals, entries);
    var unbalanced := map c | c in totals && totals[c].debit != totals[c].credit :: totals[c];
    if unbalanced != map[] {
      var c :| c in unbalanced;
      return Err(Conflict);
    }
    assert forall c :: c in totals && totals[c].debit != totals[c].credit ==> c in unbalanced;
    return Ok(());
  }

  lemma {:induction false} NoEntriesInCurrency(entries: seq<Entry>, c: Currency)
    requires c !in Used(entries)
    ensures SumSeq(entries, SideIn(Debit, c)) == SumSeq(entries, SideIn(Credit, c)) == 0
    decreases |entries|
  {
    if entries != [] {
      var n := |entries| - 1;
      assert entries[n].currency in Used(entries);
      forall i | 0 <= i < n
        ensures entries[i].currency in Used(entries)
      {
      }
      NoEntriesInCurrency(entries[..n], c);
    }
  }

  lemma TallyStep(b: Bucket, entries: seq<Entry>, e: Entry, c: Currency)
    requires Tallies(b, entries, c) && WellFormed(e)
    ensures Tallies(if c == e.currency then Tally(b, e) else b, entries + [e], c)
  {
    SumAppend(entries, e, SideIn(Debit, c));
    SumAppend(entries, e, SideIn(Credit, c));
  }

  lemma UsedGrows(entries: seq<Entry>, e: Entry)
    ensures Used(entries + [e]) == Used(entries) + {e.currency}
  {
    var all := entries + [e];
    assert all[|entries|] == e;
    forall c | c in Used(entries)
      ensures c in Used(all)
    {
      var i :| 0 <= i < |entries| && entries[i].currency == c;
      assert all[i].currency == c;
    }
  }

  /** One more entry changes its own currency's bucket only. */
  lemma BucketsGrow(totals: map<Currency, Bucket>, entries: seq<Entry>, e: Entry)
    requires BucketsOf(totals, entries) && WellFormed(e)
    ensures BucketsOf(totals[e.currency := Tally(if e.currency in totals then totals[e.currency] else Bucket(0, 0), e)],
                      entries + [e])
  {
    UsedGrows(entries, e);
    if e.currency !in totals {
      NoEntriesInCurrency(entries, e.currency);
    }
    var after := totals[e.currency := Tally(if e.currency in totals then totals[e.currency] else Bucket(0, 0), e)];
    forall c | c in after
      ensures Tallies(after[c], entries + [e], c)
    {
      TallyStep(if c in totals then totals[c] else Bucket(0, 0), entries, e, c);
    }
  }

  lemma BucketsDecide(totals: map<Currency, Bucket>, entries: seq<Entry>)
    requires BucketsOf(totals, entries) && AllWellFormed(entries)
    ensures GroupsPass(entries) <==> forall c :: c in totals ==> totals[c].debit == totals[c].credit
  {
    forall i | 0 <= i < |entries|
      ensures entries[i].currency in totals
      ensures Balanced(Group(entries, entries[i].currency))
              <==> totals[entries[i].currency].debit == totals[entries[i].currency].credit
    {
      assert entries[i].currency in Used(entries);
      assert Tallies(totals[entries[i].currency], entries, entries[i].currency);
      GroupPassesExactlyWhen(entries, i);
    }
    forall c | c in totals
      ensures exists i :: 0 <= i < |entries| && entries[i].currency == c
    {
      assert c in Used(entries);
    }
  }

  // ----- a currency group -----

  lemma {:induction false} GroupSum(entries: seq<Entry>, c: Currency, d: Direction)
    ensures SumSeq(Group(entries, c), Side(d)) == SumSeq(entries, SideIn(d, c))
    decreases |entries|
  {
    if entries != [] {
      var n := |entries| - 1;
      GroupSum(entries[..n], c, d);
      if entries[n].currency == c {
        SumAppend(Group(entries[..n], c), entries[n], Side(d));
      } else {
        assert Group(entries, c) == Group(entries[..n], c);
      }
    }
  }

  /** A group holds the entries of its currency, each as often as the posting does. */
  lemma {:induction false} GroupMembers(entries: seq<Entry>, c: Currency, e: Entry)
    ensures multiset(Group(entries, c))[e] == if e.currency == c then multiset(entries)[e] else 0
    ensures e in Group(entries, c) <==> e in entries && e.currency == c
    decreases |entries|
  {
    if entries != [] {
      var n := |entries| - 1;
      GroupMembers(entries[..n], c, e);
      assert entries == entries[..n] + [entries[n]];
    }
    assert e in multiset(entries) <==> e in entries;
    assert e in multiset(Group(entries, c)) <==> e in Group(entries, c);
  }

  lemma GroupIsOneCurrency(entries: seq<Entry>, i: nat)
    requires AllWellFormed(entries) && i < |entries|
    ensures var group := Group(entries, entries[i].currency);
            OneCurrency(group) && AllWellFormed(group)
  {
    var c := entries[i].currency;
    var group := Group(entries, c);
    GroupMembers(entries, c, entries[i]);
    forall k | 0 <= k < |group|
      ensures group[k].currency == c && WellFormed(group[k])
    {
      GroupMembers(entries, c, group[k]);
      assert group[k] in group;
    }
  }

  /** Positive entries on one side only cannot cancel: equal sums need two entries. */
  lemma EqualSidesBalance(group: seq<Entry>)
    requires OneCurrency(group) && AllWellFormed(group)
    ensures Balanced(group) <==> SumSeq(group, Side(Debit)) == SumSeq(group, Side(Credit))
  {
    SumNonnegative(group, Side(Debit));
    SumNonnegative(group, Side(Credit));
    assert Side(group[0].direction)(group[0]) > 0;
    if |group| == 1 {
      assert SumSeq(group[..0], Side(Debit)) == SumSeq(group[..0], Side(Credit)) == 0;
    }
  }

  lemma GroupPassesExactlyWhen(entries: seq<Entry>, i: nat)
    requires AllWellFormed(entries) && i < |entries|
    ensures var c := entries[i].currency;
            Balanced(Group(entries, c)) <==> SumSeq(entries, SideIn(Debit, c)) == SumSeq(entries, SideIn(Credit, c))
  {
    var c := entries[i].currency;
    GroupIsOneCurrency(entries, i);
    EqualSidesBalance(Group(entries, c));
    GroupSum(entries, c, Debit);
    GroupSum(entries, c, Credit);
  }

  // ----- the groups together -----

  ghost function Groups(entries: seq<Entry>, currencies: seq<Currency>): seq<Entry>
    decreases |currencies|
  {
    if currencies == [] then [] else Group(entries, currencies[0]) + Groups(entries, currencies[1..])
  }

  predicate Ascending(cs: seq<Currency>) {
    forall i, j :: 0 <= i < j < |cs| ==> Less(cs[i], cs[j])
  }

  lemma {:induction false} LessIsTransitive(a: Currency, b: Currency, c: Currency)
    requires Less(a, b) && Less(b, c)
    ensures Less(a, c)
    decreases |a|
  {
    if a != [] && a[0] == b[0] && b[0] == c[0] {
      LessIsTransitive(a[1..], b[1..], c[1..]);
    }
  }

  lemma {:induction false} LessIsTotal(a: Currency, b: Currency)
    ensures !(Less(a, b) && Less(b, a)) && !Less(a, a)
    ensures Less(a, b) || a == b || Less(b, a)
    decreases |a|
  {
    if a != [] {
      LessIsTotal(a[1..], if b != [] then b[1..] else b);
      if b != [] && a[0] == b[0] && a[1..] == b[1..] {
        assert a == [a[0]] + a[1..] && b == [b[0]] + b[1..];
      }
    }
  }

  lemma {:induction false} InsertKeepsAscending(cs: seq<Currency>, c: Currency)
    requires Ascending(cs)
    ensures Ascending(Insert(cs, c))
    ensures forall x :: x in Insert(cs, c) <==> x in cs || x == c
    decreases |cs|
  {
    if cs != [] && c != cs[0] {
      LessIsTotal(c, cs[0]);
      assert cs == [cs[0]] + cs[1..];
      if Less(c, cs[0]) {
        forall j | 0 <= j < |cs|
          ensures Less(c, cs[j])
        {
          if j > 0 {
            LessIsTransitive(c, cs[0], cs[j]);
          }
        }
      } else {
        var rest := Insert(cs[1..], c);
        InsertKeepsAscending(cs[1..], c);
        forall j | 0 <= j < |rest|
          ensures Less(cs[0], rest[j])
        {
          assert rest[j] in rest;
          if rest[j] != c {
            var k :| 0 <= k < |cs[1..]| && cs[1..][k] == rest[j];
            assert Less(cs[0], cs[k + 1]);
          }
        }
      }
    }
  }

  /** Each currency of the posting occurs exactly once, in ascending order. */
  lemma {:induction false} CurrenciesAscend(entries: seq<Entry>)
    ensures Ascending(Currencies(entries))
    ensures forall c :: c in Currencies(entries) <==> exists i :: 0 <= i < |entries| && entries[i].currency == c
    decreases |entries|
  {
    if entries != [] {
      var n := |entries| - 1;
      CurrenciesAscend(entries[..n]);
      InsertKeepsAscending(Currencies(entries[..n]), entries[n].currency);
      forall c
        ensures c in Currencies(entries) <==> exists i :: 0 <= i < |entries| && entries[i].currency == c
      {
        if exists i :: 0 <= i < |entries| && entries[i].currency == c {
          var i :| 0 <= i < |entries| && entries[i].currency == c;
          if i < n {
            assert entries[..n][i].currency == c;
          }
        }
      }
    }
  }

  lemma {:induction false} GroupsCount(entries: seq<Entry>, currencies: seq<Currency>, e: Entry)
    requires Ascending(currencies)
    ensures multiset(Groups(entries, currencies))[e] == if e.currency in currencies then multiset(entries)[e] else 0
    decreases |currencies|
  {
    if currencies != [] {
      GroupsCount(entries, currencies[1..], e);
      GroupMembers(entries, currencies[0], e);
      LessIsTotal(currencies[0], currencies[0]);
      assert currencies == [currencies[0]] + currencies[1..];
    }
  }

  /** The groups that a multi-currency posting posts, put together, are the entries it was given. */
  lemma {:induction false} GroupsPartition(entries: seq<Entry>)
    ensures multiset(Groups(entries, Currencies(entries))) == multiset(entries)
  {
    CurrenciesAscend(entries);
    forall e
      ensures multiset(Groups(entries, Currencies(entries)))[e] == multiset(entries)[e]
    {
      GroupsCount(entries, Currencies(entries), e);
      if e in multiset(entries) {
        var i :| 0 <= i < |entries| && entries[i] == e;
        assert entries[i].currency in Currencies(entries);
      }
    }
  }
}
