/** Multi-currency postings: exactly when they are accepted, although their groups are posted one after the other. */
module LedgerMulti {
  import opened Results
  import opened Ledger
  import opened LedgerInvariant
  import opened LedgerTheorems
  import opened JournalBalance

  /** The group of one currency has a leg on its clearing account and could be posted on its own. */
  ghost predicate GroupPostable(b: Books, id: Id, c: Currency, entries: seq<Entry>, clearing: map<Currency, Id>) {
    && c in clearing && clearing[c] != ""
    && (exists i :: 0 <= i < |entries| && entries[i].currency == c && entries[i].account == clearing[c])
    && id + ":" + c !in b.journals
    && Postable(b.accounts, Group(entries, c))
    && (forall k :: 0 <= k < |Group(entries, c)| ==> Affords(b.accounts, Group(entries, c), k))
  }

  lemma ClearingLegs(entries: seq<Entry>, c: Currency, clearing: Id)
    ensures HasClearingLeg(Group(entries, c), clearing) <==>
            exists i :: 0 <= i < |entries| && entries[i].currency == c && entries[i].account == clearing
  {
    var group := Group(entries, c);
    if i :| 0 <= i < |entries| && entries[i].currency == c && entries[i].account == clearing {
      GroupMembers(entries, c, entries[i]);
      var j :| 0 <= j < |group| && group[j] == entries[i];
    }
    if HasClearingLeg(group, clearing) {
      var j :| 0 <= j < |group| && group[j].account == clearing;
      GroupMembers(entries, c, group[j]);
    }
  }

  lemma FirstGroup(b: Books, id: Id, currencies: seq<Currency>, entries: seq<Entry>, clearing: map<Currency, Id>)
    requires currencies != []
    ensures
      var c := currencies[0];
      var r := PostJournal(b, id + ":" + c, Group(entries, c), None);
      && (GroupPostable(b, id, c, entries, clearing) ==>
            r.Ok? && PostGroups(b, id, currencies, entries, clearing)
                     == PostGroups(r.value, id, currencies[1..], entries, clearing))
      && (!GroupPostable(b, id, c, entries, clearing) ==> PostGroups(b, id, currencies, entries, clearing).Err?)
  {
    var c := currencies[0];
    PostedExactlyWhen(b, id + ":" + c, Group(entries, c), None);
    if c in clearing {
      ClearingLegs(entries, c, clearing[c]);
    }
  }

  /** An account of another currency keeps its balance. */
  lemma OthersKeepBalance(b: Books, id: Id, c: Currency, entries: seq<Entry>, a: Id)
    requires PostJournal(b, id, Group(entries, c), None).Ok? && a in b.accounts && b.accounts[a].currency != c
    ensures
      var t := PostJournal(b, id, Group(entries, c), None).value;
      a in t.accounts && t.accounts[a].balance == b.accounts[a].balance
  {
    var group := Group(entries, c);
    forall i | 0 <= i < |group|
      ensures group[i].account != a
    {
      assert Fits(b.accounts, group[i]);
      GroupMembers(entries, c, group[i]);
    }
    PostingMoves(b.accounts, group, a);
    UnnamedDoesNotMove(group, a, b.accounts[a].kind);
  }

  lemma KeepsRest(b: Books, id: Id, group: seq<Entry>, a: Id)
    requires PostJournal(b, id, group, None).Ok? && a in b.accounts
    ensures
      var t := PostJournal(b, id, group, None).value;
      a in t.accounts && t.accounts[a] == b.accounts[a].(balance := t.accounts[a].balance,
                                                         version := t.accounts[a].version)
  {
    PostingMoves(b.accounts, group, a);
  }

  lemma PostableElsewhere(b: Books, id: Id, c: Currency, entries: seq<Entry>, other: seq<Entry>)
    requires PostJournal(b, id, Group(entries, c), None).Ok?
    ensures Postable(PostJournal(b, id, Group(entries, c), None).value.accounts, other) <==> Postable(b.accounts, other)
  {
    var t := PostJournal(b, id, Group(entries, c), None).value;
    forall a | a in b.accounts
      ensures a in t.accounts && t.accounts[a].active == b.accounts[a].active
              && t.accounts[a].currency == b.accounts[a].currency
    {
      KeepsRest(b, id, Group(entries, c), a);
    }
    PostingWrites(b, id, Group(entries, c), None);
  }

  lemma CoveredElsewhere(b: Books, id: Id, c: Currency, entries: seq<Entry>, d: Currency, k: nat)
    requires PostJournal(b, id, Group(entries, c), None).Ok? && d != c && k < |Group(entries, d)|
    requires Postable(b.accounts, Group(entries, d))
    ensures
      var t := PostJournal(b, id, Group(entries, c), None).value;
      Group(entries, d)[k].account in t.accounts && Group(entries, d)[k].account in b.accounts
      && (Affords(t.accounts, Group(entries, d), k) <==> Affords(b.accounts, Group(entries, d), k))
  {
    var group := Group(entries, d);
    GroupMembers(entries, d, group[k]);
    OthersKeepBalance(b, id, c, entries, group[k].account);
    KeepsRest(b, id, Group(entries, c), group[k].account);
  }

  lemma SuffixesDiffer(id: Id, c: Currency, d: Currency)
    requires c != d
    ensures id + ":" + c != id + ":" + d
  {
    var n := |id + ":"|;
    assert (id + ":" + c)[n..] == c && (id + ":" + d)[n..] == d;
  }

  /** Posting one group does not bear on another. */
  lemma GroupsAreIndependent(b: Books, id: Id, c: Currency, entries: seq<Entry>, clearing: map<Currency, Id>,
                             d: Currency)
    requires PostJournal(b, id + ":" + c, Group(entries, c), None).Ok? && d != c
    ensures
      var t := PostJournal(b, id + ":" + c, Group(entries, c), None).value;
      GroupPostable(t, id, d, entries, clearing) <==> GroupPostable(b, id, d, entries, clearing)
  {
    var t := PostJournal(b, id + ":" + c, Group(entries, c), None).value;
    SuffixesDiffer(id, c, d);
    PostingWrites(b, id + ":" + c, Group(entries, c), None);
    PostableElsewhere(b, id + ":" + c, c, entries, Group(entries, d));
    if Postable(b.accounts, Group(entries, d)) {
      forall k | 0 <= k < |Group(entries, d)|
        ensures Affords(t.accounts, Group(entries, d), k) <==> Affords(b.accounts, Group(entries, d), k)
      {
        CoveredElsewhere(b, id + ":" + c, c, entries, d, k);
      }
    }
  }

  lemma {:induction false} GroupsPostExactlyWhen(b: Books, id: Id, currencies: seq<Currency>, entries: seq<Entry>,
                                                 clearing: map<Currency, Id>)
    requires Ascending(currencies)
    ensures PostGroups(b, id, currencies, entries, clearing).Ok? <==>
            forall c :: c in currencies ==> GroupPostable(b, id, c, entries, clearing)
    decreases |currencies|
  {
    if currencies != [] {
      var c, rest := currencies[0], currencies[1..];
      FirstGroup(b, id, currencies, entries, clearing);
      if GroupPostable(b, id, c, entries, clearing) {
        var t := PostJournal(b, id + ":" + c, Group(entries, c), None).value;
        GroupsPostExactlyWhen(t, id, rest, entries, clearing);
        forall d | d in rest
          ensures GroupPostable(t, id, d, entries, clearing) <==> GroupPostable(b, id, d, entries, clearing)
        {
          var j :| 0 <= j < |rest| && rest[j] == d;
          LessIsTotal(c, c);
          assert Less(currencies[0], currencies[j + 1]);
          GroupsAreIndependent(b, id, c, entries, clearing, d);
        }
        assert currencies == [c] + rest;
      } else {
        assert c in currencies;
      }
    }
  }

  /** A multi-currency posting is accepted if and only if it has at least two currencies and each of its currency
      groups, taken on the books as they are before, has its clearing leg and could be posted on its own. */
  lemma {:induction false} MultiPostedExactlyWhen(b: Books, id: Id, entries: seq<Entry>, clearing: map<Currency, Id>)
    ensures PostMultiCurrency(b, id, entries, clearing).Ok? <==>
            && (exists i, j :: 0 <= i < j < |entries| && entries[i].currency != entries[j].currency)
            && forall i :: 0 <= i < |entries| ==> GroupPostable(b, id, entries[i].currency, entries, clearing)
  {
    var currencies := Currencies(entries);
    CurrenciesAscend(entries);
    GroupsPostExactlyWhen(b, id, currencies, entries, clearing);
    TwoCurrencies(entries);
    assert (forall c :: c in currencies ==> GroupPostable(b, id, c, entries, clearing)) <==>
           (forall i :: 0 <= i < |entries| ==> GroupPostable(b, id, entries[i].currency, entries, clearing));
  }

  lemma TwoCurrencies(entries: seq<Entry>)
    ensures |Currencies(entries)| >= 2 <==>
            exists i, j :: 0 <= i < j < |entries| && entries[i].currency != entries[j].currency
  {
    var cs := Currencies(entries);
    CurrenciesAscend(entries);
    if |cs| >= 2 {
      assert cs[0] in cs && cs[1] in cs;
      var i :| 0 <= i < |entries| && entries[i].currency == cs[0];
      var j :| 0 <= j < |entries| && entries[j].currency == cs[1];
      LessIsTotal(cs[0], cs[0]);
      assert Less(cs[0], cs[1]);
      assert i < j || j < i;
    }
    if i, j :| 0 <= i < j < |entries| && entries[i].currency != entries[j].currency {
      assert entries[i].currency in cs && entries[j].currency in cs;
    }
  }
}
