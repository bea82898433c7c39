/** The completion policy: the gate an order passes before it is operationally closed. */
module Completion {
  import opened Results
  import opened Orders

  /** A completion profile: the items each dimension requires. */
  datatype Profile = Profile(
    messages: seq<string>,
    funding: seq<string>,
    fx: seq<string>,
    settlement: seq<string>,
    credits: seq<string>
  )

  /** The profile of same-currency orders. */
  const SAME_CURRENCY_PROFILE := Profile(["payment-message"], ["debit"], [], ["PAYMENT_VALUE"], ["beneficiary"])

  /** The profile of orders that settle in another currency. */
  const FX_PROFILE := Profile(["payment-message"], ["debit", "credit"], ["FX_SELL", "FX_BUY"],
                              ["FX_SELL", "FX_BUY", "PAYMENT_VALUE"], ["beneficiary"])

  function ProfileOf(o: Order): Profile {
    if o.sameCurrency then SAME_CURRENCY_PROFILE else FX_PROFILE
  }

  function Required(p: Profile): seq<string> {
    Flatten([p.messages, p.funding, p.fx, p.settlement, p.credits])
  }

  function Flatten(fields: seq<seq<string>>): seq<string> {
    if fields == [] then [] else fields[0] + Flatten(fields[1..])
  }

  function Category(item: string): Option<FactKind> {
    if item == "payment-message" then Some(Message)
    else if item == "debit" || item == "credit" then Some(Funding)
    else if item == "PAYMENT_VALUE" then Some(Settlement)
    else if item == "beneficiary" then Some(Beneficiary)
    else None
  }

  /** `item` occurs in `text` as a substring. */
  predicate Contains(text: string, item: string) {
    item <= text || (text != [] && Contains(text[1..], item))
  }

  /** One fact witnesses an item by naming it or by being of its category. */
  predicate Witnesses(kind: FactKind, reference: string, item: string) {
    Contains(reference, item) || Category(item) == Some(kind)
  }

  predicate Witnessed(facts: seq<Fact>, item: string) {
    exists i :: 0 <= i < |facts| && Witnesses(facts[i].kind, facts[i].reference, item)
  }

  predicate NothingMissing(facts: seq<Fact>, p: Profile) {
    forall item :: item in Required(p) ==> Witnessed(facts, item)
  }

  predicate IsOpen(r: Reservation) {
    r.state == Reserved || r.state == ReservationRequested
  }

  predicate NoOpenReservation(o: Order) {
    forall i :: 0 <= i < |o.reservations| ==> !IsOpen(o.reservations[i])
  }

  /** The value leg and, in a cross-currency order, the two legs of its trade. */
  predicate AllLegsFinal(o: Order) {
    o.leg.state == LegFinal && forall i :: 0 <= i < |o.fxLegs| ==> o.fxLegs[i].state == LegFinal
  }

  predicate SingleCredit(o: Order) {
    forall i, j :: 0 <= i < j < |o.credits| ==> !(o.credits[i].state == Credited && o.credits[j].state == Credited)
  }

  predicate EvidencedCredit(o: Order) {
    exists i :: 0 <= i < |o.credits| && o.credits[i].state == Credited && o.credits[i].evidenced
  }

  /** What the gate demands, said of the fact history rather than of its projection. */
  predicate Allows(o: Order, p: Profile) {
    && NothingMissing(o.facts, p)
    && NoOpenReservation(o)
    && o.openCases == 0
    && Matched in o.reconciliations
    && AllLegsFinal(o)
    && EvidencedCredit(o)
    && o.postedJournals > 0
  }

  /** Profile requirements met by kind alone stay met as facts are appended. */
  predicate HasKind(facts: seq<Fact>, kind: FactKind) {
    exists i :: 0 <= i < |facts| && facts[i].kind == kind
  }

  predicate HasBasicKinds(facts: seq<Fact>) {
    HasKind(facts, Message) && HasKind(facts, Funding) && HasKind(facts, Settlement) && HasKind(facts, Beneficiary)
  }

  lemma KindWitnesses(facts: seq<Fact>, kind: FactKind, item: string)
    requires HasKind(facts, kind) && Category(item) == Some(kind)
    ensures Witnessed(facts, item)
  {
    var j :| 0 <= j < |facts| && facts[j].kind == kind;
    assert Witnesses(facts[j].kind, facts[j].reference, item);
  }

  lemma BasicItemsWitnessed(facts: seq<Fact>)
    requires HasBasicKinds(facts)
    ensures Witnessed(facts, "payment-message") && Witnessed(facts, "debit") && Witnessed(facts, "credit")
    ensures Witnessed(facts, "PAYMENT_VALUE") && Witnessed(facts, "beneficiary")
  {
    KindWitnesses(facts, Message, "payment-message");
    KindWitnesses(facts, Funding, "debit");
    KindWitnesses(facts, Funding, "credit");
    KindWitnesses(facts, Settlement, "PAYMENT_VALUE");
    KindWitnesses(facts, Beneficiary, "beneficiary");
  }

  /** Four facts, one of each basic kind, are all the same-currency profile asks for. */
  lemma BasicKindsSuffice(facts: seq<Fact>)
    requires HasBasicKinds(facts)
    ensures NothingMissing(facts, SAME_CURRENCY_PROFILE)
  {
    var p := SAME_CURRENCY_PROFILE;
    FlattenFive(p.messages, p.funding, p.fx, p.settlement, p.credits);
    BasicItemsWitnessed(facts);
    assert Required(p) == ["payment-message", "debit", "PAYMENT_VALUE", "beneficiary"];
  }

  predicate Names(facts: seq<Fact>, reference: string) {
    exists i :: 0 <= i < |facts| && facts[i].reference == reference
  }

  lemma NameWitnesses(facts: seq<Fact>, item: string)
    requires Names(facts, item)
    ensures Witnessed(facts, item)
  {
    var j :| 0 <= j < |facts| && facts[j].reference == item;
    assert Contains(facts[j].reference, item);
    assert Witnesses(facts[j].kind, facts[j].reference, item);
  }

  /** With a settlement fact for each leg of the trade they are all the cross-currency profile asks for. */
  lemma FxFactsSuffice(facts: seq<Fact>)
    requires HasBasicKinds(facts) && Names(facts, "FX_SELL") && Names(facts, "FX_BUY")
    ensures NothingMissing(facts, FX_PROFILE)
  {
    FxItems();
    forall item | item in Required(FX_PROFILE)
      ensures Witnessed(facts, item)
    {
      BasicItemsWitnessed(facts);
      NameWitnesses(facts, "FX_SELL");
      NameWitnesses(facts, "FX_BUY");
    }
  }

  lemma FxItems()
    ensures forall item :: item in Required(FX_PROFILE) ==>
                             item in {"payment-message", "debit", "credit", "FX_SELL", "FX_BUY", "PAYMENT_VALUE",
                                      "beneficiary"}
  {
    FxRequired();
  }

  lemma FlattenFirst(first: seq<string>, rest: seq<seq<string>>)
    ensures Flatten([first] + rest) == first + Flatten(rest)
  {
    assert ([first] + rest)[1..] == rest;
  }

  lemma FlattenFive(a: seq<string>, b: seq<string>, c: seq<string>, d: seq<string>, e: seq<string>)
    ensures Flatten([a, b, c, d, e]) == a + b + c + d + e
  {
    FlattenFirst(e, []);
    FlattenFirst(d, [e]);
    FlattenFirst(c, [d, e]);
    FlattenFirst(b, [c, d, e]);
    FlattenFirst(a, [b, c, d, e]);
    assert [e] + [] == [e] && [d] + [e] == [d, e] && [c] + [d, e] == [c, d, e];
    assert [b] + [c, d, e] == [b, c, d, e] && [a] + [b, c, d, e] == [a, b, c, d, e];
  }

  lemma FxRequired()
    ensures Required(FX_PROFILE) == ["payment-message", "debit", "credit", "FX_SELL", "FX_BUY",
                                     "FX_SELL", "FX_BUY", "PAYMENT_VALUE", "beneficiary"]
  {
    var p := FX_PROFILE;
    FlattenFive(p.messages, p.funding, p.fx, p.settlement, p.credits);
  }

  // ----- the policy, said in rows -----

  ghost predicate Occurs(item: string, text: string) {
    exists before: string, after: string :: before + item + after == text
  }

  lemma OccursOneLater(item: string, text: string)
    requires text != []
    ensures Occurs(item, text[1..]) ==> Occurs(item, text)
    ensures Occurs(item, text) && !(item <= text) ==> Occurs(item, text[1..])
  {
    if before, after :| before + item + after == text[1..] {
      assert ([text[0]] + before) + item + after == text;
    }
    if before, after :| before + item + after == text && !(item <= text) {
      assert before != "" by {
        assert before == "" ==> item <= text;
      }
      assert before[1..] + item + after == text[1..];
    }
  }

  lemma {:induction false} ContainsIsOccurrence(text: string, item: string)
    ensures Contains(text, item) <==> Occurs(item, text)
    decreases |text|
  {
    if item <= text {
      assert "" + item + text[|item|..] == text;
    } else if text != [] {
      ContainsIsOccurrence(text[1..], item);
      OccursOneLater(item, text);
    } else {
      assert forall before: string, after: string :: |before + item + after| >= |item| > 0;
    }
  }

  /** Some fact is of this kind, or names the item somewhere in its reference. */
  ghost predicate Shown(facts: seq<Fact>, kind: FactKind, item: string) {
    exists i :: 0 <= i < |facts| && (facts[i].kind == kind || Occurs(item, facts[i].reference))
  }

  ghost predicate Mentioned(facts: seq<Fact>, item: string) {
    exists i :: 0 <= i < |facts| && Occurs(item, facts[i].reference)
  }

  lemma ShownIsWitnessed(facts: seq<Fact>, kind: FactKind, item: string)
    requires Category(item) == Some(kind)
    ensures Witnessed(facts, item) <==> Shown(facts, kind, item)
  {
    forall i | 0 <= i < |facts|
      ensures Witnesses(facts[i].kind, facts[i].reference, item)
              <==> facts[i].kind == kind || Occurs(item, facts[i].reference)
    {
      ContainsIsOccurrence(facts[i].reference, item);
    }
  }

  lemma MentionedIsWitnessed(facts: seq<Fact>, item: string)
    requires Category(item).None?
    ensures Witnessed(facts, item) <==> Mentioned(facts, item)
  {
    forall i | 0 <= i < |facts|
      ensures Witnesses(facts[i].kind, facts[i].reference, item) <==> Occurs(item, facts[i].reference)
    {
      ContainsIsOccurrence(facts[i].reference, item);
    }
  }

  /** The facts a close asks for. */
  ghost predicate FactsShown(o: Order) {
    && Shown(o.facts, Message, "payment-message")
    && Shown(o.facts, Funding, "debit")
    && Shown(o.facts, Settlement, "PAYMENT_VALUE")
    && Shown(o.facts, Beneficiary, "beneficiary")
    && (!o.sameCurrency ==>
          Shown(o.facts, Funding, "credit") && Mentioned(o.facts, "FX_SELL") && Mentioned(o.facts, "FX_BUY"))
  }

  lemma ListedItems(facts: seq<Fact>, p: Profile, items: seq<string>)
    requires Required(p) == items
    ensures NothingMissing(facts, p) <==> forall k :: 0 <= k < |items| ==> Witnessed(facts, items[k])
  {
  }

  lemma SameCurrencyItems(facts: seq<Fact>)
    ensures NothingMissing(facts, SAME_CURRENCY_PROFILE) <==>
            && Witnessed(facts, "payment-message") && Witnessed(facts, "debit")
            && Witnessed(facts, "PAYMENT_VALUE") && Witnessed(facts, "beneficiary")
  {
    var p := SAME_CURRENCY_PROFILE;
    FlattenFive(p.messages, p.funding, p.fx, p.settlement, p.credits);
    var items := ["payment-message", "debit", "PAYMENT_VALUE", "beneficiary"];
    ListedItems(facts, p, items);
    assert items[0] == "payment-message" && items[1] == "debit" && items[2] == "PAYMENT_VALUE";
    assert items[3] == "beneficiary";
  }

  lemma CrossCurrencyItems(facts: seq<Fact>)
    ensures NothingMissing(facts, FX_PROFILE) <==>
            && Witnessed(facts, "payment-message") && Witnessed(facts, "debit") && Witnessed(facts, "credit")
            && Witnessed(facts, "FX_SELL") && Witnessed(facts, "FX_BUY")
            && Witnessed(facts, "PAYMENT_VALUE") && Witnessed(facts, "beneficiary")
  {
    FxRequired();
    var items := ["payment-message", "debit", "credit", "FX_SELL", "FX_BUY",
                  "FX_SELL", "FX_BUY", "PAYMENT_VALUE", "beneficiary"];
    ListedItems(facts, FX_PROFILE, items);
    assert items[0] == "payment-message" && items[1] == "debit" && items[2] == "credit";
    assert items[3] == "FX_SELL" && items[4] == "FX_BUY" && items[5] == "FX_SELL" && items[6] == "FX_BUY";
    assert items[7] == "PAYMENT_VALUE" && items[8] == "beneficiary";
  }

  lemma FactsShownExactly(o: Order)
    ensures NothingMissing(o.facts, ProfileOf(o)) <==> FactsShown(o)
  {
    ShownIsWitnessed(o.facts, Message, "payment-message");
    ShownIsWitnessed(o.facts, Funding, "debit");
    ShownIsWitnessed(o.facts, Settlement, "PAYMENT_VALUE");
    ShownIsWitnessed(o.facts, Beneficiary, "beneficiary");
    if o.sameCurrency {
      SameCurrencyItems(o.facts);
    } else {
      ShownIsWitnessed(o.facts, Funding, "credit");
      MentionedIsWitnessed(o.facts, "FX_SELL");
      MentionedIsWitnessed(o.facts, "FX_BUY");
      CrossCurrencyItems(o.facts);
    }
  }

  /** What lets an order be closed, row by row. */
  ghost predicate MayClose(o: Order) {
    && FactsShown(o)
    && (forall i :: 0 <= i < |o.reservations| ==>
          o.reservations[i].state != Reserved && o.reservations[i].state != ReservationRequested)
    && o.openCases == 0
    && Matched in o.reconciliations
    && o.leg.state == LegFinal && (forall i :: 0 <= i < |o.fxLegs| ==> o.fxLegs[i].state == LegFinal)
    && (exists i :: 0 <= i < |o.credits| && o.credits[i] == Credit(Credited, true)
                    && forall j :: 0 <= j < |o.credits| && j != i ==> o.credits[j].state != Credited)
    && o.postedJournals > 0
  }

  lemma OneEvidencedCredit(o: Order)
    ensures SingleCredit(o) && EvidencedCredit(o) <==>
            exists i :: 0 <= i < |o.credits| && o.credits[i] == Credit(Credited, true)
                        && forall j :: 0 <= j < |o.credits| && j != i ==> o.credits[j].state != Credited
  {
    if i :| SingleCredit(o) && 0 <= i < |o.credits| && o.credits[i].state == Credited && o.credits[i].evidenced {
      assert o.credits[i] == Credit(Credited, true);
      forall j | 0 <= j < |o.credits| && j != i
        ensures o.credits[j].state != Credited
      {
        assert i < j || j < i;
      }
    }
  }

  lemma PolicyInRows(o: Order)
    ensures SingleCredit(o) && Allows(o, ProfileOf(o)) <==> MayClose(o)
  {
    FactsShownExactly(o);
    OneEvidencedCredit(o);
  }

  /** The projection `evaluate` builds: the highest-numbered fact of each kind and reference. */
  predicate IsLatest(latest: map<(FactKind, string), Fact>, facts: seq<Fact>) {
    && (forall i :: 0 <= i < |facts| ==>
          && (facts[i].kind, facts[i].reference) in latest
          && facts[i].sequence <= latest[(facts[i].kind, facts[i].reference)].sequence)
    && (forall key :: key in latest ==>
          latest[key] in facts && latest[key].kind == key.0 && latest[key].reference == key.1)
  }

  /** Superseded facts never decide the gate: the projection and the history witness the same items. */
  lemma ProjectionWitnesses(latest: map<(FactKind, string), Fact>, facts: seq<Fact>, item: string)
    requires IsLatest(latest, facts)
    ensures Witnessed(facts, item) <==>
            exists key :: key in latest && Witnesses(latest[key].kind, latest[key].reference, item)
  {
    if Witnessed(facts, item) {
      var i :| 0 <= i < |facts| && Witnesses(facts[i].kind, facts[i].reference, item);
      var key := (facts[i].kind, facts[i].reference);
      assert key in latest && latest[key].kind == facts[i].kind && latest[key].reference == facts[i].reference;
    }
    if key :| key in latest && Witnesses(latest[key].kind, latest[key].reference, item) {
      var i :| 0 <= i < |facts| && facts[i] == latest[key];
    }
  }

  method LatestFacts(facts: seq<Fact>) returns (latest: map<(FactKind, string), Fact>)
    ensures IsLatest(latest, facts)
  {
    latest := map[];
    for i := 0 to |facts|
      invariant IsLatest(latest, facts[..i])
    {
      var fact := facts[i];
      var key := (fact.kind, fact.reference);
      assert facts[..i + 1] == facts[..i] + [fact];
      if key !in latest || fact.sequence > latest[key].sequence {
        latest := latest[key := fact];
      }
    }
    assert facts[..|facts|] == facts;
  }

  method FindMissing(facts: seq<Fact>, required: seq<string>) returns (missing: bool)
    ensures missing <==> exists j :: 0 <= j < |required| && !Witnessed(facts, required[j])
  {
    var latest := LatestFacts(facts);
    missing := false;
    for i := 0 to |required|
      invariant missing <==> exists j :: 0 <= j < i && !Witnessed(facts, required[j])
    {
      ProjectionWitnesses(latest, facts, required[i]);
      if !exists key :: key in latest && Witnesses(latest[key].kind, latest[key].reference, required[i]) {
        missing := true;
      }
    }
  }

  method CountOpen(reservations: seq<Reservation>) returns (open: nat)
    ensures open == 0 <==> forall j :: 0 <= j < |reservations| ==> !IsOpen(reservations[j])
  {
    open := 0;
    for i := 0 to |reservations|
      invariant open == 0 <==> forall j :: 0 <= j < i ==> !IsOpen(reservations[j])
    {
      if IsOpen(reservations[i]) {
        open := open + 1;
      }
    }
  }

  /** The query for the credited row, of which there may be at most one. */
  method FindCredit(o: Order) returns (r: Result<Option<Credit>>)
    ensures r.Ok? <==> SingleCredit(o)
    ensures r.Ok? ==> (EvidencedCredit(o) <==> r.value.Some? && r.value.value.evidenced)
  {
    var credit: Option<Credit> := None;
    for i := 0 to |o.credits|
      invariant credit.None? <==> forall j :: 0 <= j < i ==> o.credits[j].state != Credited
      invariant credit.Some? ==>
                  exists j :: 0 <= j < i && o.credits[j].state == Credited && credit.value == o.credits[j]
      invariant forall j, k :: 0 <= j < k < i ==> !(o.credits[j].state == Credited && o.credits[k].state == Credited)
    {
      if o.credits[i].state == Credited {
        if credit.Some? {
          return Err(ManyRows);
        }
        credit := Some(o.credits[i]);
      }
    }
    return Ok(credit);
  }

  method CheckLegs(o: Order) returns (final: bool)
    ensures final <==> AllLegsFinal(o)
  {
    var legs := [o.leg] + o.fxLegs;
    for i := 0 to |legs|
      invariant forall j :: 0 <= j < i ==> legs[j].state == LegFinal
    {
      if legs[i].state != LegFinal {
        assert i > 0 ==> legs[i] == o.fxLegs[i - 1];
        return false;
      }
    }
    assert legs[0] == o.leg && forall i :: 0 <= i < |o.fxLegs| ==> legs[i + 1] == o.fxLegs[i];
    return legs != [];
  }

  method RequiredItems(p: Profile) returns (required: seq<string>)
    ensures required == Required(p)
  {
    required := [];
    var fields := [p.messages, p.funding, p.fx, p.settlement, p.credits];
    for f := 0 to |fields|
      invariant required + Flatten(fields[f..]) == Required(p)
    {
      required := required + fields[f];
    }
    assert required == Required(p);
  }

  /** The evaluator raises when the order's active profile is missing or several rows are credited; otherwise its
      answer is the policy's. */
  method Evaluate(o: Order, profile: Option<Profile>) returns (r: Result<bool>)
    ensures r.Ok? <==> profile.Some? && SingleCredit(o)
    ensures r.Ok? ==> r.value == Allows(o, profile.value)
  {
    if profile.None? {
      return Err(NoRow);
    }
    var required := RequiredItems(profile.value);
    var missing := FindMissing(o.facts, required);
    var open := CountOpen(o.reservations);
    var final := CheckLegs(o);
    var credit :- FindCredit(o);
    return Ok(!missing && open == 0 && o.openCases == 0 && Matched in o.reconciliations
              && final && credit.Some? && credit.value.evidenced && o.postedJournals > 0);
  }
}
