/** The audit log as a hash chain: what its verification accepts, and how far the last hash fixes the history. */
module AuditChain {
  import opened Results

  /** `tags` stands for the event type, aggregate and trace, which the hash does not cover. */
  datatype Event = Event(tags: string, payload: string, hash: string, previous: Option<string>)

  /** The text that is hashed. */
  function Text(previous: Option<string>, payload: string): string {
    (if previous.Some? then previous.value else "") + ":" + payload
  }

  function PreviousAt(log: seq<Event>, i: nat): Option<string>
    requires i <= |log|
  {
    if i == 0 then None else Some(log[i - 1].hash)
  }

  predicate LinkHolds(hash: string -> string, log: seq<Event>, i: nat)
    requires i < |log|
  {
    log[i].previous == PreviousAt(log, i) && log[i].hash == hash(Text(PreviousAt(log, i), log[i].payload))
  }

  predicate Accepted(hash: string -> string, log: seq<Event>) {
    forall i :: 0 <= i < |log| ==> LinkHolds(hash, log, i)
  }

  function Payloads(log: seq<Event>): seq<string> {
    seq(|log|, i requires 0 <= i < |log| => log[i].payload)
  }

  class AuditChainService {
    const hash: string -> string
    var events: seq<Event>

    constructor (hash: string -> string)
      ensures this.hash == hash && events == []
    {
      this.hash := hash;
      events := [];
    }

    method Append(tags: string, payload: string) returns (e: Event)
      modifies this`events
      ensures events == old(events) + [e] && e.tags == tags && e.payload == payload
      ensures LinkHolds(hash, events, |old(events)|)
      ensures Accepted(hash, events) <==> Accepted(hash, old(events))
    {
      var previous := if events == [] then None else Some(events[|events| - 1].hash);
      e := Event(tags, payload, hash(Text(previous, payload)), previous);
      events := events + [e];
      AppendKeepsVerdict(hash, old(events), e);
    }

    method Verify() returns (ok: bool)
      ensures ok <==> Accepted(hash, events)
    {
      var previous := None;
      for i := 0 to |events|
        invariant previous == PreviousAt(events, i)
        invariant forall j :: 0 <= j < i ==> LinkHolds(hash, events, j)
      {
        var e := events[i];
        if e.previous != previous {
          assert !LinkHolds(hash, events, i);
          return false;
        }
        if hash(Text(previous, e.payload)) != e.hash {
          assert !LinkHolds(hash, events, i);
          return false;
        }
        previous := Some(e.hash);
      }
      return true;
    }
  }

  lemma AppendKeepsVerdict(hash: string -> string, log: seq<Event>, e: Event)
    requires LinkHolds(hash, log + [e], |log|)
    ensures Accepted(hash, log + [e]) <==> Accepted(hash, log)
  {
    forall i | 0 <= i < |log|
      ensures LinkHolds(hash, log + [e], i) <==> LinkHolds(hash, log, i)
    {
    }
  }

  // ----- what the last hash fixes -----

  /** What the digest's hexadecimal form guarantees. */
  ghost predicate Hexadecimal(hash: string -> string) {
    forall text :: hash(text) != "" && ':' !in hash(text)
  }

  /** The texts hashed for a log. */
  ghost function Texts(log: seq<Event>): set<string> {
    set i | 0 <= i < |log| :: Text(PreviousAt(log, i), log[i].payload)
  }

  /** No two different texts of the set have the same hash. */
  ghost predicate CollisionFree(hash: string -> string, texts: set<string>) {
    forall x, y :: x in texts && y in texts && hash(x) == hash(y) ==> x == y
  }

  predicate Plain(previous: Option<string>) {
    previous.Some? ==> previous.value != "" && ':' !in previous.value
  }

  /** The separator makes the hashed text unambiguous. */
  lemma TextIsInjective(p: Option<string>, x: string, q: Option<string>, y: string)
    requires Plain(p) && Plain(q) && Text(p, x) == Text(q, y)
    ensures p == q && x == y
  {
    var a, b := if p.Some? then p.value else "", if q.Some? then q.value else "";
    var t := Text(p, x);
    assert t[|a|] == ':' && t[|b|] == ':';
    assert forall i :: 0 <= i < |a| ==> t[i] == a[i];
    assert forall i :: 0 <= i < |b| ==> t[i] == b[i];
    assert |a| == |b|;
    assert a == t[..|a|] && b == t[..|b|];
    assert x == t[|a| + 1..] && y == t[|b| + 1..];
  }

  lemma SameHashSameLink(hash: string -> string, a: seq<Event>, i: nat, b: seq<Event>, j: nat)
    requires Hexadecimal(hash) && Accepted(hash, a) && Accepted(hash, b)
    requires CollisionFree(hash, Texts(a) + Texts(b))
    requires i < |a| && j < |b| && a[i].hash == b[j].hash
    ensures PreviousAt(a, i) == PreviousAt(b, j) && a[i].payload == b[j].payload && a[i].previous == b[j].previous
  {
    assert LinkHolds(hash, a, i) && LinkHolds(hash, b, j);
    var x, y := Text(PreviousAt(a, i), a[i].payload), Text(PreviousAt(b, j), b[j].payload);
    assert x in Texts(a) && y in Texts(b);
    assert x == y;
    PreviousIsPlain(hash, a, i);
    PreviousIsPlain(hash, b, j);
    TextIsInjective(PreviousAt(a, i), a[i].payload, PreviousAt(b, j), b[j].payload);
  }

  lemma PreviousIsPlain(hash: string -> string, log: seq<Event>, i: nat)
    requires Hexadecimal(hash) && Accepted(hash, log) && i < |log|
    ensures Plain(PreviousAt(log, i))
  {
    if i > 0 {
      assert LinkHolds(hash, log, i - 1);
    }
  }

  /** Rows with the same hash have the same payload and the same predecessor. */
  ghost predicate LinksAgree(a: seq<Event>, b: seq<Event>) {
    forall i, j :: 0 <= i < |a| && 0 <= j < |b| && a[i].hash == b[j].hash ==>
                     PreviousAt(a, i) == PreviousAt(b, j) && a[i].payload == b[j].payload
  }

  lemma {:induction false} HistoriesAgree(a: seq<Event>, i: nat, b: seq<Event>, j: nat)
    requires LinksAgree(a, b) && i < |a| && j < |b| && a[i].hash == b[j].hash
    ensures i == j
    ensures forall k :: 0 <= k <= i ==> a[k].payload == b[k].payload && a[k].hash == b[k].hash
    decreases i
  {
    assert PreviousAt(a, i) == PreviousAt(b, j);
    if i > 0 {
      HistoriesAgree(a, i - 1, b, j - 1);
    }
  }

  lemma AcceptedLinksAgree(hash: string -> string, a: seq<Event>, b: seq<Event>)
    requires Hexadecimal(hash) && Accepted(hash, a) && Accepted(hash, b)
    requires CollisionFree(hash, Texts(a) + Texts(b))
    ensures LinksAgree(a, b)
  {
    forall m: nat, n: nat | m < |a| && n < |b| && a[m].hash == b[n].hash
      ensures PreviousAt(a, m) == PreviousAt(b, n) && a[m].payload == b[n].payload
    {
      SameHashSameLink(hash, a, m, b, n);
    }
  }

  /** Two accepted logs that agree on one hash agree on every payload and hash up to it, and it stands at the same
      place. */
  lemma {:induction false} SameHashSameHistory(hash: string -> string, a: seq<Event>, i: nat, b: seq<Event>, j: nat)
    requires Hexadecimal(hash) && Accepted(hash, a) && Accepted(hash, b)
    requires CollisionFree(hash, Texts(a) + Texts(b))
    requires i < |a| && j < |b| && a[i].hash == b[j].hash
    ensures i == j
    ensures forall k :: 0 <= k <= i ==> a[k].payload == b[k].payload && a[k].hash == b[k].hash
  {
    AcceptedLinksAgree(hash, a, b);
    HistoriesAgree(a, i, b, j);
  }

  /** Accepted logs with the same last hash have the same length and the same payloads. */
  lemma {:induction false} LastHashFixesHistory(hash: string -> string, a: seq<Event>, b: seq<Event>)
    requires Hexadecimal(hash) && Accepted(hash, a) && Accepted(hash, b)
    requires CollisionFree(hash, Texts(a) + Texts(b))
    requires a != [] && b != [] && a[|a| - 1].hash == b[|b| - 1].hash
    ensures Payloads(a) == Payloads(b)
  {
    AcceptedLinksAgree(hash, a, b);
    AgreedPayloads(a, b);
  }

  lemma AgreedPayloads(a: seq<Event>, b: seq<Event>)
    requires LinksAgree(a, b) && a != [] && b != [] && a[|a| - 1].hash == b[|b| - 1].hash
    ensures Payloads(a) == Payloads(b)
  {
    HistoriesAgree(a, |a| - 1, b, |b| - 1);
    SamePayloads(a, b);
  }

  lemma SamePayloads(a: seq<Event>, b: seq<Event>)
    requires |a| == |b| && forall k :: 0 <= k < |a| ==> a[k].payload == b[k].payload
    ensures Payloads(a) == Payloads(b)
  {
  }

  /** A log accepted after one of its payloads was changed in place needs a collision. */
  lemma ChangedPayloadIsRejected(hash: string -> string, log: seq<Event>, i: nat, payload: string)
    requires Hexadecimal(hash) && Accepted(hash, log) && i < |log| && payload != log[i].payload
    requires CollisionFree(hash, Texts(log) + Texts(log[i := log[i].(payload := payload)]))
    ensures !Accepted(hash, log[i := log[i].(payload := payload)])
  {
    var changed := log[i := log[i].(payload := payload)];
    if Accepted(hash, changed) {
      SameHashSameHistory(hash, log, i, changed, i);
      assert false;
    }
  }

  // ----- what appending builds, and what verification does not see -----

  /** The log that appending the payloads in turn builds. */
  function Build(hash: string -> string, tags: string, payloads: seq<string>): seq<Event> {
    if payloads == [] then []
    else
      var n := |payloads| - 1;
      var log := Build(hash, tags, payloads[..n]);
      var previous := PreviousAt(log, |log|);
      log + [Event(tags, payloads[n], hash(Text(previous, payloads[n])), previous)]
  }

  lemma {:induction false} BuiltLogsAreAccepted(hash: string -> string, tags: string, payloads: seq<string>)
    ensures Accepted(hash, Build(hash, tags, payloads))
    ensures Payloads(Build(hash, tags, payloads)) == payloads
    decreases |payloads|
  {
    if payloads != [] {
      var n := |payloads| - 1;
      var log := Build(hash, tags, payloads[..n]);
      BuiltLogsAreAccepted(hash, tags, payloads[..n]);
      var built := Build(hash, tags, payloads);
      AppendKeepsVerdict(hash, log, built[|log|]);
      assert built == log + [built[|log|]];
      assert Payloads(built) == Payloads(log) + [payloads[n]];
    }
  }

  /** Verification alone cannot see that the end of a log is missing, nor a change to what the hash does not cover. */
  lemma PrefixesAndTagsPass(hash: string -> string, log: seq<Event>, n: nat, i: nat, tags: string)
    requires Accepted(hash, log) && n <= |log| && i < |log|
    ensures Accepted(hash, log[..n])
    ensures Accepted(hash, log[i := log[i].(tags := tags)])
  {
    var retagged := log[i := log[i].(tags := tags)];
    forall j | 0 <= j < |log|
      ensures LinkHolds(hash, retagged, j) && (j < n ==> LinkHolds(hash, log[..n], j))
    {
      assert LinkHolds(hash, log, j);
    }
  }
}
