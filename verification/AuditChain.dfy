/** Hash-chained audit events and what a verified chain pins down. */
module AuditChain {

  datatype Event = Event(
    eventId: string,
    kind: string,
    actorId: string,
    tenantId: string,
    sessionId: string,
    threadId: string,
    timestamp: string,
    details: string,
    eventHash: string)

  datatype Bundle = Bundle(
    bundleId: string,
    timeRangeStart: string,
    timeRangeEnd: string,
    eventCount: nat,
    hashChainVerified: bool,
    controlsCovered: seq<string>)

  /** A hexadecimal hash: injective, and its text has no bar. */
  ghost predicate IsHash(h: string -> string) {
    && (forall x, y | h(x) == h(y) :: x == y)
    && (forall x :: '|' !in h(x))
  }

  function Content(eventId: string, timestamp: string, kind: string, details: string, previousHash: string): string {
    eventId + "|" + timestamp + "|" + kind + "|" + details + "|" + previousHash
  }

  function ComputeHash(h: string -> string, e: Event, previousHash: string): string {
    h(Content(e.eventId, e.timestamp, e.kind, e.details, previousHash))
  }

  ghost predicate LinkOk(h: string -> string, events: seq<Event>, i: nat)
    requires 0 < i < |events|
  {
    events[i].eventHash == ComputeHash(h, events[i], events[i - 1].eventHash)
  }

  /** The first event is a starting point that nothing checks. */
  ghost predicate Verified(h: string -> string, events: seq<Event>) {
    forall i | 0 < i < |events| :: LinkOk(h, events, i)
  }

  method BuildEvidenceBundle(h: string -> string, bundleId: string, events: seq<Event>, controls: seq<string>)
    returns (b: Bundle)
    ensures b.hashChainVerified <==> Verified(h, events)
    ensures b.bundleId == bundleId && b.eventCount == |events| && b.controlsCovered == controls
    ensures b.timeRangeStart == (if events != [] then events[0].timestamp else "")
    ensures b.timeRangeEnd == (if events != [] then events[|events| - 1].timestamp else "")
  {
    var chainOk := true;
    var i := 0;
    while i < |events|
      invariant 0 <= i <= |events|
      invariant chainOk
      invariant forall j | 0 < j < i :: LinkOk(h, events, j)
    {
      if i > 0 {
        var expected := ComputeHash(h, events[i], events[i - 1].eventHash);
        if events[i].eventHash != expected {
          assert !LinkOk(h, events, i);
          chainOk := false;
          break;
        }
      }
      i := i + 1;
    }
    var start, end := "", "";
    if |events| > 0 {
      start, end := events[0].timestamp, events[|events| - 1].timestamp;
    }
    b := Bundle(bundleId, start, end, |events|, chainOk, controls);
  }

  // ---------------------------------------------------------------- the joined text is injective

  lemma FirstBarCuts(a: string, x: string, b: string, y: string)
    requires '|' !in a && '|' !in b
    requires a + "|" + x == b + "|" + y
    ensures a == b && x == y
  {
    var s, t := a + "|" + x, b + "|" + y;
    assert s[|a|] == '|' && t[|b|] == '|';
    assert forall k | 0 <= k < |a| :: s[k] == a[k] && s[k] != '|';
    assert forall k | 0 <= k < |b| :: t[k] == b[k] && t[k] != '|';
    assert a == s[..|a|] && b == t[..|b|];
    assert x == s[|a| + 1..] && y == t[|b| + 1..];
  }

  lemma LastBarCuts(x: string, a: string, y: string, b: string)
    requires '|' !in a && '|' !in b
    requires x + "|" + a == y + "|" + b
    ensures x == y && a == b
  {
    var s, t := x + "|" + a, y + "|" + b;
    assert s[|x|] == '|' && t[|y|] == '|';
    assert forall k | |x| < k < |s| :: s[k] == a[k - |x| - 1] && s[k] != '|';
    assert forall k | |y| < k < |t| :: t[k] == b[k - |y| - 1] && t[k] != '|';
    assert x == s[..|x|] && y == t[..|y|];
    assert a == s[|x| + 1..] && b == t[|y| + 1..];
  }

  /** Only `details` may contain bars: three cuts from the left and one from the right recover all fields. */
  lemma ContentIsInjective(id: string, ts: string, kind: string, details: string, prev: string,
                           id': string, ts': string, kind': string, details': string, prev': string)
    requires '|' !in id && '|' !in ts && '|' !in kind && '|' !in prev
    requires '|' !in id' && '|' !in ts' && '|' !in kind' && '|' !in prev'
    requires Content(id, ts, kind, details, prev) == Content(id', ts', kind', details', prev')
    ensures id == id' && ts == ts' && kind == kind' && details == details' && prev == prev'
  {
    var rest3, rest3' := details + "|" + prev, details' + "|" + prev';
    var rest2, rest2' := kind + "|" + rest3, kind' + "|" + rest3';
    var rest1, rest1' := ts + "|" + rest2, ts' + "|" + rest2';
    assert Content(id, ts, kind, details, prev) == id + "|" + rest1;
    assert Content(id', ts', kind', details', prev') == id' + "|" + rest1';
    FirstBarCuts(id, rest1, id', rest1');
    FirstBarCuts(ts, rest2, ts', rest2');
    FirstBarCuts(kind, rest3, kind', rest3');
    LastBarCuts(details, prev, details', prev');
  }

  /** The fields stand in this order, with a bar behind each but the last: the text begins with the one,
      goes on with the next, and ends with the previous hash. */
  lemma ContentIsInOrder(id: string, ts: string, kind: string, details: string, prev: string)
    ensures var text := Content(id, ts, kind, details, prev);
            && |text| == |id| + |ts| + |kind| + |details| + |prev| + 4
            && id + "|" <= text
            && ts + "|" <= text[|id| + 1..]
            && kind + "|" <= text[|id| + |ts| + 2..]
            && details + "|" <= text[|id| + |ts| + |kind| + 3..]
            && text[|text| - |prev|..] == prev
  {
    var text := Content(id, ts, kind, details, prev);
    assert text == id + ("|" + ts + "|" + kind + "|" + details + "|" + prev);
    assert text == (id + "|" + ts) + ("|" + kind + "|" + details + "|" + prev);
    assert text == (id + "|" + ts + "|" + kind + "|") + (details + "|" + prev);
  }

  /** What is hashed for an event is its id, time, kind and details, behind them its predecessor's hash. */
  lemma HashedText(h: string -> string, events: seq<Event>, i: nat)
    requires 0 < i < |events|
    ensures LinkOk(h, events, i) <==>
              events[i].eventHash
              == h(events[i].eventId + "|" + events[i].timestamp + "|" + events[i].kind + "|" + events[i].details + "|" + events[i - 1].eventHash)
  {
  }

  /** With a bar in the previous hash the text no longer determines its fields. */
  lemma BarInHashIsAmbiguous(id: string, ts: string, kind: string, details: string, x: string, y: string)
    ensures Content(id, ts, kind, details, x + "|" + y) == Content(id, ts, kind, details + "|" + x, y)
  {
    var head := id + "|" + ts + "|" + kind + "|" + details + "|";
    assert Content(id, ts, kind, details, x + "|" + y) == head + (x + "|" + y);
    assert Content(id, ts, kind, details + "|" + x, y) == head + x + "|" + y;
  }

  // ---------------------------------------------------------------- what a verified chain pins down

  ghost predicate Plain(e: Event) {
    '|' !in e.eventId && '|' !in e.timestamp && '|' !in e.kind
  }

  /** The hash that a chain starts from is checked by nothing, so that it is plain has to be asked for:
      `BarredStartHidesRewriting` says what happens otherwise. */
  ghost predicate PlainChain(events: seq<Event>) {
    && (forall i | 0 <= i < |events| :: Plain(events[i]))
    && (events != [] ==> '|' !in events[0].eventHash)
  }

  predicate SameRecord(e: Event, f: Event) {
    e.eventId == f.eventId && e.timestamp == f.timestamp && e.kind == f.kind && e.details == f.details
  }

  lemma HashesArePlain(h: string -> string, events: seq<Event>, i: nat)
    requires IsHash(h) && Verified(h, events) && PlainChain(events) && i < |events|
    ensures '|' !in events[i].eventHash
  {
    if i > 0 {
      assert LinkOk(h, events, i);
    }
  }

  /** Counted from their common last hash backwards, two verified chains carry the same hashes over their
      common length, and the same records over all of it but the first place. */
  lemma {:induction false} SameHeadSameHistory(h: string -> string, e: seq<Event>, f: seq<Event>, k: nat)
    requires IsHash(h) && Verified(h, e) && Verified(h, f) && PlainChain(e) && PlainChain(f)
    requires k < |e| && k < |f|
    requires e[|e| - 1].eventHash == f[|f| - 1].eventHash
    ensures e[|e| - 1 - k].eventHash == f[|f| - 1 - k].eventHash
    ensures k + 1 < |e| && k + 1 < |f| ==> SameRecord(e[|e| - 1 - k], f[|f| - 1 - k])
  {
    if k > 0 {
      SameHeadSameHistory(h, e, f, k - 1);
      LinksAgree(h, e, f, |e| - k, |f| - k);
    }
    if k + 1 < |e| && k + 1 < |f| {
      LinksAgree(h, e, f, |e| - 1 - k, |f| - 1 - k);
    }
  }

  /** Without a plain starting hash the details of a verified event are not pinned down: two verified chains
      of the same length, with the same last hash and plain records, differ in them. */
  lemma BarredStartHidesRewriting(h: string -> string, first: Event, second: Event, x: string, y: string)
    requires Plain(second)
    ensures var start := first.(eventHash := x + "|" + y);
            var start' := first.(eventHash := y);
            var next := second.(eventHash := ComputeHash(h, second, x + "|" + y));
            var next' := next.(details := second.details + "|" + x);
            && Verified(h, [start, next]) && Verified(h, [start', next'])
            && next.eventHash == next'.eventHash
            && Plain(next) && Plain(next') && !SameRecord(next, next')
  {
    BarInHashIsAmbiguous(second.eventId, second.timestamp, second.kind, second.details, x, y);
    var start, start' := first.(eventHash := x + "|" + y), first.(eventHash := y);
    var next := second.(eventHash := ComputeHash(h, second, x + "|" + y));
    var next' := next.(details := second.details + "|" + x);
    assert LinkOk(h, [start, next], 1) && LinkOk(h, [start', next'], 1);
    assert |next.details| < |next'.details|;
  }

  lemma LinksAgree(h: string -> string, e: seq<Event>, f: seq<Event>, i: nat, j: nat)
    requires IsHash(h) && Verified(h, e) && Verified(h, f) && PlainChain(e) && PlainChain(f)
    requires 0 < i < |e| && 0 < j < |f| && e[i].eventHash == f[j].eventHash
    ensures SameRecord(e[i], f[j]) && e[i - 1].eventHash == f[j - 1].eventHash
  {
    assert LinkOk(h, e, i) && LinkOk(h, f, j);
    HashesArePlain(h, e, i - 1);
    HashesArePlain(h, f, j - 1);
    ContentIsInjective(e[i].eventId, e[i].timestamp, e[i].kind, e[i].details, e[i - 1].eventHash,
                       f[j].eventId, f[j].timestamp, f[j].kind, f[j].details, f[j - 1].eventHash);
  }

  /** Rewriting the record of any event but the first, while every hash stays, is detected; rewriting the
      actor, tenant, session or thread is not, because those fields are not hashed. */
  lemma RewritingIsDetectedIffHashed(h: string -> string, events: seq<Event>, i: nat, e: Event)
    requires IsHash(h) && Verified(h, events) && PlainChain(events) && Plain(e)
    requires 0 < i < |events| && e.eventHash == events[i].eventHash
    ensures Verified(h, events[i := e]) <==> SameRecord(e, events[i])
  {
    var rewritten := events[i := e];
    assert LinkOk(h, events, i);
    if SameRecord(e, events[i]) {
      forall j | 0 < j < |rewritten|
        ensures LinkOk(h, rewritten, j)
      {
        assert LinkOk(h, events, j);
      }
    } else if Verified(h, rewritten) {
      assert LinkOk(h, rewritten, i);
      LinksAgree(h, rewritten, events, i, i);
      assert false;
    }
  }

  /** A prefix of a verified chain is verified, and two chains that share one event join into a verified
      chain exactly when both are verified. */
  lemma OverlappingChainsJoin(h: string -> string, a: seq<Event>, b: seq<Event>)
    requires a != [] && b != [] && a[|a| - 1] == b[0]
    ensures Verified(h, a + b[1..]) <==> Verified(h, a) && Verified(h, b)
  {
    var joined := a + b[1..];
    forall i | 0 < i < |joined|
      ensures LinkOk(h, joined, i) <==> if i < |a| then LinkOk(h, a, i) else LinkOk(h, b, i - |a| + 1)
    {
    }
    if Verified(h, joined) {
      forall i | 0 < i < |a|
        ensures LinkOk(h, a, i)
      {
        assert LinkOk(h, joined, i);
      }
      forall i | 0 < i < |b|
        ensures LinkOk(h, b, i)
      {
        assert LinkOk(h, joined, i + |a| - 1);
      }
    }
  }

  lemma PrefixIsVerified(h: string -> string, events: seq<Event>, n: nat)
    requires Verified(h, events) && n <= |events|
    ensures Verified(h, events[..n])
  {
    forall i | 0 < i < n
      ensures LinkOk(h, events[..n], i)
    {
      assert LinkOk(h, events, i);
    }
  }
}
