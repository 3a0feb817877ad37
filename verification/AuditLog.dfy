/** Hash-chained audit log (sentrylink/governance/audit.py). */
module Audit {
  /** What an entry records; every part has a finite text, as the hashed JSON does. */
  datatype Payload = Payload(id: string, ts: int, action: string, details: string)

  datatype Entry = Entry(payload: Payload, prevHash: string, hash: string)

  /** SHA-256 over the canonical JSON of the previous hash and the payload. */
  type HashFn = (string, Payload) -> string

  const GENESIS: string := "0000000000000000000000000000000000000000000000000000000000000000"

  /** Collision-free, and never the genesis value. */
  ghost predicate Ideal(h: HashFn) {
    && (forall p, a, q, b {:trigger h(p, a), h(q, b)} :: h(p, a) == h(q, b) ==> p == q && a == b)
    && forall p, a :: h(p, a) != GENESIS
  }

  /** The hash an entry at position k must continue. */
  function TipBefore(entries: seq<Entry>, k: nat): string
    requires k <= |entries|
  {
    if k == 0 then GENESIS else entries[k - 1].hash
  }

  function Tip(entries: seq<Entry>): string {
    TipBefore(entries, |entries|)
  }

  predicate LinkAt(h: HashFn, entries: seq<Entry>, k: nat)
    requires k < |entries|
  {
    && entries[k].prevHash == TipBefore(entries, k)
    && entries[k].hash == h(TipBefore(entries, k), entries[k].payload)
  }

  ghost predicate Verifies(h: HashFn, entries: seq<Entry>) {
    forall k {:trigger LinkAt(h, entries, k)} :: 0 <= k < |entries| ==> LinkAt(h, entries, k)
  }

  function NextEntry(h: HashFn, tip: string, payload: Payload): Entry {
    Entry(payload, tip, h(tip, payload))
  }

  class AuditLog {
    const h: HashFn
    var entries: seq<Entry>
    var prevHash: string

    ghost predicate Valid()
      reads this
    {
      prevHash == Tip(entries)
    }

    constructor (h: HashFn)
      ensures Valid() && this.h == h && entries == []
    {
      this.h, entries, prevHash := h, [], GENESIS;
    }

    method Record(payload: Payload) returns (e: Entry)
      requires Valid()
      modifies this
      ensures Valid() && entries == old(entries) + [e]
      ensures e == NextEntry(h, Tip(old(entries)), payload)
      ensures old(Verifies(h, entries)) ==> Verifies(h, entries)
    {
      e := Entry(payload, prevHash, h(prevHash, payload));
      RecordVerifies(h, entries, payload);
      entries := entries + [e];
      prevHash := e.hash;
    }

    method VerifyChain() returns (ok: bool)
      ensures ok <==> Verifies(h, entries)
    {
      var prev := GENESIS;
      for k := 0 to |entries|
        invariant prev == TipBefore(entries, k)
        invariant forall j {:trigger LinkAt(h, entries, j)} :: 0 <= j < k ==> LinkAt(h, entries, j)
      {
        var e := entries[k];
        if e.hash != h(prev, e.payload) || e.prevHash != prev {
          assert !LinkAt(h, entries, k);
          return false;
        }
        prev := e.hash;
      }
      return true;
    }

    method Restore(stored: seq<Entry>)
      modifies this
      ensures Valid() && entries == stored
    {
      entries := stored;
      prevHash := if stored == [] then GENESIS else stored[|stored| - 1].hash;
    }
  }

  lemma RecordVerifies(h: HashFn, entries: seq<Entry>, payload: Payload)
    ensures var longer := entries + [NextEntry(h, Tip(entries), payload)];
            Verifies(h, longer) <==> Verifies(h, entries)
  {
    var longer := entries + [NextEntry(h, Tip(entries), payload)];
    forall k | 0 <= k < |entries| ensures LinkAt(h, longer, k) <==> LinkAt(h, entries, k) {
      assert TipBefore(longer, k) == TipBefore(entries, k);
    }
    assert LinkAt(h, longer, |entries|);
    if Verifies(h, longer) {
      forall k | 0 <= k < |entries| ensures LinkAt(h, entries, k) {
        assert LinkAt(h, longer, k);
      }
    }
  }

  /** A restored log extended by any number of records. */
  function Recorded(h: HashFn, stored: seq<Entry>, payloads: seq<Payload>): seq<Entry> {
    if payloads == [] then stored
    else
      var before := Recorded(h, stored, payloads[..|payloads| - 1]);
      before + [NextEntry(h, Tip(before), payloads[|payloads| - 1])]
  }

  /** Recording never repairs and never breaks a chain. */
  lemma {:induction false} RunVerifies(h: HashFn, stored: seq<Entry>, payloads: seq<Payload>)
    ensures Verifies(h, Recorded(h, stored, payloads)) <==> Verifies(h, stored)
  {
    if payloads != [] {
      RunVerifies(h, stored, payloads[..|payloads| - 1]);
      RecordVerifies(h, Recorded(h, stored, payloads[..|payloads| - 1]), payloads[|payloads| - 1]);
    }
  }

  lemma PrefixVerifies(h: HashFn, entries: seq<Entry>, k: nat)
    requires Verifies(h, entries) && k <= |entries|
    ensures Verifies(h, entries[..k])
  {
    forall j | 0 <= j < k ensures LinkAt(h, entries[..k], j) {
      assert LinkAt(h, entries, j);
      assert TipBefore(entries[..k], j) == TipBefore(entries, j);
    }
  }

  /** The head of a verifying log determines the whole log. */
  lemma {:induction false} SameHeadSameLog(h: HashFn, a: seq<Entry>, b: seq<Entry>)
    requires Ideal(h) && Verifies(h, a) && Verifies(h, b) && Tip(a) == Tip(b)
    ensures a == b
    decreases |a|
  {
    if a != [] {
      assert LinkAt(h, a, |a| - 1);
    }
    if b != [] {
      assert LinkAt(h, b, |b| - 1);
    }
    if a != [] && b != [] {
      var m, n := |a| - 1, |b| - 1;
      PrefixVerifies(h, a, m);
      PrefixVerifies(h, b, n);
      assert TipBefore(a, m) == Tip(a[..m]) && TipBefore(b, n) == Tip(b[..n]);
      SameHeadSameLog(h, a[..m], b[..n]);
      assert a == a[..m] + [a[m]] && b == b[..n] + [b[n]];
    }
  }

  /** A verifying log whose last entry occurs in another verifying log is a prefix of it. */
  lemma SharedEntryMeansPrefix(h: HashFn, a: seq<Entry>, b: seq<Entry>)
    requires Ideal(h) && Verifies(h, a) && Verifies(h, b) && b != [] && b[|b| - 1] in a
    ensures b <= a
  {
    var j :| 0 <= j < |a| && a[j] == b[|b| - 1];
    PrefixVerifies(h, a, j + 1);
    SameHeadSameLog(h, a[..j + 1], b);
  }

  /**
   * Among all logs built from entries of a verifying log, exactly its prefixes verify: no gap, swap or cut front goes
   * unnoticed.
   */
  lemma OnlyPrefixesVerify(h: HashFn, a: seq<Entry>, b: seq<Entry>)
    requires Ideal(h) && Verifies(h, a) && forall e :: e in b ==> e in a
    ensures Verifies(h, b) <==> b <= a
  {
    if b <= a {
      PrefixVerifies(h, a, |b|);
      assert b == a[..|b|];
    } else if Verifies(h, b) {
      SharedEntryMeansPrefix(h, a, b);
    }
  }

  lemma SuffixIsNoPrefix(h: HashFn, a: seq<Entry>, k: nat)
    requires Ideal(h) && Verifies(h, a) && 0 < k < |a|
    ensures !Verifies(h, a[k..])
  {
    assert LinkAt(h, a, k - 1) && LinkAt(h, a, k);
    assert !LinkAt(h, a[k..], 0);
  }

  /** A rearrangement of a verifying log verifies only if it is the log itself. */
  lemma ReorderingDetected(h: HashFn, a: seq<Entry>, b: seq<Entry>)
    requires Ideal(h) && Verifies(h, a) && multiset(a) == multiset(b)
    ensures Verifies(h, b) <==> a == b
  {
    forall e | e in b ensures e in a {
      assert e in multiset(b);
    }
    assert |a| == |multiset(a)| && |b| == |multiset(b)|;
    OnlyPrefixesVerify(h, a, b);
  }
}
