/** The bounded replay buffer of one session (internal/session/ringbuf.go), proved
    against the full log of envelopes that were ever pushed. */
module RingBuffers {
  datatype Envelope = Envelope(id: string, payload: string)

  /** An envelope with its serialized byte cost. */
  datatype Entry = Entry(env: Envelope, size: nat)

  function Total(s: seq<Entry>): nat
  {
    if s == [] then 0 else s[0].size + Total(s[1..])
  }

  lemma {:induction false} TotalConcat(a: seq<Entry>, b: seq<Entry>)
    ensures Total(a + b) == Total(a) + Total(b)
  {
    if a == [] {
      assert a + b == b;
    } else {
      assert (a + b)[1..] == a[1..] + b;
      TotalConcat(a[1..], b);
    }
  }

  predicate Fits(s: seq<Entry>, cap: nat, maxBytes: nat)
  {
    |s| <= cap && Total(s) <= maxBytes
  }

  /** The eviction loop: drop from the head while a cap is exceeded, but never the last entry. */
  function Evict(items: seq<Entry>, cap: nat, maxBytes: nat): (r: seq<Entry>)
  {
    if |items| <= 1 || Fits(items, cap, maxBytes) then items else Evict(items[1..], cap, maxBytes)
  }

  /** What a buffer should hold, said of the whole log: the longest suffix that
      meets both caps, or the last entry alone when no suffix does. */
  ghost predicate IsWindow(w: seq<Entry>, log: seq<Entry>, cap: nat, maxBytes: nat)
  {
    && |w| <= |log| && w == log[|log| - |w|..]
    && (log != [] ==> w != [])
    && (|w| <= 1 || Fits(w, cap, maxBytes))
    && forall j :: 0 <= j < |log| - |w| ==> !Fits(log[j..], cap, maxBytes)
  }

  lemma {:induction false} EvictSuffix(items: seq<Entry>, cap: nat, maxBytes: nat)
    ensures var r := Evict(items, cap, maxBytes);
      && |r| <= |items| && r == items[|items| - |r|..]
      && (items != [] ==> r != [])
      && (|r| <= 1 || Fits(r, cap, maxBytes))
      && forall j :: 0 <= j < |items| - |r| ==> !Fits(items[j..], cap, maxBytes)
  {
    if |items| <= 1 || Fits(items, cap, maxBytes) {
      assert items[0..] == items;
    } else {
      EvictSuffix(items[1..], cap, maxBytes);
      var r := Evict(items, cap, maxBytes);
      forall j | 0 <= j < |items| - |r| ensures !Fits(items[j..], cap, maxBytes) {
        if j == 0 {
          assert items[0..] == items;
        } else {
          assert items[1..][j - 1..] == items[j..];
        }
      }
    }
  }

  /** One push turns the window of a log into the window of the longer log. */
  lemma PushKeepsWindow(w: seq<Entry>, log: seq<Entry>, e: Entry, cap: nat, maxBytes: nat)
    requires IsWindow(w, log, cap, maxBytes)
    ensures IsWindow(Evict(w + [e], cap, maxBytes), log + [e], cap, maxBytes)
  {
    var longer, grown := log + [e], w + [e];
    EvictSuffix(grown, cap, maxBytes);
    var r := Evict(grown, cap, maxBytes);
    var k := |log| - |w|;
    assert longer[k..] == grown;
    assert longer[|longer| - |r|..] == grown[|grown| - |r|..];
    forall j | 0 <= j < |longer| - |r| ensures !Fits(longer[j..], cap, maxBytes) {
      if j < k {
        assert longer[j..] == log[j..] + [e];
        TotalConcat(log[j..], [e]);
      } else {
        assert longer[j..] == grown[j - k..];
      }
    }
  }

  /** The window is determined by the log and the caps. */
  lemma WindowUnique(v: seq<Entry>, w: seq<Entry>, log: seq<Entry>, cap: nat, maxBytes: nat)
    requires cap >= 1
    requires IsWindow(v, log, cap, maxBytes) && IsWindow(w, log, cap, maxBytes)
    ensures v == w
  {
  }

  /** The buffer after pushing a whole log into a new buffer, one entry at a time. */
  function Pushed(log: seq<Entry>, cap: nat, maxBytes: nat): (w: seq<Entry>)
  {
    if log == [] then []
    else Evict(Pushed(log[..|log| - 1], cap, maxBytes) + [log[|log| - 1]], cap, maxBytes)
  }

  /** After any sequence of pushes the buffer is the window of the full log. */
  lemma {:induction false} PushedIsWindow(log: seq<Entry>, cap: nat, maxBytes: nat)
    ensures IsWindow(Pushed(log, cap, maxBytes), log, cap, maxBytes)
  {
    if log == [] {
    } else {
      var before, e := log[..|log| - 1], log[|log| - 1];
      assert before + [e] == log;
      PushedIsWindow(before, cap, maxBytes);
      assert IsWindow(Evict(Pushed(before, cap, maxBytes) + [e], cap, maxBytes), before + [e], cap, maxBytes) by {
        PushKeepsWindow(Pushed(before, cap, maxBytes), before, e, cap, maxBytes);
      }
      assert Pushed(log, cap, maxBytes) == Evict(Pushed(before, cap, maxBytes) + [e], cap, maxBytes);
    }
  }

  /** The buffer is memoryless: it only depends on the last `cap` entries of the log. */
  lemma PushedForgets(log: seq<Entry>, recent: seq<Entry>, cap: nat, maxBytes: nat)
    requires cap >= 1
    requires |recent| <= |log| && recent == log[|log| - |recent|..]
    requires recent == log || cap <= |recent|
    ensures Pushed(recent, cap, maxBytes) == Pushed(log, cap, maxBytes)
  {
    PushedIsWindow(recent, cap, maxBytes);
    PushedIsWindow(log, cap, maxBytes);
    WindowOfRecent(Pushed(recent, cap, maxBytes), log, recent, cap, maxBytes);
    WindowUnique(Pushed(recent, cap, maxBytes), Pushed(log, cap, maxBytes), log, cap, maxBytes);
  }

  lemma WindowOfRecent(w: seq<Entry>, log: seq<Entry>, recent: seq<Entry>, cap: nat, maxBytes: nat)
    requires cap >= 1 && IsWindow(w, recent, cap, maxBytes)
    requires |recent| <= |log| && recent == log[|log| - |recent|..] && (recent == log || cap <= |recent|)
    ensures IsWindow(w, log, cap, maxBytes)
  {
    var k := |log| - |recent|;
    assert w == log[|log| - |w|..];
    forall j | 0 <= j < |log| - |w| ensures !Fits(log[j..], cap, maxBytes) {
      if j >= k { assert log[j..] == recent[j - k..]; }
    }
  }

  // ---- Reading back ----

  /** Go's byte-wise string order. */
  predicate Less(a: string, b: string)
  {
    if b == "" then false
    else if a == "" then true
    else if a[0] == b[0] then Less(a[1..], b[1..])
    else a[0] < b[0]
  }

  /** The order is by the first difference, and a proper prefix comes first. */
  ghost predicate DifferAt(a: string, b: string, k: nat)
  {
    k <= |a| && k < |b| && a[..k] == b[..k] && (k < |a| ==> a[k] < b[k])
  }

  lemma {:induction false} LessIff(a: string, b: string)
    ensures Less(a, b) <==> exists k: nat :: DifferAt(a, b, k)
  {
    if b == "" {
    } else if a == "" || a[0] < b[0] {
      assert DifferAt(a, b, 0);
    } else if a[0] > b[0] {
      forall k: nat ensures !DifferAt(a, b, k) {
        if 0 < k <= |a| && k <= |b| { assert a[..k][0] == a[0] && b[..k][0] == b[0]; }
      }
    } else {
      LessIff(a[1..], b[1..]);
      if k: nat :| DifferAt(a, b, k) {
        assert k > 0;
        DifferLater(a, b, k - 1);
      } else if k: nat :| DifferAt(a[1..], b[1..], k) {
        DifferLater(a, b, k);
      }
    }
  }

  lemma DifferLater(a: string, b: string, k: nat)
    requires a != "" && b != "" && a[0] == b[0]
    ensures DifferAt(a, b, k + 1) <==> DifferAt(a[1..], b[1..], k)
  {
    if k + 1 <= |a| && k + 1 <= |b| {
      assert a[..k + 1] == [a[0]] + a[1..][..k] && b[..k + 1] == [b[0]] + b[1..][..k];
      assert a[..k + 1][1..] == a[1..][..k] && b[..k + 1][1..] == b[1..][..k];
    }
  }

  lemma {:induction false} LessAsymmetric(a: string, b: string)
    ensures !(Less(a, b) && Less(b, a))
  {
    if a == "" || b == "" || a[0] != b[0] {
    } else {
      LessAsymmetric(a[1..], b[1..]);
    }
  }

  /** Ids in generation order: the monotonic ULIDs the server mints. */
  ghost predicate Increasing(log: seq<Entry>)
  {
    forall i, j :: 0 <= i < j < |log| ==> Less(log[i].env.id, log[j].env.id)
  }

  function Envelopes(s: seq<Entry>): (r: seq<Envelope>)
    ensures |r| == |s|
  {
    seq(|s|, i requires 0 <= i < |s| => s[i].env)
  }

  datatype Reply = Reply(events: seq<Envelope>, stale: bool)

  ghost predicate Holds(items: seq<Entry>, id: string)
  {
    exists i :: 0 <= i < |items| && items[i].env.id == id
  }

  /** What Since promises about its buffer, for any ids. */
  ghost predicate SinceMeets(items: seq<Entry>, lastID: string, r: Reply)
  {
    if lastID == "" then r == Reply([], false)
    else if r.stale then
      r.events == []
      && (items == [] || Less(lastID, items[0].env.id) || Less(items[|items| - 1].env.id, lastID)
          || !Holds(items, lastID))
    else
      && items != [] && !Less(lastID, items[0].env.id) && !Less(items[|items| - 1].env.id, lastID)
      && exists i :: 0 <= i < |items| && items[i].env.id == lastID
                     && (forall j :: 0 <= j < i ==> items[j].env.id != lastID)
                     && r.events == Envelopes(items[i + 1..])
  }

  lemma HeldIsInRange(items: seq<Entry>, id: string)
    requires Increasing(items) && Holds(items, id)
    ensures !Less(id, items[0].env.id) && !Less(items[|items| - 1].env.id, id)
  {
    var i :| 0 <= i < |items| && items[i].env.id == id;
    LessAsymmetric(id, items[0].env.id);
    LessAsymmetric(items[|items| - 1].env.id, id);
    if i > 0 { assert Less(items[0].env.id, items[i].env.id); }
    if i < |items| - 1 { assert Less(items[i].env.id, items[|items| - 1].env.id); }
  }

  lemma TailOfWindow(w: seq<Entry>, log: seq<Entry>, i: nat)
    requires |w| <= |log| && w == log[|log| - |w|..] && i < |w|
    ensures var k := |log| - |w| + i;
      log[k] == w[i] && Envelopes(log[..k + 1]) + Envelopes(w[i + 1..]) == Envelopes(log)
  {
  }

  /** With increasing ids, against the full log: the answer is stale exactly when
      the id is no longer buffered, and otherwise it is precisely everything that
      came after the id — no gap, no partial suffix. */
  lemma SinceIsComplete(log: seq<Entry>, cap: nat, maxBytes: nat, lastID: string, r: Reply)
    requires Increasing(log) && lastID != ""
    requires SinceMeets(Pushed(log, cap, maxBytes), lastID, r)
    ensures !r.stale <==> Holds(Pushed(log, cap, maxBytes), lastID)
    ensures !r.stale ==> exists k :: 0 <= k < |log| && log[k].env.id == lastID
                                     && Envelopes(log[..k + 1]) + r.events == Envelopes(log)
  {
    PushedIsWindow(log, cap, maxBytes);
    WindowAnswers(Pushed(log, cap, maxBytes), log, lastID, r);
  }

  lemma WindowAnswers(w: seq<Entry>, log: seq<Entry>, lastID: string, r: Reply)
    requires Increasing(log) && lastID != ""
    requires |w| <= |log| && w == log[|log| - |w|..]
    requires SinceMeets(w, lastID, r)
    ensures !r.stale <==> Holds(w, lastID)
    ensures !r.stale ==> exists k :: 0 <= k < |log| && log[k].env.id == lastID
                                     && Envelopes(log[..k + 1]) + r.events == Envelopes(log)
  {
    if Holds(w, lastID) {
      assert Increasing(w);
      HeldIsInRange(w, lastID);
    }
    if !r.stale {
      var i :| 0 <= i < |w| && w[i].env.id == lastID && r.events == Envelopes(w[i + 1..]);
      TailOfWindow(w, log, i);
    }
  }

  class RingBuffer {
    const cap: nat
    const maxBytes: nat
    var bytes: int
    var items: seq<Entry>

    ghost predicate Valid()
      reads this
    {
      cap >= 1 && maxBytes >= 1 && bytes == Total(items)
    }

    /** NewRingBuffer: positive caps are kept, the others become 1. */
    constructor (cap: int, maxBytes: int)
      ensures Valid() && items == []
      ensures (cap >= 1 ==> this.cap == cap) && (cap < 1 ==> this.cap == 1)
      ensures (maxBytes >= 1 ==> this.maxBytes == maxBytes) && (maxBytes < 1 ==> this.maxBytes == 1)
    {
      this.cap := AtLeastOne(cap);
      this.maxBytes := AtLeastOne(maxBytes);
      bytes := 0;
      items := [];
    }

    /** Push: append, then evict from the head. */
    method Push(e: Entry)
      requires Valid()
      modifies this
      ensures Valid() && items == Evict(old(items) + [e], cap, maxBytes)
    {
      items := items + [e];
      bytes := bytes + e.size;
      ghost var grown := items;
      TotalConcat(old(items), [e]);
      while |items| > cap || bytes > maxBytes
        invariant items != [] && bytes == Total(items)
        invariant Evict(items, cap, maxBytes) == Evict(grown, cap, maxBytes)
        decreases |items|
      {
        if |items| == 1 {
          return;
        }
        bytes := bytes - items[0].size;
        items := items[1..];
      }
    }

    /** Since */
    method Since(lastID: string) returns (r: Reply)
      ensures SinceMeets(items, lastID, r)
    {
      if lastID == "" { return Reply([], false); }
      if |items| == 0 { return Reply([], true); }
      if Less(lastID, items[0].env.id) { return Reply([], true); }
      if Less(items[|items| - 1].env.id, lastID) { return Reply([], true); }
      var i := 0;
      while i < |items|
        invariant 0 <= i <= |items|
        invariant forall j :: 0 <= j < i ==> items[j].env.id != lastID
      {
        if items[i].env.id == lastID {
          var tail := items[i + 1..];
          var out := [];
          var j := 0;
          while j < |tail|
            invariant 0 <= j <= |tail| && out == Envelopes(tail[..j])
          {
            out := out + [tail[j].env];
            j := j + 1;
          }
          assert tail[..|tail|] == tail;
          return Reply(out, false);
        }
        i := i + 1;
      }
      return Reply([], true);
    }
  }

  function AtLeastOne(n: int): nat { if n < 1 then 1 else n }
}
