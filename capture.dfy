/**
 What the packet decoder hands the analyzer, and how a failure part-way through
 one packet's handling truncates what that packet writes.

 A decoded packet may carry a SIP layer. The layer is seen through two views:
 `attrs`, the attribute lookups the code performs (`hasattr(packet.sip, name)`
 and `packet.sip.name`), keyed by the attribute names the code uses, where an
 absent key is an absent field and is different from an empty value; and
 `allFields`, the layer's `_all_fields` dictionary in its iteration order.
 The capture timestamp is an opaque, already formatted string.
 */
module Capture {
  import opened Text

  datatype Option<T> = None | Some(value: T)

  datatype SipLayer = SipLayer(attrs: map<string, string>, allFields: seq<(string, string)>)

  /** `fault == Some(k)`: handling this packet raises at its write number `k`
      (counted from 0 within the packet), or in a read made after write `k - 1`
      and before write `k`; either way write `k` and every later one are lost.
      A read inside a write's own f-string counts as that write. */
  datatype Packet = Packet(sip: Option<SipLayer>, timestamp: string, fault: Option<nat>)

  /** One pass of the decoder over a capture file: the packets it yields, and the
      position at which it raises instead of yielding the next packet (a decoder
      crash), if it does. `crash == Some(|packets|)` raises after the last packet. */
  datatype Decoding = Decoding(packets: seq<Packet>, crash: Option<nat>)

  predicate Crashes(d: Decoding)
  {
    d.crash.Some? && d.crash.value <= |d.packets|
  }

  /** `count_packets`: iterating the SIP-filtered capture, one per packet; any
      exception while doing so makes the whole count 0. */
  method CountPackets(d: Decoding) returns (count: nat)
    ensures Crashes(d) ==> count == 0
    ensures !Crashes(d) ==> count == |d.packets|
  {
    count := 0;
    var i := 0;
    while i < |d.packets|
      invariant i <= |d.packets|
      invariant count == i
      invariant d.crash.None? || d.crash.value >= i
    {
      if d.crash == Some(i) {
        return 0;
      }
      count := count + 1;
      i := i + 1;
    }
    if d.crash == Some(i) {
      return 0;
    }
  }

  // ---------------------------------------------------------------------
  // Writes interrupted by an exception
  // ---------------------------------------------------------------------

  /** A packet whose handling raises at write `fault` raises inside the run of
      writes `plan` that starts at write number `k`. */
  predicate RaisesIn(plan: seq<string>, fault: Option<nat>, k: nat)
  {
    fault.Some? && k <= fault.value < k + |plan|
  }

  /** The writes of `plan` (starting at write number `k`) that reach the file:
      all of them, or those before the one that raises. */
  function Completed(plan: seq<string>, fault: Option<nat>, k: nat): (done: seq<string>)
    ensures done <= plan
    ensures RaisesIn(plan, fault, k) <==> |done| < |plan|
    ensures !RaisesIn(plan, fault, k) ==> done == plan
  {
    if RaisesIn(plan, fault, k) then plan[..fault.value - k] else plan
  }

  /** Writes `done`, then `sec`, from write number `k` on: when `done` does not
      raise, what reaches the file is all of `done` followed by whatever of `sec`
      completes, and the two raise together or not at all. */
  lemma Then(done: seq<string>, sec: seq<string>, fault: Option<nat>, k: nat)
    requires !RaisesIn(done, fault, k)
    ensures RaisesIn(done + sec, fault, k) == RaisesIn(sec, fault, k + |done|)
    ensures Completed(done + sec, fault, k) == done + Completed(sec, fault, k + |done|)
  {
    if RaisesIn(sec, fault, k + |done|) {
      var n := fault.value - k;
      assert (done + sec)[..n] == done + sec[..n - |done|];
    }
  }

  /** Once a run of writes raises, the writes planned after it never happen. */
  lemma Cut(done: seq<string>, rest: seq<string>, fault: Option<nat>, k: nat)
    requires RaisesIn(done, fault, k)
    ensures RaisesIn(done + rest, fault, k)
    ensures Completed(done + rest, fault, k) == Completed(done, fault, k)
  {
    assert (done + rest)[..fault.value - k] == done[..fault.value - k];
  }

  /** The file text after two runs of writes, the first of which does not raise. */
  lemma Chain(s0: string, s1: string, s2: string, done: seq<string>, sec: seq<string>, fault: Option<nat>, k: nat)
    requires !RaisesIn(done, fault, k)
    requires s1 == s0 + Concat(done)
    requires s2 == s1 + Concat(Completed(sec, fault, k + |done|))
    ensures RaisesIn(done + sec, fault, k) == RaisesIn(sec, fault, k + |done|)
    ensures s2 == s0 + Concat(Completed(done + sec, fault, k))
  {
    var c := Completed(sec, fault, k + |done|);
    Then(done, sec, fault, k);
    ConcatAppend(done, c);
    Assoc(s0, Concat(done), Concat(c));
  }

  lemma TakeNext<T>(s: seq<T>, i: nat)
    requires i < |s|
    ensures s[..i] + [s[i]] == s[..i + 1]
  {
  }

  lemma TakeAll<T>(s: seq<T>)
    ensures s[..|s|] == s
  {
  }

  lemma TakeFront<T>(s: seq<T>, t: seq<T>)
    ensures (s + t)[..|s|] == s
  {
  }

  lemma TakeDrop<T>(s: seq<T>, i: nat)
    requires i <= |s|
    ensures s[..i] + s[i..] == s
  {
  }
}
