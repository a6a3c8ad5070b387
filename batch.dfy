/**
 The name of a capture's report within a batch run: the capture's base name
 with `.pcap` replaced by `.txt`, as Python's `str.replace` does it, that is
 every occurrence, scanned left to right, none overlapping the previous one.
 The joining of that name onto the output directory is not part of this model.
 */
module Batch {
  import opened Text

  const PcapSuffix: string := ".pcap"
  const TxtSuffix: string := ".txt"

  /** `baseName.replace('.pcap', '.txt')`. */
  function OutputName(baseName: string): string
    decreases |baseName|
  {
    if PcapSuffix <= baseName then TxtSuffix + OutputName(baseName[|PcapSuffix|..])
    else if baseName == [] then []
    else [baseName[0]] + OutputName(baseName[1..])
  }

  /** Each replacement shortens the name by one, so the name comes back unchanged
      exactly when it has no `.pcap` in it. */
  lemma {:induction false} OutputNameUnchanged(baseName: string)
    ensures |OutputName(baseName)| <= |baseName|
    ensures OutputName(baseName) == baseName <==> !Contains(baseName, PcapSuffix)
    decreases |baseName|
  {
    if PcapSuffix <= baseName {
      OutputNameUnchanged(baseName[|PcapSuffix|..]);
      assert OccursAt(baseName, PcapSuffix, 0);
    } else if baseName != [] {
      OutputNameUnchanged(baseName[1..]);
      if Contains(baseName, PcapSuffix) {
        assert Contains(baseName[1..], PcapSuffix);
      } else {
        assert !Contains(baseName[1..], PcapSuffix);
      }
    }
  }

  /** `.pcap` cannot start inside the stem and end inside the suffix, because no
      proper suffix of `.pcap` begins with its dot. */
  lemma NotEarly(stem: string, rest: string)
    requires stem != []
    requires !(PcapSuffix <= stem)
    ensures !(PcapSuffix <= stem + PcapSuffix + rest)
  {
    var s := stem + PcapSuffix + rest;
    if |stem| >= |PcapSuffix| {
      assert s[..|PcapSuffix|] == stem[..|PcapSuffix|];
    } else {
      assert s[|stem|] == '.';
    }
  }

  /** The first `.pcap` after a stem free of it is replaced, and the scan goes on
      after it. */
  lemma {:induction false} FirstOccurrence(stem: string, rest: string)
    requires !Contains(stem, PcapSuffix)
    ensures OutputName(stem + PcapSuffix + rest) == stem + TxtSuffix + OutputName(rest)
    decreases |stem|
  {
    if stem == [] {
      assert stem + PcapSuffix + rest == PcapSuffix + rest;
      assert (PcapSuffix + rest)[|PcapSuffix|..] == rest;
    } else {
      var s := stem + PcapSuffix + rest;
      var t := stem[1..] + TxtSuffix + OutputName(rest);
      assert s[1..] == stem[1..] + PcapSuffix + rest;
      FirstOccurrence(stem[1..], rest);
      assert OutputName(s) == [stem[0]] + t by {
        NotEarly(stem, rest);
        assert s[0] == stem[0];
      }
      assert stem == [stem[0]] + stem[1..];
      ConsAssoc(stem[0], stem[1..], TxtSuffix, OutputName(rest));
    }
  }

  lemma ConsAssoc<T>(h: T, u: seq<T>, v: seq<T>, w: seq<T>)
    ensures [h] + u + v + w == [h] + (u + v + w)
  {
  }

  /** A capture `<stem>.pcap` whose stem has no `.pcap` in it is reported to
      `<stem>.txt`. */
  lemma CaptureOutputName(stem: string)
    requires !Contains(stem, PcapSuffix)
    ensures OutputName(stem + PcapSuffix) == stem + TxtSuffix
  {
    FirstOccurrence(stem, []);
    assert stem + PcapSuffix + [] == stem + PcapSuffix;
    assert stem + TxtSuffix + [] == stem + TxtSuffix;
  }

  /** Every occurrence is replaced, not only the extension: `<stem>.pcap.pcap`
      becomes `<stem>.txt.txt`. */
  lemma EveryOccurrence(stem: string)
    requires !Contains(stem, PcapSuffix)
    ensures OutputName(stem + PcapSuffix + PcapSuffix) == stem + TxtSuffix + TxtSuffix
  {
    FirstOccurrence(stem, PcapSuffix);
    CaptureOutputName([]);
    assert [] + PcapSuffix == PcapSuffix;
    assert [] + TxtSuffix == TxtSuffix;
  }
}
