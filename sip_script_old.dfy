/**
 The older analyzer's `extract_sip_info`: the request method is read from the
 first present of three fields and accepted case-insensitively, the
 P-Access-Network-Info and Cellular-Network-Info lines come from a first-match
 scan over all fields of the SIP layer, only the REGISTER and INVITE counters
 ever change, and each file's run appends one block to the batch-wide
 `summary.txt`.
 */
module SipScriptOld {
  import opened Text
  import opened Capture
  import opened Layout

  // ---------------------------------------------------------------------
  // Classification
  // ---------------------------------------------------------------------

  /** The request method: the value of the first present field among
      `request_method`, `Method` and `method`. */
  function MethodOf(a: map<string, string>): Option<string>
  {
    if "request_method" in a then Some(a["request_method"])
    else if "Method" in a then Some(a["Method"])
    else if "method" in a then Some(a["method"])
    else None
  }

  /** A non-empty method whose upper-case form is REGISTER or INVITE. */
  function Kind(requestMethod: string): Option<MessageType>
  {
    if requestMethod == "" then None
    else if Upper(requestMethod) == "REGISTER" then Some(Register)
    else if Upper(requestMethod) == "INVITE" then Some(Invite)
    else None
  }

  /** An accepted SIP layer: its method as written, and the type it names. */
  function Accepted(sip: SipLayer): Option<(string, MessageType)>
  {
    match MethodOf(sip.attrs)
    case None => None
    case Some(m) =>
      match Kind(m)
      case None => None
      case Some(t) => Some((m, t))
  }

  // ---------------------------------------------------------------------
  // The detail block
  // ---------------------------------------------------------------------

  /** The value of the first field, in the dictionary's order, whose lower-cased name
      contains `needle`. */
  function FirstMatch(fields: seq<(string, string)>, needle: string): Option<string>
  {
    if fields == [] then None
    else if Contains(Lower(fields[0].0), needle) then Some(fields[0].1)
    else FirstMatch(fields[1..], needle)
  }

  /** The line of a first-match scan, if some field matches. */
  function ScanWrites(fields: seq<(string, string)>, needle: string, title: string): seq<string>
  {
    match FirstMatch(fields, needle)
    case None => []
    case Some(v) => [title + ": " + v + "\n"]
  }

  function HeadWrites(requestMethod: string, timestamp: string): seq<string>
  {
    [TypeLabel + requestMethod + "\n", TimestampLabel + timestamp + "\n"]
  }

  /** The To and Route lines. */
  function FieldsWrites(a: map<string, string>): seq<string>
  {
    FieldWrites(a, "to", "To") + FieldWrites(a, "route", "Route")
  }

  /** The two first-match scans. */
  function ScansWrites(fields: seq<(string, string)>): seq<string>
  {
    ScanWrites(fields, "access-network-info", PaniTitle)
    + ScanWrites(fields, "cellular-network", CniTitle)
  }

  /** Every write of an accepted packet's block, when nothing raises. */
  function BlockWrites(sip: SipLayer, requestMethod: string, timestamp: string): seq<string>
  {
    HeadWrites(requestMethod, timestamp) + FieldsWrites(sip.attrs) + ScansWrites(sip.allFields) + [Dashes]
  }

  /** The writes of one packet that reach the scratch file. */
  function PacketWrites(p: Packet): seq<string>
  {
    match p.sip
    case None => []
    case Some(sip) =>
      match Accepted(sip)
      case None => []
      case Some(mt) => Completed(BlockWrites(sip, mt.0, p.timestamp), p.fault, 0)
  }

  /** The scratch file's text for the packets `ps`, after its heading. */
  function Details(ps: seq<Packet>): string
  {
    if ps == [] then "" else Details(ps[..|ps| - 1]) + Concat(PacketWrites(ps[|ps| - 1]))
  }

  // ---------------------------------------------------------------------
  // Counters
  // ---------------------------------------------------------------------

  datatype Counters = Counters(
    register: nat, invite: nat,
    paniRegister: nat, paniInvite: nat,
    cniRegister: nat, cniInvite: nat,
    ieee80211n: nat, eutranFddPani: nat, eutranFddCni: nat)

  const Zero := Counters(0, 0, 0, 0, 0, 0, 0, 0, 0)

  /** The counter update of one packet: REGISTER or INVITE, and only once its whole
      block has been written. */
  function Tally(c: Counters, p: Packet): Counters
  {
    match p.sip
    case None => c
    case Some(sip) =>
      match Accepted(sip)
      case None => c
      case Some(mt) =>
        if RaisesIn(BlockWrites(sip, mt.0, p.timestamp), p.fault, 0) then c
        else if mt.1 == Register then c.(register := c.register + 1)
        else c.(invite := c.invite + 1)
  }

  /** The counters after the packets `ps`, from zero. */
  function Run(ps: seq<Packet>): Counters
  {
    if ps == [] then Zero else Tally(Run(ps[..|ps| - 1]), ps[|ps| - 1])
  }

  // ---------------------------------------------------------------------
  // The report and the batch summary
  // ---------------------------------------------------------------------

  /** The heading and labels of the network-type counts. */
  const NetworkTypeHeading: string := "Network Type Analysis in REGISTER Messages:\n"
  const Ieee80211nLabel: string := "IEEE-802.11n in " + PaniTitle + ": "
  const EutranPaniLabel: string := "3GPP-E-UTRAN-FDD in " + PaniTitle + ": "
  const EutranCniLabel: string := "3GPP-E-UTRAN-FDD in " + CniTitle + ": "
  const FileLabel: string := "\nFile: "

  function SummaryWrites(date: string, inputName: string, total: nat, c: Counters): seq<string>
  {
    [ SummaryTitle,
      Rule,
      DateLabel + date + "\n",
      InputLabel + inputName + "\n",
      TotalLabel + NatToString(total) + "\n",
      RegisterLabel + NatToString(c.register) + "\n",
      InviteLabel + NatToString(c.invite) + "\n",
      AvailabilityHeading,
      PaniRegisterLabel + NatToString(c.paniRegister) + "\n",
      PaniInviteLabel + NatToString(c.paniInvite) + "\n",
      CniRegisterLabel + NatToString(c.cniRegister) + "\n",
      CniInviteLabel + NatToString(c.cniInvite) + "\n",
      "\n" + NetworkTypeHeading,
      Ieee80211nLabel + NatToString(c.ieee80211n) + "\n",
      EutranPaniLabel + NatToString(c.eutranFddPani) + "\n",
      EutranCniLabel + NatToString(c.eutranFddCni) + "\n",
      Rule + "\n" ]
  }

  /** The final report: the summary block, then the scratch file's text as reading it
      back in text mode gives it. */
  function Report(date: string, inputName: string, total: nat, c: Counters, scratch: string): string
  {
    Concat(SummaryWrites(date, inputName, total, c)) + ReadBack(scratch)
  }

  /** The block one file's run appends to `summary.txt`. */
  function LogWrites(inputName: string, c: Counters): seq<string>
  {
    [ FileLabel + inputName + "\n",
      Rule,
      NetworkTypeHeading,
      Ieee80211nLabel + NatToString(c.ieee80211n) + "\n",
      EutranPaniLabel + NatToString(c.eutranFddPani) + "\n",
      EutranCniLabel + NatToString(c.eutranFddCni) + "\n",
      Dashes ]
  }

  /** `summary.txt`: opened in append mode by each file of a batch, so whatever was
      there stays. */
  class SummaryLog {
    var text: string

    constructor (existing: string)
      ensures text == existing
    {
      text := existing;
    }

    /** The writes `chunks`, in order, after what is there. */
    method Append(chunks: seq<string>)
      modifies this
      ensures text == old(text) + Concat(chunks)
    {
      var i := 0;
      while i < |chunks|
        invariant i <= |chunks|
        invariant text == old(text) + Concat(chunks[..i])
      {
        TakeNext(chunks, i);
        ConcatAppend(chunks[..i], [chunks[i]]);
        Assoc(old(text), Concat(chunks[..i]), chunks[i]);
        text := text + chunks[i];
        i := i + 1;
      }
      TakeAll(chunks);
    }
  }

  // ---------------------------------------------------------------------
  // The analysis of one file
  // ---------------------------------------------------------------------

  /** The local state of one `extract_sip_info` call. */
  class FileAnalysis {
    var registerCount: nat
    var inviteCount: nat
    var paniRegisterCount: nat
    var paniInviteCount: nat
    var cniRegisterCount: nat
    var cniInviteCount: nat
    var ieee80211nCount: nat
    var eutranFddPaniCount: nat
    var eutranFddCniCount: nat
    var scratch: string       // the temporary file's text
    var scratchExists: bool   // the temporary file is still on disk
    var progress: nat         // updates of the progress bar
    ghost var seen: seq<Packet>

    function Counts(): Counters
      reads this
    {
      Counters(registerCount, inviteCount, paniRegisterCount, paniInviteCount,
               cniRegisterCount, cniInviteCount, ieee80211nCount, eutranFddPaniCount, eutranFddCniCount)
    }

    ghost predicate Valid()
      reads this
    {
      && Counts() == Run(seen)
      && scratch == ScratchHeader + Details(seen)
      && scratchExists
      && progress == |seen|
    }

    /** Nine counters at zero; the scratch file is opened and given its heading. */
    constructor ()
      ensures Valid() && seen == []
    {
      registerCount, inviteCount := 0, 0;
      paniRegisterCount, paniInviteCount := 0, 0;
      cniRegisterCount, cniInviteCount := 0, 0;
      ieee80211nCount, eutranFddPaniCount, eutranFddCniCount := 0, 0, 0;
      scratch := ScratchHeader;
      scratchExists := true;
      progress := 0;
      seen := [];
    }

    /** One `file.write`, which raises when it is the packet's faulty write `k`. */
    method Write(chunk: string, fault: Option<nat>, k: nat) returns (raised: bool)
      modifies this`scratch
      ensures raised == RaisesIn([chunk], fault, k)
      ensures scratch == old(scratch) + Concat(Completed([chunk], fault, k))
    {
      raised := fault == Some(k);
      if !raised {
        scratch := scratch + chunk;
      }
    }

    /** A header written on one line, if present. */
    method WriteField(a: map<string, string>, attr: string, title: string, fault: Option<nat>, k: nat)
      returns (raised: bool, next: nat)
      modifies this`scratch
      ensures raised == RaisesIn(FieldWrites(a, attr, title), fault, k)
      ensures !raised ==> next == k + |FieldWrites(a, attr, title)|
      ensures scratch == old(scratch) + Concat(Completed(FieldWrites(a, attr, title), fault, k))
    {
      raised, next := false, k;
      if attr in a {
        raised := Write(title + ": " + a[attr] + "\n", fault, k);
        next := k + 1;
      }
    }

    /** The `for field_name, field_value in sip_headers.items()` scan: the first
        field whose lower-cased name contains `needle` is written, then the scan
        stops. */
    method WriteFirstMatch(fields: seq<(string, string)>, needle: string, title: string, fault: Option<nat>, k: nat)
      returns (raised: bool, next: nat)
      modifies this`scratch
      ensures raised == RaisesIn(ScanWrites(fields, needle, title), fault, k)
      ensures !raised ==> next == k + |ScanWrites(fields, needle, title)|
      ensures scratch == old(scratch) + Concat(Completed(ScanWrites(fields, needle, title), fault, k))
    {
      raised, next := false, k;
      var i := 0;
      while i < |fields|
        invariant i <= |fields|
        invariant FirstMatch(fields[i..], needle) == FirstMatch(fields, needle)
        invariant scratch == old(scratch)
      {
        assert fields[i..][1..] == fields[i + 1..];
        if Contains(Lower(fields[i].0), needle) {
          raised := Write(title + ": " + fields[i].1 + "\n", fault, k);
          next := k + 1;
          return;
        }
        i := i + 1;
      }
    }

    /** The message type, as written in the packet, and the timestamp. */
    method WriteHead(requestMethod: string, timestamp: string, fault: Option<nat>) returns (raised: bool, next: nat)
      modifies this`scratch
      ensures raised == RaisesIn(HeadWrites(requestMethod, timestamp), fault, 0)
      ensures !raised ==> next == 2
      ensures scratch == old(scratch) + Concat(Completed(HeadWrites(requestMethod, timestamp), fault, 0))
    {
      ghost var plan := HeadWrites(requestMethod, timestamp);
      next := 2;
      var first := TypeLabel + requestMethod + "\n";
      raised := Write(first, fault, 0);
      if raised {
        Cut([first], plan[1..], fault, 0);
        assert [first] + plan[1..] == plan;
        return;
      }
      ghost var s1 := scratch;
      var second := TimestampLabel + timestamp + "\n";
      raised := Write(second, fault, 1);
      Chain(old(scratch), s1, scratch, [first], [second], fault, 0);
    }

    /** The To line, then the Route line. */
    method WriteFields(a: map<string, string>, fault: Option<nat>, k: nat) returns (raised: bool, next: nat)
      modifies this`scratch
      ensures raised == RaisesIn(FieldsWrites(a), fault, k)
      ensures !raised ==> next == k + |FieldsWrites(a)|
      ensures scratch == old(scratch) + Concat(Completed(FieldsWrites(a), fault, k))
    {
      ghost var to := FieldWrites(a, "to", "To");
      raised, next := WriteField(a, "to", "To", fault, k);
      if raised {
        Cut(to, FieldWrites(a, "route", "Route"), fault, k);
        return;
      }
      ghost var s1 := scratch;
      raised, next := WriteField(a, "route", "Route", fault, next);
      Chain(old(scratch), s1, scratch, to, FieldWrites(a, "route", "Route"), fault, k);
    }

    /** The P-Access-Network-Info scan, then the Cellular-Network-Info scan. */
    method WriteScans(fields: seq<(string, string)>, fault: Option<nat>, k: nat) returns (raised: bool, next: nat)
      modifies this`scratch
      ensures raised == RaisesIn(ScansWrites(fields), fault, k)
      ensures !raised ==> next == k + |ScansWrites(fields)|
      ensures scratch == old(scratch) + Concat(Completed(ScansWrites(fields), fault, k))
    {
      ghost var pani := ScanWrites(fields, "access-network-info", PaniTitle);
      ghost var cni := ScanWrites(fields, "cellular-network", CniTitle);
      raised, next := WriteFirstMatch(fields, "access-network-info", PaniTitle, fault, k);
      if raised {
        Cut(pani, cni, fault, k);
        return;
      }
      ghost var s1 := scratch;
      raised, next := WriteFirstMatch(fields, "cellular-network", CniTitle, fault, next);
      Chain(old(scratch), s1, scratch, pani, cni, fault, k);
    }

    /** The writes of one accepted packet's block; `raised` when one of them raises. */
    method WriteBlock(sip: SipLayer, requestMethod: string, timestamp: string, fault: Option<nat>) returns (raised: bool)
      modifies this`scratch
      ensures raised == RaisesIn(BlockWrites(sip, requestMethod, timestamp), fault, 0)
      ensures scratch == old(scratch) + Concat(Completed(BlockWrites(sip, requestMethod, timestamp), fault, 0))
    {
      ghost var head := HeadWrites(requestMethod, timestamp);
      ghost var fields := FieldsWrites(sip.attrs);
      ghost var scans := ScansWrites(sip.allFields);
      var k;
      raised, k := WriteHead(requestMethod, timestamp, fault);
      if raised {
        Cut(head, fields, fault, 0);
        Cut(head + fields, scans, fault, 0);
        Cut(head + fields + scans, [Dashes], fault, 0);
        return;
      }
      ghost var s1 := scratch;
      raised, k := WriteFields(sip.attrs, fault, k);
      Chain(old(scratch), s1, scratch, head, fields, fault, 0);
      if raised {
        Cut(head + fields, scans, fault, 0);
        Cut(head + fields + scans, [Dashes], fault, 0);
        return;
      }
      s1 := scratch;
      raised, k := WriteScans(sip.allFields, fault, k);
      Chain(old(scratch), s1, scratch, head + fields, scans, fault, 0);
      if raised {
        Cut(head + fields + scans, [Dashes], fault, 0);
        return;
      }
      s1 := scratch;
      raised := Write(Dashes, fault, k);
      Chain(old(scratch), s1, scratch, head + fields + scans, [Dashes], fault, 0);
    }

    /** The `if`/`elif` chain that picks the method field. */
    static method ReadMethod(a: map<string, string>) returns (requestMethod: Option<string>)
      ensures requestMethod == MethodOf(a)
    {
      requestMethod := None;
      if "request_method" in a {
        requestMethod := Some(a["request_method"]);
      } else if "Method" in a {
        requestMethod := Some(a["Method"]);
      } else if "method" in a {
        requestMethod := Some(a["method"]);
      }
    }

    /** The body of the `try` for one packet: pick and check the method, write the
        block, and count the packet only once the dash line is written. */
    method Handle(p: Packet)
      modifies this`registerCount, this`inviteCount, this`scratch
      ensures Counts() == Tally(old(Counts()), p)
      ensures scratch == old(scratch) + Concat(PacketWrites(p))
    {
      if p.sip.None? {
        return;
      }
      var sip := p.sip.value;
      var requestMethod := ReadMethod(sip.attrs);
      if requestMethod.None? || requestMethod.value == "" {
        return;
      }
      var m := requestMethod.value;
      var upper := Upper(m);
      if upper != "REGISTER" && upper != "INVITE" {
        return;
      }
      var raised := WriteBlock(sip, m, p.timestamp, p.fault);
      if raised {
        return;
      }
      if upper == "REGISTER" {
        registerCount := registerCount + 1;
      } else if upper == "INVITE" {
        inviteCount := inviteCount + 1;
      }
    }

    /** One packet of the `for packet in capture` loop: the `try` body, then the
        progress update of the `finally`. */
    method Process(p: Packet)
      requires Valid()
      modifies this
      ensures Valid() && seen == old(seen) + [p]
      ensures registerCount + inviteCount <= progress
    {
      Handle(p);
      progress := progress + 1;
      seen := seen + [p];
      Snoc(old(seen), p);
      Assoc(ScratchHeader, Details(old(seen)), Concat(PacketWrites(p)));
      assert Counts() == Run(seen);
      assert scratch == ScratchHeader + Details(seen);
      RunBounds(seen);
    }

    /** The `for packet in capture` loop over one decoder pass; `crashed` when the
        decoder raised, which ends the loop. */
    method ProcessCapture(d: Decoding) returns (crashed: bool)
      requires Valid() && seen == []
      modifies this
      ensures Valid()
      ensures crashed == Crashes(d)
      ensures seen == if crashed then d.packets[..d.crash.value] else d.packets
    {
      var i := 0;
      while i < |d.packets|
        invariant Valid()
        invariant i <= |d.packets|
        invariant d.crash.None? || d.crash.value >= i
        invariant seen == d.packets[..i]
      {
        if d.crash == Some(i) {
          return true;
        }
        Process(d.packets[i]);
        TakeNext(d.packets, i);
        i := i + 1;
      }
      TakeAll(d.packets);
      return d.crash == Some(i);
    }

    /** The final report: the summary block, then the scratch file read back whole. */
    method WriteReport(date: string, inputName: string, total: nat) returns (report: string)
      ensures report == Report(date, inputName, total, Counts(), scratch)
    {
      report := Concat(SummaryWrites(date, inputName, total, Counts())) + ReadBack(scratch);
    }

    /** The removal of the scratch file. */
    method RemoveScratch()
      modifies this`scratchExists
      ensures !scratchExists
    {
      scratchExists := false;
    }
  }

  /** Processing one more packet extends the counters and the detail text by it. */
  lemma Snoc(ps: seq<Packet>, p: Packet)
    ensures Run(ps + [p]) == Tally(Run(ps), p)
    ensures Details(ps + [p]) == Details(ps) + Concat(PacketWrites(p))
  {
    TakeNext(ps + [p], |ps|);
    TakeAll(ps);
  }

  /** After any packets, the REGISTER and INVITE counts sum to at most the number of
      packets, and the other seven counters are still zero. */
  lemma {:induction false} RunBounds(ps: seq<Packet>)
    ensures Run(ps).register + Run(ps).invite <= |ps|
    ensures Run(ps).(register := 0, invite := 0) == Zero
  {
    if ps != [] {
      RunBounds(ps[..|ps| - 1]);
    }
  }

  /** When the counting pass and the extraction pass decode the same packets and
      neither fails, the report's REGISTER and INVITE counts sum to at most its
      Total. */
  lemma AgreeingPassesBound(countPass: Decoding, extractPass: Decoding)
    requires countPass.packets == extractPass.packets
    requires !Crashes(countPass) && !Crashes(extractPass)
    ensures var total := if Crashes(countPass) then 0 else |countPass.packets|;
      Run(extractPass.packets).register + Run(extractPass.packets).invite <= total
  {
    RunBounds(extractPass.packets);
  }

  /** The two passes are independent, so that bound fails when only the counting
      pass raises: a REGISTER request whose block completes is then reported beside
      a Total of 0. */
  lemma CountPassFailureBreaksBound(p: Packet)
    requires p.sip.Some? && Accepted(p.sip.value).Some? && Accepted(p.sip.value).value.1 == Register
    requires !RaisesIn(BlockWrites(p.sip.value, Accepted(p.sip.value).value.0, p.timestamp), p.fault, 0)
    ensures var countPass, extractPass := Decoding([p], Some(0)), Decoding([p], None);
      && Crashes(countPass) && !Crashes(extractPass)
      && (if Crashes(countPass) then 0 else |countPass.packets|) == 0
      && Run(extractPass.packets).register == 1
  {
    assert [p][..0] == [];
  }

  // ---------------------------------------------------------------------
  // Properties of classification
  // ---------------------------------------------------------------------

  /** A method exists exactly when one of the three fields does, and a field of lower
      priority is never read while one of higher priority is present. */
  lemma MethodPriority(a: map<string, string>, v: string)
    ensures MethodOf(a).Some? <==> "request_method" in a || "Method" in a || "method" in a
    ensures "request_method" in a ==>
      MethodOf(a["Method" := v]) == MethodOf(a) && MethodOf(a["method" := v]) == MethodOf(a)
    ensures "Method" in a ==> MethodOf(a["method" := v]) == MethodOf(a)
  {
    assert "request_method" != "Method" && "request_method" != "method" && "Method" != "method";
  }

  /** Acceptance ignores case: a method and its upper-case form are accepted alike. */
  lemma KindIgnoresCase(m: string)
    ensures Kind(Upper(m)) == Kind(m)
  {
    UpperIdempotent(m);
    UpperEmpty(m);
  }

  /** Every spelling of REGISTER or INVITE in mixed ASCII case is accepted. */
  lemma AnyCaseAccepted(m: string)
    ensures CaseVariant(m, "REGISTER") ==> Kind(m) == Some(Register)
    ensures CaseVariant(m, "INVITE") ==> Kind(m) == Some(Invite)
  {
    if CaseVariant(m, "REGISTER") {
      UpperOfCaseVariant(m, "REGISTER");
    }
    if CaseVariant(m, "INVITE") {
      UpperOfCaseVariant(m, "INVITE");
    }
  }

  /** `regıster`, with a dotless i, upper-cases to REGISTER and is accepted too. */
  lemma DotlessRegister()
    ensures Kind("reg" + ['\U{131}'] + "ster") == Some(Register)
  {
    var m := "reg" + ['\U{131}'] + "ster";
    UpperAppend("reg" + ['\U{131}'], "ster");
    UpperAppend("reg", ['\U{131}']);
    assert Upper(['\U{131}']) == "I" by {
      assert ['\U{131}'][1..] == [];
    }
    UpperOfCaseVariant("reg", "REG");
    UpperOfCaseVariant("ster", "STER");
    assert Upper(m) == "REG" + "I" + "STER";
  }

  // ---------------------------------------------------------------------
  // Properties of the detail block
  // ---------------------------------------------------------------------

  predicate Matches(fields: seq<(string, string)>, i: nat, needle: string)
    requires i < |fields|
  {
    Contains(Lower(fields[i].0), needle)
  }

  /** A first field named after the header in any mix of cases, such as
      `P-Access-Network-Info`, is what the P-Access-Network-Info scan finds. */
  lemma TitleFieldFound(name: string, v: string, rest: seq<(string, string)>)
    requires LowerVariant(name, "p-access-network-info")
    ensures FirstMatch([(name, v)] + rest, "access-network-info") == Some(v)
  {
    LowerOfVariant(name, "p-access-network-info");
    assert OccursAt("p-access-network-info", "access-network-info", 2);
    assert ([(name, v)] + rest)[0] == (name, v);
  }

  /** The scan finds nothing exactly when no field name matches, and otherwise the
      value of the first field whose name matches. */
  lemma {:induction false} FirstMatchSpec(fields: seq<(string, string)>, needle: string)
    ensures FirstMatch(fields, needle).None? <==> forall i :: 0 <= i < |fields| ==> !Matches(fields, i, needle)
    ensures FirstMatch(fields, needle).Some? ==>
      exists i :: (0 <= i < |fields|
        && Matches(fields, i, needle) && FirstMatch(fields, needle).value == fields[i].1
        && forall j :: 0 <= j < i ==> !Matches(fields, j, needle))
  {
    if fields != [] && !Matches(fields, 0, needle) {
      var rest := fields[1..];
      FirstMatchSpec(rest, needle);
      assert forall i :: 0 <= i < |rest| ==> (Matches(rest, i, needle) <==> Matches(fields, i + 1, needle));
      if FirstMatch(rest, needle).Some? {
        var i :| 0 <= i < |rest| && Matches(rest, i, needle) && FirstMatch(rest, needle).value == rest[i].1
          && forall j :: 0 <= j < i ==> !Matches(rest, j, needle);
        assert forall j :: 0 <= j < i + 1 ==> !Matches(fields, j, needle) by {
          forall j | 0 <= j < i + 1 ensures !Matches(fields, j, needle) {
            if j > 0 {
              assert !Matches(rest, j - 1, needle);
            }
          }
        }
      } else {
        forall i | 0 <= i < |fields| ensures !Matches(fields, i, needle) {
          if i > 0 {
            assert !Matches(rest, i - 1, needle);
          }
        }
      }
    }
  }

  /** A block opens with the message type as the packet wrote it and the timestamp,
      closes with the dash line, and holds in between the To and Route lines and at
      most one line from each scan; there is no From line. */
  lemma BlockShape(sip: SipLayer, requestMethod: string, timestamp: string)
    ensures var w := BlockWrites(sip, requestMethod, timestamp); var a := sip.attrs; var f := sip.allFields;
      && w[0] == TypeLabel + requestMethod + "\n"
      && w[1] == TimestampLabel + timestamp + "\n"
      && w[|w| - 1] == Dashes
      && w[2..|w| - 1] == FieldWrites(a, "to", "To") + FieldWrites(a, "route", "Route")
           + ScanWrites(f, "access-network-info", PaniTitle)
           + ScanWrites(f, "cellular-network", CniTitle)
      && |ScanWrites(f, "access-network-info", PaniTitle)| <= 1
      && |ScanWrites(f, "cellular-network", CniTitle)| <= 1
  {
    var mid := FieldsWrites(sip.attrs) + ScansWrites(sip.allFields);
    var w := BlockWrites(sip, requestMethod, timestamp);
    assert w == HeadWrites(requestMethod, timestamp) + mid + [Dashes];
    assert w[2..|w| - 1] == mid;
  }

  /** The From header has no part in the old block: changing it changes nothing the
      packet writes or counts. */
  lemma FromIgnored(p: Packet, v: string)
    requires p.sip.Some?
    ensures var q := p.(sip := Some(p.sip.value.(attrs := p.sip.value.attrs["from_" := v])));
      PacketWrites(q) == PacketWrites(p) && (forall c :: Tally(c, q) == Tally(c, p))
  {
    var a := p.sip.value.attrs;
    var b := a["from_" := v];
    assert "from_" != "to" && "from_" != "route";
    assert "from_" != "request_method" && "from_" != "Method" && "from_" != "method";
    assert FieldsWrites(b) == FieldsWrites(a);
    assert MethodOf(b) == MethodOf(a);
  }

  // ---------------------------------------------------------------------
  // Properties of the counters
  // ---------------------------------------------------------------------

  /** A packet is counted exactly when it is accepted and its whole block, dash line
      included, is written; it then raises only the count of its own type. */
  lemma CountedWhenComplete(c: Counters, p: Packet)
    ensures Tally(c, p) != c <==>
      && p.sip.Some? && Accepted(p.sip.value).Some?
      && !RaisesIn(BlockWrites(p.sip.value, Accepted(p.sip.value).value.0, p.timestamp), p.fault, 0)
    ensures Tally(c, p) != c ==>
      var t := Accepted(p.sip.value).value.1;
      Tally(c, p) == if t == Register then c.(register := c.register + 1) else c.(invite := c.invite + 1)
  {
  }

  /** A packet whose SIP layer has nothing but an accepted method writes its two
      head lines and the dash line, and is counted unless one of those raises. */
  lemma MethodOnly(m: string, t: MessageType, timestamp: string, fault: Option<nat>)
    requires Kind(m) == Some(t)
    ensures var p := Packet(Some(SipLayer(map["request_method" := m], [])), timestamp, fault);
      var w := HeadWrites(m, timestamp) + [Dashes];
      && PacketWrites(p) == Completed(w, fault, 0)
      && Tally(Zero, p) == if RaisesIn(w, fault, 0) then Zero
                           else if t == Register then Zero.(register := 1) else Zero.(invite := 1)
  {
    var sip := SipLayer(map["request_method" := m], []);
    assert MethodOf(sip.attrs) == Some(m);
    assert "to" !in sip.attrs && "route" !in sip.attrs;
    assert FieldsWrites(sip.attrs) == [];
    assert ScansWrites([]) == [];
    assert BlockWrites(sip, m, timestamp) == HeadWrites(m, timestamp) + [Dashes];
  }

  /** A lower-case `register` is written as is and counted as a REGISTER, but not when
      writing its dash line raises. */
  lemma LowerCaseRegister(timestamp: string)
    ensures var p := Packet(Some(SipLayer(map["request_method" := "register"], [])), timestamp, None);
      && PacketWrites(p) == HeadWrites("register", timestamp) + [Dashes]
      && Tally(Zero, p) == Zero.(register := 1)
    ensures var p := Packet(Some(SipLayer(map["request_method" := "register"], [])), timestamp, Some(2));
      && PacketWrites(p) == HeadWrites("register", timestamp)
      && Tally(Zero, p) == Zero
  {
    var m := "register";
    AnyCaseAccepted(m);
    MethodOnly(m, Register, timestamp, None);
    MethodOnly(m, Register, timestamp, Some(2));
    TakeFront(HeadWrites(m, timestamp), [Dashes]);
  }

  /** Whatever the packets, the seven header and network-type counters are zero. */
  lemma UnusedCountersZero(ps: seq<Packet>)
    ensures var c := Run(ps);
      && c.paniRegister == 0 && c.paniInvite == 0 && c.cniRegister == 0 && c.cniInvite == 0
      && c.ieee80211n == 0 && c.eutranFddPani == 0 && c.eutranFddCni == 0
  {
    RunBounds(ps);
  }

  /** With those counters at zero, their lines print 0, in the report and in
      `summary.txt`, whose block then depends on the file name alone. */
  lemma ZeroLines(date: string, inputName: string, total: nat, c: Counters)
    requires c.paniRegister == 0 && c.paniInvite == 0 && c.cniRegister == 0 && c.cniInvite == 0
    requires c.ieee80211n == 0 && c.eutranFddPani == 0 && c.eutranFddCni == 0
    ensures SummaryWrites(date, inputName, total, c)[8..12] == [
      PaniRegisterLabel + "0" + "\n", PaniInviteLabel + "0" + "\n", CniRegisterLabel + "0" + "\n", CniInviteLabel + "0" + "\n"]
    ensures SummaryWrites(date, inputName, total, c)[13..16] == [
      Ieee80211nLabel + "0" + "\n", EutranPaniLabel + "0" + "\n", EutranCniLabel + "0" + "\n"]
    ensures LogWrites(inputName, c) == LogWrites(inputName, Zero)
  {
    assert NatToString(0) == "0";
  }

  /** The loop goes on after a packet that raises: the text of later packets follows
      that of earlier ones, whatever those did. */
  lemma {:induction false} DetailsAppend(ps: seq<Packet>, qs: seq<Packet>)
    ensures Details(ps + qs) == Details(ps) + Details(qs)
    decreases |qs|
  {
    if qs == [] {
      assert ps + qs == ps;
    } else {
      var q := qs[|qs| - 1];
      var init := qs[..|qs| - 1];
      assert ps + qs == (ps + init) + [q];
      Snoc(ps + init, q);
      Snoc(init, q);
      TakeNext(qs, |qs| - 1);
      TakeAll(qs);
      DetailsAppend(ps, init);
      Assoc(Details(ps), Details(init), Concat(PacketWrites(q)));
    }
  }

  /** The report is the summary block followed by the scratch text with its carriage
      returns read as line feeds; a scratch text without one is copied unchanged. */
  lemma ReportLayout(date: string, inputName: string, total: nat, c: Counters, scratch: string)
    ensures var r := Report(date, inputName, total, c, scratch);
      var h := Concat(SummaryWrites(date, inputName, total, c));
      && |h| <= |r| <= |h| + |scratch| && r[..|h|] == h
      && '\r' !in r[|h|..]
      && ('\r' !in scratch ==> r[|h|..] == scratch)
  {
    ReadBackNoReturn(scratch);
    if '\r' !in scratch {
      ReadBackPlain(scratch);
    }
  }

  /** `extract_sip_info` on one file of a batch whose `summary.txt` is `log`; a
      decoder failure in the extraction pass ends the file without a report and
      without touching `summary.txt`. `scratchLeft`: the temporary file is still
      on disk afterwards. */
  method ExtractSipInfo(countPass: Decoding, extractPass: Decoding, date: string, inputName: string, log: SummaryLog)
    returns (outcome: FileOutcome, scratchLeft: bool)
    modifies log
    ensures scratchLeft == Crashes(extractPass)
    ensures Crashes(extractPass) ==>
      && outcome == Fatal(ScratchHeader + Details(extractPass.packets[..extractPass.crash.value]))
      && log.text == old(log.text)
    ensures !Crashes(extractPass) ==>
      && outcome == Reported(Report(date, inputName, if Crashes(countPass) then 0 else |countPass.packets|,
                                     Run(extractPass.packets), ScratchHeader + Details(extractPass.packets)))
      && log.text == old(log.text) + Concat(LogWrites(inputName, Run(extractPass.packets)))
  {
    var total := CountPackets(countPass);
    var analysis := new FileAnalysis();
    var crashed := analysis.ProcessCapture(extractPass);
    if crashed {
      return Fatal(analysis.scratch), analysis.scratchExists;
    }
    var counts := analysis.Counts();
    var report := analysis.WriteReport(date, inputName, total);
    log.Append(LogWrites(inputName, counts));
    analysis.RemoveScratch();
    return Reported(report), analysis.scratchExists;
  }
}
