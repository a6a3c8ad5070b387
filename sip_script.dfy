/**
 The newer analyzer's `extract_sip_info`: classification of each decoded
 packet as a REGISTER or INVITE request, six running counters, and a detail
 block per classified packet written to a scratch file, which is then read
 back behind a summary block to form the per-file report.
 */
module SipScript {
  import opened Text
  import opened Capture
  import opened HeaderParams
  import opened Layout

  /** The message type of a SIP layer: fixed by an exact `request_method` when that
      field is present, otherwise by a substring search of `request_line`, where
      REGISTER is tried before INVITE. */
  function Classify(sip: SipLayer): Option<MessageType>
  {
    var a := sip.attrs;
    if "request_method" in a then
      if a["request_method"] == "REGISTER" then Some(Register)
      else if a["request_method"] == "INVITE" then Some(Invite)
      else None
    else if "request_line" in a then
      if Contains(a["request_line"], "REGISTER") then Some(Register)
      else if Contains(a["request_line"], "INVITE") then Some(Invite)
      else None
    else None
  }

  // ---------------------------------------------------------------------
  // Counters
  // ---------------------------------------------------------------------

  datatype Counters = Counters(
    register: nat, invite: nat,
    paniRegister: nat, paniInvite: nat,
    cniRegister: nat, cniInvite: nat)

  const Zero := Counters(0, 0, 0, 0, 0, 0)

  /** The counter updates one packet causes; they all happen before the packet's
      first write, so a later exception does not undo them. */
  function Tally(c: Counters, p: Packet): Counters
  {
    match p.sip
    case None => c
    case Some(sip) =>
      var pani := if "p_access_network_info" in sip.attrs then 1 else 0;
      var cni := if "cellular_network_info" in sip.attrs then 1 else 0;
      match Classify(sip)
      case None => c
      case Some(Register) =>
        c.(register := c.register + 1, paniRegister := c.paniRegister + pani,
           cniRegister := c.cniRegister + cni)
      case Some(Invite) =>
        c.(invite := c.invite + 1, paniInvite := c.paniInvite + pani,
           cniInvite := c.cniInvite + cni)
  }

  /** The counters after the packets `ps`, from zero. */
  function Run(ps: seq<Packet>): Counters
  {
    if ps == [] then Zero else Tally(Run(ps[..|ps| - 1]), ps[|ps| - 1])
  }

  // ---------------------------------------------------------------------
  // The detail block
  // ---------------------------------------------------------------------

  function HeadWrites(t: MessageType, timestamp: string): seq<string>
  {
    [TypeLabel + TypeName(t) + "\n", TimestampLabel + timestamp + "\n"]
  }

  /** A To or From header: its line, and when the value holds a `;`, a heading and
      one line per parameter. */
  function HeaderWrites(a: map<string, string>, attr: string, title: string): seq<string>
  {
    if attr in a then
      [title + ": " + a[attr] + "\n"] + (if ';' in a[attr] then ListingWrites(a[attr], title) else [])
    else []
  }

  /** The parameter listing of a header value: a heading, then one line per parameter. */
  function ListingWrites(value: string, title: string): seq<string>
  {
    [title + " Header Parameters:\n"] + ParamWrites(value)
  }

  /** The To and From headers with their parameter listings. */
  function AddressWrites(a: map<string, string>): seq<string>
  {
    HeaderWrites(a, "to", "To") + HeaderWrites(a, "from_", "From")
  }

  /** The Route, P-Access-Network-Info and Cellular-Network-Info lines. */
  function NetworkWrites(a: map<string, string>): seq<string>
  {
    FieldWrites(a, "route", "Route")
    + FieldWrites(a, "p_access_network_info", PaniTitle)
    + FieldWrites(a, "cellular_network_info", CniTitle)
  }

  /** Every write of a classified packet's block, when nothing raises. */
  function BlockWrites(sip: SipLayer, t: MessageType, timestamp: string): seq<string>
  {
    HeadWrites(t, timestamp) + AddressWrites(sip.attrs) + NetworkWrites(sip.attrs) + [Dashes]
  }

  /** The writes of one packet that reach the scratch file. */
  function PacketWrites(p: Packet): seq<string>
  {
    match p.sip
    case None => []
    case Some(sip) =>
      match Classify(sip)
      case None => []
      case Some(t) => Completed(BlockWrites(sip, t, p.timestamp), p.fault, 0)
  }

  /** The scratch file's text for the packets `ps`, after its heading. */
  function Details(ps: seq<Packet>): string
  {
    if ps == [] then "" else Details(ps[..|ps| - 1]) + Concat(PacketWrites(ps[|ps| - 1]))
  }

  // ---------------------------------------------------------------------
  // The report
  // ---------------------------------------------------------------------

  function SummaryWrites(date: string, inputName: string, total: nat, c: Counters): seq<string>
  {
    [ SummaryTitle,
      Rule,
      DateLabel + date + "\n",
      InputLabel + inputName + "\n",
      TotalLabel + NatToString(total) + "\n",
      RegisterLabel + NatToString(c.register) + "\n",
      InviteLabel + NatToString(c.invite) + "\n",
      AvailabilityHeading,
      PaniRegisterLabel + NatToString(c.paniRegister) + "\n",
      PaniInviteLabel + NatToString(c.paniInvite) + "\n",
      CniRegisterLabel + NatToString(c.cniRegister) + "\n",
      CniInviteLabel + NatToString(c.cniInvite) + "\n",
      Rule + "\n" ]
  }

  /** The final report: the summary block, then the scratch file's text as reading it
      back in text mode gives it. */
  function Report(date: string, inputName: string, total: nat, c: Counters, scratch: string): string
  {
    Concat(SummaryWrites(date, inputName, total, c)) + ReadBack(scratch)
  }

  // ---------------------------------------------------------------------
  // The analysis of one file
  // ---------------------------------------------------------------------

  /** The local state of one `extract_sip_info` call. */
  class FileAnalysis {
    var registerCount: nat
    var inviteCount: nat
    var paniRegisterCount: nat
    var paniInviteCount: nat
    var cniRegisterCount: nat
    var cniInviteCount: nat
    var scratch: string       // the temporary file's text
    var scratchExists: bool   // the temporary file is still on disk
    var progress: nat         // updates of the progress bar
    ghost var seen: seq<Packet>

    function Counts(): Counters
      reads this
    {
      Counters(registerCount, inviteCount, paniRegisterCount, paniInviteCount,
               cniRegisterCount, cniInviteCount)
    }

    ghost predicate Valid()
      reads this
    {
      && Counts() == Run(seen)
      && scratch == ScratchHeader + Details(seen)
      && scratchExists
      && progress == |seen|
    }

    /** Counters start at zero; the scratch file is opened and given its heading. */
    constructor ()
      ensures Valid() && seen == []
    {
      registerCount, inviteCount := 0, 0;
      paniRegisterCount, paniInviteCount := 0, 0;
      cniRegisterCount, cniInviteCount := 0, 0;
      scratch := ScratchHeader;
      scratchExists := true;
      progress := 0;
      seen := [];
    }

    /** One `file.write`, which raises when it is the packet's faulty write `k`. */
    method Write(chunk: string, fault: Option<nat>, k: nat) returns (raised: bool)
      modifies this`scratch
      ensures raised == RaisesIn([chunk], fault, k)
      ensures scratch == old(scratch) + Concat(Completed([chunk], fault, k))
    {
      raised := fault == Some(k);
      if !raised {
        scratch := scratch + chunk;
      }
    }

    /** One parameter piece: stripped, then split at its first `=` or written bare. */
    method WriteParam(piece: string, fault: Option<nat>, k: nat) returns (raised: bool)
      modifies this`scratch
      ensures raised == RaisesIn([ParamLine(piece)], fault, k)
      ensures scratch == old(scratch) + Concat(Completed([ParamLine(piece)], fault, k))
    {
      var param := Strip(piece);
      var line;
      if '=' in param {
        var kv := SplitOnce(param, '=');
        line := "  " + Strip(kv.0) + ": " + Strip(kv.1) + "\n";
      } else {
        line := "  " + param + "\n";
      }
      raised := Write(line, fault, k);
    }

    /** The `for param in params` loop of a To or From header. */
    method WriteParams(params: seq<string>, fault: Option<nat>, k: nat) returns (raised: bool, next: nat)
      modifies this`scratch
      ensures raised == RaisesIn(ParamLines(params), fault, k)
      ensures !raised ==> next == k + |params|
      ensures scratch == old(scratch) + Concat(Completed(ParamLines(params), fault, k))
    {
      ghost var plan := ParamLines(params);
      next := k;
      for i := 0 to |params|
        invariant next == k + i
        invariant !RaisesIn(plan[..i], fault, k)
        invariant scratch == old(scratch) + Concat(plan[..i])
      {
        ParamLinesAt(params, i);
        ghost var before := scratch;
        raised := WriteParam(params[i], fault, next);
        Chain(old(scratch), before, scratch, plan[..i], [plan[i]], fault, k);
        TakeNext(plan, i);
        if raised {
          Cut(plan[..i + 1], plan[i + 1..], fault, k);
          TakeDrop(plan, i + 1);
          return;
        }
        next := next + 1;
      }
      assert plan[..|params|] == plan;
      raised := false;
    }

    /** A To or From header with its parameter listing. */
    method WriteHeader(a: map<string, string>, attr: string, title: string, fault: Option<nat>, k: nat)
      returns (raised: bool, next: nat)
      modifies this`scratch
      ensures raised == RaisesIn(HeaderWrites(a, attr, title), fault, k)
      ensures !raised ==> next == k + |HeaderWrites(a, attr, title)|
      ensures scratch == old(scratch) + Concat(Completed(HeaderWrites(a, attr, title), fault, k))
    {
      raised, next := false, k;
      if attr in a {
        var v := a[attr];
        ghost var plan := HeaderWrites(a, attr, title);
        var first := title + ": " + v + "\n";
        raised := Write(first, fault, k);
        if raised {
          Cut([first], plan[1..], fault, k);
          assert [first] + plan[1..] == plan;
          return;
        }
        next := k + 1;
        if ';' in v {
          ghost var s1 := scratch;
          raised, next := WriteListing(v, title, fault, next);
          Chain(old(scratch), s1, scratch, [first], ListingWrites(v, title), fault, k);
        }
      }
    }

    /** The heading `<title> Header Parameters:` and the parameter lines. */
    method WriteListing(v: string, title: string, fault: Option<nat>, k: nat) returns (raised: bool, next: nat)
      modifies this`scratch
      ensures raised == RaisesIn(ListingWrites(v, title), fault, k)
      ensures !raised ==> next == k + |ListingWrites(v, title)|
      ensures scratch == old(scratch) + Concat(Completed(ListingWrites(v, title), fault, k))
    {
      var heading := title + " Header Parameters:\n";
      raised := Write(heading, fault, k);
      next := k + 1;
      if raised {
        Cut([heading], ParamWrites(v), fault, k);
        return;
      }
      var params := Split(v, ';')[1..];
      ghost var s1 := scratch;
      raised, next := WriteParams(params, fault, next);
      Chain(old(scratch), s1, scratch, [heading], ParamWrites(v), fault, k);
    }

    /** A header written on one line without a parameter listing. */
    method WriteField(a: map<string, string>, attr: string, title: string, fault: Option<nat>, k: nat)
      returns (raised: bool, next: nat)
      modifies this`scratch
      ensures raised == RaisesIn(FieldWrites(a, attr, title), fault, k)
      ensures !raised ==> next == k + |FieldWrites(a, attr, title)|
      ensures scratch == old(scratch) + Concat(Completed(FieldWrites(a, attr, title), fault, k))
    {
      raised, next := false, k;
      if attr in a {
        raised := Write(title + ": " + a[attr] + "\n", fault, k);
        next := k + 1;
      }
    }

    /** The body of the `try` for one packet: classify and count, then write the block,
        leaving at the first write that raises. */
    method Handle(p: Packet)
      modifies this`registerCount, this`inviteCount, this`paniRegisterCount,
               this`paniInviteCount, this`cniRegisterCount, this`cniInviteCount, this`scratch
      ensures Counts() == Tally(old(Counts()), p)
      ensures scratch == old(scratch) + Concat(PacketWrites(p))
    {
      if p.sip.None? {
        return;
      }
      var sip := p.sip.value;
      var messageType := CountType(sip);
      if messageType.None? {
        return;
      }
      var t := messageType.value;
      CountHeaders(sip.attrs, t);
      WriteBlock(sip, t, p.timestamp, p.fault);
    }

    /** The classification, with the REGISTER or INVITE count raised for it. */
    method CountType(sip: SipLayer) returns (messageType: Option<MessageType>)
      modifies this`registerCount, this`inviteCount
      ensures messageType == Classify(sip)
      ensures registerCount == old(registerCount) + if messageType == Some(Register) then 1 else 0
      ensures inviteCount == old(inviteCount) + if messageType == Some(Invite) then 1 else 0
    {
      var a := sip.attrs;
      messageType := None;
      if "request_method" in a {
        if a["request_method"] == "REGISTER" {
          messageType := Some(Register);
          registerCount := registerCount + 1;
        } else if a["request_method"] == "INVITE" {
          messageType := Some(Invite);
          inviteCount := inviteCount + 1;
        }
      } else if "request_line" in a {
        if Contains(a["request_line"], "REGISTER") {
          messageType := Some(Register);
          registerCount := registerCount + 1;
        } else if Contains(a["request_line"], "INVITE") {
          messageType := Some(Invite);
          inviteCount := inviteCount + 1;
        }
      }
    }

    /** The P-Access-Network-Info and Cellular-Network-Info counts for the type `t`. */
    method CountHeaders(a: map<string, string>, t: MessageType)
      modifies this`paniRegisterCount, this`paniInviteCount, this`cniRegisterCount, this`cniInviteCount
      ensures paniRegisterCount == old(paniRegisterCount) + if t == Register && "p_access_network_info" in a then 1 else 0
      ensures paniInviteCount == old(paniInviteCount) + if t == Invite && "p_access_network_info" in a then 1 else 0
      ensures cniRegisterCount == old(cniRegisterCount) + if t == Register && "cellular_network_info" in a then 1 else 0
      ensures cniInviteCount == old(cniInviteCount) + if t == Invite && "cellular_network_info" in a then 1 else 0
    {
      if "p_access_network_info" in a {
        if t == Register {
          paniRegisterCount := paniRegisterCount + 1;
        } else {
          paniInviteCount := paniInviteCount + 1;
        }
      }
      if "cellular_network_info" in a {
        if t == Register {
          cniRegisterCount := cniRegisterCount + 1;
        } else {
          cniInviteCount := cniInviteCount + 1;
        }
      }
    }

    /** The writes of one classified packet's block. */
    method WriteBlock(sip: SipLayer, t: MessageType, timestamp: string, fault: Option<nat>)
      modifies this`scratch
      ensures scratch == old(scratch) + Concat(Completed(BlockWrites(sip, t, timestamp), fault, 0))
    {
      ghost var head := HeadWrites(t, timestamp);
      ghost var upToAddresses := head + AddressWrites(sip.attrs);
      ghost var upToNetwork := upToAddresses + NetworkWrites(sip.attrs);
      ghost var all := upToNetwork + [Dashes];
      assert all == BlockWrites(sip, t, timestamp);
      var raised, k := WriteHead(t, timestamp, fault);
      if raised {
        Cut(head, AddressWrites(sip.attrs), fault, 0);
        Cut(upToAddresses, NetworkWrites(sip.attrs), fault, 0);
        Cut(upToNetwork, [Dashes], fault, 0);
        return;
      }
      ghost var s1 := scratch;
      raised, k := WriteAddresses(sip.attrs, fault, k);
      Chain(old(scratch), s1, scratch, head, AddressWrites(sip.attrs), fault, 0);
      if raised {
        Cut(upToAddresses, NetworkWrites(sip.attrs), fault, 0);
        Cut(upToNetwork, [Dashes], fault, 0);
        return;
      }
      s1 := scratch;
      raised, k := WriteNetwork(sip.attrs, fault, k);
      Chain(old(scratch), s1, scratch, upToAddresses, NetworkWrites(sip.attrs), fault, 0);
      if raised {
        Cut(upToNetwork, [Dashes], fault, 0);
        return;
      }
      s1 := scratch;
      raised := Write(Dashes, fault, k);
      Chain(old(scratch), s1, scratch, upToNetwork, [Dashes], fault, 0);
    }

    /** The To header, then the From header. */
    method WriteAddresses(a: map<string, string>, fault: Option<nat>, k: nat) returns (raised: bool, next: nat)
      modifies this`scratch
      ensures raised == RaisesIn(AddressWrites(a), fault, k)
      ensures !raised ==> next == k + |AddressWrites(a)|
      ensures scratch == old(scratch) + Concat(Completed(AddressWrites(a), fault, k))
    {
      ghost var to := HeaderWrites(a, "to", "To");
      raised, next := WriteHeader(a, "to", "To", fault, k);
      if raised {
        Cut(to, HeaderWrites(a, "from_", "From"), fault, k);
        return;
      }
      ghost var s1 := scratch;
      raised, next := WriteHeader(a, "from_", "From", fault, next);
      Chain(old(scratch), s1, scratch, to, HeaderWrites(a, "from_", "From"), fault, k);
    }

    /** The Route, P-Access-Network-Info and Cellular-Network-Info lines. */
    method WriteNetwork(a: map<string, string>, fault: Option<nat>, k: nat) returns (raised: bool, next: nat)
      modifies this`scratch
      ensures raised == RaisesIn(NetworkWrites(a), fault, k)
      ensures !raised ==> next == k + |NetworkWrites(a)|
      ensures scratch == old(scratch) + Concat(Completed(NetworkWrites(a), fault, k))
    {
      ghost var route := FieldWrites(a, "route", "Route");
      ghost var pani := FieldWrites(a, "p_access_network_info", PaniTitle);
      ghost var cni := FieldWrites(a, "cellular_network_info", CniTitle);
      raised, next := WriteField(a, "route", "Route", fault, k);
      if raised {
        Cut(route, pani, fault, k);
        Cut(route + pani, cni, fault, k);
        return;
      }
      ghost var s1 := scratch;
      raised, next := WriteField(a, "p_access_network_info", PaniTitle, fault, next);
      Chain(old(scratch), s1, scratch, route, pani, fault, k);
      if raised {
        Cut(route + pani, cni, fault, k);
        return;
      }
      s1 := scratch;
      raised, next := WriteField(a, "cellular_network_info", CniTitle, fault, next);
      Chain(old(scratch), s1, scratch, route + pani, cni, fault, k);
    }

    /** The message type and timestamp lines. */
    method WriteHead(t: MessageType, timestamp: string, fault: Option<nat>) returns (raised: bool, next: nat)
      modifies this`scratch
      ensures raised == RaisesIn(HeadWrites(t, timestamp), fault, 0)
      ensures !raised ==> next == 2
      ensures scratch == old(scratch) + Concat(Completed(HeadWrites(t, timestamp), fault, 0))
    {
      ghost var plan := HeadWrites(t, timestamp);
      next := 2;
      var first := TypeLabel + TypeName(t) + "\n";
      raised := Write(first, fault, 0);
      if raised {
        Cut([first], plan[1..], fault, 0);
        assert [first] + plan[1..] == plan;
        return;
      }
      ghost var s1 := scratch;
      var second := TimestampLabel + timestamp + "\n";
      raised := Write(second, fault, 1);
      Chain(old(scratch), s1, scratch, [first], [second], fault, 0);
    }

    /** One packet of the `for packet in capture` loop: the `try` body, then the
        progress update of the `finally`. */
    method Process(p: Packet)
      requires Valid()
      modifies this
      ensures Valid() && seen == old(seen) + [p]
      ensures registerCount + inviteCount <= progress
      ensures paniRegisterCount <= registerCount && paniInviteCount <= inviteCount
      ensures cniRegisterCount <= registerCount && cniInviteCount <= inviteCount
    {
      ghost var before := scratch;
      Handle(p);
      progress := progress + 1;
      seen := seen + [p];
      Snoc(old(seen), p);
      Assoc(ScratchHeader, Details(old(seen)), Concat(PacketWrites(p)));
      RunBounds(seen);
    }

    /** The `for packet in capture` loop over one decoder pass; `crashed` when the
        decoder raised, which ends the loop. */
    method ProcessCapture(d: Decoding) returns (crashed: bool)
      requires Valid() && seen == []
      modifies this
      ensures Valid()
      ensures crashed == Crashes(d)
      ensures seen == if crashed then d.packets[..d.crash.value] else d.packets
    {
      var i := 0;
      while i < |d.packets|
        invariant Valid()
        invariant i <= |d.packets|
        invariant d.crash.None? || d.crash.value >= i
        invariant seen == d.packets[..i]
      {
        if d.crash == Some(i) {
          return true;
        }
        Process(d.packets[i]);
        TakeNext(d.packets, i);
        i := i + 1;
      }
      TakeAll(d.packets);
      return d.crash == Some(i);
    }

    /** The final report, then the removal of the scratch file. */
    method Finish(date: string, inputName: string, total: nat) returns (report: string)
      requires Valid()
      modifies this`scratchExists
      ensures report == Report(date, inputName, total, Counts(), scratch)
      ensures !scratchExists
    {
      var summary := SummaryWrites(date, inputName, total, Counts());
      report := Concat(summary) + ReadBack(scratch);
      scratchExists := false;
    }
  }

  /** Processing one more packet extends the counters and the detail text by it. */
  lemma Snoc(ps: seq<Packet>, p: Packet)
    ensures Run(ps + [p]) == Tally(Run(ps), p)
    ensures Details(ps + [p]) == Details(ps) + Concat(PacketWrites(p))
  {
    TakeNext(ps + [p], |ps|);
    TakeAll(ps);
  }

  /** Each packet raises the REGISTER and INVITE counts by at most one between them,
      and raises a header sub-count only together with its parent count. */
  lemma TallyStep(c: Counters, p: Packet)
    ensures var n := Tally(c, p);
      && n.register + n.invite <= c.register + c.invite + 1
      && n.paniRegister - c.paniRegister <= n.register - c.register
      && n.paniInvite - c.paniInvite <= n.invite - c.invite
      && n.cniRegister - c.cniRegister <= n.register - c.register
      && n.cniInvite - c.cniInvite <= n.invite - c.invite
      && n.register >= c.register && n.invite >= c.invite
  {
  }

  /** After any packets, the REGISTER and INVITE counts sum to at most the number of
      packets, and each header sub-count is at most its parent count. */
  lemma {:induction false} RunBounds(ps: seq<Packet>)
    ensures Run(ps).register + Run(ps).invite <= |ps|
    ensures Run(ps).paniRegister <= Run(ps).register && Run(ps).paniInvite <= Run(ps).invite
    ensures Run(ps).cniRegister <= Run(ps).register && Run(ps).cniInvite <= Run(ps).invite
  {
    if ps != [] {
      RunBounds(ps[..|ps| - 1]);
      TallyStep(Run(ps[..|ps| - 1]), ps[|ps| - 1]);
    }
  }

  /** When the counting pass and the extraction pass decode the same packets and
      neither fails, the report's REGISTER and INVITE counts sum to at most its
      Total. */
  lemma AgreeingPassesBound(countPass: Decoding, extractPass: Decoding)
    requires countPass.packets == extractPass.packets
    requires !Crashes(countPass) && !Crashes(extractPass)
    ensures var total := if Crashes(countPass) then 0 else |countPass.packets|;
      Run(extractPass.packets).register + Run(extractPass.packets).invite <= total
  {
    RunBounds(extractPass.packets);
  }

  /** The two passes are independent, so that bound fails when only the counting
      pass raises: a REGISTER request is then reported beside a Total of 0. */
  lemma CountPassFailureBreaksBound(p: Packet)
    requires p.sip.Some? && Classify(p.sip.value) == Some(Register)
    ensures var countPass, extractPass := Decoding([p], Some(0)), Decoding([p], None);
      && Crashes(countPass) && !Crashes(extractPass)
      && (if Crashes(countPass) then 0 else |countPass.packets|) == 0
      && Run(extractPass.packets).register == 1
  {
    assert [p][..0] == [];
  }

  /** A packet is counted even when its handling raises before its first write, so
      the counts include packets whose block never reached the scratch file. */
  lemma CountedThoughRaising(c: Counters, p: Packet)
    requires p.sip.Some? && Classify(p.sip.value).Some? && p.fault == Some(0)
    ensures PacketWrites(p) == []
    ensures Tally(c, p).register + Tally(c, p).invite == c.register + c.invite + 1
  {
  }

  // ---------------------------------------------------------------------
  // Properties of classification
  // ---------------------------------------------------------------------

  /** A packet without a SIP layer changes no counter and writes nothing. */
  lemma NoSipLayer(c: Counters, p: Packet)
    requires p.sip.None?
    ensures Tally(c, p) == c && PacketWrites(p) == []
  {
  }

  /** A present `request_method` alone decides, by exact comparison, and the
      `request_line` is then never consulted. */
  lemma MethodDecides(sip: SipLayer, line: string)
    requires "request_method" in sip.attrs
    ensures Classify(sip) == Some(Register) <==> sip.attrs["request_method"] == "REGISTER"
    ensures Classify(sip) == Some(Invite) <==> sip.attrs["request_method"] == "INVITE"
    ensures Classify(sip.(attrs := sip.attrs["request_line" := line])) == Classify(sip)
  {
    var b := sip.attrs["request_line" := line];
    assert "request_method" in b && b["request_method"] == sip.attrs["request_method"];
  }

  /** Without a `request_method`, the `request_line` is searched for REGISTER, and
      only when that fails for INVITE. */
  lemma LineFallback(sip: SipLayer)
    requires "request_method" !in sip.attrs
    ensures Classify(sip) == Some(Register) <==>
      "request_line" in sip.attrs && Contains(sip.attrs["request_line"], "REGISTER")
    ensures Classify(sip) == Some(Invite) <==>
      && "request_line" in sip.attrs
      && !Contains(sip.attrs["request_line"], "REGISTER")
      && Contains(sip.attrs["request_line"], "INVITE")
    ensures Classify(sip).None? <==>
      "request_line" !in sip.attrs
      || (!Contains(sip.attrs["request_line"], "REGISTER") && !Contains(sip.attrs["request_line"], "INVITE"))
  {
  }

  /** The comparison is case-sensitive, and a `request_method` that matches neither
      type blocks the fallback even when the request line would match. */
  lemma ExactMethodOnly()
    ensures Classify(SipLayer(map["request_method" := "register"], [])) == None
    ensures Classify(SipLayer(map["request_method" := "OPTIONS", "request_line" := "REGISTER"], [])) == None
  {
    var a := map["request_method" := "OPTIONS", "request_line" := "REGISTER"];
    assert a["request_method"] == "OPTIONS";
  }

  /** The substring search tries REGISTER first, so an INVITE request line whose
      target mentions REGISTER is counted as a REGISTER. */
  lemma RegisterSearchedFirst()
    ensures Classify(SipLayer(map["request_line" := "INVITE REGISTER"], [])) == Some(Register)
  {
    var line := "INVITE REGISTER";
    assert line[7..15] == "REGISTER";
    assert OccursAt(line, "REGISTER", 7);
  }

  // ---------------------------------------------------------------------
  // Properties of the detail block
  // ---------------------------------------------------------------------

  /** A To or From header writes nothing when absent; otherwise its line, and when the
      value holds a `;`, the listing heading and one line per `;` in the value. */
  lemma HeaderShape(a: map<string, string>, attr: string, title: string)
    ensures attr !in a <==> HeaderWrites(a, attr, title) == []
    ensures attr in a ==>
      var w := HeaderWrites(a, attr, title);
      && w[0] == title + ": " + a[attr] + "\n"
      && |w| == (if ';' in a[attr] then 2 + Count(a[attr], ';') else 1)
      && (';' in a[attr] ==> w[1] == title + " Header Parameters:\n" && w[2..] == ParamWrites(a[attr]))
  {
    if attr in a && ';' in a[attr] {
      var w := HeaderWrites(a, attr, title);
      ParamWritesCount(a[attr]);
      assert w == [title + ": " + a[attr] + "\n", title + " Header Parameters:\n"] + ParamWrites(a[attr]);
    }
  }

  /** A block opens with the message type and the timestamp, closes with the dash
      line, and holds the To, From, Route, P-Access-Network-Info and
      Cellular-Network-Info writes in that order between them; the last three are
      one line each when present, whatever their value holds. */
  lemma BlockShape(sip: SipLayer, t: MessageType, timestamp: string)
    ensures var w := BlockWrites(sip, t, timestamp); var a := sip.attrs;
      && w[0] == TypeLabel + TypeName(t) + "\n"
      && w[1] == TimestampLabel + timestamp + "\n"
      && w[|w| - 1] == Dashes
      && w[2..|w| - 1] == HeaderWrites(a, "to", "To") + HeaderWrites(a, "from_", "From") + NetworkWrites(a)
      && |NetworkWrites(a)| == (if "route" in a then 1 else 0)
           + (if "p_access_network_info" in a then 1 else 0)
           + (if "cellular_network_info" in a then 1 else 0)
  {
    var a := sip.attrs;
    var mid := HeaderWrites(a, "to", "To") + HeaderWrites(a, "from_", "From") + NetworkWrites(a);
    var w := BlockWrites(sip, t, timestamp);
    assert w == HeadWrites(t, timestamp) + mid + [Dashes];
    assert w[2..|w| - 1] == mid;
  }

  // ---------------------------------------------------------------------
  // Properties of the packet loop
  // ---------------------------------------------------------------------

  /** An exception inside a packet's block keeps the writes made before it and loses
      the rest; with no exception the whole block is written. */
  lemma FaultTruncates(p: Packet)
    ensures PacketWrites(p) <= PacketWrites(p.(fault := None))
    ensures p.sip.Some? && Classify(p.sip.value).Some? ==>
      (|PacketWrites(p)| < |PacketWrites(p.(fault := None))| <==>
        p.fault.Some? && p.fault.value < |BlockWrites(p.sip.value, Classify(p.sip.value).value, p.timestamp)|)
  {
  }

  /** The counters never depend on where a packet's handling raises: they are all
      updated before the first write. */
  lemma {:induction false} RunIgnoresFaults(ps: seq<Packet>, qs: seq<Packet>)
    requires |ps| == |qs|
    requires forall i :: 0 <= i < |ps| ==> ps[i].sip == qs[i].sip
    ensures Run(ps) == Run(qs)
  {
    if ps != [] {
      RunIgnoresFaults(ps[..|ps| - 1], qs[..|qs| - 1]);
    }
  }

  /** The loop goes on after a packet that raises: the text of later packets follows
      that of earlier ones, whatever those did. */
  lemma {:induction false} DetailsAppend(ps: seq<Packet>, qs: seq<Packet>)
    ensures Details(ps + qs) == Details(ps) + Details(qs)
    decreases |qs|
  {
    if qs == [] {
      assert ps + qs == ps;
    } else {
      var q := qs[|qs| - 1];
      var init := qs[..|qs| - 1];
      assert ps + qs == (ps + init) + [q];
      Snoc(ps + init, q);
      Snoc(init, q);
      TakeNext(qs, |qs| - 1);
      TakeAll(qs);
      DetailsAppend(ps, init);
      Assoc(Details(ps), Details(init), Concat(PacketWrites(q)));
    }
  }

  // ---------------------------------------------------------------------
  // Properties of the report
  // ---------------------------------------------------------------------

  /** The report is the summary block followed by the scratch text with its carriage
      returns read as line feeds; a scratch text without one is copied unchanged. */
  lemma ReportLayout(date: string, inputName: string, total: nat, c: Counters, scratch: string)
    ensures var r := Report(date, inputName, total, c, scratch);
      var h := Concat(SummaryWrites(date, inputName, total, c));
      && |h| <= |r| <= |h| + |scratch| && r[..|h|] == h
      && '\r' !in r[|h|..]
      && ('\r' !in scratch ==> r[|h|..] == scratch)
  {
    ReadBackNoReturn(scratch);
    if '\r' !in scratch {
      ReadBackPlain(scratch);
    }
  }

  /** Different counts give different summary blocks: each count is printed in full on
      its own line. */
  lemma SummaryFaithful(date: string, inputName: string, total: nat, c: Counters, total': nat, c': Counters)
    requires SummaryWrites(date, inputName, total, c) == SummaryWrites(date, inputName, total', c')
    ensures total == total' && c == c'
  {
    var w, w' := SummaryWrites(date, inputName, total, c), SummaryWrites(date, inputName, total', c');
    assert w[4] == w'[4] && w[5] == w'[5] && w[6] == w'[6];
    assert w[8] == w'[8] && w[9] == w'[9] && w[10] == w'[10] && w[11] == w'[11];
    CountLine(TotalLabel, total, total');
    CountLine(RegisterLabel, c.register, c'.register);
    CountLine(InviteLabel, c.invite, c'.invite);
    CountLine(PaniRegisterLabel, c.paniRegister, c'.paniRegister);
    CountLine(PaniInviteLabel, c.paniInvite, c'.paniInvite);
    CountLine(CniRegisterLabel, c.cniRegister, c'.cniRegister);
    CountLine(CniInviteLabel, c.cniInvite, c'.cniInvite);
  }

  lemma CountLine(heading: string, m: nat, n: nat)
    requires heading + NatToString(m) + "\n" == heading + NatToString(n) + "\n"
    ensures m == n
  {
    var x, y := heading + NatToString(m) + "\n", heading + NatToString(n) + "\n";
    assert NatToString(m) == x[|heading|..|x| - 1];
    assert NatToString(n) == y[|heading|..|y| - 1];
    NatToStringInjective(m, n);
  }

  /** `extract_sip_info` on one file: a counting pass, then the extraction pass; a
      decoder failure in the extraction pass ends the file without a report.
      `scratchLeft`: the temporary file is still on disk afterwards. */
  method ExtractSipInfo(countPass: Decoding, extractPass: Decoding, date: string, inputName: string)
    returns (outcome: FileOutcome, scratchLeft: bool)
    ensures scratchLeft == Crashes(extractPass)
    ensures Crashes(extractPass) ==>
      outcome == Fatal(ScratchHeader + Details(extractPass.packets[..extractPass.crash.value]))
    ensures !Crashes(extractPass) ==>
      outcome == Reported(Report(date, inputName, if Crashes(countPass) then 0 else |countPass.packets|,
                                  Run(extractPass.packets), ScratchHeader + Details(extractPass.packets)))
  {
    var total := CountPackets(countPass);
    var analysis := new FileAnalysis();
    var crashed := analysis.ProcessCapture(extractPass);
    if crashed {
      return Fatal(analysis.scratch), analysis.scratchExists;
    }
    var report := analysis.Finish(date, inputName, total);
    return Reported(report), analysis.scratchExists;
  }
}
