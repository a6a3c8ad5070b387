/**
 The pieces of the output layout that both analyzers share: the two message
 types they count, the separator lines, the scratch file's heading, and a
 header written on one line as `<title>: <value>`.
 */
module Layout {
  datatype MessageType = Register | Invite

  function TypeName(t: MessageType): string
  {
    match t
    case Register => "REGISTER"
    case Invite => "INVITE"
  }

  /** `"-" * 50` and `"=" * 50`, each ending its line. */
  const Dashes: string := "--------------------------------------------------\n"
  const Rule: string := "==================================================\n"
  const ScratchHeader: string := "Detailed SIP Message Information:\n" + Rule

  /** The first two lines of a packet's block, before their values. */
  const TypeLabel: string := "\nMessage Type: "
  const TimestampLabel: string := "Timestamp: "

  /** The titles of the two access-network headers. */
  const PaniTitle: string := "P-Access-Network-Info"
  const CniTitle: string := "Cellular-Network-Info"

  /** The summary's title, its heading and the labels of its lines. */
  const SummaryTitle: string := "SIP Analysis Summary\n"
  const DateLabel: string := "Analysis Date: "
  const InputLabel: string := "Input File: "
  const TotalLabel: string := "Total SIP Packets: "
  const RegisterLabel: string := "REGISTER Messages: "
  const InviteLabel: string := "INVITE Messages: "
  const AvailabilityHeading: string := "\nHeader Availability:\n"
  const PaniRegisterLabel: string := PaniTitle + " in REGISTER: "
  const PaniInviteLabel: string := PaniTitle + " in INVITE: "
  const CniRegisterLabel: string := CniTitle + " in REGISTER: "
  const CniInviteLabel: string := CniTitle + " in INVITE: "

  /** A header written unsplit: its line, if present. */
  function FieldWrites(a: map<string, string>, attr: string, title: string): seq<string>
  {
    if attr in a then [title + ": " + a[attr] + "\n"] else []
  }

  /** How the analysis of one file ends. */
  datatype FileOutcome =
    | Reported(report: string)
      // the decoder failed: no report, and the scratch file stays behind
    | Fatal(leftScratch: string)
}
