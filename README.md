# SIP capture analyzer: classification, counters and the per-file report

This project models the packet loop of a SIP capture analyzer. The analyzer
exists in two variants, `sip-script.py` and `sip-script-old.py`. For each
decoded packet, the analyzer:

- decides whether the packet is a REGISTER or an INVITE request;
- updates a few integer counters;
- writes a detail block for each classified packet to a temporary scratch file.

After the loop, it writes the per-file report: a summary block of the counts,
followed by the scratch file's text as reading it back in text mode gives it.
Then it removes the scratch file.
The older variant also appends one block per file to a batch-wide
`summary.txt` before that removal.

The two variants are modelled separately, each as a class holding the
counters and the scratch text:

- `SipScript.FileAnalysis` is the newer analyzer. It classifies a packet by
  an exact `request_method`, and falls back to a substring search of
  `request_line` only when `request_method` is absent. It keeps six counters.
  It writes To and From with a naive `;` parameter listing.
- `SipScriptOld.FileAnalysis` is the older analyzer. It takes the method from
  the first present of `request_method`, `Method` and `method`. It accepts
  that method case-insensitively and writes it as it is. It takes the
  P-Access-Network-Info and Cellular-Network-Info lines from a first-match
  scan over all fields of the SIP layer. It counts a packet only after the
  packet's whole block is written. It has nine counters, seven of which
  never change.

## Modelling choices

**Packets.** A decoded packet (`Capture.Packet`) has three parts:

- An optional SIP layer. The layer is seen in two ways:
  - `attrs`: the attribute lookups the code performs. An absent key is an
    absent field, which is different from an empty value.
  - `allFields`: the layer's field dictionary, in its iteration order.
- The capture timestamp, an opaque string.
- `fault`: the number of the write, within this packet's handling, at which
  the handling raises, if it raises at all.

A failure in a read made before write `k`, after write `k - 1`, is
`fault == Some(k)` as well: write `k` and everything after it are lost. Two
such reads come before a packet's first write, so their failure is
`fault == Some(0)` and the packet writes nothing:

- the timestamp formatting of the newer analyzer (sip-script.py:261);
- the `_all_fields` lookup of the older analyzer (sip-script-old.py:239).

A read inside a write's own f-string, such as the older analyzer's timestamp
(sip-script-old.py:243), counts as part of that write.

**Exceptions.** A failure part-way through one packet has these effects:

- It keeps the writes before the failing one.
- It loses the writes after it (`Capture.Completed`).
- Counter updates already made stay made.
- The loop goes on with the next packet.
- The progress update happens once per packet either way.

The capture decoder itself is a `Capture.Decoding`: the packets it yields,
and a position at which it raises, if it does. A decoder failure makes
`count_packets` return 0. When the failure happens in the extraction pass,
the file ends without a report (`Layout.FileOutcome.Fatal`), and the scratch
text stays as it was.

**Counts against Total.** Total comes from the separate counting pass, so the
REGISTER and INVITE counts sum to at most Total only when both passes decode
the same packets and neither fails (`SipScript.AgreeingPassesBound`). When
only the counting pass fails, a REGISTER is reported beside a Total of 0
(`SipScript.CountPassFailureBreaksBound`). In the newer analyzer the counters
also include packets whose handling raised before their block was written
(`SipScript.RunIgnoresFaults`, `SipScript.CountedThoughRaising`). The older
analyzer counts only packets whose whole block was written.

**Files.** A file's text is the concatenation of its writes
(`Text.Concat`). `summary.txt` is a `SipScriptOld.SummaryLog` object. Its
text is only ever extended. The scratch file is read back in text mode, whose
universal newlines turn each `"\r\n"` and each other `'\r'` into `'\n'`
(`Text.ReadBack`). A value holding a carriage return therefore reaches the
report with a line feed in its place.

**Python string operations.** The operations the code relies on are written
out over `seq<char>` in module `Text`:

- `in` on strings;
- `split(';')` and `split('=', 1)`;
- `strip()` with Python's whitespace set;
- `upper()` and `lower()`, including the special characters whose mapping is
  entirely ASCII;
- decimal rendering inside f-strings.

**Batch naming.** The name of a capture's report is `Batch.OutputName`, from
line 143.

## Model

| member | source | states |
|---|---|---|
| Capture.CountPackets | sip-script.py:172-188 | the count is the number of packets the decoder yields, and 0 when the decoder raises at any point |
| Capture.Completed | sip-script.py:347-354 | what reaches the file of a run of writes is a prefix of it; it is shorter exactly when the faulty write falls inside the run, and is the whole run otherwise |
| Capture.Chain | sip-script.py:260-345 | two runs of writes, the first of which does not raise, leave the first run whole followed by what completes of the second |
| Capture.Cut | sip-script.py:347-352 | once a run raises, nothing planned after it reaches the file |
| Text.Concat | sip-script.py:218-345 | the text a file holds after a run of writes: the writes joined in order; `Text.ConcatAppend` splits it over two runs |
| Text.ReadBack | sip-script.py:374-375 | `open(path, 'r').read()`: universal newlines read `"\r\n"` and a lone `'\r'` as `'\n'`; properties in `Text.ReadBackNoReturn`, `Text.ReadBackPlain` and `Text.ReadBackReturns` |
| Text.ReadBackNoReturn | sip-script.py:374-375 | no carriage return survives the read, and the text never grows |
| Text.ReadBackPlain | sip-script.py:374-375 | text without a carriage return reads back exactly as written |
| Text.ReadBackIdempotent | sip-script.py:374-375 | reading back what was read back changes nothing more |
| Text.ReadBackAfter | sip-script.py:374-375 | text before the first carriage return is read unchanged |
| Text.ReadBackReturns | sip-script.py:374-375 | a bare carriage return and a carriage return before a line feed each come back as one line feed |
| Text.Contains | sip-script.py:237-240 | `sub in s` holds exactly when `sub` occurs at some position of `s` |
| Text.Split | sip-script.py:271 | `str.split(';')` for one separator character: the pieces between separators, in order; its properties are `Text.SplitPieces`, `Text.JoinSplit` and `Text.SplitJoin` |
| Text.SplitPieces | sip-script.py:271 | `split(';')` gives one more piece than there are `;`, and no piece holds a `;` |
| Text.JoinSplit | sip-script.py:271 | the pieces of `split(';')` rejoined with `;` give back the string |
| Text.SplitJoin | sip-script.py:271 | splitting a join of `;`-free pieces gives back those pieces |
| Text.SplitOnce | sip-script.py:275 | `split('=', 1)` cuts at the first `=`: the key has no `=`, and key, `=` and value rebuild the piece |
| Text.Strip | sip-script.py:273 | `str.strip()` over Python's whitespace set; its properties are `Text.StripEnds`, `Text.StripFramed` and `Text.StripUnique` |
| Text.StripEnds | sip-script.py:273 | a stripped piece is empty or neither starts nor ends with whitespace |
| Text.StripFramed | sip-script.py:273 | `strip()` removes only whitespace, and only from the two ends |
| Text.StripUnique | sip-script.py:273 | a text without whitespace at its ends, between runs of whitespace, strips to itself |
| Text.Upper | sip-script-old.py:237 | `str.upper()`, exact wherever Python's result is entirely ASCII, including ß, ı, ſ and the ligatures; properties in `Text.UpperIdempotent` and `Text.UpperOfCaseVariant` |
| Text.Lower | sip-script-old.py:255 | `str.lower()`, exact for the ASCII letters, the Kelvin sign and İ; every other character is kept, which can differ from Python only by non-ASCII characters that neither needle holds; properties in `Text.LowerIdempotent` and `Text.LowerOfVariant` |
| Text.UpperIdempotent | sip-script-old.py:237 | upper-casing twice is upper-casing once |
| Text.UpperOfCaseVariant | sip-script-old.py:237 | any ASCII mix of cases of an upper-case word upper-cases to that word |
| Text.LowerAppend | sip-script-old.py:255 | lower-casing works character by character: a concatenation lower-cases to the concatenation of the parts |
| Text.LowerIdempotent | sip-script-old.py:255 | lower-casing twice is lower-casing once |
| Text.LowerOfVariant | sip-script-old.py:255 | any ASCII mix of cases of lower-case ASCII text lower-cases to that text |
| Text.NatToString | sip-script.py:363-370 | an `int` inside an f-string: never empty; digits and no leading zero by `Text.NatToStringDigits`, read back by `Text.ParseNatToString` |
| Text.NatToStringDigits | sip-script.py:363-370 | a count is printed as decimal digits without a leading zero |
| Text.NatToStringInjective | sip-script.py:363-370 | different counts print differently |
| Text.ParseNatToString | sip-script.py:363-370 | reading the printed digits back gives the count |
| HeaderParams.Params | sip-script.py:271 | `value.split(';')[1:]`: the pieces after the first `;`-separated one |
| HeaderParams.ParamLine | sip-script.py:273-278 | the listing line of one piece: stripped, then split at its first `=` into a stripped key and value, or a bare token; its shape is `HeaderParams.ParamLineShape` |
| HeaderParams.ParamLines | sip-script.py:272-278 | one listing line per piece, in order, as many lines as pieces |
| HeaderParams.ParamWrites | sip-script.py:271-278 | the parameter lines of a To or From value; `HeaderParams.ParamWritesCount` counts them by the `;` in the value |
| HeaderParams.ParamWritesCount | sip-script.py:271-278 | the listing has exactly one line per `;` in the value; each line comes from a `;`-free piece, and the pieces rejoin to the text after the first `;` |
| HeaderParams.ParamLinesAt | sip-script.py:272-278 | listing line `i` is made from piece `i`, so the order of the pieces is kept |
| HeaderParams.ParamLineShape | sip-script.py:273-278 | a stripped piece with an `=` is listed as a stripped key without `=` and a stripped value that may hold `=`; a piece without `=` is listed whole |
| HeaderParams.KeyValueLine | sip-script.py:274-276 | a clean `key=val` piece is listed as `key: val` |
| HeaderParams.BareLine | sip-script.py:277-278 | a clean piece without `=` is listed as a bare token |
| HeaderParams.PairThenToken | sip-script.py:269-278 | a value with a pair and then a token lists both, in order |
| HeaderParams.PairThenPair | sip-script.py:269-278 | a value with two pairs lists both, in order |
| HeaderParams.AliceExample | sip-script.py:269-278 | `sip:alice@example.com;tag=abc;early` lists `tag: abc` and `early` |
| HeaderParams.UriParameterExample | sip-script.py:269-278 | the naive split reaches inside `<...>`: `<sip:a@x;user=phone>;tag=1` lists `user: phone>` and `tag: 1` |
| Layout.TypeName | sip-script.py:228-242 | the message type's name as the newer analyzer writes it: REGISTER or INVITE |
| Layout.FieldWrites | sip-script.py:296-332 | a header written on one line as `<title>: <value>` when its attribute is present, and nothing otherwise; used for Route and the two access-network headers, and for To and Route in sip-script-old.py:246-251 |
| SipScript.Classify | sip-script.py:228-242 | the message type of a SIP layer; `SipScript.MethodDecides` and `SipScript.LineFallback` state its rules both ways |
| SipScript.Tally | sip-script.py:228-258 | the counter updates one packet causes: its type's count and the header counts for the fields it has; `SipScript.TallyStep` bounds them |
| SipScript.Run | sip-script.py:224-258 | the counters after a sequence of packets, from zero; `SipScript.RunBounds` and `SipScript.RunIgnoresFaults` state its bounds and fault independence |
| SipScript.HeadWrites | sip-script.py:261-263 | the message-type line and the timestamp line |
| SipScript.HeaderWrites | sip-script.py:266-293 | a To or From header: its line, plus the listing when its value holds `;`; described by `SipScript.HeaderShape` |
| SipScript.ListingWrites | sip-script.py:270-278 | the `<title> Header Parameters:` heading, then the parameter lines |
| SipScript.AddressWrites | sip-script.py:265-293 | the To writes, then the From writes |
| SipScript.NetworkWrites | sip-script.py:295-332 | the Route, P-Access-Network-Info and Cellular-Network-Info lines, each unsplit and only when present |
| SipScript.BlockWrites | sip-script.py:260-345 | every write of a classified packet's block when nothing raises; its layout is `SipScript.BlockShape` |
| SipScript.PacketWrites | sip-script.py:225-354 | the writes of one packet that reach the scratch file: none without a SIP layer or type, otherwise its block up to the faulty write; `SipScript.FaultTruncates` |
| SipScript.Details | sip-script.py:224-354 | the scratch text after its heading for a sequence of packets; `SipScript.DetailsAppend` splits it over two runs |
| SipScript.SummaryWrites | sip-script.py:357-371 | the summary block's lines: title, rule, date, file, total, the six counts and the closing rule; `SipScript.SummaryFaithful` shows it determines the counts |
| SipScript.Report | sip-script.py:357-375 | the summary block followed by the scratch text as the text-mode read gives it; `SipScript.ReportLayout` |
| SipScript.FileAnalysis.constructor | sip-script.py:206-220 | the six counters start at zero and the scratch file is opened with its heading, with no packet processed |
| SipScript.FileAnalysis.Write | sip-script.py:262 | one write appends its text, unless it is the packet's faulty write, which raises and appends nothing |
| SipScript.FileAnalysis.WriteParam | sip-script.py:273-278 | the write for one piece is that piece's listing line |
| SipScript.FileAnalysis.WriteParams | sip-script.py:272-278 | the inner `for param in params` loop writes the lines of the pieces in order, and stops at the one that raises |
| SipScript.FileAnalysis.WriteHeader | sip-script.py:266-293 | a To or From header writes its line, and for a value with `;` its listing, only when the field is present |
| SipScript.FileAnalysis.WriteListing | sip-script.py:270-278 | the listing heading, then the parameter lines |
| SipScript.FileAnalysis.WriteField | sip-script.py:296-332 | Route, P-Access-Network-Info and Cellular-Network-Info each write one unsplit line when present |
| SipScript.FileAnalysis.WriteHead | sip-script.py:261-263 | the block opens with the message type and the timestamp |
| SipScript.FileAnalysis.WriteAddresses | sip-script.py:265-293 | To, then From |
| SipScript.FileAnalysis.WriteNetwork | sip-script.py:295-332 | Route, P-Access-Network-Info, Cellular-Network-Info, in that order |
| SipScript.FileAnalysis.WriteBlock | sip-script.py:260-345 | the block of a classified packet, cut at its faulty write |
| SipScript.FileAnalysis.CountType | sip-script.py:228-242 | the message type is the classification, and exactly the matching count goes up by one |
| SipScript.FileAnalysis.CountHeaders | sip-script.py:244-258 | each header count goes up by one exactly when the field is present and the type matches |
| SipScript.FileAnalysis.Handle | sip-script.py:225-345 | one packet updates the counters as `Tally` says and appends its surviving writes to the scratch text |
| SipScript.FileAnalysis.Process | sip-script.py:224-354 | one loop iteration keeps the counters and the scratch text equal to their functions of the packets seen, REGISTER plus INVITE at most the number of progress updates, and every header count at most its type's count |
| SipScript.FileAnalysis.ProcessCapture | sip-script.py:218-354 | the loop over the capture processes every packet, or all before the one where the decoder raises |
| SipScript.FileAnalysis.Finish | sip-script.py:356-378 | the report is the summary block followed by the scratch text read back, and the scratch file is removed |
| SipScript.ExtractSipInfo | sip-script.py:190-378 | one file gives the report of its packets with the first pass's count as Total, or, when extraction fails, no report and the scratch text written up to the failure; the scratch file is left on disk exactly when extraction fails |
| SipScript.Snoc | sip-script.py:224-354 | one more packet extends the counters and the detail text by that packet alone |
| SipScript.TallyStep | sip-script.py:228-258 | a packet raises REGISTER plus INVITE by at most one, and a header count only together with its type's count |
| SipScript.RunBounds | sip-script.py:224-258 | after any packets, REGISTER plus INVITE is at most their number, and every header count is at most its type's count |
| SipScript.AgreeingPassesBound | sip-script.py:363-365 | when both passes decode the same packets without failing, REGISTER plus INVITE is at most the reported Total |
| SipScript.CountPassFailureBreaksBound | sip-script.py:186-194 | when only the counting pass fails, a REGISTER is counted while Total is 0 |
| SipScript.NoSipLayer | sip-script.py:226 | a packet without a SIP layer changes no counter and writes nothing |
| SipScript.MethodDecides | sip-script.py:229-235 | with `request_method` present, exact equality with REGISTER or INVITE decides, both ways, and `request_line` is not consulted |
| SipScript.LineFallback | sip-script.py:236-242 | without `request_method`, REGISTER when the request line contains it, else INVITE when it contains that, else no type, each an if-and-only-if |
| SipScript.ExactMethodOnly | sip-script.py:229-235 | `register` is not REGISTER, and a non-matching method blocks the request-line fallback |
| SipScript.RegisterSearchedFirst | sip-script.py:237-240 | a request line holding both words counts as REGISTER |
| SipScript.HeaderShape | sip-script.py:266-293 | an absent header writes nothing; a present one writes its line, and for a value with `;` the heading and one line per `;` |
| SipScript.BlockShape | sip-script.py:260-345 | message type and timestamp first; To, From, Route, P-Access-Network-Info, Cellular-Network-Info between; the dash line last; the last three are one line each when present |
| SipScript.FaultTruncates | sip-script.py:347-354 | a packet that raises writes a prefix of its block, which is shorter exactly when the fault falls inside the block |
| SipScript.RunIgnoresFaults | sip-script.py:228-258 | the counters do not depend on where packets raise, since all updates come before the first write |
| SipScript.CountedThoughRaising | sip-script.py:228-263 | a classified packet whose handling raises before its first write writes nothing but is still counted |
| SipScript.DetailsAppend | sip-script.py:347-354 | the loop goes on past a failing packet: the detail text of later packets follows that of earlier ones |
| SipScript.ReportLayout | sip-script.py:357-375 | the report starts with the summary block; the rest holds no carriage return, is no longer than the scratch text, and is the scratch text itself when that holds none |
| SipScript.SummaryFaithful | sip-script.py:359-371 | different totals or counts give different summary blocks |
| SipScript.CountLine | sip-script.py:363-370 | equal count lines with the same label print the same count |
| SipScriptOld.MethodOf | sip-script-old.py:229-235 | the method from the first present of `request_method`, `Method`, `method`; `SipScriptOld.MethodPriority` |
| SipScriptOld.Kind | sip-script-old.py:237 | the type of a non-empty method whose upper-case form is REGISTER or INVITE; `SipScriptOld.KindIgnoresCase` and `SipScriptOld.AnyCaseAccepted` |
| SipScriptOld.Accepted | sip-script-old.py:227-237 | an accepted SIP layer's method as written and its type |
| SipScriptOld.FirstMatch | sip-script-old.py:254-263 | the value of the first field in dictionary order whose lower-cased name contains the needle; `SipScriptOld.FirstMatchSpec` characterises it |
| SipScriptOld.ScanWrites | sip-script-old.py:254-263 | one line for that first match, or nothing |
| SipScriptOld.HeadWrites | sip-script-old.py:242-243 | the method line, as written, and the timestamp line |
| SipScriptOld.FieldsWrites | sip-script-old.py:245-251 | the To line, then the Route line, each when present |
| SipScriptOld.ScansWrites | sip-script-old.py:253-263 | the P-Access-Network-Info scan, then the Cellular-Network-Info scan |
| SipScriptOld.BlockWrites | sip-script-old.py:242-265 | every write of an accepted packet's block when nothing raises; its layout is `SipScriptOld.BlockShape` |
| SipScriptOld.PacketWrites | sip-script-old.py:226-278 | the writes of one packet that reach the scratch file: none unless accepted, otherwise its block up to the faulty write |
| SipScriptOld.Details | sip-script-old.py:220-280 | the scratch text after its heading for a sequence of packets; `SipScriptOld.DetailsAppend` |
| SipScriptOld.Tally | sip-script-old.py:265-273 | the counter update of one packet: its type's count, only when its whole block was written; `SipScriptOld.CountedWhenComplete` |
| SipScriptOld.Run | sip-script-old.py:207-280 | the counters after a sequence of packets, from zero; `SipScriptOld.RunBounds` |
| SipScriptOld.SummaryWrites | sip-script-old.py:283-301 | the summary block's lines, with the network-type section; `SipScriptOld.ZeroLines` shows its unused counts print 0 |
| SipScriptOld.Report | sip-script-old.py:283-305 | the summary block followed by the scratch text as the text-mode read gives it; `SipScriptOld.ReportLayout` |
| SipScriptOld.LogWrites | sip-script-old.py:310-316 | the block one file appends to `summary.txt`: file name, rule, network-type heading, three counts, dash line |
| SipScriptOld.SummaryLog.constructor | sip-script-old.py:309 | opening `summary.txt` for appending keeps the text already there |
| SipScriptOld.SummaryLog.Append | sip-script-old.py:309-316 | appending keeps the existing text and adds the chunks in order |
| SipScriptOld.FileAnalysis.constructor | sip-script-old.py:206-222 | the nine counters start at zero and the scratch file is opened with its heading, with no packet processed |
| SipScriptOld.FileAnalysis.Write | sip-script-old.py:242 | one write appends its text, unless it is the packet's faulty write |
| SipScriptOld.FileAnalysis.WriteField | sip-script-old.py:246-251 | To and Route each write one line when present |
| SipScriptOld.FileAnalysis.WriteFirstMatch | sip-script-old.py:254-263 | the scan writes one line for the first field whose lower-cased name contains the needle, and nothing when none does |
| SipScriptOld.FileAnalysis.WriteHead | sip-script-old.py:242-243 | the block opens with the method as written and the timestamp |
| SipScriptOld.FileAnalysis.WriteFields | sip-script-old.py:245-251 | To, then Route |
| SipScriptOld.FileAnalysis.WriteScans | sip-script-old.py:253-263 | the P-Access-Network-Info scan, then the Cellular-Network-Info scan |
| SipScriptOld.FileAnalysis.WriteBlock | sip-script-old.py:239-265 | the whole block, cut at its faulty write, and whether it raised |
| SipScriptOld.FileAnalysis.ReadMethod | sip-script-old.py:229-235 | the method read is the first present of the three fields |
| SipScriptOld.FileAnalysis.Handle | sip-script-old.py:226-273 | one packet appends its surviving writes and is counted as `Tally` says |
| SipScriptOld.FileAnalysis.Process | sip-script-old.py:225-280 | one loop iteration keeps the counters and scratch text equal to their functions of the packets seen, with REGISTER plus INVITE at most the number of progress updates |
| SipScriptOld.FileAnalysis.ProcessCapture | sip-script-old.py:220-280 | the loop processes every packet, or all before the decoder's failure, keeping the counters, the scratch text and one progress update per packet equal to their functions of the packets processed |
| SipScriptOld.FileAnalysis.WriteReport | sip-script-old.py:283-305 | the report is the summary block of the current counts followed by the scratch text read back |
| SipScriptOld.FileAnalysis.RemoveScratch | sip-script-old.py:319 | the scratch file is gone afterwards |
| SipScriptOld.ExtractSipInfo | sip-script-old.py:190-319 | one file gives its report and appends exactly its block to `summary.txt`, keeping what was there; when extraction fails there is no report and `summary.txt` is unchanged; the scratch file is left on disk exactly when extraction fails |
| SipScriptOld.Snoc | sip-script-old.py:225-280 | one more packet extends the counters and the detail text by that packet alone |
| SipScriptOld.RunBounds | sip-script-old.py:207-272 | REGISTER plus INVITE is at most the number of packets, and every other counter stays zero |
| SipScriptOld.AgreeingPassesBound | sip-script-old.py:289-291 | when both passes decode the same packets without failing, REGISTER plus INVITE is at most the reported Total |
| SipScriptOld.CountPassFailureBreaksBound | sip-script-old.py:268-291 | when only the counting pass fails, a REGISTER whose block completes is counted while Total is 0 |
| SipScriptOld.MethodPriority | sip-script-old.py:229-235 | a method exists exactly when one of the three fields does, and a lower-priority field is ignored while a higher one is present |
| SipScriptOld.KindIgnoresCase | sip-script-old.py:237 | a method and its upper-case form are accepted alike |
| SipScriptOld.AnyCaseAccepted | sip-script-old.py:237 | every ASCII mix of cases of REGISTER or INVITE is accepted as that type |
| SipScriptOld.DotlessRegister | sip-script-old.py:237 | `regıster`, with a dotless i, upper-cases to REGISTER and is accepted |
| SipScriptOld.FirstMatchSpec | sip-script-old.py:254-263 | the scan finds nothing exactly when no name matches, and otherwise the value of the first matching field |
| SipScriptOld.TitleFieldFound | sip-script-old.py:254-257 | a first field named P-Access-Network-Info in any mix of cases is what the scan finds |
| SipScriptOld.BlockShape | sip-script-old.py:242-265 | message type as written and timestamp first; To, Route and at most one line from each scan between; the dash line last |
| SipScriptOld.FromIgnored | sip-script-old.py:242-265 | the From header changes nothing the packet writes or counts |
| SipScriptOld.CountedWhenComplete | sip-script-old.py:265-273 | a packet is counted exactly when it is accepted and its whole block, dash line included, is written, and then only in its own type |
| SipScriptOld.MethodOnly | sip-script-old.py:237-273 | a layer with only an accepted method writes its two head lines and the dash line, and is counted unless one of them raises |
| SipScriptOld.LowerCaseRegister | sip-script-old.py:237-273 | `register` is written as is and counted as REGISTER, but it is not counted when writing the dash line raises |
| SipScriptOld.UnusedCountersZero | sip-script-old.py:209-215 | the header and network-type counters are zero after any packets |
| SipScriptOld.ZeroLines | sip-script-old.py:293-300 | those counters print as 0 in the report, and the `summary.txt` block then depends on the file name alone |
| SipScriptOld.DetailsAppend | sip-script-old.py:275-280 | the loop goes on past a failing packet: the detail text of later packets follows that of earlier ones |
| SipScriptOld.ReportLayout | sip-script-old.py:283-305 | the report starts with the summary block; the rest holds no carriage return, is no longer than the scratch text, and is the scratch text itself when that holds none |
| Batch.OutputName | sip-script.py:143 | `base_name.replace('.pcap', '.txt')`: every occurrence, left to right, none overlapping; characterised by the lemmas below |
| Batch.OutputNameUnchanged | sip-script.py:143 | the name never grows, and is unchanged exactly when it holds no `.pcap` |
| Batch.FirstOccurrence | sip-script.py:143 | the first `.pcap` after a stem free of it becomes `.txt`, and the rest is rewritten on its own |
| Batch.CaptureOutputName | sip-script.py:143 | `<stem>.pcap`, with no `.pcap` in the stem, is reported to `<stem>.txt` |
| Batch.EveryOccurrence | sip-script.py:143 | every occurrence is replaced: `<stem>.pcap.pcap` becomes `<stem>.txt.txt` |

## Left out

- The Tkinter interface: the window, the directory pickers, the console pane, the message boxes and opening the output folder. They are presentation only.
- The batch loop of `start_analysis`: the file glob, the output directory and `os.path.join`. Only the renaming on line 143 is modelled.
- pyshark and tshark. Decoding is an input (`Capture.Decoding`). `TSharkCrashException` and `sys.exit(1)` become the `Fatal` outcome.
- The count pass and the extraction pass are two separate `Decoding` inputs, because they are two separate decoder runs.
- tqdm and `print`. The progress bar is a counter that goes up once per packet. Console output is not modelled.
- Real file I/O. Files are strings built from their writes, and the removal of the scratch file is a flag.
- An exception from the final report's writes or from the `summary.txt` append is not modelled. Only per-packet faults and decoder failures are.
- `datetime.now()` and `strftime`. The analysis date and the timestamps are opaque strings given as inputs.
- The commented-out string blocks in sip-script.py (300-311, 318-343). They never run, so Route, P-Access-Network-Info and Cellular-Network-Info are written unsplit.
- convert_icon.py. It is an image-format wrapper with no logic of its own.
- `Text.Upper`, `Text.Lower`: exact wherever Python's result is entirely ASCII. `Upper` maps the ASCII letters, ß, ı, ſ and the ligatures U+FB00 to U+FB06. `Lower` maps the ASCII letters, the Kelvin sign and İ. Every other character is kept as it is. That includes ǰ, ẖ and ŉ, whose Python upper-case mixes an ASCII letter with a non-ASCII character. Python's upper-case of a kept non-ASCII character always holds a non-ASCII character, so it can never make a method equal REGISTER or INVITE. Python lower-cases every other non-ASCII character to a single non-ASCII character, and no needle holds one.
- `'SIP' in packet` (new) and `hasattr(packet, 'sip')` (old) are both modelled as the presence of the SIP layer.
