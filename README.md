# FResp frequency-response measurement, modelled in Dafny

FResp measures the frequency response of a circuit. It drives a two-channel
sine generator and a four-channel oscilloscope over a line-based text
protocol on TCP sockets. At each frequency of a logarithmic or linear sweep it:

- sets the stimulus;
- picks a timebase covering four cycles;
- waits for the signal to settle;
- re-ranges the volts/div of the input and output channels until both
  readings sit inside a usable window, or the ranging starts to hunt;
- reads phase or delay and records the gain in dB.

A command-line front end (MeasureResponse) turns its arguments into the
sweep, stimulus, channel, trigger, measurement and dwell configurations.

This project models that core and proves what it does:

| file | module | what it holds |
|---|---|---|
| `numbers.dfy` | `Numbers` | doubles with NaN (the `DEFAULT_PARAM` sentinel) and infinities; `stod`, `to_string`, `exp`, `log` and `log10` taken as parameters |
| `text.dfy` | `Text` | the character classes and scanners behind the hand-written recognisers that stand in for `std::regex` |
| `socket_instrument.dfy` | `SocketInstrument` | `Socket_Instrument`: a `Transport` class whose network is a script of send outcomes and replies. It records every line written. It also holds newline handling, `Extract_Addr_Port` and the shared attach count |
| `sine_generator.dfy` | `SineGen` | the `SineGenerator` class: phase wrapping, channel strings, and the guarded command chains of `SetChannel` and the default setup |
| `scope_tables.dfy` | `ScopeTables` | the oscilloscope's volts/div, time/div and measurement-token tables |
| `scope_replies.dfy` | `ScopeReplies` | recognisers for the oscilloscope's replies |
| `scope.dfy` | `Scope` | every oscilloscope operation as a function of the connection: what it sends, in what order, what it reads and what it returns. This includes the auto-ranging step `AdjustChannelVolts` and the timebase picker |
| `oscilloscope.dfy` | `OscilloscopeDriver` | the `Oscilloscope` class, whose methods are proved to act as the `Scope` functions say |
| `freq_resp.dfy` | `FreqResponse` | the `FreqResp` session class (`initialized`, `completed`, `f`, `data`): `Init`'s checks and set-up, the convergence loop of `MeasureFreq`, and `MeasureNext`, `Sweep` and `Close`. Each is proved against a specification function over the session and both connections |
| `arg_text.dfy` | `ArgText` | `str_compare_icase`, `to_value`, `strip_path`, `get_suffix`, and the comma-list loop shared by the `Eval*Spec` functions |
| `arg_specs.dfy` | `ArgSpecs` | `EvalStimSpec`, `EvalTrigSpec`, `EvalMeasSpec` and `EvalLogSpec` |
| `measure_response.dfy` | `MeasureResponse` | `MeasureResponseParse`: the argument loop, trigger-channel resolution and the ordered sanity checks |

Every method that changes state or talks to an instrument is tied to a
specification function of the old state. The properties the program
promises are proved as lemmas about those functions. Examples:

- the order of the commands sent, and which ones are sent at all;
- the error precedence of `Init`;
- the thresholds of `MeasureAndScaleInput`;
- the hunting cap of the convergence loop;
- that every sweep with a finite stop frequency completes;
- that later arguments override earlier ones.

The model follows the code as written. In four places the code does not do
what its own comments or patterns say. Each of these is modelled as written
and proved against the evident intent (see Findings):

- `AdjustChannelVolts` is documented to return the "actual adjustment
  steps" (FResp/Oscilloscope.cpp:960). At the top of the volts/div table it
  returns one more than the movement made (FResp/Oscilloscope.cpp:1052-1056).
  From the last entry a step up moves nothing yet reports +1, so that round
  of the convergence loop cannot settle.
- `Init` rejects a NaN stop frequency and one not above the start
  (FResp/FreqResp.cpp:151-156), but an infinite stop passes. A sweep to it
  never completes.
- The channel pattern accepts `I` as the input's tag
  (FResp/MeasureResponse.cpp:662), but the loop tests for `IN` only
  (FResp/MeasureResponse.cpp:685). So `I:n` sets the output channel.
- The quoted log-file pattern is written `[^""]` inside a C++ literal
  (FResp/MeasureResponse.cpp:242). It compiles to `[^]`, so a quoted name
  runs to the last acceptable closing quote.

Two further points are modelled as the code has them:

- The convergence loop (FResp/FreqResp.cpp:509-534) has no round limit. It
  ends only when neither scale moves or after three turn-backs.
- `SetChannelVolts` with its default NaN offset writes the volts/div and
  then reports failure, so `SetChannelEx` never succeeds.

## Model

| member | source | states |
|---|---|---|
| SocketInstrument.LastIndexOf | FResp/Socket_Instrument.cpp:289 | the index found holds the character and no later index does; None exactly when the character does not occur |
| SocketInstrument.EndsWithNewlineMeans | FResp/Socket_Instrument.cpp:287-297 | EndsWithNewline holds if and only if the text is nonempty and its last character is '\n' |
| SocketInstrument.Line | FResp/Socket_Instrument.cpp:217-218 | the line sent always ends in '\n', starts with the command, is at most one character longer, and equals the command exactly when the command already ended in '\n' |
| SocketInstrument.SendOn | FResp/Socket_Instrument.cpp:220 | a send succeeds exactly when the socket is attached and the network accepts it; only then is the text appended to what was delivered; the replies are untouched |
| SocketInstrument.QueryOn | FResp/Socket_Instrument.cpp:259-275 | a response exists only when a reply was pending, is nonempty, at most RECV_BUFLEN (256) bytes and a prefix of that reply, and uses it up; the lines written are those of the Write it performs |
| SocketInstrument.WritesDeliversPrefix | FResp/SineGenerator.cpp:159-162 | a chain `ok = Write(a); if (ok) ok = Write(b); ...` delivers exactly the lines of the commands before the first refused send, in order, and returns true exactly when it delivers all of them |
| SocketInstrument.WriteChainSnoc | FResp/SineGenerator.cpp:159-162 | extending a chain by one command sends it exactly when every earlier command went through |
| SocketInstrument.ExtractAddrPortOf | FResp/Socket_Instrument.cpp:315-330 | every resource `[letters://]d.d.d.d:port[/]` with 1-3 digit octets and a 1-5 digit port yields exactly the dotted quad and the port |
| SocketInstrument.ExtractAddrPortAt | FResp/Socket_Instrument.cpp:319-326 | the same at the index level: text laid out as scheme, quad, ':', port and an optional '/' yields the quad and the port |
| SocketInstrument.ExtractAddrPortSound | FResp/Socket_Instrument.cpp:319-326 | whatever is accepted is a dotted quad of 1-3 digit octets and a 1-5 digit port, so the recogniser accepts exactly the documented form |
| SocketInstrument.SocketLibrary.constructor | FResp/Socket_Instrument.cpp:30 | the shared attached count starts at 0 |
| SocketInstrument.Transport.constructor | FResp/Socket_Instrument.cpp:96-108 | a new connection is not attached and has written nothing |
| SocketInstrument.Transport.Attach | FResp/Socket_Instrument.cpp:138-174 | drops any current connection first; succeeds exactly when the sockets library is up and the resource parses to a reachable address and port; the shared count loses one for the old connection and gains one only on success |
| SocketInstrument.Transport.Detach | FResp/Socket_Instrument.cpp:187-201 | always returns true and leaves the link detached; the shared count drops only when it was attached, so a second Detach changes nothing |
| SocketInstrument.Transport.Write | FResp/Socket_Instrument.cpp:213-224 | sends Line(command) and returns whether the send went through |
| SocketInstrument.Transport.WriteEx | FResp/Socket_Instrument.cpp:237-245 | sends the command unchanged and returns whether the send went through |
| SocketInstrument.Transport.Query | FResp/Socket_Instrument.cpp:259-275 | returns true exactly when a reply arrives; the response is replaced only then and otherwise keeps its prior value |
| SineGen.ChannelString | FResp/SineGenerator.cpp:117-124 | the channel text is a single digit '1' or '2' |
| SineGen.ChannelStringInjective | FResp/SineGenerator.cpp:121-122 | distinct channels get distinct strings, in both directions |
| SineGen.CoercePhaseRange | FResp/SineGenerator.cpp:136-141 | a wrapped finite phase lies in [0, 360) and differs from the input by a whole number of turns |
| SineGen.CoercePhaseUnique | FResp/SineGenerator.cpp:138 | the wrapped phase is the only angle in [0, 360) that differs from the input by whole turns |
| SineGen.CoercePhaseIdempotent | FResp/SineGenerator.cpp:136-141 | wrapping a wrapped phase changes nothing, NaN and infinities included |
| SineGen.ChannelSettingsChosen | FResp/SineGenerator.cpp:186-209 | SetChannel sends a frequency, amplitude, offset or phase command exactly when that parameter is not NaN, at most once each, carrying the value given |
| SineGen.ChannelSettingsOrdered | FResp/SineGenerator.cpp:186-209 | the settings go out in the order frequency, Vpp, offset, phase |
| SineGen.PhaseCommandWrapped | FResp/SineGenerator.cpp:206-207 | the phase command always carries an angle in [0, 360) |
| SineGen.OutputCommandInjective | FResp/SineGenerator.cpp:321-323 | ":OUTP<n> ON/OFF" names its channel and state unambiguously |
| SineGen.SetChannelIsChain | FResp/SineGenerator.cpp:179-212 | SetChannel is exactly the chain of writes of its chosen settings, each sent only while the earlier ones went through |
| SineGen.SetChannelNothing | FResp/SineGenerator.cpp:181-211 | with every parameter NaN, SetChannel sends nothing and returns true |
| SineGen.SetChannelDelivers | FResp/SineGenerator.cpp:192-204 | SetChannel delivers the chosen commands before the first refused write, in order, none after it, and does not undo earlier ones; it succeeds exactly when all were delivered |
| SineGen.DefaultSetupDelivers | FResp/SineGenerator.cpp:155-163 | the default setup succeeds exactly when both writes go through; the second is sent only after the first succeeded |
| SineGen.SineGenerator.constructor | FResp/SineGenerator.cpp:31-34 | the generator is bound to its connection |
| SineGen.SineGenerator.Attach | FResp/SineGenerator.cpp:60-68 | succeeds exactly when the socket attaches and the default setup then succeeds; the setup is not sent when the attach fails |
| SineGen.SineGenerator.Detach | FResp/SineGenerator.cpp:102-105 | always succeeds and leaves the connection detached |
| SineGen.SineGenerator.SetupSineGeneratorDefault | FResp/SineGenerator.cpp:155-163 | the connection's new state and the result are those of the two-command chain |
| SineGen.SineGenerator.SetChannel | FResp/SineGenerator.cpp:179-212 | the new state and result are those of SetChannelOn, whose delivery is stated by SetChannelDelivers |
| SineGen.SineGenerator.SendIfGiven | FResp/SineGenerator.cpp:192-196 | one guarded step: it writes only after success so far and for a non-NaN value |
| SineGen.SineGenerator.SetChannelFreq | FResp/SineGenerator.cpp:225-231 | writes ":SOUR<n>:FREQ <f>" and returns whether it went through |
| SineGen.SineGenerator.SetChannelVpp | FResp/SineGenerator.cpp:244-250 | writes ":SOUR<n>:VOLT <v>" and returns whether it went through |
| SineGen.SineGenerator.SetChannelVoffs | FResp/SineGenerator.cpp:263-269 | writes ":SOUR<n>:VOLT:OFFS <v>" and returns whether it went through |
| SineGen.SineGenerator.SetChannelPhase | FResp/SineGenerator.cpp:282-288 | writes ":SOUR<n>:PHAS" with the wrapped phase |
| SineGen.SineGenerator.AlignChannel | FResp/SineGenerator.cpp:300-306 | writes ":SOUR<n>:PHAS:SYNC" |
| SineGen.SineGenerator.SetChannelOutput | FResp/SineGenerator.cpp:319-326 | writes ":OUTP<n> ON" or ":OUTP<n> OFF" |
| ScopeTables.GetChannel | FResp/Oscilloscope.cpp:275-285 | numbers 1 to 4 give the channel with that number; any other number gives CH1 |
| ScopeTables.ChannelString | FResp/Oscilloscope.cpp:297-310 | the channel text is "C" followed by the channel's digit |
| ScopeTables.GetChannelNumber | FResp/Oscilloscope.cpp:275-285 | GetChannel inverts the channel numbering |
| ScopeTables.VoltageTablesShape | FResp/Oscilloscope.cpp:33-69 | there are two attenuation tables of 14 entries each, with volts strictly increasing in both |
| ScopeTables.TenXIsScaled | FResp/Oscilloscope.cpp:33-69 | each 10x entry is ten times the 1x entry at the same index |
| ScopeTables.TimeTableShape | FResp/Oscilloscope.cpp:93-129 | 34 time settings from 1 ns to 100 s, with seconds strictly increasing |
| ScopeTables.StepsUpIncreasing | FResp/Oscilloscope.cpp:33-69 | a table that goes up at every step is strictly increasing, which is what the two shape lemmas use |
| ScopeTables.FirstIndexSpec | FResp/Oscilloscope.cpp:1119-1126 | the table search fails exactly when no key matches; otherwise it finds the first match, as the loops that break on a match do |
| ScopeTables.VoltsTextMissing | FResp/Oscilloscope.cpp:633-640 | a volts/div setting has command text exactly when its table lists it |
| ScopeTables.Vdiv1XCoverage | FResp/Oscilloscope.cpp:35-51 | UNSPEC, 20V, 50V and 100V have no 1x entry |
| ScopeTables.Vdiv10XCoverage | FResp/Oscilloscope.cpp:52-68 | UNSPEC, 500uV, 1mV and 2mV have no 10x entry |
| ScopeTables.TimeTextMissing | FResp/Oscilloscope.cpp:1255-1263 | a time/div setting has command text exactly when the table lists it |
| ScopeTables.MeasTokenShape | FResp/Oscilloscope.cpp:1117-1126 | the token Measure sends, the table's entry or the first entry's as a fallback, is a nonempty run of capital letters |
| ScopeTables.MeasDelTokenShape | FResp/Oscilloscope.cpp:1160-1169 | the same for MeasureDelay's token |
| ScopeReplies.SkipOf | FResp/Oscilloscope.cpp:1092 | removing a fixed prefix from text that starts with it gives back the rest |
| ScopeReplies.AttnValueOf | FResp/Oscilloscope.cpp:1092 | every reply "C<1-4>:ATTN <[0-9.]+>\n" yields its value |
| ScopeReplies.AttnValueSound | FResp/Oscilloscope.cpp:1092 | whatever is accepted has exactly that form, so the recogniser and the pattern agree |
| ScopeReplies.PavaValueOf | FResp/Oscilloscope.cpp:1130 | every reply "C<1-4>:PAVA <NAME>,<[0-9.E+-]+><V or A><spaces>" yields its value |
| ScopeReplies.PavaValueSound | FResp/Oscilloscope.cpp:1130 | whatever is accepted has exactly that form, with a nonempty value of the number class |
| ScopeReplies.MeadValueOf | FResp/Oscilloscope.cpp:1174 | every reply "C<n>-C<m>:MEAD <token>,<value><letters><spaces>" for the token asked for yields its value |
| ScopeReplies.MeadStars | FResp/Oscilloscope.cpp:1174 | the instrument's "****" for an invalid measurement is refused |
| ScopeReplies.MeadValueSound | FResp/Oscilloscope.cpp:1174 | whatever is accepted has exactly that form |
| ScopeReplies.ScaleValueOf | FResp/Oscilloscope.cpp:989-996 | every volts/div reply "C<n>:V<NAME> <value><V or A>\n" and offset reply "C<n>:O<NAME> ...", in either case, yields its value |
| ScopeReplies.ScaleValueSound | FResp/Oscilloscope.cpp:989-996 | whatever is accepted has exactly that form |
| ScopeReplies.EdgeAttnValueOf | FResp/Oscilloscope.cpp:518-520 | every reply "C<n>:ATT<NAME> <text>\n", in either case, yields the text between the space and the final newline |
| ScopeReplies.EdgeAttnValueSound | FResp/Oscilloscope.cpp:518-520 | whatever is accepted has exactly that form |
| Scope.OnlyQueriesTrans | FResp/Oscilloscope.cpp:986-999 | two read-only stretches in a row are read-only, so a sequence of queries sets nothing |
| Scope.QueryOnlyAsks | FResp/Socket_Instrument.cpp:259-275 | a query puts at most its own line, which contains '?', on the wire |
| Scope.ReadChannelAttenOn | FResp/Oscilloscope.cpp:1084-1096 | reading the attenuation only queries and leaves the connection attached |
| Scope.AttenDefaultsToZero | FResp/Oscilloscope.cpp:1086-1095 | a failed query or a reply not of the form "C<n>:ATTN <digits>" reads as 0 |
| Scope.SetChannelOffsetOn | FResp/Oscilloscope.cpp:695-706 | a NaN offset is refused without sending anything; any other offset sends "C<n>:OFST <v>V" |
| Scope.SetOptionOn | FResp/Oscilloscope.cpp:719-850 | each option setter refuses UNSPEC without sending anything and otherwise sends its one command |
| Scope.SetChannelSkewOn | FResp/Oscilloscope.cpp:863-877 | a NaN skew sends nothing and succeeds; a skew outside +-100 ns is refused unsent; anything sent has a skew within +-100 ns |
| Scope.SetTimeDelayOn | FResp/Oscilloscope.cpp:1193-1201 | a NaN delay sends nothing and succeeds; any other delay sends "TRDL <d>" |
| Scope.EdgeTriggerNeedsAttenuation | FResp/Oscilloscope.cpp:514-532 | without a well-formed attenuation reply SetEdgeTrigger sets nothing and fails |
| Scope.EdgeTriggerSendsScaledLevel | FResp/Oscilloscope.cpp:568-574 | after the attenuation query come the four trigger commands up to the first refusal, with the level divided by the attenuation; success exactly when all four went out |
| Scope.DefaultHoldoff | FResp/Oscilloscope.cpp:552-572 | without holdoff the trigger-select command ends "HT, OFF, HV, 80NS" |
| Scope.VoltsNeedTableEntry | FResp/Oscilloscope.cpp:625-648 | with an attenuation other than 1 or 10, or a setting missing from its table, SetChannelVolts sets nothing and fails |
| Scope.VoltsWithoutOffsetFail | FResp/Oscilloscope.cpp:643-644 | with the default NaN offset SetChannelVolts never succeeds, even after its VDIV write |
| Scope.VoltsExRange | FResp/Oscilloscope.cpp:666-682 | SetChannelVoltsEx sets something or succeeds only for a positive volts/div whose value divided by the attenuation lies in [5e-4, 10] |
| Scope.ChannelExUnspecInvert | FResp/Oscilloscope.cpp:896-910 | with the default UNSPEC invert SetChannelEx sends nothing and fails |
| Scope.ChannelExNeverSucceeds | FResp/Oscilloscope.cpp:905-906 | SetChannelEx never succeeds, because its SetChannelVolts step uses the NaN default offset |
| Scope.ChannelLevelsFail | FResp/Oscilloscope.cpp:905-907 | the offset, volts/div and enable tail of SetChannelEx always fails |
| Scope.ScaleWindow | FResp/Oscilloscope.cpp:1014-1016 | the window is pp = 8 vdiv wide, from -pp/2 - offset to pp/2 - offset |
| Scope.ReadScaleOn | FResp/Oscilloscope.cpp:973-1017 | reading the scale only queries; a failed volts/div query leaves every value 0, and a failed offset query leaves only the volts/div read |
| Scope.ClampStep | FResp/Oscilloscope.cpp:981-984 | the request is clamped to [-3, 3] and kept when already inside |
| Scope.NearestInIsFirstClosest | FResp/Oscilloscope.cpp:1023-1041 | the running minimum finds an entry at least as close as every other, and strictly closer than every earlier one |
| Scope.NearestIsFirstClosest | FResp/Oscilloscope.cpp:1023-1043 | the search finds nothing exactly for a NaN or infinite volts/div or an empty table; otherwise it finds the first closest entry |
| Scope.MoveAsWritten | FResp/Oscilloscope.cpp:1046-1056 | the source's clamp lands inside the table, on the requested index when that is inside and reporting the request; below the table it lands on 0 and reports -from; above it, it lands on 13 and reports 14 - from |
| Scope.MoveClamped | FResp/Oscilloscope.cpp:1046-1056 | the corrected clamp lands inside the table, on the requested index when that is inside, and reports exactly the movement made |
| Scope.MoveAsWrittenOverReports | FResp/Oscilloscope.cpp:1046-1056 | the source's clamp lands where the corrected one does and agrees with it up to the top of the table; above it, it reports one more step than was made |
| Scope.MoveAtTopCounterexample | FResp/Oscilloscope.cpp:1052-1056 | from the last entry a +1 request moves nothing, but the source reports 1 |
| Scope.MoveAtBottomExample | FResp/Oscilloscope.cpp:1047-1051 | from index 2 a -3 request lands on 0 and reports -2 |
| Scope.AdjustChannelVoltsOn | FResp/Oscilloscope.cpp:964-1072 | a zero request reports 0; otherwise the value returned lies between 0 and the clamped request, on its side, so it never exceeds the request and never points the other way |
| Scope.StepVoltsOn | FResp/Oscilloscope.cpp:1019-1068 | the adjusting half reports a value between 0 and the step, on its side |
| Scope.AdjustZeroReads | FResp/Oscilloscope.cpp:1011-1019 | a zero request is a pure read: it reports 0 and the scale read |
| Scope.AdjustNeedsKnownAtten | FResp/Oscilloscope.cpp:1026-1068 | with an attenuation other than 1 or 10 nothing is set and 0 is reported |
| Scope.AdjustLands | FResp/Oscilloscope.cpp:1043-1059 | with a known attenuation and a numeric volts/div the nearest entry lies in [0, 13] and the value returned is the source's report from it: the request when it lands inside the table, -i when it would fall below, and 14 - i when it would pass the top, one more than the corrected clamp's |
| Scope.AdjustChannelVoltsBriefOn | FResp/Oscilloscope.cpp:930-938 | a zero request does nothing and returns true, i.e. 1; otherwise it returns the step reported, between 0 and the clamped request, on its side |
| Scope.PavaCommand | FResp/Oscilloscope.cpp:1128 | the measurement command is a query |
| Scope.MeasureOn | FResp/Oscilloscope.cpp:1109-1137 | Measure only queries; a result other than NaN used up a reply |
| Scope.MeasureReadsReply | FResp/Oscilloscope.cpp:1128-1134 | a result other than NaN comes from a well-formed reply, and every well-formed reply gives the number it carries |
| Scope.MeadCommand | FResp/Oscilloscope.cpp:1171 | the delay command is a query |
| Scope.MeasureDelayOn | FResp/Oscilloscope.cpp:1151-1181 | MeasureDelay only queries |
| Scope.MeasureDelayStars | FResp/Oscilloscope.cpp:1174-1177 | the instrument's "****" reply gives NaN |
| Scope.PickFromSpec | FResp/Oscilloscope.cpp:1220-1231 | the pick is the first entry whose seconds are at least capture/14, or the last entry when none before it is |
| Scope.PickTimebase | FResp/Oscilloscope.cpp:1220-1231 | the pick is always an index of the time table |
| Scope.PickFromCovers | FResp/Oscilloscope.cpp:1223-1231 | a target no larger than the last entry picks an entry at least as large |
| Scope.PickedCovers | FResp/Oscilloscope.cpp:1220-1236 | in any table, a capture no longer than the last screen picks a screen that holds it |
| Scope.TimebaseCovers | FResp/Oscilloscope.cpp:1215-1237 | for captures up to 1400 s the screen set, sec times 14, is at least the capture |
| Scope.PickFromMonotone | FResp/Oscilloscope.cpp:1223-1231 | a larger target never picks an earlier entry |
| Scope.TimebaseMonotone | FResp/Oscilloscope.cpp:1215-1237 | a longer capture never picks a shorter time/div |
| OscilloscopeDriver.LookupVolts | FResp/Oscilloscope.cpp:633-640 | the search of the attenuation's table returns the text of the first entry for the requested volts/div, or none when no entry has it |
| OscilloscopeDriver.LookupTime | FResp/Oscilloscope.cpp:1255-1260 | the search of the time table returns the text of the first entry for the requested time/div, or none |
| OscilloscopeDriver.LookupMeasToken | FResp/Oscilloscope.cpp:1117-1126 | the search of the measurement table returns the token of the first entry for the parameter, or the first entry's token when none matches |
| OscilloscopeDriver.LookupMeasDelToken | FResp/Oscilloscope.cpp:1160-1169 | the search of the delay-measurement table returns the token of the first entry for the parameter, or the first entry's token when none matches |
| OscilloscopeDriver.Closest | FResp/Oscilloscope.cpp:1023-1041 | the loop picks the first entry at the smallest distance from the volts/div read, or -1 when no distance is finite |
| OscilloscopeDriver.PickTimebaseEntry | FResp/Oscilloscope.cpp:1220-1231 | the loop picks the first time/div whose screen of 14 divisions covers the capture time, or the longest |
| OscilloscopeDriver.Oscilloscope.constructor | FResp/Oscilloscope.cpp:322-325 | a new oscilloscope is bound to its transport and attached to nothing |
| OscilloscopeDriver.Oscilloscope.Attach | FResp/Oscilloscope.cpp:351-361 | attaching succeeds exactly when the library is started and the resource names a reachable address; on success the default setup follows on the new connection |
| OscilloscopeDriver.Oscilloscope.Detach | FResp/Oscilloscope.cpp:373-376 | detaching always succeeds and leaves the connection unattached, the sent lines unchanged |
| OscilloscopeDriver.Oscilloscope.SetupOscilloscopeDefault | FResp/Oscilloscope.cpp:388-448 | the default setup sends its fixed commands and then the default settings, ignoring every outcome |
| OscilloscopeDriver.Oscilloscope.WriteEach | FResp/Oscilloscope.cpp:391-426 | the fixed commands are written one after the other whatever each write returns |
| OscilloscopeDriver.Oscilloscope.ApplyDefaultSettings | FResp/Oscilloscope.cpp:429-447 | timebase 1 ms/div, the four channel defaults, a rising DC edge trigger on channel 1 at 0 V and AUTO mode, in that order |
| OscilloscopeDriver.Oscilloscope.SetupChannelDefaults | FResp/Oscilloscope.cpp:432-443 | the loop applies the channel default to channels 1 to 4 in order |
| OscilloscopeDriver.Oscilloscope.SetupChannelDefault | FResp/Oscilloscope.cpp:434-442 | one channel gets 1 V/div, DC, full bandwidth, 10X, not inverted, unit V and zero skew, and channels above 2 are switched off |
| OscilloscopeDriver.Oscilloscope.SetTriggerMode | FResp/Oscilloscope.cpp:460-484 | the mode's "TRMD" command is written and its outcome returned |
| OscilloscopeDriver.Oscilloscope.WriteChained | FResp/Oscilloscope.cpp:568-574 | the commands are written in order up to the first refusal; success exactly when every one went through |
| OscilloscopeDriver.Oscilloscope.SetEdgeTrigger | FResp/Oscilloscope.cpp:501-578 | the attenuation is queried first; without a well-formed reply nothing more is sent, otherwise the trigger commands with the level divided by the attenuation follow |
| OscilloscopeDriver.Oscilloscope.SetChannelEnable | FResp/Oscilloscope.cpp:591-602 | "C<n>:TRACE ON" or "C<n>:TRACE OFF" is written and its outcome returned |
| OscilloscopeDriver.Oscilloscope.ReadChannelAtten | FResp/Oscilloscope.cpp:1084-1096 | the attenuation is queried and converted, reading 0 when the query or the reply's form fails |
| OscilloscopeDriver.Oscilloscope.SetChannelVolts | FResp/Oscilloscope.cpp:617-652 | only for attenuation 1 or 10 and a setting in its table is "C<n>:VDIV" written, and the offset is set only after that write succeeds |
| OscilloscopeDriver.Oscilloscope.SetChannelVoltsEx | FResp/Oscilloscope.cpp:666-682 | the free volts/div is written only when positive and within range once divided by the attenuation, and the offset only after that |
| OscilloscopeDriver.Oscilloscope.SetChannelOffset | FResp/Oscilloscope.cpp:695-706 | a NaN offset is refused unsent, any other is written with a trailing "V" |
| OscilloscopeDriver.Oscilloscope.SetOption | FResp/Oscilloscope.cpp:719-850 | an option without text (UNSPEC) is refused unsent, any other option's command is written |
| OscilloscopeDriver.Oscilloscope.SetChannelBWL | FResp/Oscilloscope.cpp:719-734 | the bandwidth-limit command for the setting, or a refusal for UNSPEC |
| OscilloscopeDriver.Oscilloscope.SetChannelInvert | FResp/Oscilloscope.cpp:747-763 | the invert command for the setting, or a refusal for UNSPEC |
| OscilloscopeDriver.Oscilloscope.SetChannelAtten | FResp/Oscilloscope.cpp:776-792 | the attenuation command for the setting, or a refusal for UNSPEC |
| OscilloscopeDriver.Oscilloscope.SetChannelCoupling | FResp/Oscilloscope.cpp:805-821 | the coupling command for the setting, or a refusal for UNSPEC |
| OscilloscopeDriver.Oscilloscope.SetChannelUnit | FResp/Oscilloscope.cpp:834-850 | the unit command for the setting, or a refusal for UNSPEC |
| OscilloscopeDriver.Oscilloscope.SetChannelSkew | FResp/Oscilloscope.cpp:863-877 | a NaN skew succeeds unsent, a skew beyond +-100 ns is refused unsent, any other is written |
| OscilloscopeDriver.Oscilloscope.SetChannelEx | FResp/Oscilloscope.cpp:896-910 | the options first, then offset, volts/div and enable, each step only after the previous one succeeded |
| OscilloscopeDriver.Oscilloscope.SetChannelOptions | FResp/Oscilloscope.cpp:901-904 | invert, attenuation, bandwidth limit and coupling in that order, stopping at the first refusal |
| OscilloscopeDriver.Oscilloscope.SetChannelLevels | FResp/Oscilloscope.cpp:905-907 | offset, then volts/div with the default NaN offset, then enable, stopping at the first refusal |
| OscilloscopeDriver.Oscilloscope.ReadScale | FResp/Oscilloscope.cpp:973-1017 | the volts/div and offset queries, with the window computed only when both queries went through |
| OscilloscopeDriver.Oscilloscope.AdjustChannelVolts | FResp/Oscilloscope.cpp:964-1072 | the request is clamped to [-3, 3], the scale read, and a non-zero step moves from the nearest table entry, clamped to the table, then reads the scale again; the value returned is the source's report, one more than the movement at the top of the table |
| OscilloscopeDriver.Oscilloscope.StepVolts | FResp/Oscilloscope.cpp:1019-1069 | with an unknown attenuation nothing moves and 0 is reported; otherwise the closest entry moves by the step, clamped to the table, the scale is read back, and the report is computed as the source computes it |
| OscilloscopeDriver.Oscilloscope.AdjustChannelVoltsBrief | FResp/Oscilloscope.cpp:930-938 | a zero request reports 1 without touching the instrument; otherwise the value AdjustChannelVolts reports |
| OscilloscopeDriver.Oscilloscope.Measure | FResp/Oscilloscope.cpp:1109-1137 | the "PAVA?" query for the parameter's token, reading NaN when the query or the reply's form fails |
| OscilloscopeDriver.Oscilloscope.MeasureDelay | FResp/Oscilloscope.cpp:1151-1181 | the "MEAD?" query for the two channels and the token, reading NaN when the query or the reply's form fails |
| OscilloscopeDriver.Oscilloscope.SetTimeDelay | FResp/Oscilloscope.cpp:1193-1201 | a NaN delay succeeds unsent, any other is written as "TRDL" |
| OscilloscopeDriver.Oscilloscope.SetTimebaseDiv | FResp/Oscilloscope.cpp:1250-1271 | a time/div missing from the table is refused unsent; otherwise "TDIV" is written and the delay set only after it succeeds |
| OscilloscopeDriver.Oscilloscope.SetTimebase | FResp/Oscilloscope.cpp:1215-1237 | the shortest covering time/div is set, and the screen time it gives is returned, or NaN when setting it failed |
| FreqResponse.ValidFrequencies | FResp/FreqResp.cpp:151-156 | frequencies that pass the checks and have a finite stop are numbers with 0 < fStart < fStop |
| FreqResponse.AcceptedFrequencies | FResp/FreqResp.cpp:151-156 | the frequency checks pass exactly when fStart is a positive number and fStop a larger number or +inf |
| FreqResponse.InfiniteStopAccepted | FResp/FreqResp.cpp:151-156 | as written, fStop = +inf passes every frequency check, and then no frequency ever completes the sweep |
| FreqResponse.StimAmplitude | FResp/FreqResp.cpp:190-198 | an accepted stimulus gives a positive peak-to-peak amplitude: twice the value for VPK, the value itself for VPP |
| FreqResponse.ChannelChoice | FResp/FreqResp.cpp:180-250 | channels 1 to 4 map to themselves; any other number falls back to CH1 for the input and CH2 for the output; the generator uses CH2 exactly for 2 |
| FreqResponse.ScaleRequestBands | FResp/FreqResp.cpp:592-599 | on a positive span, above 97.25% asks one step up, below 17.25% two steps down, below 36.25% one step down, otherwise no step |
| FreqResponse.ScaleRequestMonotone | FResp/FreqResp.cpp:592-599 | a larger peak-to-peak reading never asks for a smaller step |
| FreqResponse.ScaleRequestEdges | FResp/FreqResp.cpp:592-599 | a NaN reading or span asks for no step; on a zero span any positive reading asks for a step up |
| FreqResponse.MeasureAndScaleOn | FResp/FreqResp.cpp:582-602 | the step returned lies in [-2, 1], the range of the steps asked for, and a non-zero step has used up at least one reply |
| FreqResponse.InBandOnlyReads | FResp/FreqResp.cpp:588-601 | the value returned is the first reading; when the peak-to-peak reading is in band only queries go out and the scale is kept |
| FreqResponse.TurnedBackIsNegativeProduct | FResp/FreqResp.cpp:519-522 | the test adjust_last * adjust < 0 holds exactly when the step reversed direction |
| FreqResponse.RoundOn | FResp/FreqResp.cpp:512-522 | a round that does not settle the loop has used up at least one reply |
| FreqResponse.ConvergeOn | FResp/FreqResp.cpp:509-534 | the loop never adds replies: it consumes the reply script as it goes |
| FreqResponse.ConvergeSettles | FResp/FreqResp.cpp:519-534 | the loop ends settled (no step on either channel or three turn-backs), with the turn-back count at most 3 |
| FreqResponse.PinnedAtTopReportsOne | FResp/FreqResp.cpp:592-601 | with the input on the last volts/div entry and a reading above its band, MeasureAndScaleInput moves nothing yet returns +1 |
| FreqResponse.TopOfTableKeepsHunting | FResp/FreqResp.cpp:509-534 | in that state a round returns +1 for the input, so it settles only through three turn-backs, and the input side never counts as one after a step that was not negative |
| FreqResponse.Dword | FResp/FreqResp.cpp:498 | the DWORD conversion lands in [0, 2^32) |
| FreqResponse.DwellBounds | FResp/FreqResp.cpp:498-500 | the wait is at least the minimum dwell, and otherwise the screens' time in whole milliseconds |
| FreqResponse.GainOfReadings | FResp/FreqResp.cpp:536-537 | the gain is 20 log10 of the magnitude ratio; a zero input gives +inf dB and a zero output -inf dB |
| FreqResponse.MeasuredAt | FResp/FreqResp.cpp:488-547 | a measurement is recorded at the frequency asked for, in the session's unit, after one frequency command to the generator, and waits at least the minimum dwell |
| FreqResponse.SweepAdvances | FResp/FreqResp.cpp:447-462 | with valid frequencies, each step from at or above fStart reaches +inf or rises by at least a fixed positive amount |
| FreqResponse.BudgetDecreases | FResp/FreqResp.cpp:447-462 | a step that does not complete the sweep stays within [fStart, 1.001 fStop] and leaves fewer steps to go |
| FreqResponse.SweepReachesStop | FResp/FreqResp.cpp:447-462 | with a finite stop frequency some number of steps completes the sweep; an infinite stop, which the checks accept, never completes it (InfiniteStopNeverCompletes) |
| FreqResponse.LinearReachesStop | FResp/FreqResp.cpp:455-462 | a linear sweep of N >= 2 points reaches fStop itself after N - 1 steps |
| FreqResponse.LinearSteps | FResp/FreqResp.cpp:457 | k linear steps add k times (fStop - fStart) / (N - 1) |
| FreqResponse.SweptSnoc | FResp/FreqResp.cpp:443-462 | appending a sample taken at the current frequency keeps the samples a sweep from fStart, one step apart |
| FreqResponse.SweptIncreasing | FResp/FreqResp.cpp:443-462 | the samples of a sweep lie in [fStart, 1.001 fStop] and their frequencies strictly increase |
| FreqResponse.SweptAt | FResp/FreqResp.cpp:443-462 | each sample of a sweep lies in [fStart, 1.001 fStop] |
| FreqResponse.SweptBetween | FResp/FreqResp.cpp:443-462 | an earlier sample of a sweep has a lower frequency than a later one |
| FreqResponse.InitTwice | FResp/FreqResp.cpp:131-132 | a second Init changes nothing and returns ALREADY_INITIALIZED (-2) |
| FreqResponse.InitRejects | FResp/FreqResp.cpp:139-167 | a configuration that fails its checks is stored, reported with a negative code from the last failing group, and neither instrument is touched; an infinite stop frequency is not a failure |
| FreqResponse.InitOutcome | FResp/FreqResp.cpp:129-376 | Init succeeds exactly when the checks pass and both instruments attach; it is initialized exactly then; INIT_SINEGEN exactly when the generator fails, leaving the oscilloscope untouched |
| FreqResponse.InitPrepares | FResp/FreqResp.cpp:173-366 | after a successful Init the sweep is at fStart with frequencies that passed the checks (an infinite stop among them), AMPL readings scaled 0.5 for VPK and 1 for VPP, the delay edge matching the trigger edge and a positive stimulus |
| FreqResponse.MeasureNextIdle | FResp/FreqResp.cpp:427-434 | before Init MeasureNext returns NOT_INITIALIZED (-1), after completion COMPLETE (1), changing nothing |
| FreqResponse.MeasureNextStep | FResp/FreqResp.cpp:437-470 | a step appends exactly one sample at the current frequency, moves to the next frequency, and returns COMPLETE exactly when it passes 1.001 fStop |
| FreqResponse.InfiniteStopNeverCompletes | FResp/FreqResp.cpp:437-470 | with fStop = +inf every MeasureNext of a running sweep appends one sample and returns SUCCESS, and none completes the sweep |
| FreqResponse.SweepStep | FResp/FreqResp.cpp:400-470 | each MeasureNext keeps the sweep invariant and, until complete, leaves fewer steps to go |
| FreqResponse.SweepCarries | FResp/FreqResp.cpp:443-462 | the sweep invariant survives one appended sample and one frequency step |
| FreqResponse.CloseAllowsInit | FResp/FreqResp.cpp:97-111 | after Close the session is uninitialized, not complete and empty, so Init no longer reports ALREADY_INITIALIZED |
| FreqResponse.SetupChannel | FResp/FreqResp.cpp:268-280 | one measurement channel is switched on, given its attenuation (10X for 10, else 1X) and 1 V/div with no offset |
| FreqResponse.SetupTrigger | FResp/FreqResp.cpp:324-325 | AUTO triggering, then the edge trigger on the configured channel, edge, level and coupling, without holdoff |
| FreqResponse.SetupScope | FResp/FreqResp.cpp:268-325 | the oscilloscope block: both channels, their couplings, then the trigger, every outcome ignored |
| FreqResponse.MeasureRound | FResp/FreqResp.cpp:512-522 | one round measures and scales the input, then the output, and counts a turn-back |
| FreqResponse.TallyRound | FResp/FreqResp.cpp:516-522 | the readings are multiplied by the measurement factor and the turn-back count rises when either step reversed |
| FreqResponse.ConvergeLoop | FResp/FreqResp.cpp:503-534 | the do-while loop runs rounds until settled and then reads the phase or delay |
| FreqResponse.MeasureAt | FResp/FreqResp.cpp:488-547 | one measurement at a frequency: timebase, generator frequency, dwell, convergence loop and result record |
| FreqResponse.Reverses | FResp/FreqResp.cpp:519 | the product test says whether a step turned back |
| FreqResponse.MeasureAndScaleInput | FResp/FreqResp.cpp:582-602 | the reading, then the peak-to-peak reading unless it is the same parameter, then a volts/div move when it leaves its band |
| FreqResponse.StartStimulus | FResp/FreqResp.cpp:201-209 | the generator is attached; only then is its channel set to fStart, the amplitude and offset at phase 0, and its output turned on |
| FreqResponse.FirstMeasurement | FResp/FreqResp.cpp:362-373 | the output's and then the input's scale are read with a zero step, then one measurement at fStart is taken and discarded |
| FreqResponse.StartAt | FResp/FreqResp.cpp:173-375 | Init after the checks: stimulus, oscilloscope and wrap-up, stopping at the first instrument that does not attach |
| FreqResponse.StartScopeAt | FResp/FreqResp.cpp:217-375 | the oscilloscope block and the wrap-up, or INIT_OSCILLOSCOPE (-10) when it does not attach |
| FreqResponse.WrapUpAt | FResp/FreqResp.cpp:353-373 | initialized, the result unit chosen, both scales read, f at fStart and a first measurement taken |
| FreqResponse.MeasureNextAt | FResp/FreqResp.cpp:423-475 | MeasureNext on the two instruments' connections |
| FreqResponse.FreqResp.constructor | FResp/FreqResp.cpp:49-55 | a new session is uninitialized, not complete and has no samples |
| FreqResponse.FreqResp.Close | FResp/FreqResp.cpp:97-111 | both instruments detached, the samples cleared, both flags cleared, SUCCESS returned |
| FreqResponse.FreqResp.Init | FResp/FreqResp.cpp:129-376 | the stored configuration, connections and return code are those of Init's definition, with the checks as the source makes them, and the session invariant holds |
| FreqResponse.FreqResp.StartInstruments | FResp/FreqResp.cpp:173-375 | the instrument part of Init on the object's own state |
| FreqResponse.FreqResp.MeasureNext | FResp/FreqResp.cpp:423-475 | MeasureNext on the object's own state, as MeasureNextStep and MeasureNextIdle describe |
| FreqResponse.FreqResp.MeasureFreq | FResp/FreqResp.cpp:488-547 | always SUCCESS; the result record, the dwell and the two new scales are those of one measurement at the frequency |
| FreqResponse.FreqResp.Sweep | FResp/FreqResp.cpp:389-410 | NOT_INITIALIZED (-1) unchanged before Init; otherwise, for a finite stop frequency, the loop ends, returns COMPLETE, keeps the earlier samples and appends a complete sweep from fStart |
| MeasureResponse.TagEnd | FResp/MeasureResponse.cpp:662-668 | a tag found ends at a ':' or '=' inside the argument |
| MeasureResponse.TagEndFinds | FResp/MeasureResponse.cpp:662-668 | a tag is found exactly when one of the names, in any case, followed by ':' or '=', starts the argument, and its end is that name's length |
| MeasureResponse.Tagged | FResp/MeasureResponse.cpp:663-668 | the specification after a matched tag is non-empty and on one line, as (.+) requires |
| MeasureResponse.ChannelOptions | FResp/MeasureResponse.cpp:662 | the options read are at most the three groups allowed, each one of AC, DC, 1X, 10X, BW, BWL, -BW, -BWL, and written back with their commas they are the whole rest of the argument |
| MeasureResponse.ChannelArgOf | FResp/MeasureResponse.cpp:662 | a channel argument names scope channel 1 to 4 and carries at most three valid options |
| MeasureResponse.ChannelOption | FResp/MeasureResponse.cpp:699-724 | AC and DC set the coupling, 1X and 10X the attenuation, BW(L) turns the bandwidth limit on and -BW(L) off, in any case |
| MeasureResponse.ApplyOptions | FResp/MeasureResponse.cpp:693-730 | applying the options never changes the channel number |
| MeasureResponse.SetChannelOptions | FResp/MeasureResponse.cpp:693-730 | the loop over the matched option groups applies them in the order given |
| MeasureResponse.FreqNumber | FResp/MeasureResponse.cpp:661-664 | a number, its K or M suffix and its HZ end in that order inside the argument |
| MeasureResponse.SweepText | FResp/MeasureResponse.cpp:664 | the sweep part yields a non-empty run of digits as its point count |
| MeasureResponse.FreqArgOf | FResp/MeasureResponse.cpp:664 | a frequency argument with a sweep carries a non-empty digit point count |
| MeasureResponse.DwellArgOf | FResp/MeasureResponse.cpp:667 | a dwell argument carries one of SLOW, MID, FAST, NORM, NORMAL, DEF, DEFAULT |
| MeasureResponse.DwellProfile | FResp/MeasureResponse.cpp:853-867 | FAST waits 1.5 screens and 250 ms, SLOW 2.5 screens and 1000 ms, any other word 2.0 screens and 500 ms |
| MeasureResponse.Classify | FResp/MeasureResponse.cpp:679-932 | every action produced is one the argument loop can carry out |
| MeasureResponse.ClassifyArgument | FResp/MeasureResponse.cpp:679-932 | the patterns are tried in order channel, stimulus, frequency, measurement, log, dwell, trigger; a failed specification or no match is a syntax error |
| MeasureResponse.PerformAction | FResp/MeasureResponse.cpp:685-920 | one argument's assignments: a channel argument sets the input only for the tag IN (so I: sets the output), then the stimulus, frequencies, measurement, log, dwell or trigger |
| MeasureResponse.MeasureResponseParse | FResp/MeasureResponse.cpp:632-967 | the loop from argv[1] stops at the first argument not understood with SYNTAX_ERROR and that argument; otherwise the final checks decide |
| MeasureResponse.FinishSettings | FResp/MeasureResponse.cpp:935-966 | the IN or OUT trigger takes that channel's number, then the same-channel, stop frequency, point count and amplitude checks run in order |
| MeasureResponse.FirstUnknown | FResp/MeasureResponse.cpp:674-932 | the index found is the first argument from i on that is not understood, or the end |
| MeasureResponse.ParseFromOutcome | FResp/MeasureResponse.cpp:674-966 | parsing from argv[i] is a syntax error exactly when a later argument is not understood, naming the first such; otherwise SUCCESS or SETUP_ERROR |
| MeasureResponse.ParseSyntax | FResp/MeasureResponse.cpp:674-932 | SYNTAX_ERROR (-5) exactly when some argument after the program name is not understood, with the first such as the error text; the code is always 0, -5 or -6 |
| MeasureResponse.PerformInRange | FResp/MeasureResponse.cpp:685-898 | an argument keeps the scope channels in 1 to 4, the generator channel in 1 to 2 and the trigger on a channel or a placeholder |
| MeasureResponse.ArgStepInRange | FResp/MeasureResponse.cpp:674-932 | one understood argument keeps the channel numbers in range |
| MeasureResponse.ParseFromInRange | FResp/MeasureResponse.cpp:674-939 | unless a syntax error stops it, parsing ends with every channel in range and the trigger on scope channel 1 to 4 |
| MeasureResponse.ParseSucceeds | FResp/MeasureResponse.cpp:935-966 | a successful parse has distinct input and output channels, a trigger on a real channel, a stop above the start, at least 2 points and a positive amplitude; a setup error carries one of the four messages |
| MeasureResponse.SetupOutcome | FResp/MeasureResponse.cpp:941-966 | SUCCESS has an empty error and passes all four checks; SETUP_ERROR carries the message of one of them |
| MeasureResponse.DefaultsAccepted | FResp/MeasureResponse.cpp:648-937 | with no arguments the defaults pass every check and the trigger follows the input to channel 1 |
| MeasureResponse.ClassifyNumbers | FResp/MeasureResponse.cpp:732-926 | with a reader that yields numbers, stimulus and trigger arguments carry numbers or nothing |
| MeasureResponse.PerformFinite | FResp/MeasureResponse.cpp:739-920 | with such a reader, an argument keeps every voltage and frequency a finite number |
| MeasureResponse.ParseFromFinite | FResp/MeasureResponse.cpp:674-933 | with such a reader, every voltage and frequency parsed is a finite number |
| MeasureResponse.ParseMeetsInit | FResp/MeasureResponse.cpp:941-966 | a successful parse passes the stimulus and trigger checks of FreqResp's Init, and its frequency check exactly when the start frequency is positive |
| MeasureResponse.ChannelSide | FResp/MeasureResponse.cpp:662-685 | the tag a channel argument carries starts with I exactly for IN and I, the tags the pattern meant for the input; the loop sets the input only for the two-letter IN |
| MeasureResponse.ChannelStepIntended | FResp/MeasureResponse.cpp:662-690 | read as intended, a channel argument is understood exactly when the pattern matches it, and one tagged I leaves the output untouched |
| MeasureResponse.ShortInputTag | FResp/MeasureResponse.cpp:685-690 | "I:n" sets the output channel to n as the loop is written; read as intended it sets the input channel |
| MeasureResponse.ShortInputTagParse | FResp/MeasureResponse.cpp:685-966 | "prog I:2" is accepted with the input still on 1 and the output on 2; read as intended it puts both on 2 and is refused with the same-channels message |
| MeasureResponse.DecimalText | FResp/MeasureResponse.cpp:664 | the decimal text of a number is a non-empty run of digits |
| MeasureResponse.DecimalRoundTrip | FResp/MeasureResponse.cpp:786 | reading the decimal text of n gives n back |
| MeasureResponse.FreqTagOf | FResp/MeasureResponse.cpp:664 | an argument starting "F:" has its frequency tag end at index 1 |
| MeasureResponse.FreqNumberOfDigits | FResp/MeasureResponse.cpp:661 | a run of digits followed by the end, '-' or ',' is a number with no suffix and no HZ |
| MeasureResponse.SweepTextOf | FResp/MeasureResponse.cpp:664 | ",LIN(n)" and ",LOG(n)" read as that kind with the digits n |
| MeasureResponse.FreqNumbersOfDigits | FResp/MeasureResponse.cpp:664 | digits, '-', digits: two plain numbers ending at the '-' and at the end |
| MeasureResponse.RangeEndPlain | FResp/MeasureResponse.cpp:664 | two plain numbers running to the end form a range without sweep |
| MeasureResponse.RangeEndSweep | FResp/MeasureResponse.cpp:664 | two plain numbers followed by a sweep text form a range with that sweep |
| MeasureResponse.DashJoined | FResp/MeasureResponse.cpp:664 | a-b followed by t splits back into a, '-', b and t |
| MeasureResponse.FreqRangeJoined | FResp/MeasureResponse.cpp:664 | a-b followed by a sweep text reads as the range a to b with that sweep |
| MeasureResponse.FreqOfDigits | FResp/MeasureResponse.cpp:664-773 | "F:a-b" with digit strings reads back a and b with no suffixes and no sweep |
| MeasureResponse.FreqSweepOfDigits | FResp/MeasureResponse.cpp:664-786 | "F:a-b,LIN(n)" and "F:a-b,LOG(n)" read back a, b, the kind and n |
| MeasureResponse.NoTag | FResp/MeasureResponse.cpp:662-668 | no tag matches an argument whose first letter starts none of the names |
| MeasureResponse.ClassifyFreq | FResp/MeasureResponse.cpp:679-764 | an argument "F:..." that reads as a frequency range is taken as one: the channel and stimulus patterns do not match it |
| MeasureResponse.PointCountOfText | FResp/MeasureResponse.cpp:786 | the point count read from the decimal text of a 32-bit count is that count |
| MeasureResponse.LinearSweepInto | FResp/MeasureResponse.cpp:772-787 | a linear sweep argument sets both frequencies from the reader, LIN and the point count |
| MeasureResponse.LinearSweepArgument | FResp/MeasureResponse.cpp:664-787 | "F:a-b,LIN(count)" round-trips: it reads as that argument and sets stod(a), stod(b), LIN and count |
| Text.UpperStr | FResp/MeasureResponse.cpp:108-109 | the upper-cased text has the same length and each character is its own upper-case letter, other characters unchanged |
| ArgText.SameIcaseMeans | FResp/MeasureResponse.cpp:105-115 | comparing upper-cased copies holds exactly when the texts agree letter by letter ignoring case; the comparison is symmetric and reflexive |
| ArgText.ToValueScaling | FResp/MeasureResponse.cpp:132-169 | a number read by stod is multiplied by 1e3 for k or K, 1e-3 for m, 1e6 for M and 1 for anything else; NaN stays NaN; a sign text starting with '-' negates the value and any other sign leaves it |
| ArgText.ToValueNumber | FResp/MeasureResponse.cpp:132-169 | when stod reads a number, the scaled and signed value is a number too |
| ArgText.StripPath | FResp/MeasureResponse.cpp:180-189 | the result is a suffix of the file name, empty only for an empty name; when something was stripped, a '/' or '\\' precedes the result and none occurs in it before its last character |
| ArgText.StripPathOf | FResp/MeasureResponse.cpp:180-189 | a directory, a separator and a name with no separator before its last character strip to the name |
| ArgText.StripPathKeeps | FResp/MeasureResponse.cpp:185-188 | a name with no separator before its last character comes back whole |
| ArgText.GetSuffix | FResp/MeasureResponse.cpp:200-209 | a non-empty suffix is a proper tail of the name, at least two long, starting with '.' and followed only by letters and digits |
| ArgText.GetSuffixOf | FResp/MeasureResponse.cpp:200-209 | a non-empty name, a '.' and letters or digits give the '.' and those letters or digits as the suffix |
| ArgText.CommaFrom | FResp/MeasureResponse.cpp:318 | the first comma at or after a position, with no comma between |
| ArgText.Comma | FResp/MeasureResponse.cpp:318-340 | reComma matches exactly the non-empty one-line texts; it cuts a non-empty comma-free argument and the rest after its comma, and the text is the argument alone or the argument, a comma and the rest |
| ArgText.Tokens | FResp/MeasureResponse.cpp:330-340 | the arguments of a one-line specification are all non-empty comma-free tokens, and there are none exactly for the empty specification |
| ArgText.JoinOneLine | FResp/MeasureResponse.cpp:318 | tokens joined with commas form one line that starts with the first token followed by a comma when more follow |
| ArgText.TokensOfJoin | FResp/MeasureResponse.cpp:318-340 | cutting tokens joined with commas gives the same tokens back |
| ArgText.JoinOfTokens | FResp/MeasureResponse.cpp:318-340 | joining the arguments of a specification gives it back, up to one trailing comma that reComma drops |
| ArgText.FoldIsApply | FResp/MeasureResponse.cpp:330-390 | the Eval*Spec loop reads the arguments one by one in order, and fails at once on a specification that spans lines |
| ArgText.FoldKeeps | FResp/MeasureResponse.cpp:330-390 | a property every argument's update keeps holds of the record the loop fills in |
| ArgText.ApplySnoc | FResp/MeasureResponse.cpp:330-390 | a last argument is read after all the others, and only when they all succeeded |
| ArgText.ApplyOk | FResp/MeasureResponse.cpp:330-390 | when whether an argument is understood does not depend on earlier ones, the loop succeeds exactly when every argument is understood |
| ArgText.LaterTokensWin | FResp/MeasureResponse.cpp:330-390 | on success, a field of the record is what the last argument that sets it gives, or its default when none does |
| ArgSpecs.NumberEndOfDigits | FResp/MeasureResponse.cpp:320 | a run of digits followed by a non-digit other than '.' and 'E' is read as the whole number |
| ArgSpecs.EvalStimSpec | FResp/MeasureResponse.cpp:316-393 | the verdict and record the loop leaves are EvalStim's, which starts from the unspecified record and applies each argument in turn |
| ArgSpecs.EvalStimOk | FResp/MeasureResponse.cpp:330-390 | a stimulus specification is accepted exactly when it is on one line and every argument is a channel or a voltage |
| ArgSpecs.EvalStimLaterWins | FResp/MeasureResponse.cpp:344-384 | on success the channel is the one the last channel argument names and the amplitude and offset come from the last voltage argument, unset when there is none |
| ArgSpecs.EvalStimNumbers | FResp/MeasureResponse.cpp:358-384 | with a reader that yields numbers, each voltage is a number or left unset |
| ArgSpecs.StimVoltTextPlain | FResp/MeasureResponse.cpp:320 | digits and a unit VPP, VPK or VP in any case are read as that amplitude and unit, with no milli suffix and no offset |
| ArgSpecs.StimAmplitudeOf | FResp/MeasureResponse.cpp:364-383 | an amplitude in VPP is taken as it is, one in VPK or VP is doubled, and without an offset part the offset is 0 |
| ArgSpecs.EvalTrigSpec | FResp/MeasureResponse.cpp:429-522 | the verdict and record the loop leaves are EvalTrig's, which tries channel, coupling, edge and voltage in that order for each argument |
| ArgSpecs.EvalTrigOk | FResp/MeasureResponse.cpp:446-519 | a trigger specification is accepted exactly when it is on one line and every argument is a channel, a coupling, an edge or a voltage |
| ArgSpecs.EvalTrigNumbers | FResp/MeasureResponse.cpp:507-513 | with a reader that yields numbers, the trigger voltage is a number or left unset |
| ArgSpecs.EvalTrigLaterWins | FResp/MeasureResponse.cpp:461-499 | on success the channel is the one the last channel argument names and the coupling the one the last coupling argument names |
| ArgSpecs.EvalMeasSpec | FResp/MeasureResponse.cpp:554-612 | the verdict and record the loop leaves are EvalMeas's, which reads VPP, PP, VPK, PK, PHA, PHASE, DEL and DELAY in any case |
| ArgSpecs.EvalMeasOk | FResp/MeasureResponse.cpp:567-609 | a measurement specification is accepted exactly when it is on one line and every argument names a voltage or a time measurement |
| ArgSpecs.EvalMeasLaterWins | FResp/MeasureResponse.cpp:582-603 | on success the last voltage argument and the last time argument decide the record |
| ArgSpecs.FirstFrom | FResp/MeasureResponse.cpp:242-243 | the first position at or after a start whose character is of a kind, with none of that kind before it |
| ArgSpecs.RestAfter | FResp/MeasureResponse.cpp:242-243 | the rest after an argument is empty at the end of the text, or the one-line text after a comma, and never longer than what follows |
| ArgSpecs.LogCut | FResp/MeasureResponse.cpp:242-262 | each argument cut off shortens the text, so the loop ends |
| ArgSpecs.WordCut | FResp/MeasureResponse.cpp:243-262 | a bare word cut off shortens the text |
| ArgSpecs.EvalLogSpec | FResp/MeasureResponse.cpp:239-284 | the verdict and record the loop leaves are EvalLog's, with the quoted-name pattern as the compiler joins it, ^"([^]+)"(?:,(.*))?$ |
| ArgSpecs.LogQuotedThen | FResp/MeasureResponse.cpp:254-258 | a quoted name, then a comma and more arguments with no quote among them, sets the file name to everything up to the closing quote and goes on with the rest |
| ArgSpecs.LogWordThen | FResp/MeasureResponse.cpp:259-275 | a bare word without commas or quotes, then a comma and more arguments, is read as echo, quiet or a file name before the rest |
| ArgSpecs.LogRejects | FResp/MeasureResponse.cpp:276-280 | a specification starting with a comma, or opening a quote it never closes, is rejected |
| ArgSpecs.LastCloseSkips | FResp/MeasureResponse.cpp:242 | a stretch of text without quotes holds no closing quote the pattern could settle on |
| ArgSpecs.LogQuotedCut | FResp/MeasureResponse.cpp:242-258 | a quoted name followed by a comma and text without quotes is cut into that name and that text |
| ArgSpecs.LogWordsRead | FResp/MeasureResponse.cpp:246-275 | bare words joined by commas are read one by one, in order |
| ArgSpecs.EvalLogWords | FResp/MeasureResponse.cpp:239-284 | bare words joined by commas are accepted; the file name is the last word that is not echo or quiet, and the console mode the last echo or quiet |
| ArgSpecs.LogCutIntended | FResp/MeasureResponse.cpp:242-262 | with the pattern as intended, each argument cut off still shortens the text |
| ArgSpecs.LogQuotedThenIntended | FResp/MeasureResponse.cpp:242-258 | read as intended, a quoted name without quotes inside ends at its closing quote whatever follows, so a later quoted name is read in turn and replaces it |
| ArgSpecs.LastCloseBelow | FResp/MeasureResponse.cpp:242 | the closing quote the pattern settles on is the last quote, from index 2 on, followed by the end of the text or by a comma and one line; there is none exactly when no quote is so followed |
| ArgSpecs.LogCutAgrees | FResp/MeasureResponse.cpp:242 | when no quote follows the first closing one, the pattern as compiled cuts exactly as the intended one |
| ArgSpecs.LastCloseOnly | FResp/MeasureResponse.cpp:242 | with a single quote after the opening one, the closing quote found is that one when the rest of the pattern matches after it, and there is none otherwise |
| ArgSpecs.LogQuoteFinding | FResp/MeasureResponse.cpp:242-258 | as compiled, "a","b" records the name a","b where the intended pattern records b, and "a"b" is accepted with the name a"b where the intended pattern rejects it |

## Left out

- Winsock (`WSAStartup`, `getaddrinfo`, `socket`, `connect`, `send`, `recv`, `shutdown`) is replaced by the scripted `Transport`. A connection succeeds exactly for the address/port pairs listed as reachable. Partial sends and receive timing are not modelled.
- `Sleep` in `MeasureFreq` is not modelled: only the dwell value in milliseconds is computed. The `DWORD` conversion of a value outside its range (NaN, negative, too large) reads as 0, where C++ leaves it undefined.
- The convergence loop of `MeasureFreq` ends in the model because every round that does not exit reads at least one scripted reply and the script is finite. The program has no such bound: with the input pinned at the top of the volts/div table it keeps going for as long as the instrument answers (TopOfTableKeepsHunting).
- FreqResponse.FreqResp.Sweep: requires a finite stop frequency when the session is initialized. `Init` accepts +inf, and a sweep to it never completes (InfiniteStopNeverCompletes), so the method's contract covers only a finite stop.
- ArgSpecs.EvalLogSpec: the quoted-name pattern is read as `^"([^]+)"(?:,(.*))?$`, with `[^]` matching every character as ECMAScript defines it. A regex library that reads `[^]` otherwise (as the start of a class holding `]`, or as an error) behaves differently; that reading is not modelled.
- `std::regex` is replaced by deterministic recognisers that accept the same texts and capture the same groups. Leftmost-longest subtleties that only show on texts no pattern here can meet are not modelled.
- `stod` and `to_string` are parameters (`Numbers.Conversions`). The exceptions `stod` throws on an empty or out-of-range text are not modelled. `stoi` overflow is not modelled: the point count keeps its value modulo 2^32, as the `unsigned` field would.
- IEEE rounding and signed zero are not modelled: doubles are NaN, the two infinities or exact reals. `exp`, `log` and `log10` are parameters (`Numbers.MathLib`), with only positivity facts assumed of them through a precondition.
- The registry (`FResp_Settings`), `EchoDualStream`, `main` in `FResp.cpp`, the `MeasureResponse` driver and `ExitPrintUsage` are file, console and registry I/O, and are not part of this model.
- `MeasureResponseAttach`, `MeasureResponseNext` and `MeasureResponseClose` are one-line forwards to `FreqResp::Init`, `MeasureNext` and `Close`, which are modelled.
- Destructors, and the non-copyability of `FreqResp`, are not modelled. The result accessor is the `data` field itself.
- `SetupOscilloscopeDefault` is modelled as its fixed list of commands, sent in order with every outcome ignored.
- The `Trig_Config` and `Stim_Config` channel fields are `int` in the model, where the source uses unsigned values. Every value the parser produces is a small positive number.
- Concurrency: the program is single-threaded, and so is the model.

## Findings

| source | as written | input that shows it | evidently intended | confidence | as-written member | corrected member |
|---|---|---|---|---|---|---|
| FResp/Oscilloscope.cpp:1052-1056 | the upper clamp reports requested - (newIndex - 14), one more than the movement made | index 13 with a +1 request stays at 13 but reports +1 | report 0, the step actually applied, as the lower clamp does | not executed | Scope.MoveAtTopCounterexample | Scope.MoveClamped |
| FResp/FreqResp.cpp:151-156 | the frequency checks accept an infinite stop frequency | fStart = 100, fStop = +inf: no frequency is ever past 1.001 * fStop, so the sweep never completes | reject a stop frequency that is not finite | not executed | FreqResponse.InfiniteStopAccepted | FreqResponse.SweepReachesStop |
| FResp/MeasureResponse.cpp:685 | only the tag IN selects the input, although the pattern accepts I as its short form | "prog I:2" is accepted with the output on 2 and the input left on 1 | I:2 sets the input channel, as IN:2 does, and "prog I:2" is refused because both channels are 2 | not executed | MeasureResponse.ShortInputTagParse | MeasureResponse.ChannelStepIntended |
| FResp/MeasureResponse.cpp:242 | the literal `"^\"([^""]+)\"(?:,(.*))?$"` joins into the pattern ^"([^]+)"(?:,(.*))?$ , whose [^] matches every character | FILE:"a","b" logs to the file a","b instead of b; FILE:"a"b" is accepted with the name a"b instead of rejected | a quoted name ends at its first closing quote: [^"] | not executed; relies on the ECMAScript reading of [^] | ArgSpecs.LogQuoteFinding | ArgSpecs.LogQuotedThenIntended |
