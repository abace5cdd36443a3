# netgrowlnotify in Dafny

A model of `netgrowlnotify.py`, a Python 2 command-line script that sends one
desktop notification. The notification goes either to a Growl daemon as two
legacy UDP datagrams or, with `--prowl`, to the Prowl push service as one
HTTP post. The script is glue around two libraries, `netgrowl` and `prowlpy`.
The model covers the logic the script itself owns:

- the Prowl API key is resolved in a fixed order: an explicit `--prowl-key`,
  then the password, then the first line of the key file (`~/.prowlkey` when
  no file is named), with trailing whitespace stripped. An empty result ends
  the run with status 3 and nothing is posted;
- the application label sent to Prowl is built from `--name`, the program's
  basename and `--identifier`;
- the Growl path fills in the default port only when none was given. It then
  sends exactly one registration datagram, which declares the identifier, and
  one notification datagram to the same address;
- the main block appends the positional arguments to the title. It turns
  every literal backslash-`n` in the message into a newline. It skips the run
  with status 0 when the local time lies outside `--time-start`/`--time-end`,
  and otherwise picks the Prowl or the Growl path.

## Layout

- `wrappers.dfy` (`Wrappers`): `Option` for Python's `None`, `Result` for a
  value or a raised exception.
- `text.dfy` (`Text`): the Python 2 string operations the script uses,
  written out on `seq<char>`. These are `str.join`, `str.replace` (for the
  two replacements the script makes), `str.rstrip`, `file.readline` and
  `posixpath.join`. Each has a partner: `Split` for `Join`, `Escape` for
  `Unescape`, concatenation for the space removal, and for `rstrip`,
  `readline` and `posixpath.join` contracts that fix the result.
- `time_window.dfy` (`TimeWindow`): a `time.struct_time` is the 9-tuple that
  Python compares it as; `Precedes` is Python's tuple `<`. It also holds
  `parse_time` and the time-window gate.
- `effects.dfy` (`Effects`): Growl packets as records, and the event trace.
  The trace holds datagrams, the Prowl post, writes to standard output and
  standard error, and the uncaught exception that ends the script with
  status 1.
- `notify.dfy` (`Notify`): the options object, as the class `Options`, and
  its methods. Each method that updates options or the trace states its new
  state as a function of the old one. That function is `Preprocessed`,
  `ResolvedKey`, `ProwlOutcome`, `GrowlOutcome` or `RunOutcome`, defined on a
  `Settings` snapshot or its fields, and the lemmas of the file are about
  these functions.

The outside world is given as input. That input is the `Env` record and the
`Strptime` record inside it. It holds the program's basename, the result of
`os.path.expanduser("~")`, the readable files with their contents,
`time.localtime()`, and the two `time.strptime` formats the script tries.

Two consequences of the code as written are visible in the lemmas:

- the title always gets a separating space. With the title only in the
  positional arguments (`netgrowlnotify.py Hi`), the title sent is `" Hi"`,
  with a leading space (`GrowlScenario`);
- `time.strptime` leaves the DST flag at -1, while `time.localtime` sets it
  to 0 or 1. So at the exact second of a parsed `--time-end`, the local time
  already compares as later, and the run is "too late" (`DstFlagBreaksTie`).
  Under the tuple order itself both bounds are inclusive (`GateInclusive`).

The script has only these two delivery paths. Growl's newer text-based TCP
protocol is never used by it, so it is not part of this model.

## Model

| member | source | states |
|---|---|---|
| `Text.Join` | netgrowlnotify.py:169 | `" ".join(args)` itself; characterised by `JoinSplit`, `SplitJoin` and, for the title, `TitleJoinsArguments` |
| `Text.Split` | netgrowlnotify.py:169 | splitting on a one-character separator gives at least one field and no field holds the separator (the partner of the `join` on this line) |
| `Text.JoinSplit` | netgrowlnotify.py:169 | joining the fields of a split with the separator gives back the string |
| `Text.SplitJoin` | netgrowlnotify.py:169 | splitting a join of separator-free fields gives back exactly those fields |
| `Text.Unescape` | netgrowlnotify.py:170 | `replace("\\n", "\n")` itself, left to right; characterised by `UnescapeLeavesNoEscape` and `EscapeUnescapeAll`, which together fix its result |
| `Text.Escape` | netgrowlnotify.py:170 | the opposite rewriting (newline to backslash-`n`) leaves no newline and never shortens the text |
| `Text.UnescapeLeavesNoEscape` | netgrowlnotify.py:170 | after `replace("\\n", "\n")` no backslash followed by `n` remains |
| `Text.UnescapeIdentity` | netgrowlnotify.py:170 | a message without backslash-`n` is not changed at all |
| `Text.EscapeUnescape` | netgrowlnotify.py:170 | for newline-free text, escaping the result of the replacement restores the text |
| `Text.EscapeUnescapeAll` | netgrowlnotify.py:170 | for every text, escaping the result of the replacement gives the same as escaping the text itself: only backslash-`n` is rewritten |
| `Text.UnescapeEscape` | netgrowlnotify.py:170 | for text without backslash-`n`, the replacement undoes escaping |
| `Text.RemoveSpaces` | netgrowlnotify.py:99 | `replace(' ', '')` leaves no space, keeps every other character with its count, and changes space-free text not at all |
| `Text.RemoveSpacesAppend` | netgrowlnotify.py:99 | removing spaces distributes over concatenation and turns a single space into nothing, so the other characters keep their order |
| `Text.ReadLine` | netgrowlnotify.py:45 | `readline()` gives a prefix of the file with no newline before its last character, and either the whole file or a line ending in a newline |
| `Text.RStrip` | netgrowlnotify.py:45 | `rstrip()` gives a prefix that does not end in whitespace, and everything it drops is whitespace |
| `Text.RStripEmpty` | netgrowlnotify.py:45-47 | stripping gives the empty string exactly when the text is all whitespace |
| `Text.StrippedLineHasNoNewline` | netgrowlnotify.py:45 | the stripped first line of a file holds no newline |
| `Text.JoinPath` | netgrowlnotify.py:34-35 | `os.path.join(a, b)` is `b` when `b` is absolute; otherwise it is `a`, followed by `"/"` unless `a` is empty or already ends in one, followed by `b` |
| `TimeWindow.Precedes` | netgrowlnotify.py:176-181 | the `struct_time` comparison `<` (and `>` with the arguments swapped) itself; characterised by `PrecedesIrreflexive`, `PrecedesAt`, `PrecedesTransitive` and `PrecedesTrichotomous` |
| `TimeWindow.PrecedesIrreflexive` | netgrowlnotify.py:176 | no time tuple precedes itself |
| `TimeWindow.PrecedesAt` | netgrowlnotify.py:176-181 | when two tuples agree up to a position and differ there, that position decides the order |
| `TimeWindow.PrecedesTransitive` | netgrowlnotify.py:176-181 | the tuple order is transitive |
| `TimeWindow.PrecedesTrichotomous` | netgrowlnotify.py:176-181 | two tuples are equal or ordered one way, never both ways |
| `TimeWindow.DstFlagBreaksTie` | netgrowlnotify.py:179-181 | a local time agreeing with a parsed bound on all fields but the DST flag (0 or 1 against -1) compares as later |
| `TimeWindow.ParsedTime` | netgrowlnotify.py:98-118 | the value or exception of `parse_time` itself; `ParseTime` computes it, and `ParsedTimeIgnoresSpaces` and `GateUnparsableStart` characterise it |
| `TimeWindow.ParseTime` | netgrowlnotify.py:98-118 | spaces are removed, the 12-hour format is tried, then the 24-hour format; it fails, with message "unable to parse time: " and the argument, exactly when both formats reject the text |
| `TimeWindow.ParsedTimeIgnoresSpaces` | netgrowlnotify.py:99 | a bound parses, and to the same time, with or without its spaces |
| `TimeWindow.StartGate` | netgrowlnotify.py:174-177 | the start check itself; characterised by `GateSkipsExactly`, `GateStartFirst` and `GateUnparsableStart` |
| `TimeWindow.EndGate` | netgrowlnotify.py:179-183 | the end check itself; characterised by `GateSkipsExactly`, `GateWindow` and `GateUnparsableEnd` |
| `TimeWindow.WindowGate` | netgrowlnotify.py:172-183 | the whole window check, start first, itself; characterised by `GateSkipsExactly`, `GateInclusive`, `GateWindow` and `GateStartFirst` |
| `TimeWindow.GateSkipsExactly` | netgrowlnotify.py:172-183 | when the given bounds parse, the run is skipped exactly when a start is given and now precedes it, or an end is given and now follows it |
| `TimeWindow.GateInclusive` | netgrowlnotify.py:172-183 | a time equal to a bound is inside the window |
| `TimeWindow.GateWindow` | netgrowlnotify.py:172-183 | with start before end, the run goes on exactly between them; before the start it is skipped silently, after the end with "too late" |
| `TimeWindow.GateStartFirst` | netgrowlnotify.py:174-181 | before the start the end bound is never parsed, so an unparsable end does not matter |
| `TimeWindow.GateUnparsableStart` | netgrowlnotify.py:115-116 | a start bound that does not parse stops the run with the parse exception |
| `TimeWindow.GateUnparsableEnd` | netgrowlnotify.py:179-180 | once the start check lets the run go on, an end bound that does not parse stops the run with the parse exception of line 116 |
| `TimeWindow.TooEarlyExample` | netgrowlnotify.py:174-177 | `--time-start 11:00pm` at 10:00am of the same day skips the run |
| `TimeWindow.TooLateExample` | netgrowlnotify.py:179-183 | `--time-end 1:00am` at 11:59pm of the same day skips the run and prints "too late" |
| `Effects.NewRegistration` | netgrowlnotify.py:82-83 | the registration packet itself, for the name and password with nothing declared; characterised, with `AddNotification`, by `Notify.GrowlTwoDatagrams` |
| `Effects.AddNotification` | netgrowlnotify.py:84 | declaring a notification appends it, enabled, and keeps the application, password and earlier declarations |
| `Effects.SendMessage` | netgrowlnotify.py:13-18 | one datagram carrying the packet to the address is added to the trace |
| `Notify.DefaultedKeyfile` | netgrowlnotify.py:32-37 | the key-file option after defaulting itself; characterised by `DefaultKeyfilePath` |
| `Notify.FileKey` | netgrowlnotify.py:45 | the stripped first line of the key file itself; characterised by `FileKeyShape` |
| `Notify.ResolvedKey` | netgrowlnotify.py:28-45 | the key and key-file option once resolution is over, itself; characterised by `ResolvedKeyEmpty`, and computed by `Options.ResolveProwlKey` |
| `Notify.ResolvedKeyEmpty` | netgrowlnotify.py:28-49 | the key ends up empty exactly when key and password are empty and either no key-file path can be formed (the option is empty and the home directory is unknown), or the file does not open, or its first line is all whitespace |
| `Notify.FileKeyShape` | netgrowlnotify.py:44-45 | a key read from a file is a prefix of it, holds no newline and does not end in whitespace |
| `Notify.DefaultKeyfilePath` | netgrowlnotify.py:32-35 | an empty key-file option becomes `.prowlkey` in the home directory, which is never empty |
| `Notify.ApplicationLabel` | netgrowlnotify.py:51-61 | the application label itself; `ComposeApplication` computes it by the script's reassignments and states its three cases |
| `Notify.ComposeApplication` | netgrowlnotify.py:51-61 | the label is `name + ": " + identifier` when name is not the basename and identifier is given, `identifier` when name is the basename, and `name` when there is no identifier |
| `Notify.Options.constructor` | netgrowlnotify.py:168 | the options object holds exactly the parsed values |
| `Notify.Options.Preprocess` | netgrowlnotify.py:169-170 | title and message are rewritten as `Preprocessed` says and nothing else changes |
| `Notify.Options.ResolveProwlKey` | netgrowlnotify.py:28-45 | a non-empty key is kept; else a non-empty password becomes the key; else the key-file option is defaulted and the key is the stripped first line of that file when it opens; only key and key-file change |
| `Notify.Options.ProwlNotify` | netgrowlnotify.py:28-67 | options, trace and exit status are those of `ProwlOutcome` on the old options |
| `Notify.Options.NetGrowlNotify` | netgrowlnotify.py:77-96 | options and trace are those of `GrowlOutcome` on the old options; only the port changes |
| `Notify.Run` | netgrowlnotify.py:168-189 | options, trace and exit status are those of `RunOutcome` on the parsed options |
| `Notify.Preprocessed` | netgrowlnotify.py:169-170 | the title and message rewriting of the main block itself, on a snapshot; characterised by `TitleJoinsArguments`, `MessageUnescaped` and `PreprocessedFrame`, and computed by `Options.Preprocess` |
| `Notify.ProwlOutcome` | netgrowlnotify.py:28-67 | `prowlnotify` itself on a snapshot; characterised by `ProwlPostOrExit3` and `BlankKeyLineExits3`, and computed by `Options.ProwlNotify` |
| `Notify.GrowlOutcome` | netgrowlnotify.py:77-96 | `netgrowlnotify` itself on a snapshot; characterised by `GrowlTwoDatagrams` and `GrowlScenario`, and computed by `Options.NetGrowlNotify` |
| `Notify.RunOutcome` | netgrowlnotify.py:168-189 | the main block itself on the parsed options; characterised by `SkippedExactlyOutsideWindow`, `GatedRunSendsNothing` and `DispatchByProtocol`, and computed by `Run` |
| `Notify.TitleJoinsArguments` | netgrowlnotify.py:169 | the title starts with the old title and one space, always holds a space, and space-free arguments split back out of it |
| `Notify.MessageUnescaped` | netgrowlnotify.py:170 | the message keeps no backslash-`n`; escaping the new message gives the escaped old one for every message, so only backslash-`n` changes; it is unchanged when it had none, and escaping restores a message that had no newline |
| `Notify.PreprocessedFrame` | netgrowlnotify.py:169-170 | preprocessing changes only title and message |
| `Notify.ProwlPostOrExit3` | netgrowlnotify.py:47-67 | the Prowl path exits 3 with nothing posted exactly when the key resolves to empty; otherwise it posts once with the key, the label, and title, message and priority unchanged; only key and key-file options change |
| `Notify.BlankKeyLineExits3` | netgrowlnotify.py:44-49 | with no key and no password, a key file whose first line is blank leads to exit 3 and no post |
| `Notify.GrowlTwoDatagrams` | netgrowlnotify.py:77-96 | the port defaults only when absent; exactly two datagrams go to the same host and port: a registration for the name and password declaring only the identifier, then the notification with all option values unchanged |
| `Notify.GatedRunSendsNothing` | netgrowlnotify.py:172-183 | a run stopped by the time window sends nothing and exits 1 on an unparsable bound, 0 otherwise |
| `Notify.SkippedExactlyOutsideWindow` | netgrowlnotify.py:172-189 | with parsable bounds, a run ends with status 0 having sent nothing exactly when now precedes the start or follows the end |
| `Notify.DispatchByProtocol` | netgrowlnotify.py:186-189 | inside the window, `--prowl` gives the Prowl path and no datagram; without it, the Growl path and no post |
| `Notify.GrowlScenario` | netgrowlnotify.py:77-96 | `-n Test -d Alert -m Hello Hi` sends the registration declaring "Alert", then the notification titled " Hi", both to localhost:9887 |

## Left out

- The import of `prowlpy` and `netgrowl`, and exit status 1 when it fails
  (netgrowlnotify.py:21-26, 70-75). This is dynamic loading; the handler also
  names an undefined `Error`.
- The byte layout of the Growl packets, their checksum and password keying.
  These belong to the `netgrowl` library, which is not part of this model.
  Packets are records of the values they are built from, and the port
  constant 9887 is that library's `GROWL_UDP_PORT`.
- The HTTP request `prowlpy` makes, and any failure it reports. The post is
  one event carrying its arguments.
- Socket creation, `sendto` and `close` in `sendMessage` (netgrowlnotify.py:13-18),
  including socket errors. Each send is one datagram event.
- What `time.strptime`, `time.strftime` and `time.localtime` compute. These are
  given as inputs: the date prefix, the two parsers and the current time.
- Both `parse_time` calls share one date prefix (`Strptime.datePrefix`),
  while the script reads `time.localtime()` afresh in each call
  (netgrowlnotify.py:99). So a midnight crossing between the start parse and
  the end parse, which would give bounds on different days, is not captured.
  The current time (`Env.now`, netgrowlnotify.py:173) is independent of the
  prefix.
- The interpreter's traceback text for an uncaught exception: the model keeps
  only the exception's message and the exit status 1.
- `OptionParser` setup and its defaults (netgrowlnotify.py:122-167). The parsed
  options are given to the `Options` constructor.
- `os.path.expanduser` and the opening of files: the home directory and the
  set of readable files with their contents are inputs. An error while
  reading a file that did open is not modelled, nor is the fact that the
  file is left open.
