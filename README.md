# spawner2 core, modelled in Dafny

This project models the sequential logic of five source files of spawner2. Spawner2 is a Windows process runner whose options are declared through a derive macro.

- **`sp_derive/opts.rs`** (module `Opts`). This is the `#[derive(CmdLineOptions)]` macro.
  - Field attributes `#[opt(...)]` / `#[flag(...)]` are folded into `Opt` records (names, description, value description, parser).
  - Container attributes `#[optcont(...)]` are folded into the delimiters, usage and default-parser settings.
  - Every error is collected.
  - Each option gets its parser: its own, or else the container default.
  - One help entry is laid out per option, with descriptions in column 30.
  - Attributes follow the shape of `syn`'s `Meta` tree. The generated code is modelled as the lists it is built from (a registration list, a set-opts list and the help text), not as tokens.
  - `Opt::from_meta_list`, `from_field`, `parse_meta_list`, `parse_attrs`, `init_opts`, `init_attrs`, `build_set_opts` and `opt_help` are loops in the source. Here they are methods, each proved equal to a pure function. `OptContainer` is a class whose `init_*` methods update its fields.
- **`spawner/spawner.rs`** (module `Spawner`).
  - `ResourceLimits::default` and the setters of the `SpawnedProgram` builder. The builder is a class, and each setter updates one field.
  - The OS-limit flags that `ProcessMonitor::new` computes.
  - One round of `ProcessMonitor`: `get_report`, the limit check and `handle_messages`. The process, the group and the limit checker are given as a snapshot `OsView`. It holds the answers they give and the calls that fail. The model records the calls whose job is a side effect (terminate, suspend, resume, time accounting) in a log.
  - `Spawner::wait`.
- **`spawner/sys/windows/helpers.rs`** (module `Helpers`).
  - `cvt`.
  - `to_utf16`, with UTF-16 encoding and both decoders written out.
  - The double-NUL scan in `EnvBlock::create`, plus `as_slice` and `iter`.
  - The window-station name arithmetic and the desktop name that `User::create` builds.
- **`spawner/error.rs`** (module `Errors`): the error kinds, the `From` conversions and `Display`/`Debug`.
- **`libspawner_tests/common.rs`** (module `TestCommon`): `approx_eq` and `exe!`.

Generic sequence functions (split, join, filter, reverse, fallible map, last match) and their lemmas are in module `Seqs`. `Option` and `Result` are in module `Wrappers`.

Within `Spawner`, `Helpers` and the class methods, `Result<T>` is the source's `Result<T, Error>`.

The `expand_derive_cmd_line_options` function (`sp_derive/opts.rs:503-505`) has a branch that returns an empty error list for a non-struct. `init_opts` already rejects enums and unions with an error, so that branch cannot be reached. `ExpansionErrorsNonEmpty` states that consequence.

## Model

| member | source | states |
|---|---|---|
| Errors.New | spawner/error.rs:16-19 | the error carries exactly the given kind |
| Errors.LastOsError | spawner/error.rs:21-23 | the last OS error becomes a `Sys` error whose display is the system message |
| Errors.Debug | spawner/error.rs:38-43 | the Debug text is the Display text followed by exactly one newline |
| Errors.FromIo | spawner/error.rs:45-49 | an I/O error becomes kind `Io`, and Display forwards its text unchanged |
| Errors.FromString | spawner/error.rs:51-55 | a `String` becomes kind `Other`, and Display returns exactly that string |
| Errors.FromStr | spawner/error.rs:57-61 | converting a `&str` gives the same error as converting a `String` with that text |
| Errors.FromSys | spawner/error.rs:63-67 | a system error becomes kind `Sys`, and Display forwards its text unchanged |
| Errors.Display | spawner/error.rs:28-36 | no contract of its own: that Display forwards the wrapped text is stated by `FromIo`, `FromSys`, `FromString` and `DisplayRoundTrip` |
| Errors.DisplayRoundTrip | spawner/error.rs:28-43 | Display of an error made from text gives the text back; Debug appends one newline |
| Errors.KindsDistinct | spawner/error.rs:45-67 | the three conversions never produce the same error |
| Opts.InterpretMeta | sp_derive/opts.rs:189 | a model of the `syn` library call `Attribute::interpret_meta`, used here and at `sp_derive/opts.rs:257` (not code of this repository): a meta read from an attribute has a single-segment path whose identifier is the meta's identifier |
| Opts.NewOpt | sp_derive/opts.rs:105-112 | a new option has the given kind and field, no names and an empty description |
| Opts.ExpectStr | sp_derive/opts.rs:484-489 | `Ok` exactly for a string literal, carrying its value; otherwise "Expected string literal" |
| Opts.FromNameValue | sp_derive/opts.rs:78-87 | `name`, `desc`, `value_desc` and `parser` with a string literal give the matching attribute and the literal's text; a known key with another literal gives "Expected string literal"; an unknown key gives the expected-one-of error |
| Opts.NamesFromMetaList | sp_derive/opts.rs:57-68 | the loop equals the all-or-nothing reading of the nested items as string literals |
| Opts.NamesNeedStringLiterals | sp_derive/opts.rs:57-68 | `names(...)` succeeds iff every nested item is a string literal; the names are the literals in order; the error is "Expected string literal" |
| Opts.AttrFromMeta | sp_derive/opts.rs:89-101 | `names(...)` reads its items as names; `key = lit` is read by `from_name_value`; a bare word, or a list with another name, gives the expected-one-of error; hence a `Names` attribute comes only from a `names(...)` list, and every other attribute only from a `key = lit` item |
| Opts.KindOf | sp_derive/opts.rs:123-127 | `opt` gives an option kind with an empty value description and no parser, `flag` gives a flag, and anything else is `Invalid` |
| Opts.FromMetaList | sp_derive/opts.rs:114-169 | reading the items, then applying them to a fresh option of the named kind, then rejecting an empty name list, equals the specification function `OptFromList` |
| Opts.ReadOptAttrs | sp_derive/opts.rs:115-121 | the first loop equals the all-or-nothing reading of the nested items: a literal item gives the expected-one-of error, a meta item is read by `OptAttribute::from_meta`, and the first failure is the result |
| Opts.ApplyOptAttrs | sp_derive/opts.rs:129-162 | the second loop equals `ApplyAttrs`: each attribute overwrites its part of the option, and `value_desc` or `parser` on a non-`opt` kind stops with its error |
| Opts.ApplyAttrsLastWins | sp_derive/opts.rs:130-162 | after all attributes are applied, the names, description, value description and parser are those of the last attribute that sets them, or the initial value if none does; the kind and the field are unchanged |
| Opts.ApplyAttrsKeepShape | sp_derive/opts.rs:130-162 | no attribute changes the field or switches the kind between `opt`, `flag` and invalid |
| Opts.ApplyAttrsNames | sp_derive/opts.rs:132-137 | the names are those of the last `name` or `names` attribute, or the initial names if there is none |
| Opts.ApplyAttrsDesc | sp_derive/opts.rs:138-140 | the description is that of the last `desc` attribute, or the initial one |
| Opts.ApplyAttrsValueDesc | sp_derive/opts.rs:141-150 | on an `opt` kind, the value description is that of the last `value_desc` attribute, or the initial one |
| Opts.ApplyAttrsParser | sp_derive/opts.rs:151-160 | on an `opt` kind, the parser is that of the last `parser` attribute, or the initial one |
| Opts.ApplyAttrsFails | sp_derive/opts.rs:141-160 | applying fails iff the kind is not `opt` and some attribute is `value_desc` or `parser`; the error is the one for the first such attribute |
| Opts.ApplyAttrsErrIff | sp_derive/opts.rs:141-160 | applying fails iff the kind is not `opt` and some attribute is `value_desc` or `parser` |
| Opts.ApplyAttrsFirstBad | sp_derive/opts.rs:141-160 | a failure carries the error of the first `value_desc` or `parser` attribute, and no earlier attribute is of either kind |
| Opts.OptNamedByLastNamesItem | sp_derive/opts.rs:130-168 | once the attributes apply, the option is accepted iff the last `name`/`names` attribute gives a non-empty list, and that list is its names; otherwise "Unnamed options are not allowed" |
| Opts.FromMeta | sp_derive/opts.rs:171-181 | no contract of its own: `FromMetaCases` states what it does |
| Opts.FromMetaCases | sp_derive/opts.rs:171-181 | an attribute whose path is one identifier followed by a parenthesized list is read by `from_meta_list`; every other shape gives "Invalid attribute in #[opt(...)] or in #[flag(...)]" |
| Opts.FromField | sp_derive/opts.rs:183-197 | the reverse-order loop over a field's attributes equals the specification function `FieldOpts` |
| Opts.OptsFromAttrsInReverseOrder | sp_derive/opts.rs:185-192 | the result succeeds iff every `opt`/`flag` attribute, visited last to first, reads as an option; the k-th option comes from the k-th visited attribute; an error is the first visited attribute that fails |
| Opts.OptsFromAttrsIsTryMap | sp_derive/opts.rs:185-192 | reading a field's options equals applying `Opt::from_meta` to each `opt`/`flag` attribute, last attribute first, stopping at the first error |
| Opts.OptAttrKind | sp_derive/opts.rs:114-181 | an option read from a `flag` attribute is a flag, one from an `opt` attribute is valued, it is never `Invalid`, it has names and it belongs to its field |
| Opts.FieldOptsPlaceholder | sp_derive/opts.rs:193-196 | a field without `opt`/`flag` attributes yields exactly one `Invalid` option; a field with them yields only non-`Invalid` options of that field |
| Opts.ContainerAttrFromMeta | sp_derive/opts.rs:200-222 | `delimeters`, `usage` and `default_parser` with a string literal give the matching setting and its text; a known key with another literal gives "Expected string literal"; anything else gives the expected-one-of error |
| Opts.ParseMetaList | sp_derive/opts.rs:226-235 | the loop equals the fallible map over the nested items, which stops at the first failure |
| Opts.ParseMeta | sp_derive/opts.rs:237-250 | an attribute read as a list gives `parse_meta_list` of its items: every item read as a container setting, stopping at the first that fails, so a success has one setting per item; any other shape gives "Invalid attributes in #[optcont(...)]"; `ParsedAttrsReportsEveryError` states how `parse_attrs` collects its errors |
| Opts.ParseAttrs | sp_derive/opts.rs:252-267 | the loop equals the specification function `ParsedAttrs` |
| Opts.ParsedAttrsReportsEveryError | sp_derive/opts.rs:252-267 | there is one error per failing `optcont` attribute, in order, and each is that attribute's own error; the result is `Ok` iff every `optcont` attribute parses |
| Opts.SettleLastWins | sp_derive/opts.rs:303-315 | each container setting takes the last attribute that sets it, or keeps its previous value |
| Opts.FieldsOptsReportsEveryError | sp_derive/opts.rs:287-292 | `init_opts` reports one error per failing field, in order, and each is that field's own error |
| Opts.OptContainer.constructor | sp_derive/opts.rs:326-332 | a new container has an empty delimiter and usage, no default parser and no options |
| Opts.OptContainer.InitOpts | sp_derive/opts.rs:269-297 | enums and unions are rejected with their messages and change nothing; for a struct, the options of every field are appended in field order; success iff no field failed |
| Opts.OptContainer.InitAttrs | sp_derive/opts.rs:299-323 | on success the settings become the fold of the parsed attributes over the old settings; on failure the settings are unchanged and the errors are passed on; the options are never touched |
| Opts.FromAst | sp_derive/opts.rs:325-336 | a container is built exactly when the specification function `ContainerOf` succeeds, and then holds its value; otherwise its errors are returned |
| Opts.BuildRegisterOpts | sp_derive/opts.rs:356-375 | one registration per flag or valued option, in order, carrying its kind and names; `Invalid` options are skipped |
| Opts.OptParser | sp_derive/opts.rs:377-387 | `Ok` iff the option is valued and has its own parser or a container default; its own parser takes precedence; otherwise "Unable to find parser for this field" |
| Opts.OptContainer.BuildSetOpts | sp_derive/opts.rs:389-423 | the loop equals the specification function `SetOptsOf` over the container's default parser and options |
| Opts.SetOptsErrors | sp_derive/opts.rs:405-421 | with a default parser there is no error; without one there is exactly one "no parser" error per valued option lacking its own parser |
| Opts.SetOptsMatchRegistrations | sp_derive/opts.rs:356-423 | on success there is one field assignment per registration, in the same order: a flag sets its field by its first name, and a valued option parses its field by its first name with the chosen parser |
| Opts.SetOptsFollowOptions | sp_derive/opts.rs:393-413 | on success the k-th assignment comes from the k-th registered option: it writes that option's own field, looks it up by its first name, is a flag assignment iff the option is a flag, and a valued option parses with the parser `opt_parser` chose (its own, else the default) |
| Opts.SetOptsIgnoreInvalid | sp_derive/opts.rs:398-416 | dropping the `Invalid` options does not change the assignments or the errors |
| Opts.Spaces | sp_derive/opts.rs:450-451 | n spaces |
| Opts.Utf8LenSpaces | sp_derive/opts.rs:470-472 | padding with n spaces adds n bytes to the length `String::len` measures |
| Opts.HelpNames | sp_derive/opts.rs:454-463 | one header item per name |
| Opts.WriteHelpHeader | sp_derive/opts.rs:453-463 | the first loop builds two spaces, then the names joined by ", ", each followed by the delimiter and value description for a valued option |
| Opts.OptHelp | sp_derive/opts.rs:449-482 | the whole of `opt_help` equals the specification function `HelpEntry` |
| Opts.DescLineStep | sp_derive/opts.rs:466-478 | one step of the description loop appends exactly the next line of the description block |
| Opts.HelpEntryLayout | sp_derive/opts.rs:449-482 | the entry starts with the header, which starts with two spaces, and ends with a newline; if the header is shorter than 30 bytes, the first line is padded to byte column 30 exactly; otherwise it starts on a new line after 30 spaces |
| Opts.EntryLayout | sp_derive/opts.rs:464-482 | the same layout for any header and any description lines: the first line padded to byte column 30 when the header is shorter, on a new indented line otherwise, and a final newline |
| Opts.HelpEntryIgnoresEmptyLines | sp_derive/opts.rs:466-469 | empty description lines do not change the entry |
| Opts.SplitJoinLines | sp_derive/opts.rs:466-469 | a description made of non-empty lines is split back into exactly those lines |
| Opts.HelpDelim | sp_derive/opts.rs:343 | the delimiter shown in the help is the first character of `delimeters`, or a space when there is none |
| Opts.HelpText | sp_derive/opts.rs:338-354 | no contract of its own: its shape is stated by `HelpTextShape`, and each entry by `OptHelp` and `HelpEntryLayout` |
| Opts.HelpTextShape | sp_derive/opts.rs:338-354 | the help text starts with the usage heading and ends with a blank line |
| Opts.HelpEntriesEnd | sp_derive/opts.rs:340-344 | the concatenated entries, when there are any, end with a newline |
| Opts.BuildParseFn | sp_derive/opts.rs:425-446 | succeeds iff building the set-opts succeeds, and otherwise passes on exactly those errors; on success it carries the container's delimiters, exactly the registrations of `BuildRegisterOpts` and the assignments of the set-opts, one assignment per registration in order (via `SetOptsErrors` and `SetOptsMatchRegistrations`) |
| Opts.ExpandDeriveCmdLineOptions | sp_derive/opts.rs:491-506 | the expansion equals the specification function `Expansion` |
| Opts.ExpansionErrorsNonEmpty | sp_derive/opts.rs:491-506 | a failed expansion reports at least one error; a successful one is for a struct |
| Spawner.DefaultLimits | spawner/spawner.rs:112-125 | every default limit is `None` |
| Spawner.DefaultLimitsUnlimited | spawner/spawner.rs:112-125 | every default limit is `None`, and a limits value with every field `None` is the default |
| Spawner.OsLimitsFor | spawner/spawner.rs:224-246 | a flag is on iff its limit is set and the group enabled it; an unset limit never asks the group; a failed memory request is the result's error, and so is a failed active-process request when the memory request did not fail; an error comes only from a failed request |
| Spawner.DefaultLimitsEnableNothing | spawner/spawner.rs:224-246 | default limits enable no OS limit and cannot fail |
| Spawner.SpawnedProgram.constructor | spawner/spawner.rs:128-139 | no group, stdio, limits or terminate handler; a 1 ms monitor interval; `wait_for_children` false |
| Spawner.SpawnedProgram.SetGroup | spawner/spawner.rs:141-144 | only the group changes, and the same builder is returned |
| Spawner.SpawnedProgram.SetResourceLimits | spawner/spawner.rs:146-149 | only the limits change, and the same builder is returned |
| Spawner.SpawnedProgram.SetMonitorInterval | spawner/spawner.rs:151-154 | only the monitor interval changes, and the same builder is returned |
| Spawner.SpawnedProgram.SetOnTerminate | spawner/spawner.rs:156-162 | only the terminate handler changes, and the same builder is returned |
| Spawner.SpawnedProgram.SetStdio | spawner/spawner.rs:164-167 | only the stdio changes, and the same builder is returned |
| Spawner.SpawnedProgram.SetWaitForChildren | spawner/spawner.rs:169-172 | only `wait_for_children` changes, and the same builder is returned |
| Spawner.SpawnedProgram.SetMsgChannel | spawner/spawner.rs:174-177 | only the message channel changes, and the same builder is returned |
| Spawner.SpawnedProgram.EffectiveLimits | spawner/spawner.rs:224 | unset limits mean the default (unlimited) ones; set limits are used as given |
| Spawner.Ask | spawner/spawner.rs:287-341 | abstraction of the fallible OS calls (`?`) at these lines, not a proved property of source code: a query or call fails exactly when the snapshot says it fails, with that error; otherwise it gives the snapshot's answer |
| Spawner.HandleNOk | spawner/spawner.rs:317-341 | a successful call handles the first min(n, pending) messages, in arrival order; it removes them from the queue and appends their effects to the call log; the termination reason becomes `TerminatedByRunner` if any of them was `Terminate` |
| Spawner.HandleNErr | spawner/spawner.rs:317-341 | a failed call stops at one message among the first min(n, pending); the messages before it are applied and removed; the failing one is removed with the OS error, and the rest stay queued |
| Spawner.MessageEffects | spawner/spawner.rs:319-337 | `Terminate` terminates the group; `Suspend`/`Resume` act only while the process has no exit status; only `Terminate` changes the termination reason |
| Spawner.ReportNoneCases | spawner/spawner.rs:286-299 | when the queries succeed, no report is produced iff there is no exit status yet, or children are awaited and some are active; then the state is unchanged |
| Spawner.ReportReason | spawner/spawner.rs:300-315 | a recorded termination reason is kept and the checker is not consulted; otherwise the checker's verdict is taken; a report carries that reason, the elapsed time, the exit status and the pid counters |
| Spawner.TickReason | spawner/spawner.rs:272-284 | a round that produces no report removes the first min(10, pending) messages; the recorded reason becomes `TerminatedByRunner` if one of them was `Terminate`, else the limit checker's verdict if it gave one, else the earlier reason |
| Spawner.ProcessMonitor.constructor | spawner/spawner.rs:259-269 | a new monitor has no termination reason and the given message queue |
| Spawner.ProcessMonitor.HandleMessages | spawner/spawner.rs:317-341 | the loop over at most 10 messages equals the specification function `HandleN` with n = 10 |
| Spawner.ProcessMonitor.GetReport | spawner/spawner.rs:286-315 | the method equals the specification function `ReportOf` |
| Spawner.ProcessMonitor.CheckLimits | spawner/spawner.rs:277-280 | the method equals the specification function `LimitStep`: on a verdict, the group is terminated and the reason recorded |
| Spawner.ProcessMonitor.Tick | spawner/spawner.rs:272-284 | one loop iteration of `start_monitoring` (report, limit check, messages) equals the specification function `TickOf` |
| Spawner.Wait | spawner/spawner.rs:208-218 | one result per runner, in spawn order; a panicked runner gives the error "Runner thread panicked" |
| Spawner.WaitAppend | spawner/spawner.rs:208-218 | waiting on two runner lists is waiting on each in turn |
| Helpers.Cvt | spawner/sys/windows/helpers.rs:81-116 | `Err` exactly when the value is zero or null, and then it is the last OS error; otherwise the value is returned unchanged |
| Helpers.CvtTwice | spawner/sys/windows/helpers.rs:109-116 | checking a value that passed once passes again with the same value |
| Helpers.EncodeChar | spawner/sys/windows/helpers.rs:118-119 | a character of the basic plane is one unit equal to its code; any other is a high/low surrogate pair that encodes it |
| Helpers.ToUtf16 | spawner/sys/windows/helpers.rs:118-120 | the wide encoding followed by a single 0, one unit longer than the encoding |
| Helpers.EncodeWideZeros | spawner/sys/windows/helpers.rs:118-120 | the encoding has a 0 iff the string has a NUL; for a NUL-free string, the only 0 in the result is the final one |
| Helpers.DecodeEncode | spawner/sys/windows/helpers.rs:118-120 | both the strict and the lossy UTF-16 decoder invert the encoding |
| Helpers.LossyAgrees | spawner/sys/windows/helpers.rs:272 | on well-formed input the lossy decoder agrees with the strict one |
| Helpers.ScanLength | spawner/sys/windows/helpers.rs:254-256 | the scan stops at the first index where two adjacent zeros start |
| Helpers.CreateEnvBlock | spawner/sys/windows/helpers.rs:233-263 | an OS failure is passed on; otherwise the block is kept with the length of the scan |
| Helpers.AsSlice | spawner/sys/windows/helpers.rs:265-267 | the slice has `len` elements |
| Helpers.AsSliceShape | spawner/sys/windows/helpers.rs:254-267 | the slice has no two adjacent zeros and, when non-empty, does not end in 0 |
| Helpers.Iter | spawner/sys/windows/helpers.rs:269-273 | one string per NUL-separated piece, each decoded lossily |
| Helpers.IterEntries | spawner/sys/windows/helpers.rs:269-273 | joining the pieces with 0 gives the slice back; the pieces are NUL-free; there is one more piece than zeros; an empty block gives one empty entry |
| Helpers.IterEntriesNonEmpty | spawner/sys/windows/helpers.rs:254-273 | every piece after the first is non-empty |
| Helpers.WinstaNameLen | spawner/sys/windows/helpers.rs:185-186 | the name length is bytes / 2 - 1, defined only when that is neither negative nor beyond the 128-unit buffer |
| Helpers.WinstaName | spawner/sys/windows/helpers.rs:185-186 | the name is read exactly when its length is defined |
| Helpers.WinstaNameReadsWhatWasWritten | spawner/sys/windows/helpers.rs:175-186 | when the system writes a NUL-terminated name and reports its byte count with the NUL, exactly that name is read back |
| Helpers.DesktopName | spawner/sys/windows/helpers.rs:192-196 | defined exactly when the station name length is; an error exactly when the station name is not well-formed UTF-16, and then the error shows the conversion error's text |
| Helpers.DesktopNameDecodes | spawner/sys/windows/helpers.rs:192-196 | the desktop name is the NUL-terminated encoding of the station name + `\desktop` |
| TestCommon.ApproxEq | libspawner_tests/common.rs:57-62 | no contract of its own: its meaning is stated by `ApproxEqDistance`, `ApproxEqNeedsPositiveDiff` and `ApproxEqSymmetricMonotone` |
| TestCommon.ApproxEqDistance | libspawner_tests/common.rs:57-62 | `approx_eq(a, b, diff)` holds iff the two values are less than `diff` apart, both bounds strict |
| TestCommon.ApproxEqNeedsPositiveDiff | libspawner_tests/common.rs:61 | a tolerance that is not positive admits nothing; `approx_eq(b, b, d)` iff `d > 0` |
| TestCommon.ApproxEqSymmetricMonotone | libspawner_tests/common.rs:61 | symmetric in `a` and `b`, and monotone in the tolerance |
| TestCommon.Exe | libspawner_tests/common.rs:50-55 | the path is the debug directory, the name and then `.exe` |
| TestCommon.ExeParts | libspawner_tests/common.rs:50-55 | the directory, the name and the suffix can be read back from the path, so different names give different paths |

## Left out

- Threads, `mpsc` channels, `thread::sleep`, `Instant` and the repetition of `start_monitoring`: these are concurrency and wall-clock time. `Tick` models one iteration of the loop, and the elapsed time is a parameter.
- `LimitChecker` and the `Group`/`Process` OS calls are not part of this model. Their answers (exit status, pid counters, the checker's verdict, resource counters, failing calls) come from a snapshot parameter, one per step. Counters are opaque values.
- `ProcessMonitor::new`: spawning the process, the null stdio pipes and `Group::new` are foreign calls. Only the OS-limit computation (`OsLimitsFor`) and the initial monitor state are modelled.
- The `Drop` impls of `ProcessMonitor`, `User` and `UserContext`, and `on_terminate` handlers: these are resource cleanup calls into code that is not shown.
- `IdleTimeLimit.cpu_load_threshold`: it is an `f64`. Durations are whole nanoseconds.
- The Win32 calls of `helpers.rs` (`LogonUserW`, window-station and desktop creation, impersonation, `CreateEnvironmentBlock`, attribute lists, allocation) and `StartupInfo`: these are foreign calls and raw memory. The environment block and the name buffer are given sequences of UTF-16 units.
- `CreateEnvBlock`: it requires the block to contain a double NUL. The source's scan reads past the end of a block without one, so that case has no meaning to model.
- `syn` parsing, `quote!` token generation, spans, and `parse().unwrap()` of parser paths: parsers are kept as their source text, and errors as their message kinds.
- `libspawner/pipe.rs`, `spawner/runner_private.rs` and `spawner/sys/windows/mod.rs`: they are thin wrappers over modules that are not part of this model, or only module declarations.
- `TmpDir`, `read_all` and `write_all` in `common.rs`: filesystem I/O with random names.
- `Spawner::spawn` and `Runner`'s message sending: these are thread plumbing. `Wait` takes the join outcomes as given.
- TestCommon.ApproxEqDistance: stated on unbounded integers, so the overflow of fixed-width types and floating-point rounding are not modelled.
- Spawner.HandleNErr, Spawner.TickReason and the other monitor lemmas: the snapshot `OsView` gives one answer and one failure map per step. An operation attempted twice in one step (two `Terminate` or two `Suspend` messages in one batch) therefore fails both times or neither time. A call that fails only on its second attempt within a round is not modelled.
- Integer widths (`u64`, `usize`, `DWORD`) are unbounded in the model. The only bound kept is the 128-unit name buffer.
