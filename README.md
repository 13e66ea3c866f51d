# Swarming bot runtime and server helpers, modelled in Dafny

This project models the logic core of the Swarming task distribution system: the
bot-side Android device layer, the bot state container, the gRPC remote client,
and three server-side pieces. The server-side pieces are the ts_mon metrics
helpers, the argument checks of the pRPC handlers and the Cloud Endpoints to
Flask adapter. Each source file maps to one or more Dafny modules:

- `android.py` is modelled by six modules.
  - `AdbLow` models `LowDevice` over a scripted transport.
  - `AndroidCache` models `_PerDeviceCache`, `build.prop` parsing and `_init_cache`.
  - `AndroidParse` models the text parsers.
  - `CpuScaling` models the governor and speed dialogs.
  - `AdbKeys` models `push_keys`.
  - `TempFiles` models `mkstemp` and `run_shell_wrapped`.
  - `AndroidHigh` models `HighDevice`, whose methods drive a `LowDevice`.
- `bot.py` is modelled by `BotState`, which holds the stripper, the `Bot` class and the `restart` effect sequence.
- `remote_client_grpc.py` is modelled by `RemoteGrpc`: attribute and state encoding, handshake, and poll decoding with the sleep-log flag.
- `ts_mon_metrics.py` is modelled by two modules.
  - `TsMonFields` covers tags, job fields, pools, executor status and completion updates.
  - `TsMonShards` covers `_ShardParams` and the two sharded loops.
- `handlers_prpc.py` is modelled by `PrpcHandlers`: the `Events` argument checks and the batch limits.
- `adapter.py` is modelled by `EndpointsAdapter`: `decode_field`, the `decode_message` merge, status choice and `api_routes`.

`Wrappers`, `Strings`, `Ordering`, `Values`, `Exceptions` and `Dialog` are
helper modules. They provide Option and Result, Python string helpers, string
order with a sorted-set listing, JSON-like values, the exceptions that escape
and device-call dialogs.

How the device layer is modelled:

- **Transport.** The ADB transport is an oracle object, `AdbLow.AdbCommands`.
  It has one `Script` of replies per command kind and a global call counter.
  Each reply is an answer, a USB fault or an `AdbCommandFailureException`, so a
  statement over all scripts is a statement over every transport.
- **Trace.** `LowDevice` keeps a ghost `trace`: one `DeviceOp` per primitive
  call, together with the value that call returned.
- **Dialogs.** Every `HighDevice` operation is specified by a *dialog*. A dialog
  is a function that reads the trace suffix the operation left and yields the
  result the operation must return, together with the number of calls used.
  `Made(d, ops, r)` says that the dialog consumed exactly `ops` and gave `r`.
  The lemmas then state the source's promises about the dialogs, such as
  "read-verify-write-verify" and "never drops a key".
- **Exceptions.** Exceptions that escape in the source are `Result` values of type `Raise`, for example:
  - an `AssertionError` on device data;
  - a `ValueError` from `int()`;
  - an `IndexError`;
  - an `AdbCommandFailureException` escaping `shell`.

  Asserts on the caller's arguments become `requires`. Examples are an absolute
  path and a known governor. The type and range asserts of `set_cpu_speed` are
  the exception: they are modelled as `AssertionError` results, returned
  before any device call.

Integers are unbounded. Python's `int()` is modelled as `Strings.ParseInt`, and
`splitlines()` is modelled for `\n`, `\r` and `\r\n`.

Four behaviours of the source are kept as the code has them:

- `is_root` tests for the prefix `out=0(root)`, so on real `id` output
  (`uid=0(root)...`) it answers False. `AdbLow.IsRootOfIdOutput` shows this.
- `reset_adbd_as_user` calls an attribute `cmd` that `LowDevice` does not have.
  When `_tries` is positive it therefore raises `AttributeError` before any
  device call.
- `_update_bot_group_cfg` with a configuration that has no `dimensions` records
  None. The `dict.update(None)` that follows then raises `TypeError`. The model
  returns that error instead of requiring the dimensions.
- `CancelTasks` with no task ids passes the count check, which is all that
  `PrpcHandlers.CheckCancelTasks` models. The source then unpacks `zip(*[])`
  into two names (handlers_prpc.py:92-94), which raises `ValueError`. So an
  empty batch that the check accepts is still not served.

## Model

| member | source | states |
|---|---|---|
| AndroidCache.ValidityByPort | appengine/swarming/swarming_bot/api/platforms/android.py:64-69 | the validity map built by `trim` has exactly the port paths of the listed devices |
| AndroidCache.KeptIsLastValid | appengine/swarming/swarming_bot/api/platforms/android.py:64-75 | a port path is kept by `trim` iff the device listed last under it is valid |
| AndroidCache.UnlistedNotKept | appengine/swarming/swarming_bot/api/platforms/android.py:70-75 | a port path that no listed device has is dropped |
| AndroidCache.Trimmed | appengine/swarming/swarming_bot/api/platforms/android.py:64-75 | the trimmed cache keeps exactly the kept keys, each with its old value |
| AndroidCache.PerDeviceCache.constructor | appengine/swarming/swarming_bot/api/platforms/android.py:51-54 | a new cache is empty |
| AndroidCache.PerDeviceCache.Get | appengine/swarming/swarming_bot/api/platforms/android.py:56-58 | returns the stored entry for the port path, None iff absent |
| AndroidCache.PerDeviceCache.Set | appengine/swarming/swarming_bot/api/platforms/android.py:60-62 | the map after is the old one updated at that port path only |
| AndroidCache.PerDeviceCache.Trim | appengine/swarming/swarming_bot/api/platforms/android.py:64-75 | the loop leaves exactly `Trimmed(old, devices)` |
| AndroidCache.GetAfterSet | appengine/swarming/swarming_bot/api/platforms/android.py:56-62 | `get` after `set(p, v)` gives v at p and leaves every other port path as it was |
| AndroidCache.TrimmedKeysListed | appengine/swarming/swarming_bot/api/platforms/android.py:64-75 | every key left by `trim` is the port path of a listed, valid device |
| AndroidCache.LastListed | appengine/swarming/swarming_bot/api/platforms/android.py:64-69 | finds the last listing of a port path, with no later listing of it |
| AndroidCache.BuildPropsOf | appengine/swarming/swarming_bot/api/platforms/android.py:117-126 | every failure of `build.prop` parsing is the unpack `ValueError` or the ASCII `UnicodeDecodeError` of the byte lines |
| AndroidCache.BuildPropsFails | appengine/swarming/swarming_bot/api/platforms/android.py:117-126 | parsing fails iff some line holds a byte outside ASCII, comments included, or is neither empty nor a `#` comment and has no `=` |
| AndroidCache.BuildPropsFirstBad | appengine/swarming/swarming_bot/api/platforms/android.py:121-124 | the first bad line decides the error: `UnicodeDecodeError` at its first non-ASCII byte, else the unpack `ValueError` |
| AndroidCache.NonAsciiLineRaises | appengine/swarming/swarming_bot/api/platforms/android.py:121 | the bytes `ro.x=\xc3\xa9` raise `UnicodeDecodeError` at position 5 |
| Strings.FirstNonAscii | appengine/swarming/swarming_bot/api/platforms/android.py:121 | the position the ASCII codec stops at: a byte outside ASCII with only ASCII before it |
| AndroidCache.LastValue | appengine/swarming/swarming_bot/api/platforms/android.py:117-126 | reference definition: the value of the last property line naming a key, None iff none does |
| AndroidCache.BuildPropsLastWins | appengine/swarming/swarming_bot/api/platforms/android.py:117-126 | a parsed key is present iff some line names it, and it maps to the value of the last such line |
| AndroidCache.LastValueIsLastLine | appengine/swarming/swarming_bot/api/platforms/android.py:117-126 | the last line naming a key gives its value, split at the first `=` |
| AndroidCache.ParseBuildProp | appengine/swarming/swarming_bot/api/platforms/android.py:117-126 | the parsing loop computes `BuildPropsOf` of the split lines |
| AndroidCache.BuildPropsStaysFailed | appengine/swarming/swarming_bot/api/platforms/android.py:117-126 | once a prefix of the lines fails, the whole parse fails with the same error |
| AndroidCache.StoragePathOf | appengine/swarming/swarming_bot/api/platforms/android.py:113-115 | the external storage path is the shell output unless the exit code is non-zero |
| AndroidCache.PropsOf | appengine/swarming/swarming_bot/api/platforms/android.py:117-126 | an unreadable or empty `build.prop` gives None; a non-empty one parses to a map or fails |
| AndroidCache.GovernorsOf | appengine/swarming/swarming_bot/api/platforms/android.py:131-137 | an unreadable or empty governor list stands for all known governors |
| AndroidCache.AllKnownPermutation | appengine/swarming/swarming_bot/api/platforms/android.py:131-137 | "every governor is known" does not depend on the order of the list |
| AndroidCache.GovernorsRead | appengine/swarming/swarming_bot/api/platforms/android.py:131-137 | a read governor list is the sorted permutation of the file's words, accepted iff all are known |
| AndroidCache.FreqOf | appengine/swarming/swarming_bot/api/platforms/android.py:139-146 | a frequency file is unread, blank or an int; a non-numeric one raises `ValueError` |
| AndroidCache.InitCacheShape | appengine/swarming/swarming_bot/api/platforms/android.py:102-153 | a successful `_init_cache` makes exactly six calls in source order, and each field comes from its call |
| AndroidCache.InitCacheComplete | appengine/swarming/swarming_bot/api/platforms/android.py:147-153 | the cache is complete iff storage, `build.prop` and both frequencies were obtained |
| AndroidCache.InitCacheErrorEnds | appengine/swarming/swarming_bot/api/platforms/android.py:102-146 | a failing `_init_cache` stops at the call whose parse raised and returns that error: the storage shell call, build.prop, the governors list, or the `ValueError` of the maximum or minimum frequency read |
| AndroidCache.ReadCache | appengine/swarming/swarming_bot/api/platforms/android.py:102-150 | the device calls made give the dialog `InitCacheOf`, and the result is the dialog's |
| AndroidCache.InitCache | appengine/swarming/swarming_bot/api/platforms/android.py:102-153 | a cached port path returns the cached entry without a device call; otherwise the result is read and stored only when complete |
| AndroidParse.GetPropOf | appengine/swarming/swarming_bot/api/platforms/android.py:1121-1125 | `get_prop` is None on a non-zero exit and otherwise the right-stripped output; errors pass through |
| AndroidParse.GetPropReadsValue | appengine/swarming/swarming_bot/api/platforms/android.py:1121-1125 | round trip: the shell reply for a value reads back as that value |
| AndroidParse.DumpsysOf | appengine/swarming/swarming_bot/api/platforms/android.py:1127-1137 | `dumpsys` returns the output iff the exit code is 0 and the output does not announce a missing service |
| AndroidParse.GetIpOf | appengine/swarming/swarming_bot/api/platforms/android.py:977-984 | `get_ip` is None on missing or empty output, else the stripped output |
| AndroidParse.PackageNames | appengine/swarming/swarming_bot/api/platforms/android.py:1002-1007 | each line gives the part after its first `:`; a line without `:` raises `IndexError` |
| AndroidParse.PackagesOf | appengine/swarming/swarming_bot/api/platforms/android.py:1002-1007 | `list_packages` is None iff the output is missing or empty; shell errors pass through |
| AndroidParse.PackageNamesOfListing | appengine/swarming/swarming_bot/api/platforms/android.py:1002-1007 | round trip: `package:<name>` lines give back the names in order |
| AndroidParse.BatteryLineIsEntry | appengine/swarming/swarming_bot/api/platforms/android.py:895-900 | a battery line gives a property iff it holds exactly one `:` and does not end in one |
| AndroidParse.BatteryLineOfEntry | appengine/swarming/swarming_bot/api/platforms/android.py:895-900 | `key:value` gives the left-stripped key and the stripped value |
| AndroidParse.Entries | appengine/swarming/swarming_bot/api/platforms/android.py:895-900 | one entry per output line |
| AndroidParse.LastEntryValue | appengine/swarming/swarming_bot/api/platforms/android.py:895-900 | reference definition: the value of the last entry naming a key, None iff none does |
| AndroidParse.PropsLastWins | appengine/swarming/swarming_bot/api/platforms/android.py:895-900 | a battery property is present iff some line names it, and the last such line wins |
| AndroidParse.BatteryProps | appengine/swarming/swarming_bot/api/platforms/android.py:893-900 | the dictionary loop computes the last-wins properties of the split lines |
| AndroidParse.PowerOf | appengine/swarming/swarming_bot/api/platforms/android.py:901-905 | `AC`, `USB` and `Wireless` are listed iff the matching `... powered` property is `true` |
| AndroidParse.IntField | appengine/swarming/swarming_bot/api/platforms/android.py:906-910 | a missing field is None, a non-numeric one raises `ValueError`, else its int |
| AndroidParse.BatteryOf | appengine/swarming/swarming_bot/api/platforms/android.py:901-910 | the battery raises iff one of the five int fields raises; otherwise it holds the power list and the five fields |
| AndroidParse.BatteryReport | appengine/swarming/swarming_bot/api/platforms/android.py:887-894 | no or empty `dumpsys battery` output gives the empty report; errors pass through |
| AndroidParse.ParcelWords | appengine/swarming/swarming_bot/api/platforms/android.py:82-99 | every word `_parcel_to_list` yields is a 4-hex-digit group, at most eight per line |
| AndroidParse.LineWordsAre | appengine/swarming/swarming_bot/api/platforms/android.py:88-98 | the words of one parcel line are 4-hex-digit groups, at most two per 8-digit group |
| AndroidParse.ParcelStopsAtMismatch | appengine/swarming/swarming_bot/api/platforms/android.py:88-92 | the first line that does not match the parcel format ends the parse |
| AndroidParse.ParcelStep | appengine/swarming/swarming_bot/api/platforms/android.py:88-98 | one line either adds its words or stops the parse |
| AndroidParse.AppendGroup | appengine/swarming/swarming_bot/api/platforms/android.py:93-98 | one group adds its low then high half and skips blank halves |
| AndroidParse.AppendLine | appengine/swarming/swarming_bot/api/platforms/android.py:93-98 | one line appends the words of its four groups |
| AndroidParse.ParcelToList | appengine/swarming/swarming_bot/api/platforms/android.py:82-99 | the loop computes `ParcelOf(lines)` |
| AdbLow.RunAttempts | appengine/swarming/swarming_bot/api/platforms/android.py:226-237 | the retry template makes at most `_tries` calls, and a final reply is never a USB fault |
| AdbLow.RetryExhausted | appengine/swarming/swarming_bot/api/platforms/android.py:226-237 | `_tries` faults in a row give the sentinel, with one reset per fault |
| AdbLow.RetryStopped | appengine/swarming/swarming_bot/api/platforms/android.py:226-237 | the first reply that is not a fault ends the loop after the faults before it |
| AdbLow.RunAttemptsFaults | appengine/swarming/swarming_bot/api/platforms/android.py:226-237 | each reported fault is the fault the transport gave at that attempt |
| AdbLow.RunAttemptsSucceeds | appengine/swarming/swarming_bot/api/platforms/android.py:226-237 | a primitive answers v iff some attempt within budget answered v after only faults |
| AdbLow.CommandFailureStops | appengine/swarming/swarming_bot/api/platforms/android.py:233-234 | an `AdbCommandFailureException` returns the sentinel at once, after one call, with no reset |
| AdbLow.ParseShellOutput | appengine/swarming/swarming_bot/api/platforms/android.py:387-404 | non-empty output yields an exit code and needs a line break; failures are Assertion, Index or Value errors |
| AdbLow.ParseShellOutputExample | appengine/swarming/swarming_bot/api/platforms/android.py:387-404 | `"hi\n0\n"` gives `("hi", 0)` |
| AdbLow.ParseShellOutputRoundTrip | appengine/swarming/swarming_bot/api/platforms/android.py:387-404 | round trip: text, line break, exit code and line break parse back to the text and the code |
| AdbLow.RawOutcome | appengine/swarming/swarming_bot/api/platforms/android.py:378-383 | a command whose UTF-8 encoding, probe included, is longer than 512 bytes raises `AssertionError` without a call, else one call is made |
| AdbLow.ProbedLength | appengine/swarming/swarming_bot/api/platforms/android.py:391-392 | the byte length checked against 512 is the command's UTF-8 length plus one byte per probe character, and equals the character count exactly when the command is ASCII |
| Strings.Utf8LengthAppend | appengine/swarming/swarming_bot/api/platforms/android.py:384-385 | the UTF-8 length of a concatenation is the sum of the lengths |
| Strings.Utf8LengthAscii | appengine/swarming/swarming_bot/api/platforms/android.py:384-385 | a string's UTF-8 length equals its character count if and only if it is ASCII |
| Strings.Utf8LengthAppendAscii | appengine/swarming/swarming_bot/api/platforms/android.py:391-392 | appending an ASCII suffix such as the exit probe adds one byte per character |
| AdbLow.ShellAttempts | appengine/swarming/swarming_bot/api/platforms/android.py:353-368 | `shell` makes at most `_tries` transport calls |
| AdbLow.ShellStopped | appengine/swarming/swarming_bot/api/platforms/android.py:353-368 | the first non-fault reply is parsed and ends the loop |
| AdbLow.ShellExhausted | appengine/swarming/swarming_bot/api/platforms/android.py:353-368 | only faults give `(None, None)` |
| AdbLow.ShellTooLong | appengine/swarming/swarming_bot/api/platforms/android.py:378-383 | a command over 512 UTF-8 bytes with the probe raises `AssertionError` with no transport call |
| AdbLow.ShellCommandFailureEscapes | appengine/swarming/swarming_bot/api/platforms/android.py:353-368 | `AdbCommandFailureException` escapes `shell` after one call |
| AdbLow.IsRootOf | appengine/swarming/swarming_bot/api/platforms/android.py:451-466 | `is_root` answers iff the exit code is 0 and the output is non-empty, True only on the literal prefix |
| AdbLow.IsRootOfIdOutput | appengine/swarming/swarming_bot/api/platforms/android.py:466 | real `uid=0(root)` output reads as not root |
| AdbLow.RootVerdict | appengine/swarming/swarming_bot/api/platforms/android.py:424-428 | after a restart, root is confirmed iff `is_root` says True; its errors pass through |
| AdbLow.RootAttemptsNone | appengine/swarming/swarming_bot/api/platforms/android.py:414-430 | when every attempt faults, `reset_adbd_as_root` returns False |
| AdbLow.RootAttemptsSome | appengine/swarming/swarming_bot/api/platforms/android.py:414-428 | the first non-fault reply decides, and the calls and faults add up |
| AdbLow.RootRefused | appengine/swarming/swarming_bot/api/platforms/android.py:421-422 | the production-build refusal returns False after one call |
| AdbLow.RootTrueWhy | appengine/swarming/swarming_bot/api/platforms/android.py:414-428 | True means adbd said it already runs as root, or `is_root` confirmed |
| AdbLow.AdbCommands.constructor | appengine/swarming/swarming_bot/api/platforms/android.py:205-215 | a transport starts with its scripts and no calls made |
| AdbLow.LowDevice.constructor | appengine/swarming/swarming_bot/api/platforms/android.py:205-215 | a device starts with one try, serial = port path, no reset and an empty trace |
| AdbLow.LowDevice.Reports | appengine/swarming/swarming_bot/api/platforms/android.py:481-492 | `on_error` gets one message per fault, none without a callback |
| AdbLow.LowDevice.ReportsConcat | appengine/swarming/swarming_bot/api/platforms/android.py:481-492 | the reports of two fault runs concatenate |
| AdbLow.LowDevice.Close | appengine/swarming/swarming_bot/api/platforms/android.py:221-224 | `close` drops the transport, makes the device invalid and keeps its history |
| AdbLow.LowDevice.TryReset | appengine/swarming/swarming_bot/api/platforms/android.py:481-492 | `_try_reset` records the fault, reports its message once and sets `_has_reset` |
| AdbLow.LowDevice.Retry | appengine/swarming/swarming_bot/api/platforms/android.py:226-237 | the shared retry loop returns `RunAttempts`' last reply, with calls and resets as it counts them |
| AdbLow.LowDevice.Listdir | appengine/swarming/swarming_bot/api/platforms/android.py:226-237 | no transport gives None; otherwise the retry outcome, and the trace records the call |
| AdbLow.LowDevice.Stat | appengine/swarming/swarming_bot/api/platforms/android.py:239-254 | the same template for `stat`, with `(None, None, None)` as None |
| AdbLow.LowDevice.Pull | appengine/swarming/swarming_bot/api/platforms/android.py:256-271 | the same template for `pull`, with False as the sentinel |
| AdbLow.LowDevice.PullContent | appengine/swarming/swarming_bot/api/platforms/android.py:273-288 | the same template for `pull_content` |
| AdbLow.LowDevice.Push | appengine/swarming/swarming_bot/api/platforms/android.py:290-305 | the same template for `push` |
| AdbLow.LowDevice.PushContent | appengine/swarming/swarming_bot/api/platforms/android.py:307-322 | the same template for `push_content` |
| AdbLow.LowDevice.Reboot | appengine/swarming/swarming_bot/api/platforms/android.py:324-337 | the same template for `reboot` |
| AdbLow.LowDevice.Remount | appengine/swarming/swarming_bot/api/platforms/android.py:339-351 | the same template for `remount` |
| AdbLow.LowDevice.ShellOnce | appengine/swarming/swarming_bot/api/platforms/android.py:370-404 | one raw shell call gives `RawOutcome` |
| AdbLow.LowDevice.ShellRaw | appengine/swarming/swarming_bot/api/platforms/android.py:370-404 | `shell_raw` gives `(None, None)` without a transport, else the one-call outcome |
| AdbLow.LowDevice.ShellLoop | appengine/swarming/swarming_bot/api/platforms/android.py:353-368 | the shell retry loop computes `ShellAttempts` |
| AdbLow.LowDevice.Shell | appengine/swarming/swarming_bot/api/platforms/android.py:353-368 | `shell` gives `ShellAttempts`' result and records it in the trace |
| AdbLow.LowDevice.IsRoot | appengine/swarming/swarming_bot/api/platforms/android.py:451-466 | `is_root` is `IsRootOf` of the `id` shell run |
| AdbLow.LowDevice.IsRootProbe | appengine/swarming/swarming_bot/api/platforms/android.py:451-466 | the same check, as used inside `reset_adbd_as_root` |
| AdbLow.LowDevice.RootLoop | appengine/swarming/swarming_bot/api/platforms/android.py:414-430 | the root retry loop computes `RootAttempts` |
| AdbLow.LowDevice.RootReplied | appengine/swarming/swarming_bot/api/platforms/android.py:417-428 | one non-fault reply of `Root()` is handled as `RootReplyOutcome` says |
| AdbLow.LowDevice.ResetAdbdAsRoot | appengine/swarming/swarming_bot/api/platforms/android.py:406-430 | `reset_adbd_as_root` gives the `RootAttempts` result; without a transport it raises `AttributeError` |
| AdbLow.LowDevice.ResetAdbdAsUser | appengine/swarming/swarming_bot/api/platforms/android.py:432-449 | `reset_adbd_as_user` raises `AttributeError` (no `cmd`) whenever it tries, and changes nothing |
| CpuScaling.PlanFor | appengine/swarming/swarming_bot/api/platforms/android.py:809-819 | another governor is used only when the requested one is unavailable, and it is known |
| CpuScaling.SubstitutedGovernor | appengine/swarming/swarming_bot/api/platforms/android.py:809-849 | an unavailable `ondemand` or `interactive` makes the calls for the other one: the governor file is read, a write puts the other governor there, and the outcome is True iff the last read-back shows the other governor |
| CpuScaling.GovernorRefused | appengine/swarming/swarming_bot/api/platforms/android.py:817-819 | an unavailable governor without a substitute returns False with no device call |
| CpuScaling.PowersaveIsMinSpeed | appengine/swarming/swarming_bot/api/platforms/android.py:811-812 | an unavailable `powersave` means `set_cpu_speed(cpuinfo_min_freq)` |
| CpuScaling.WriteOnlyWhenDifferent | appengine/swarming/swarming_bot/api/platforms/android.py:824-829 | a write stops after the first read exactly when the stripped current value is the target, returning True |
| CpuScaling.WriteFallsBackToShell | appengine/swarming/swarming_bot/api/platforms/android.py:830-846 | otherwise it pushes the governor and line break; on success it reads back, else it falls back to `echo` |
| CpuScaling.ConfirmOutcome | appengine/swarming/swarming_bot/api/platforms/android.py:847-850 | the read-back returns True iff it equals the target after stripping |
| CpuScaling.EchoOutcome | appengine/swarming/swarming_bot/api/platforms/android.py:838-850 | after the `echo` fallback, True means the read-back equals the target |
| CpuScaling.WriteOutcome | appengine/swarming/swarming_bot/api/platforms/android.py:824-850 | a write returns True iff the last read shows the target |
| CpuScaling.SetSpeedOutcome | appengine/swarming/swarming_bot/api/platforms/android.py:858-868 | a speed write returns True iff the governor switch succeeded and the read-back equals `str(speed)` |
| CpuScaling.SpeedAlwaysWrites | appengine/swarming/swarming_bot/api/platforms/android.py:852-868 | the speed is written after the switch even when it failed, and True needs the switch to have succeeded |
| CpuScaling.SpeedComposed | appengine/swarming/swarming_bot/api/platforms/android.py:852-868 | a switch to `userspace` followed by the speed write makes up `set_cpu_speed` |
| CpuScaling.SpeedSwitchFailed | appengine/swarming/swarming_bot/api/platforms/android.py:858-860 | an error from the switch is the error of `set_cpu_speed` |
| CpuScaling.GovernorStable | appengine/swarming/swarming_bot/api/platforms/android.py:803-850 | the governor dialog is decided by its own calls, whatever calls follow |
| CpuScaling.SpeedStable | appengine/swarming/swarming_bot/api/platforms/android.py:852-868 | the speed dialog is decided by its own calls, whatever calls follow |
| CpuScaling.WriteStable | appengine/swarming/swarming_bot/api/platforms/android.py:824-850 | the write dialog is decided by its own calls |
| AdbKeys.TrustedKeys | appengine/swarming/swarming_bot/api/platforms/android.py:1052-1058 | the device keys are the stripped file's lines, none with a line break |
| AdbKeys.Merged | appengine/swarming/swarming_bot/api/platforms/android.py:1052-1066 | the keys written hold every host key and every device key, and no others |
| AdbKeys.NeverForgets | appengine/swarming/swarming_bot/api/platforms/android.py:1043-1073 | a write happens only when the device lacks a host key, and it writes the sorted union |
| AdbKeys.MkdirWrites | appengine/swarming/swarming_bot/api/platforms/android.py:1060-1073 | the directory path writes the key file with the given content |
| AdbKeys.RestoreDirWrites | appengine/swarming/swarming_bot/api/platforms/android.py:1060-1073 | the restore path writes the key file with the given content |
| AdbKeys.MkdirOutcome | appengine/swarming/swarming_bot/api/platforms/android.py:1060-1073 | True iff the two shell steps, the push and the final shell step all succeed |
| AdbKeys.RestoreDirOutcome | appengine/swarming/swarming_bot/api/platforms/android.py:1060-1073 | True iff the shell step, the push and the final shell step succeed |
| AdbKeys.WriteKeysOutcome | appengine/swarming/swarming_bot/api/platforms/android.py:1066-1073 | True iff the push and the permission step succeed |
| AdbKeys.TrustedKeysOfContent | appengine/swarming/swarming_bot/api/platforms/android.py:1052-1066 | round trip: reading back a written key file gives exactly its keys |
| AdbKeys.TrustedKeysOfLines | appengine/swarming/swarming_bot/api/platforms/android.py:1052-1066 | reading line-terminated clean keys gives the set of those lines |
| AdbKeys.SecondPushWritesNothing | appengine/swarming/swarming_bot/api/platforms/android.py:1043-1059 | once the union is on the device, the next `push_keys` reads once and returns True |
| AdbKeys.MergedStaysClean | appengine/swarming/swarming_bot/api/platforms/android.py:1052-1066 | merging with a written file gives the plain union of clean keys |
| TempFiles.MkFrom | appengine/swarming/swarming_bot/api/platforms/android.py:1075-1092 | `mkstemp` uses at most the calls it reads |
| TempFiles.MkFromGives | appengine/swarming/swarming_bot/api/platforms/android.py:1082-1091 | a returned name was free, came from one of the picks, and was written with the content |
| TempFiles.MkFromGivesUp | appengine/swarming/swarming_bot/api/platforms/android.py:1082-1092 | None means every one of the five picks was tried |
| TempFiles.MkFromStable | appengine/swarming/swarming_bot/api/platforms/android.py:1075-1092 | the `mkstemp` dialog is decided by its own calls |
| TempFiles.MadeNameIsAbsolute | appengine/swarming/swarming_bot/api/platforms/android.py:1082-1091 | a made name is an absolute path |
| TempFiles.NameNeedsNoQuote | appengine/swarming/swarming_bot/api/platforms/android.py:1082-1088 | a name built from safe parts needs no shell quoting |
| TempFiles.SafeConcat | appengine/swarming/swarming_bot/api/platforms/android.py:1082-1088 | two quote-safe strings concatenate to a quote-safe string |
| TempFiles.Cleanup | appengine/swarming/swarming_bot/api/platforms/android.py:1111-1119 | the clean-up runs exactly its commands, one call each |
| TempFiles.CleanupTwo | appengine/swarming/swarming_bot/api/platforms/android.py:1111-1119 | the two `rm` calls run in order, and the pending outcome survives them unless they raise |
| TempFiles.ExecOutcome | appengine/swarming/swarming_bot/api/platforms/android.py:1104-1119 | the script run, the output read and both removals happen in order; the result is the output and exit code or the error |
| TempFiles.OutfileOutcome | appengine/swarming/swarming_bot/api/platforms/android.py:1100-1119 | the script is always removed, and with no output file nothing runs |
| TempFiles.RunWrappedOutcome | appengine/swarming/swarming_bot/api/platforms/android.py:1094-1119 | without a script file nothing runs; otherwise the script is removed last and its error wins |
| TempFiles.RunWrappedComposed | appengine/swarming/swarming_bot/api/platforms/android.py:1094-1119 | making the script and then running it makes up `run_shell_wrapped` |
| TempFiles.OutfileComposed | appengine/swarming/swarming_bot/api/platforms/android.py:1100-1119 | making the output file and then running makes up the inner step |
| AndroidHigh.HighDevice.constructor | appengine/swarming/swarming_bot/api/platforms/android.py:730-733 | a high device wraps its low device and cache |
| AndroidHigh.HighDevice.SetCpuScalingGovernor | appengine/swarming/swarming_bot/api/platforms/android.py:803-850 | the calls made and the result are those of `GovernorDialog` |
| AndroidHigh.HighDevice.WriteGovernor | appengine/swarming/swarming_bot/api/platforms/android.py:824-850 | the calls made and the result are those of `WriteDialog` |
| AndroidHigh.HighDevice.PushGovernor | appengine/swarming/swarming_bot/api/platforms/android.py:830-850 | the calls made and the result are those of `PushGovernorDialog` |
| AndroidHigh.HighDevice.EchoGovernor | appengine/swarming/swarming_bot/api/platforms/android.py:838-850 | the calls made and the result are those of `EchoDialog` |
| AndroidHigh.HighDevice.ConfirmGovernor | appengine/swarming/swarming_bot/api/platforms/android.py:847-850 | the calls made and the result are those of `ConfirmDialog` |
| AndroidHigh.HighDevice.SetCpuSpeed | appengine/swarming/swarming_bot/api/platforms/android.py:852-868 | the calls made and the result are those of `SpeedDialog` |
| AndroidHigh.HighDevice.GetProp | appengine/swarming/swarming_bot/api/platforms/android.py:1121-1125 | one shell call, whose result `GetPropOf` reads |
| AndroidHigh.HighDevice.Dumpsys | appengine/swarming/swarming_bot/api/platforms/android.py:1127-1137 | one shell call, whose result `DumpsysOf` reads |
| AndroidHigh.HighDevice.GetIp | appengine/swarming/swarming_bot/api/platforms/android.py:977-984 | one shell call, whose result `GetIpOf` reads |
| AndroidHigh.HighDevice.ListPackages | appengine/swarming/swarming_bot/api/platforms/android.py:1002-1007 | one shell call, whose result `PackagesOf` reads |
| AndroidHigh.HighDevice.GetBattery | appengine/swarming/swarming_bot/api/platforms/android.py:887-910 | `dumpsys battery`, then the report `BatteryReport` reads |
| AndroidHigh.HighDevice.PushKeys | appengine/swarming/swarming_bot/api/platforms/android.py:1043-1073 | the calls made and the result are those of `PushKeysDialog` |
| AndroidHigh.HighDevice.InstallKeys | appengine/swarming/swarming_bot/api/platforms/android.py:1060-1073 | it writes the sorted key file as `MkdirDialog` says |
| AndroidHigh.HighDevice.Mkstemp | appengine/swarming/swarming_bot/api/platforms/android.py:1075-1092 | the calls made and the result are those of `MkstempDialog` |
| AndroidHigh.HighDevice.RunShellWrapped | appengine/swarming/swarming_bot/api/platforms/android.py:1094-1119 | the calls made and the result are those of `RunWrappedDialog` |
| AndroidHigh.HighDevice.Exec | appengine/swarming/swarming_bot/api/platforms/android.py:1104-1119 | the calls made and the result are those of `ExecDialog` |
| BotState.CommonPrefix | appengine/swarming/swarming_bot/api/bot.py:36-41 | the result is a prefix of both and stops at the first difference |
| BotState.CommonPrefixUnique | appengine/swarming/swarming_bot/api/bot.py:36-41 | any common prefix that stops at a difference is the result |
| BotState.CommonPrefixLongest | appengine/swarming/swarming_bot/api/bot.py:36-41 | every common prefix is a prefix of the result |
| BotState.RootIsCommon | appengine/swarming/swarming_bot/api/bot.py:36-41 | the prefix of the min and max split paths is common to all paths and the longest such prefix |
| BotState.RootOf | appengine/swarming/swarming_bot/api/bot.py:36-45 | the root, when there is one, is an absolute path |
| BotState.StripsRoot | appengine/swarming/swarming_bot/api/bot.py:48-55 | a path under the root, outside stdlib, loses exactly the root components |
| BotState.GetStripper | appengine/swarming/swarming_bot/api/bot.py:18-56 | the loop builds `StripperFor(paths)` |
| BotState.CommonComponents | appengine/swarming/swarming_bot/api/bot.py:36-41 | the component loop computes `CommonPrefix` |
| BotState.Override | appengine/swarming/swarming_bot/api/bot.py:248-252 | server keys take the server's value list, other bot keys keep theirs, and no key is lost |
| BotState.OverrideIdempotent | appengine/swarming/swarming_bot/api/bot.py:110-120 | applying the server dimensions twice changes nothing more |
| BotState.OverrideIgnoresBot | appengine/swarming/swarming_bot/api/bot.py:110-120 | a server key's value does not depend on what the bot supplied |
| BotState.BotId | appengine/swarming/swarming_bot/api/bot.py:125-127 | `id` is the first `id` value, `unknown` when absent, and an empty list raises `IndexError` |
| BotState.ServerIdWins | appengine/swarming/swarming_bot/api/bot.py:110-127 | a server-forced `id` is the bot's id |
| BotState.Stamp | appengine/swarming/swarming_bot/api/bot.py:254-258 | stamping keeps every state key and sets the configuration version |
| BotState.StampAgain | appengine/swarming/swarming_bot/api/bot.py:254-258 | a later stamp replaces an earlier one |
| BotState.ErrorText | appengine/swarming/swarming_bot/api/bot.py:194-199 | the error text is the right-stripped message, a line break and then the stack |
| BotState.RestartOrder | appengine/swarming/swarming_bot/api/bot.py:201-220 | `bot_rebooting` is posted first, then the hook runs if there is one, then the OS restart; a failed post stops there |
| BotState.HookFailureSwallowed | appengine/swarming/swarming_bot/api/bot.py:210-220 | a raising hook changes nothing after it |
| BotState.RestartEnding | appengine/swarming/swarming_bot/api/bot.py:221-229 | `LookupError` posts an error and hangs, a normal return posts the stuck message, and other exceptions escape |
| BotState.Bot.constructor | appengine/swarming/swarming_bot/api/bot.py:74-86 | a bot starts with its attributes, no version and no server dimensions |
| BotState.Bot.UpdateBotGroupCfg | appengine/swarming/swarming_bot/api/bot.py:231-246 | records version and server dimensions, then overrides and stamps; without dimensions it raises `TypeError` |
| BotState.Bot.UpdateDimensions | appengine/swarming/swarming_bot/api/bot.py:248-252 | new dimensions are overridden by the server's, and a missing server map raises |
| BotState.Bot.UpdateState | appengine/swarming/swarming_bot/api/bot.py:254-258 | new state is stamped with the stored version |
| BotState.Bot.PostEvent | appengine/swarming/swarming_bot/api/bot.py:182-184 | one event is posted, and a refused post raises |
| BotState.Bot.PostError | appengine/swarming/swarming_bot/api/bot.py:186-199 | one `bot_error` with `ErrorText` is posted, and it never raises |
| BotState.Bot.Restart | appengine/swarming/swarming_bot/api/bot.py:201-229 | the effects and result are `Restarting`'s |
| RemoteGrpc.Put | appengine/swarming/swarming_bot/bot_code/remote_client_grpc.py:158-173 | dicts become Structs, lists extend a repeated field, other values are set as they are |
| RemoteGrpc.FilledStep | appengine/swarming/swarming_bot/bot_code/remote_client_grpc.py:158-173 | one more state key fills one more field |
| RemoteGrpc.FilledNext | appengine/swarming/swarming_bot/bot_code/remote_client_grpc.py:158-173 | writing one more key into the fields written so far gives the next `Filled` |
| RemoteGrpc.StateMessage.constructor | appengine/swarming/swarming_bot/bot_code/remote_client_grpc.py:144-157 | a new message has no fields set |
| RemoteGrpc.CreateStateProto | appengine/swarming/swarming_bot/bot_code/remote_client_grpc.py:144-173 | succeeds iff every non-None key names a field of the kind its value needs (a dict a `Struct`, a list a repeated field, anything else a scalar); then the fields are `Filled`, else `AttributeError` on such a key, with the keys handled before it left written |
| RemoteGrpc.Names | appengine/swarming/swarming_bot/bot_code/remote_client_grpc.py:59-61 | the names of the dimension pairs, in order |
| RemoteGrpc.AttributesMessage.constructor | appengine/swarming/swarming_bot/bot_code/remote_client_grpc.py:56-62 | a new attributes message is empty |
| RemoteGrpc.AttributesToProto | appengine/swarming/swarming_bot/bot_code/remote_client_grpc.py:56-62 | copies version, sorted dimensions and state iff all three keys are present and every state value fits its field's kind, else `KeyError` on the first missing key; what was copied before a raise stays in the message |
| RemoteGrpc.AddDimensions | appengine/swarming/swarming_bot/bot_code/remote_client_grpc.py:59-61 | the pairs come in strictly sorted name order, each with its values in order |
| RemoteGrpc.PairsOf | appengine/swarming/swarming_bot/bot_code/remote_client_grpc.py:59-61 | one pair per key, in the order given |
| RemoteGrpc.PairsEncode | appengine/swarming/swarming_bot/bot_code/remote_client_grpc.py:59-61 | pairs over the sorted keys encode the dimensions |
| RemoteGrpc.ManifestOf | appengine/swarming/swarming_bot/bot_code/remote_client_grpc.py:105-124 | the RUN manifest has no command, the client's server, and the response's fields |
| RemoteGrpc.DecodeCases | appengine/swarming/swarming_bot/bot_code/remote_client_grpc.py:87-129 | each command code gives its own one of five outcomes, and any other raises `ValueError` |
| RemoteGrpc.NeutralKeepsFlag | appengine/swarming/swarming_bot/bot_code/remote_client_grpc.py:90-126 | UPDATE, TERMINATE and RESTART leave the sleep flag and log nothing |
| RemoteGrpc.NoticesAppend | appengine/swarming/swarming_bot/bot_code/remote_client_grpc.py:90-126 | the flag and the "Going to sleep" count compose over consecutive polls |
| RemoteGrpc.SleepsLogOnce | appengine/swarming/swarming_bot/bot_code/remote_client_grpc.py:90-126 | repeated SLEEPs log once, and a RUN between them makes the next SLEEP log again |
| RemoteGrpc.PairsToMap | appengine/swarming/swarming_bot/bot_code/remote_client_grpc.py:69-77 | the handshake map has exactly the pair names as keys |
| RemoteGrpc.PairsToMapOfEncoding | appengine/swarming/swarming_bot/bot_code/remote_client_grpc.py:56-77 | round trip: decoding encoded dimensions gives them back |
| RemoteGrpc.LastPairWins | appengine/swarming/swarming_bot/bot_code/remote_client_grpc.py:69-77 | with distinct names, each name maps to its pair's values |
| RemoteGrpc.HandshakeReply | appengine/swarming/swarming_bot/bot_code/remote_client_grpc.py:69-77 | exactly four keys, with the versions as strings and the configuration dimensions as a map |
| RemoteGrpc.RemoteClient.constructor | appengine/swarming/swarming_bot/bot_code/remote_client_grpc.py:20-25 | a client starts awake with no calls |
| RemoteGrpc.RemoteClient.PostTaskUpdate | appengine/swarming/swarming_bot/bot_code/remote_client_grpc.py:43-50 | always True |
| RemoteGrpc.RemoteClient.PostTaskError | appengine/swarming/swarming_bot/bot_code/remote_client_grpc.py:52-54 | always True |
| RemoteGrpc.RemoteClient.Encode | appengine/swarming/swarming_bot/bot_code/remote_client_grpc.py:56-62 | succeeds iff the three keys are present and the state values fit the field kinds, and the message encodes them |
| RemoteGrpc.RemoteClient.DoHandshake | appengine/swarming/swarming_bot/bot_code/remote_client_grpc.py:64-79 | one handshake call with the encoded attributes, returning `HandshakeReply` |
| RemoteGrpc.RemoteClient.Poll | appengine/swarming/swarming_bot/bot_code/remote_client_grpc.py:81-129 | one poll returns `Decode` and updates the sleep flag and the log count |
| TsMonFields.TagsToDict | appengine/swarming/ts_mon_metrics.py:457-470 | the loop computes `TagsDict` |
| TsMonFields.TagKeys | appengine/swarming/ts_mon_metrics.py:463-470 | a key is present iff some tag has it before a `:` |
| TsMonFields.LastTagWins | appengine/swarming/ts_mon_metrics.py:463-470 | the last tag with a key gives its value |
| TsMonFields.ValueKeepsColons | appengine/swarming/ts_mon_metrics.py:463-470 | only the first `:` splits, so the value keeps later ones |
| TsMonFields.ExtractJobFields | appengine/swarming/ts_mon_metrics.py:473-491 | a non-empty `spec_name` wins, else `buildername` plus `:experimental` iff experimental; missing fields are empty |
| TsMonFields.ExperimentalIsDistinct | appengine/swarming/ts_mon_metrics.py:479-491 | an experimental build never shares a spec name with its non-experimental run |
| TsMonFields.ExtractPubsubJobFields | appengine/swarming/ts_mon_metrics.py:494-506 | the pool and the status name |
| TsMonFields.PoolPairsAny | appengine/swarming/ts_mon_metrics.py:287-297 | the pool pairs do not depend on the order in which keys are visited |
| TsMonFields.PoolPairsMembers | appengine/swarming/ts_mon_metrics.py:287-297 | a pair is in the pool iff one kept key's kept values gives it |
| TsMonFields.ListedIsAll | appengine/swarming/ts_mon_metrics.py:287-297 | listing the pairs loses none and adds none |
| TsMonFields.PoolFromDimensions | appengine/swarming/ts_mon_metrics.py:287-297 | the loop gives the sorted pairs joined by `\|` |
| TsMonFields.PairsOfKey | appengine/swarming/ts_mon_metrics.py:291-295 | the values of one key kept as it keeps them |
| TsMonFields.ExecutorStatus | appengine/swarming/ts_mon_metrics.py:397-405 | running, quarantined, dead, maintenance or ready, in that priority |
| TsMonFields.ResultOf | appengine/swarming/ts_mon_metrics.py:521-537 | infra-failure, failure or success, in that priority |
| TsMonFields.OnTaskCompleted | appengine/swarming/ts_mon_metrics.py:518-537 | EXPIRED only counts expiry with priority; otherwise a completion, plus a duration iff there is one |
| TsMonShards.StopAt | appengine/swarming/ts_mon_metrics.py:316-328 | the shard takes items while under the limit and the time-out, and stops at the first that is over |
| TsMonShards.ParamsJson | appengine/swarming/ts_mon_metrics.py:448-454 | `json()` has exactly the four keys |
| TsMonShards.ParseParams | appengine/swarming/ts_mon_metrics.py:427-446 | an empty payload gives the defaults, bad JSON raises, and a parsed payload has all four keys and a `task_start` in the zero-padded timestamp layout |
| TsMonShards.JsonThenParse | appengine/swarming/ts_mon_metrics.py:427-454 | round trip: parsing `json()` gives the parameters back |
| TsMonShards.ParseThenJson | appengine/swarming/ts_mon_metrics.py:427-454 | round trip: `json()` of a parsed payload reproduces it |
| TsMonShards.ShardParams.constructor | appengine/swarming/ts_mon_metrics.py:427-432 | the object holds the given parameters |
| TsMonShards.NewShardParams | appengine/swarming/ts_mon_metrics.py:427-446 | builds an object iff `ParseParams` succeeds, else raises its error |
| TsMonShards.CountsCount | appengine/swarming/ts_mon_metrics.py:341-343 | the active-jobs count of a key is the number of summaries with that key |
| TsMonShards.AddJobRunning | appengine/swarming/ts_mon_metrics.py:335-338 | one summary adds its job to the running set iff it runs on a bot |
| TsMonShards.RunningComplete | appengine/swarming/ts_mon_metrics.py:335-338 | every running summary on a bot marks its job |
| TsMonShards.RunningSound | appengine/swarming/ts_mon_metrics.py:335-338 | every marked job comes from a running summary on a bot |
| TsMonShards.RunningJobs | appengine/swarming/ts_mon_metrics.py:335-338 | a job is marked running iff some summary runs it on a bot |
| TsMonShards.MaxOfIsMax | appengine/swarming/ts_mon_metrics.py:351-353 | the maximum bounds every duration and is one, or the 0.0 default |
| TsMonShards.AddJobPending | appengine/swarming/ts_mon_metrics.py:345-350 | a pending summary adds its duration under its key |
| TsMonShards.AddJobMaxPending | appengine/swarming/ts_mon_metrics.py:351-353 | a pending summary raises its key's maximum to its duration |
| TsMonShards.PendingIsDurations | appengine/swarming/ts_mon_metrics.py:345-350 | the distribution of a key holds exactly the pending durations with that key |
| TsMonShards.MaxPendingIsMaxOf | appengine/swarming/ts_mon_metrics.py:345-353 | the max pending duration of a key is the maximum of its durations |
| TsMonShards.MaxPendingBounds | appengine/swarming/ts_mon_metrics.py:345-353 | the max bounds every duration of its key and is one of them, or 0.0 |
| TsMonShards.Items | appengine/swarming/ts_mon_metrics.py:316-330 | the items read, in order |
| TsMonShards.AddSummary | appengine/swarming/ts_mon_metrics.py:330-353 | one loop step is `AddJob` |
| TsMonShards.HandOn | appengine/swarming/ts_mon_metrics.py:316-328 | an early stop records the cursor after the last item and enqueues `task_count + 1`; a full run changes no cursor |
| TsMonShards.JobsShard | appengine/swarming/ts_mon_metrics.py:300-372 | the stats are those of the items before the stop, and the count and continuation are `HandOn`'s |
| TsMonShards.ReportsOf | appengine/swarming/ts_mon_metrics.py:396-412 | one report per bot |
| TsMonShards.ReportsOfEach | appengine/swarming/ts_mon_metrics.py:396-412 | the i-th report is that of the i-th bot |
| TsMonShards.ReportFor | appengine/swarming/ts_mon_metrics.py:396-412 | one bot's hostname, status and pool |
| TsMonShards.ReportsUntilStop | appengine/swarming/ts_mon_metrics.py:381-412 | the reports of the bots before the stop |
| TsMonShards.ExecutorsShard | appengine/swarming/ts_mon_metrics.py:375-417 | one report per bot before the stop, each that bot's, with the count and continuation of `HandOn` |
| PrpcHandlers.CheckFetchTasks | appengine/swarming/handlers_prpc.py:127-131 | accepted iff at most 1000 ids, and the rejection names both numbers |
| PrpcHandlers.CheckCancelTasks | appengine/swarming/handlers_prpc.py:86-90 | accepted iff at most 500 ids, and the rejection names both numbers |
| PrpcHandlers.LimitsAreMonotone | appengine/swarming/handlers_prpc.py:86-131 | a rejected batch stays rejected when it grows, and every accepted cancel batch is an accepted fetch batch |
| PrpcHandlers.PageSize | appengine/swarming/handlers_prpc.py:181-186 | 0 becomes 200, above 1000 becomes 1000, a negative size is rejected |
| PrpcHandlers.EventsPlan | appengine/swarming/handlers_prpc.py:176-205 | argument errors iff the bot id is empty, the size is negative or start ≥ end; otherwise the query is for that bot with the page size `PageSize` makes of the requested one (1..1000) and the request's page token |
| PrpcHandlers.EventsQueryShape | appengine/swarming/handlers_prpc.py:198-205 | key order iff no bound; otherwise `-ts` then key, and the filters keep exactly the window |
| PrpcHandlers.WindowNotEmpty | appengine/swarming/handlers_prpc.py:187-205 | an accepted window contains its start |
| PrpcHandlers.Respond | appengine/swarming/handlers_prpc.py:221-226 | one proto per event in order, with the cursor |
| PrpcHandlers.Events | appengine/swarming/handlers_prpc.py:173-226 | INVALID_ARGUMENT, NOT_FOUND for an empty page of an unknown bot, else OK with every event |
| EndpointsAdapter.DecodeField | appengine/components/components/endpoints_flask/adapter.py:38-48 | a boolean is accepted iff it is `true` or `false` in any case, else `ValueError`; any other kind gets exactly what the protocol's decoder gives, its errors included |
| EndpointsAdapter.LowerOfUpper | appengine/components/components/endpoints_flask/adapter.py:40-47 | lower-casing ignores a prior upper-casing |
| EndpointsAdapter.BooleanIgnoresCase | appengine/components/components/endpoints_flask/adapter.py:40-47 | a boolean decodes the same in any letter case |
| EndpointsAdapter.BooleanRoundTrip | appengine/components/components/endpoints_flask/adapter.py:40-47 | round trip: `true` and `false` decode to their values |
| EndpointsAdapter.DecodeAll | appengine/components/components/endpoints_flask/adapter.py:81-91 | all values decode or the first error is raised |
| EndpointsAdapter.MergeField | appengine/components/components/endpoints_flask/adapter.py:81-91 | merging one field touches only that field |
| EndpointsAdapter.QueryArgIsOneValue | appengine/components/components/endpoints_flask/adapter.py:81-91 | a field in `request.args` contributes exactly that one value |
| EndpointsAdapter.MergeFieldLocal | appengine/components/components/endpoints_flask/adapter.py:81-91 | a field's merge depends only on that field's slot |
| EndpointsAdapter.MergeKeepsOthers | appengine/components/components/endpoints_flask/adapter.py:81-91 | the merge leaves fields it does not name alone |
| EndpointsAdapter.MergeAt | appengine/components/components/endpoints_flask/adapter.py:81-91 | with distinct names, each field ends as its own merge says |
| EndpointsAdapter.Message.constructor | appengine/components/components/endpoints_flask/adapter.py:51-92 | a message holds its fields and slots |
| EndpointsAdapter.DecodeMessage | appengine/components/components/endpoints_flask/adapter.py:51-92 | a fresh message of the method's type with the merged slots, or the first error of `decode_field`, a rejected boolean or a value the protocol's decoder rejects |
| EndpointsAdapter.MergeDecodedEvery | appengine/components/components/endpoints_flask/adapter.py:81-91 | a merge that succeeds had every value of every parameter field accepted |
| EndpointsAdapter.MergeStopsAtError | appengine/components/components/endpoints_flask/adapter.py:81-91 | the first decode error ends the merge |
| EndpointsAdapter.PathHandler | appengine/components/components/endpoints_flask/adapter.py:102-146 | 400 without calling the API on a decode error, the service status, 204 without a body for Void, else 200; CORS headers always |
| EndpointsAdapter.MaskFallsBack | appengine/components/components/endpoints_flask/adapter.py:133-144 | an empty or bad field mask gives the full response |
| EndpointsAdapter.PlainTemplate | appengine/components/components/endpoints_flask/adapter.py:168-177 | a path without braces is its own template |
| EndpointsAdapter.TemplateHasNoBraces | appengine/components/components/endpoints_flask/adapter.py:168-177 | a template has no braces left |
| EndpointsAdapter.BraceFree | appengine/components/components/endpoints_flask/adapter.py:168-177 | replacing a character adds no character that neither side had |
| EndpointsAdapter.PosixJoin | appengine/components/components/endpoints_flask/adapter.py:168-177 | the joined path ends with the method path |
| EndpointsAdapter.HttpMethod | appengine/components/components/endpoints_flask/adapter.py:178 | the upper-cased declared method, or POST |
| EndpointsAdapter.MethodRoutesSorted | appengine/components/components/endpoints_flask/adapter.py:173-183 | method routes come in strictly sorted method-name order |
| EndpointsAdapter.MethodRoutesFirst | appengine/components/components/endpoints_flask/adapter.py:173-183 | a class's routes begin with one route per method, in sorted order |
| EndpointsAdapter.EveryMethodRouted | appengine/components/components/endpoints_flask/adapter.py:173-183 | every method has its route among them |
| EndpointsAdapter.OptionsRoutesSorted | appengine/components/components/endpoints_flask/adapter.py:184-185 | OPTIONS routes serve CORS, in strictly sorted template order |
| EndpointsAdapter.OptionsRoutesAfter | appengine/components/components/endpoints_flask/adapter.py:173-185 | after the method routes, one OPTIONS route per distinct template |
| EndpointsAdapter.GenericRoutesLast | appengine/components/components/endpoints_flask/adapter.py:188-193 | the four generic routes come last, after every class's routes |
| EndpointsAdapter.MethodRoutesOf | appengine/components/components/endpoints_flask/adapter.py:173-183 | the loop builds the method routes and the template set |
| EndpointsAdapter.RulesOfNames | appengine/components/components/endpoints_flask/adapter.py:173-185 | the templates of the methods listed are all the class's templates |
| EndpointsAdapter.OptionsRoutesOf | appengine/components/components/endpoints_flask/adapter.py:184-185 | the loop builds the OPTIONS routes |
| EndpointsAdapter.RoutesOfClass | appengine/components/components/endpoints_flask/adapter.py:165-185 | the routes of one class |
| EndpointsAdapter.ApiRoutes | appengine/components/components/endpoints_flask/adapter.py:149-194 | all classes' routes, then the generic ones |

## Left out

- The USB and process plumbing of `android.py` is not modelled, because it is
  foreign I/O: `initialize`, `kill_adb`, `open_device_low`, `open_device`,
  `LowDevice._reset` and `_set_serial_number`. The transport is the scripted
  oracle `AdbCommands`.
- `get_devices` and `close_devices` are left out because they use `parallel.pmap`,
  which is concurrency. The `trim` they perform is modelled, and the lock of
  `_PerDeviceCache` is taken as sequential access.
- These `HighDevice` helpers are not modelled:
  - `get_temperatures`, `get_cpu_scale`, `get_uptime` and `get_disk`, because they use floating point;
  - `get_imei` and `get_last_uid`, because they parse a parcel or a file listing the same way as modelled parsers;
  - the `install_apk`, `uninstall_apk`, `get_application_path` and `get_application_version` wrappers, for the same reason;
  - `wait_for_device`, because it runs on the wall clock.
- The one-line forwarding properties of `HighDevice` (`listdir`, `pull`, `shell`
  and the others) are not modelled separately. The operations call the
  `LowDevice` methods directly.
- `TempFiles.MkFrom`: the random names of `mkstemp` are a parameter `picks`,
  one per attempt, so the model does not capture their randomness.
- The logging and the `time.sleep` calls are left out because they have no effect on results.
- `BotState`: `_make_stack` is left out because it inspects the Python call
  stack. The stack is a string parameter.
- `BotState`: `os_utilities.restart` is a parameter of `World`. It either
  returns, raises `LookupError`, raises another exception, or reboots.
- `BotState`: the `while True` hang after `LookupError` is recorded as the
  result `Hung`, not as a loop.
- `BotState.Bot.PostError`: posting is a parameter, `accepted`. A refused post
  is recorded and swallowed, as `post_error` swallows it.
- `RemoteGrpc`: these are left out because they are transport, file output or
  library internals:
  - the gRPC channel and stub, modelled as the `calls` record and the response parameters;
  - `get_bot_code`;
  - `ping`;
  - the protobuf `Struct` and JSON parsers.
- `RemoteGrpc.RemoteClient.PostBotEvent` has no effect beyond logging, so
  it has no contract.
- `TsMonFields`: these are not modelled, because they are framework objects or floating-point code:
  - the `gae_ts_mon` metric objects and their bucketers;
  - `on_task_requested`, the scheduler latency rounding and the other metric-setting helpers.
- `TsMonShards`: Datastore queries and cursors are the `steps` parameter, one
  item per step with its elapsed time and the cursor after it.
- `TsMonShards`: `enqueue_task` is the returned continuation payload.
- `TsMonShards`: pending distributions are kept as the sequences of durations added to them.
- `TsMonShards.ParseParams` is stricter and looser than `_ShardParams`:
  - it raises `TypeError` unless `task_count` and `count` are JSON integers, where the source stores any value (`"3"`, `1.5`, `true`);
  - it reads `task_start` with the fixed zero-padded 19-character layout of `%Y-%m-%d %H:%M:%S`, so it raises `ValueError` on an unpadded time such as "2020-1-2 3:4:5" that `strptime` accepts;
  - it accepts a time with out-of-range fields such as "2020-13-40 25:61:61" that `strptime` rejects, because the calendar checks of `strptime` are not modelled;
- `TsMonShards.ParseThenJson` therefore covers only the payloads that this
  stricter reading of `_ShardParams` accepts.
- `PrpcHandlers`: these are not part of this model, because they are
  framework or Datastore work or call modules not part of this model:
  - `RunTask` and `ValidateConfigs`;
  - the ACL and realms checks;
  - the Datastore fetches (modelled as the `items`, `cursor` and `rootExists` parameters);
  - the conversion of results for `FetchTasks` and `CancelTasks`.
- `EndpointsAdapter`: these Flask and protorpc pieces are not modelled:
  - request and response objects;
  - `protojson` encoding, modelled as the `Encoded` response;
  - `partial.mask`, modelled as a function parameter;
  - discovery, directory and explorer handlers.
- `EndpointsAdapter.DecodeField`: only boolean fields are decoded by the
  model itself. For every other field kind it calls `PROTOCOL.decode_field`,
  which is the `decode` parameter of type `Decoder`. That decoder's rules for
  integers, enums, strings and messages are not modelled.
- `Strings.Lower`, `Strings.Upper` and `Strings.Strip` work on ASCII letters
  and ASCII white space only, because Python's Unicode tables are not modelled.
- `Strings.SplitLines` and `Strings.IsLineBreak` break lines at '\n', '\r'
  and "\r\n" only, as `splitlines` does on a byte string. The output of
  `LowDevice.shell` is decoded to Unicode, and there `splitlines` also breaks
  at '\x0b', '\x0c', '\x1c', '\x1d', '\x1e', '\x85', '\u2028' and '\u2029'.
  So `AndroidParse.PackageNames`, `AndroidParse.PackagesOf`,
  `AndroidParse.Entries` and `AndroidParse.BatteryProps` treat such a
  character as part of a line. For example, "package:a\x0cpackage:b" gives
  one name in the model and two in the source.
- `BotState.GetStripper`, `BotState.RootOf` and `BotState.IsAbs` model the
  POSIX branch only: `os.path.sep` is '/' and `os.path.isabs` tests for a
  leading '/'. On win32 the source joins the common components with '\\'
  and adds no leading separator (bot.py:43-46), and `isabs` knows drive
  letters; that branch is not modelled.
- `RemoteGrpc.CreateStateProto` checks only the kind of a field, not its
  scalar type. A value of the wrong scalar type, or a list element of the
  wrong type, makes protobuf raise `TypeError` in the source; the model writes
  it. The message types of `Struct` fields are not checked either.
- `RemoteGrpc.Decode` and `RemoteGrpc.RemoteClient.Poll` raise
  `ValueError("Unknown command in response")` without the `: %s` suffix, the
  text of the response, because messages are not printed in the model.
- `Strings.ParseInt` accepts ASCII digits only, so `AndroidParse.IntField`
  rejects the other Unicode decimal digits that `int()` accepts on the
  decoded `dumpsys battery` output.
- `handlers_backend.py` is not part of this model. It only routes web and cron
  requests to modules outside the core.
