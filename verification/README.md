# signal_handler in Dafny

A model of the native core of `signal_handler`, an Erlang NIF library. The
library lets a BEAM process catch operating-system signals. The model covers
two parts:

- **The signal catalog of `src/sig2str.h`.** The header holds a fixed master
  list of 58 signal names. `numname_table` keeps the entries whose signal the
  platform defines, in master-list order, and ends with the `{0, "EXIT"}`
  sentinel. When the system has no `SIG2STR_MAX` of its own, the header also
  defines the buffer-size macros (`INT_BITS_STRLEN_BOUND`, `INT_STRLEN_BOUND`,
  `SIG2STR_MAX`). It always defines the choice of `SIGNUM_BOUND` and the
  fallbacks for `SIGRTMIN` and `SIGRTMAX`.
- **The NIF logic of `src/signal_handler_nif.c`.** This covers the
  classification of a signal's current action (`handler_state`), installing
  and removing the bridge handler, the single `controller_pid` slot, the
  `{caught, Signum}` message, and the six entry points `bind`, `register`,
  `unregister`, `signal_table`, `signal_states` and `signal_code_limits`.

Modules:

- `SignalNames` (`names.dfy`) holds the master list. A signal is its position
  `Sig` in that list, and `Name` gives its name.
- `Catalog` (`catalog.dfy`) describes a platform as a map `Signals` from the
  signals it defines to their numbers. `Table` is the filtered table. Lookup
  by number or by name is the first match in the table.
- `Limits` (`limits.dfy`) holds the arithmetic and the preprocessor choices.
  The facts the preprocessor sees are a `Config` value.
- `Terms` (`terms.dfy`) holds the Erlang terms the NIFs read and build, and
  the `int`/`unsigned int` conversions at the C boundary.
- `Dispositions` (`dispositions.dfy`) models the system's signal actions.
  `Os` maps each signal number that `sigaction` accepts to its handler, and
  lists the numbers whose action cannot be changed (such as `SIGKILL`).
- `Nif` (`nif.dfy`) holds the entry points. They are transformers of a
  `State` made of an `Os` and the controller pid.

## Model

| member | source | states |
|---|---|---|
| `SignalNames.NamesValid` | src/sig2str.h:56-258 | Every master-list name has 1 to 7 characters, so it fits `char name[8]` with its terminator. Every character is an uppercase letter or a digit. No name starts with "SIG", and no name is "EXIT". |
| `SignalNames.NameInjective` | src/sig2str.h:63-258 | Two master-list positions have the same name exactly when they are the same position. |
| `Catalog.Table` | src/sig2str.h:59-264 | `NUMNAME_ENTRIES` is one more than the number of signals the platform defines. The last row is `{0, "EXIT"}` whatever the platform defines, so the table is never empty. |
| `Catalog.DefinedSignalsHaveRows` | src/sig2str.h:63-258 | Every signal the platform defines has its own `{number, name}` row, at its slot, before the sentinel. |
| `Catalog.RowsKeepMasterOrder` | src/sig2str.h:58-258 | Rows keep master-list order: a signal listed earlier gets an earlier row. |
| `Catalog.RowsBelongToDefinedSignals` | src/sig2str.h:63-258 | Every row except the sentinel is the row of a defined signal. No row is invented. |
| `Catalog.PresentIffDefined` | src/sig2str.h:63-261 | A signal's name appears in the table exactly when the platform defines that signal. |
| `Catalog.TableNamesWellFormed` | src/sig2str.h:56-261 | Every name in the table, the sentinel included, is well formed. No name occurs twice. |
| `Catalog.Find` | src/sig2str.h:31-32 | The first row with a given number or name: the row found matches, and no earlier row does. When nothing is found, no row matches. |
| `Catalog.LookupByNumber` | src/sig2str.h:58-262 | Lookup by number reports a signal's name exactly when that signal is defined with this number and no signal listed before it has the same number. |
| `Catalog.SentinelByNumber` | src/sig2str.h:260-262 | Lookup of 0 reports "EXIT" exactly when no defined signal is numbered 0. |
| `Catalog.LookupByName` | src/sig2str.h:59-261 | Lookup of a signal's name gives its number when the platform defines the signal, and nothing otherwise. |
| `Catalog.SentinelByName` | src/sig2str.h:260-262 | "EXIT" always resolves to 0. |
| `Catalog.NumberRoundTrip` | src/sig2str.h:58-262 | Resolving a number to a name and that name back gives the same number. |
| `Catalog.NameRoundTrip` | src/sig2str.h:58-262 | A defined name resolves to its number. Resolving back gives the same name exactly when it is the preferred name for that number. |
| `Catalog.AliasesResolveToPreferred` | src/sig2str.h:58-247 | For SEGV/BUS, ABRT/IOT, CHLD/CLD, GRANT/KAP and WINCH/WINDOW sharing a number, the preferred row comes first and lookup never reports the alias. It reports the preferred name unless an earlier signal also has that number (SEGV where SEGV == BUS). |
| `Limits.StrlenBoundCoversWidths` | src/sig2str.h:25-26 | For 8, 16, 32 and 64 bits, `INT_BITS_STRLEN_BOUND(b)` equals the number of decimal digits of 2^b - 1, so it never falls short. |
| `Limits.Sig2StrMaxForInt` | src/sig2str.h:25-29 | With a 4-byte `int` and no system `SIG2STR_MAX`, `INT_STRLEN_BOUND(int)` is 10 and the header's `SIG2STR_MAX` is 9 + 10 - 1 = 18. |
| `Limits.Sig2StrMaxFitsNames` | src/sig2str.h:28-29 | The header's `SIG2STR_MAX` buffer holds every master-list name with its terminator. |
| `Limits.Sig2StrMaxFitsRealTimeNames` | src/sig2str.h:28-29 | A `SIG2STR_MAX` buffer holds "RTMIN+n" or "RTMAX-n" with its terminator, for any offset a 32-bit `int` can hold. |
| `Limits.SignumBoundPriority` | src/sig2str.h:36-46 | `SIGNUM_BOUND` is `_sys_nsig - 1` when that is defined, whatever else is. Otherwise it is `NSIG - 1`, whatever the Apple flag says. Otherwise it is 32 exactly on Apple and 64 elsewhere. |
| `Limits.RealTimeRangeDefaults` | src/sig2str.h:48-54 | Without `SIGRTMIN` the range is (0, -1) and any `SIGRTMAX` is discarded. With only `SIGRTMIN` it is (min, min - 1). Either way the range is empty. With both defined, both are kept. |
| `Terms.UIntToInt` | src/signal_handler_nif.c:76-80 | The `unsigned int` read by `enif_get_uint` becomes the `int` parameter of `install_handler` and `remove_handler`. The result is in `int` range and congruent to the input modulo 2^32. |
| `Terms.IntToUInt` | src/signal_handler_nif.c:9-11 | `enif_make_uint` of the `int` signal number gives an `unsigned int` congruent to it modulo 2^32. A non-negative number is unchanged. |
| `Terms.IntConversionsRoundTrip` | src/signal_handler_nif.c:76-80 | The two conversions are inverse to each other on the `int` range. |
| `Dispositions.ClassifyIsExact` | src/signal_handler_nif.c:30-33 | The classification is below 4, so indexing `handler_state_descriptions` is in bounds. The priority is SIG_DFL gives 0, SIG_IGN gives 1, `notify_controller` gives 3, and any other function gives 2, each as an if-and-only-if. |
| `Dispositions.DescriptionsDistinct` | src/signal_handler_nif.c:18-23 | The four state descriptions are pairwise different, so a description identifies its state. |
| `Dispositions.HandlerState` | src/signal_handler_nif.c:25-34 | The corrected `handler_state` stays within the descriptions. It gives 3 exactly when the bridge is the signal's action. It gives 0 exactly when the action is the default or the query fails. The query is read-only: the state is a function of the system and changes nothing. |
| `Dispositions.StaleStateIsUnspecified` | src/signal_handler_nif.c:25-34 | As written, a number the query rejects is classified from uninitialised memory: two stale values give two different answers. |
| `Dispositions.HandlerStateAgreesWhenQueryable` | src/signal_handler_nif.c:25-34 | Wherever the query succeeds, the corrected and the as-written classifiers agree. |
| `Dispositions.SetAction` | src/signal_handler_nif.c:44 | A `sigaction` change sets the one action when the system allows it, and otherwise leaves the system untouched. Which numbers are known and which are fixed never changes. |
| `Dispositions.Install` | src/signal_handler_nif.c:36-45 | When the system accepts the change, the signal's state afterwards is 3 ("registered"). A refused change leaves everything as it was. Every other signal keeps its action. |
| `Dispositions.Remove` | src/signal_handler_nif.c:47-56 | When the system accepts the change, the signal's state afterwards is 0 ("default"), whatever it was before. A refused change leaves everything as it was. Every other signal keeps its action. |
| `Dispositions.InstallIdempotent` | src/signal_handler_nif.c:36-45 | Installing twice leaves the same system as installing once. |
| `Dispositions.RemoveDoesNotRestore` | src/signal_handler_nif.c:47-56 | Removing after installing gives the default action, not the action that was in place before the install. |
| `Dispositions.ChangesToDistinctSignalsCommute` | src/signal_handler_nif.c:36-56 | Installs and removes on different signals commute. |
| `Nif.NotifyController` | src/signal_handler_nif.c:8-16 | The bridge's message goes to the current `controller_pid`. Its payload is `{caught, Signum}`, and reading the second element back as unsigned gives the signal number. |
| `Nif.Raise` | src/signal_handler_nif.c:8-16 | A delivered signal produces a message exactly when its state is 3 ("registered"). The message is then the `notify_controller` one. |
| `Nif.BindControllerPid` | src/signal_handler_nif.c:58-68 | The reply is badarg exactly when the arity is not 1 or the argument is not a local pid, and then the state is unchanged. Otherwise the reply is `ok` and only the controller changes, to the given pid. |
| `Nif.RegisterSignal` | src/signal_handler_nif.c:70-83 | The reply is badarg exactly when the arity is not 1 or the argument is not an unsigned int, and then nothing changes. Otherwise the reply is `ok` and the bridge is installed on the number converted to `int`. |
| `Nif.UnregisterSignal` | src/signal_handler_nif.c:85-98 | The same as `register`, with the default action restored instead. |
| `Nif.RegisterInstallsBridge` | src/signal_handler_nif.c:70-83 | A `register` the system accepts replies `ok`. It leaves the signal "registered" and every other signal's state and the controller unchanged. |
| `Nif.UnregisterRestoresDefault` | src/signal_handler_nif.c:85-98 | An `unregister` the system accepts replies `ok`. It leaves the signal "default" and every other signal's state and the controller unchanged. |
| `Nif.RefusalIsNotReported` | src/signal_handler_nif.c:70-98 | When the system refuses the change, `register` and `unregister` still reply `ok` and change nothing. |
| `Nif.RebindRetargets` | src/signal_handler_nif.c:58-68 | After binding A and then B, a caught signal is sent to B. |
| `Nif.CatchThenRelease` | src/signal_handler_nif.c:8-98 | Bind C, register s, raise s: one `{caught, s}` message reaches C. Unregister s and raise it again: no message, and the state is "default". |
| `Nif.GetSignalTable` | src/signal_handler_nif.c:100-123 | With arity 0, prepending each row and reversing yields the catalog in table order. The list has `NUMNAME_ENTRIES` elements, and the last is `{0, 'EXIT'}`. Any other arity is badarg. |
| `Nif.GetSignalStates` | src/signal_handler_nif.c:126-146 | With arity 0, the list has `SIGNUM_BOUND` elements (none when it is negative). Element i is `{i, Description}` of signal i's state under the corrected classifier `Dispositions.HandlerState`. For every number the query accepts, this equals the description the code as written computes, whatever the stale value. Any other arity is badarg. |
| `Nif.GetSignalCodeLimits` | src/signal_handler_nif.c:148-159 | With arity 0, the reply is `{SIGNUM_BOUND, SIGRTMIN, SIGRTMAX}`. Its third element is below its second when either real-time limit is missing. Any other arity is badarg. |

## Left out

- The bodies of `sig2str` and `str2sig` are not part of this model. Only their declarations are in the header. Lookup is modelled as a first-match search over the table (`Catalog.NameOf`, `Catalog.NumberOf`), not as a proof about that code. The "RTMIN+n"/"RTMAX-n" names they produce appear only in the buffer-size bound.
- Concrete platform signal numbers and the set of signals the system refuses to change are parameters: `Catalog.Signals` and `Dispositions.Os`.
- The failure behaviour of `sigaction` is abstracted. A number absent from `Os.actions` is rejected by the query and by changes. A number in `Os.fixed` can be queried but not changed.
- Erlang term construction, `enif_send`, `enif_get_uint` and `enif_get_local_pid` are foreign calls. They are modelled by their outcome: a term, a `Message` value, or an `Option`.
- The mask and flags set by `install_handler` and `remove_handler` (empty mask, no flags) are not modelled. The model keeps only the handler.
- Signal delivery is one sequential step (`Nif.Raise`). Concurrency, async-signal safety, and the race between `bind` and an in-flight handler are not modelled.
- Nif.GetSignalStates: for a number the query rejects (0 on every call), the code classifies an uninitialised `old_action`, so its description is unspecified. The model reports "default" there, using the corrected classifier of the Findings table, and promises the code's own result only for numbers the query accepts.
- Terms.UIntToInt: C leaves the conversion of an out-of-range `unsigned int` to `int` implementation-defined (section 6.3.1.3 of ISO C11). The model fixes it to two's-complement wrap-around, which is what GCC and Clang do.
- The buffer-size macros are modelled only in the `#ifndef SIG2STR_MAX` branch of `src/sig2str.h`. On a system whose `<signal.h>` already defines `SIG2STR_MAX`, that value replaces the header's macros, and the model says nothing about it.
- `ERL_NIF_INIT` and the `nif_funcs` registration table are loader glue and are not modelled.
- `SIGNUM_BOUND` is taken from `Config`. `int` loop counters and the `int` in `enif_make_int` are unbounded in the model, and no C integer overflow is considered there.
- Two behaviours are modelled as the code has them:
  - `register` and `unregister` reply `ok` even when the system refuses the change. The code ignores `sigaction`'s result.
  - There is no "unbound" controller. `controller_pid` is a zero-initialised global (`Terms.ZeroPid` in `Nif.Initial`), and `notify_controller` always sends to it.

## Findings

| source | as written | input that shows it | evidently intended | confidence | as-written member | corrected member |
|---|---|---|---|---|---|---|
| src/signal_handler_nif.c:25-34 | `handler_state` ignores the result of `sigaction(signum, NULL, &old_action)` and reads `old_action.sa_handler` even when the call failed, so `old_action` is uninitialised | signal number 0, which the system rejects, and which `get_signal_states` always queries first | a number that cannot be queried is reported as having no handler ("default"), or is skipped | medium, not executed | `Dispositions.StaleStateIsUnspecified` | `Dispositions.HandlerState` |
