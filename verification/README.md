# stunbdc — STUN binding discovery client, modelled in Dafny

`stunbdc` is the command-line STUN Binding Discovery client of the Nice
GLib ICE library. It reads its options (`-4`/`--ipv4`, `-6`/`--ipv6`,
`-n`/`--numeric`, `-h`/`--help`, `-V`/`--version`) and at most two
positional words (server, port). It then resolves the server with
`getaddrinfo` and asks the STUN protocol engine (`stun_usage_bind_run`) for
the mapped address through each resolved server address, in order. For each
address it prints the server address, then the mapped address or the
engine's status.

The model has four modules:

- `StunTypes` (`types.dfy`) holds the values: address families, socket
  addresses, resolver hints, and the answers of the two external
  collaborators. It also defines the `Event` lines the program writes.
- `Cli` (`cli.dfy`) is the option scan of `main` as a specification
  function `Scan` over `argv` and an index. `Positionals` is the
  server/port part and `Classify` gives the whole verdict. The lemmas give
  the scan's properties: where it stops, which family wins, and how the
  resolver flags change.
- `Discovery` (`discovery.dfy`) specifies `run`'s candidate loop by `Trace`.
  Its lemmas say where each attempt's two lines are, and that the server
  lines are exactly the candidates in order. They also say the mapped lines
  are exactly the successful attempts (`Successes`) and the status lines
  exactly the failed ones (`Failures`).
- `Stunbdc` (`stunbdc.dfy`) holds `MainSpec`, one whole execution
  (exit status, output lines, engine calls). It also holds the class
  `Process`. Its field `aiFlags` is the program's static `ai_flags`. Its
  method `Run` is `run`: a loop over the resolved list with invariants. The
  method `ScanOptions` is `main`'s option loop. It updates the family, the
  index and the global flags in place. The method `Invoke` is the rest of
  `main`: it runs that loop, then the positional part, then `Run`.

External calls are parameters:

- `getaddrinfo` is a `Resolver`. It is a function of the host (`None` for
  NULL), the service and the hints. It returns `GaiResult(ret, res)`, where
  `ret` is 0 on success and `res` is the `ai_next` list.
- `stun_usage_bind_run` is a `Binder`. It is a function of the attempt
  number and the server address. It returns a status and the mapped
  address, which is meaningful only when the status is 0. Any scripted
  engine behaviour is such a function.
- `printaddr` and the `fprintf` diagnostics are `Event`s appended to a log.

The default service is "3478", the default STUN port of section 9 of
RFC 5389. AI_NUMERICHOST is the bit 0x0004.

Three behaviours of the code are worth stating outright:

- **Exit status when every attempt fails.** `run` returns 0 whenever
  resolution succeeds, even if every engine attempt fails. `ret` is
  overwritten by `getaddrinfo`'s return value at `stunbdc.c:93`, which is 0
  on success, and the loop only ever sets it to 0 again at `stunbdc.c:119`
  (`Stunbdc.Process.Run`, `Stunbdc.ExitIgnoresEngine`,
  `Stunbdc.ExitZeroWhenEveryAttemptFails`).
- **A missing server.** When no server word is given, the resolver is
  called with a NULL host; nothing checks for it first
  (`Stunbdc.MissingServerPassedThrough`).
- **Two family options.** Of two family options, the last one wins
  (`Cli.ScanFamilyIsLast`).

## Model

| member | source | states |
|---|---|---|
| `Cli.Scan` | stun/tools/stunbdc.c:134-173 | the option loop stops at or after its start; a halt is on a dash word and its verdict is that word's (help, version or unexpected argument); otherwise it stops at the end of argv or at the first word not starting with '-' |
| `Cli.Recognise` | stun/tools/stunbdc.c:141-169 | the option a word spells; every recognised spelling is a dash word of at least two characters |
| `Cli.RecogniseSpellings` | stun/tools/stunbdc.c:141-169 | each option is recognised exactly on its long and its short spelling (`--ipv4`/`-4`, `--ipv6`/`-6`, `--help`/`-h`, `--numeric`/`-n`, `--version`/`-V`), so the order of the tests does not matter |
| `Cli.HaltVerdict` | stun/tools/stunbdc.c:149-172 | a halting word gives help exactly for a help spelling, the version exactly for a version spelling, and otherwise an unexpected-argument verdict naming that word |
| `Cli.Positionals` | stun/tools/stunbdc.c:175-183 | the verdict is a launch or an extra-parameter error; the error, naming the third positional word, comes exactly when there are more than two; otherwise the server and port are the next one or two words, whatever they look like, and the family is kept |
| `Cli.Classify` | stun/tools/stunbdc.c:128-183 | the verdict of `main`: a halting option's verdict, or the positional part with the family of the last family option (`LastFamily`); the flags gain AI_NUMERICHOST exactly when a numeric option was scanned; help and version need at least one option word, an extra-parameter error needs three positional words |
| `Cli.ScanStopsAtFirst` | stun/tools/stunbdc.c:134-172 | every word the scan passes over is a dash word spelling -4/--ipv4, -6/--ipv6 or -n/--numeric; a halt is on the first help, version or unknown dash word |
| `Cli.ScanFamilyIsLast` | stun/tools/stunbdc.c:131-148 | on reaching the positional words, the family is that of the last family option scanned (last one wins), or AF_UNSPEC when there was none; agrees with the right-to-left reference `LastFamily` |
| `Cli.ScanFlags` | stun/tools/stunbdc.c:160-163 | the global resolver flags end as the starting flags ORed with AI_NUMERICHOST exactly when a numeric option was scanned, however often; no other option changes them |
| `Cli.ClassifyOperands` | stun/tools/stunbdc.c:175-183 | after the options, the first word is the server and the second the port even if they start with '-', and a third is an error |
| `Cli.LastFamilyWins` | stun/tools/stunbdc.c:141-148 | `-4 --ipv6 host` gives IPv6; `-6 -n --ipv4 host 3478` gives IPv4 with the numeric flag set |
| `Cli.DashWordAfterServer` | stun/tools/stunbdc.c:138-139 | `host -4` takes "-4" as the port; `host 3478 -n` is an extra-parameter error |
| `Discovery.Report` | stun/tools/stunbdc.c:114-119 | the line after an engine call is the mapped address exactly when the status is 0, and the status line carrying that status exactly when it is not |
| `Discovery.Trace` | stun/tools/stunbdc.c:101-121 | the loop writes exactly two lines per resolved address |
| `Discovery.TraceAt` | stun/tools/stunbdc.c:101-121 | attempt k writes line 2k, the k-th server address, and line 2k+1, the engine's answer for that address on the k-th call |
| `Discovery.TraceServers` | stun/tools/stunbdc.c:110 | the "Server address" lines are the resolved addresses, each once, in the resolver's order |
| `Discovery.TraceMapped` | stun/tools/stunbdc.c:112-120 | the "Mapped address" lines are the mapped addresses of exactly the attempts with status 0, in order |
| `Discovery.TraceDiags` | stun/tools/stunbdc.c:112-115 | the engine-status lines are the statuses of exactly the attempts with a non-zero status, in order (reference `Failures`) |
| `Discovery.AllFailedNoMapped` | stun/tools/stunbdc.c:114-115 | when every engine call fails, no mapped address is written |
| `Discovery.EffectiveService` | stun/tools/stunbdc.c:90-91 | the service resolved is the port word when one was given, else "3478" |
| `Stunbdc.MainSpec` | stun/tools/stunbdc.c:128-186 | one whole execution of `main` (exit status, lines, engine calls): the exit status is 0, 1 or 2, and a non-zero exit writes exactly one line and calls no engine; `ExitStatuses`, `HaltedMain`, `OperandsMain` and the lemmas below specify it further |
| `Stunbdc.ExitStatuses` | stun/tools/stunbdc.c:128-186 | the exit status is 0, 1 or 2; it is 2 exactly for a usage error and 1 exactly when resolution fails; the engine is called only after a launch whose resolution succeeded, and then on the resolved list; help, version and usage errors write one line |
| `Stunbdc.HaltedMain` | stun/tools/stunbdc.c:149-172 | an option loop that stops on help exits 0 with the usage text, on version exits 0 with the version text, and on anything else exits 2 naming the argument; the flags set so far stay set |
| `Stunbdc.OperandsMain` | stun/tools/stunbdc.c:175-185 | after the options, a third positional word exits 2 naming it; otherwise the server and port words go to the resolver, the default port being "3478", and the outcome is that of `run` |
| `Stunbdc.Process.constructor` | stun/tools/stunbdc.c:62 | the global resolver flags start at 0 |
| `Stunbdc.Process.Run` | stun/tools/stunbdc.c:80-125 | resolves the host and the given port (or "3478") with the family, datagram sockets and the global flags; on failure writes one diagnostic, calls nothing and returns -1; on success calls the engine once per resolved address in order, writes the `Trace` lines and returns 0 whatever the engine answered |
| `Stunbdc.Process.ScanOptions` | stun/tools/stunbdc.c:131-173 | the option loop updates the family and the global flags in place and stops where `Cli.Scan` says, leaving the global flags as `Cli.Scan` computes them |
| `Stunbdc.Process.Invoke` | stun/tools/stunbdc.c:128-186 | the whole of `main`: leaves the global flags as `Classify` says and produces the exit status, lines and engine calls of `MainSpec` |
| `Stunbdc.ExitIgnoresEngine` | stun/tools/stunbdc.c:185 | the exit status does not depend on the engine's answers |
| `Stunbdc.ExitZeroWhenEveryAttemptFails` | stun/tools/stunbdc.c:93-124 | when resolution succeeds and every attempt fails, every address is still reported, no mapped address is written, and the exit status is 0 |
| `Stunbdc.ResolutionFailure` | stun/tools/stunbdc.c:93-99 | a resolution failure writes exactly the resolver diagnostic, makes no engine call and exits 1 |
| `Stunbdc.HelpBeforeUnknownOption` | stun/tools/stunbdc.c:149-159 | `--help --bogus` prints the usage and exits 0 without calling the engine |
| `Stunbdc.UnknownOptionBeforeHelp` | stun/tools/stunbdc.c:169-172 | `--bogus --help` reports the unexpected argument and exits 2 without calling the engine |
| `Stunbdc.VersionAfterNumeric` | stun/tools/stunbdc.c:160-168 | `-n -V -4` sets the numeric flag, prints the version and exits 0; `-4` is never examined |
| `Stunbdc.DefaultPortScenario` | stun/tools/stunbdc.c:90-93 | with a host and no port the resolver is asked for "3478"; one address whose attempt succeeds gives one server line, one mapped line and exit 0 |
| `Stunbdc.MissingServerPassedThrough` | stun/tools/stunbdc.c:130 | with no server word the resolver is called with no host, and the exit status is what that resolution gives |

## Left out

- Address formatting (`printaddr`, stunbdc.c:64-76): `getnameinfo` and `gai_strerror` are foreign calls. A report line carries the address itself. The line printed when formatting fails is not told apart.
- Message text: the exact `printf`/`fprintf` strings, the usage banner and the `PACKAGE`/`VERSION` strings are not modelled. Each line is an `Event`.
- Resolver behaviour: the model does not decide how `getaddrinfo` honours the family hint or AI_NUMERICHOST. The model only states the hints it is given. So "`--ipv4` gives only IPv4 addresses" and "`--numeric` with a name fails" are not modelled. Neither is the C library's guarantee that a successful resolution is non-empty.
- STUN engine: retransmission, timers and the mapped-address buffer length (`addrlen`) are internal to `stun_usage_bind_run`. The engine is an oracle of attempt number and address.
- `freeaddrinfo` and memory management: no observable behaviour.
- Output streams: stdout and stderr lines share one log in program order.
- C strings: arguments are Dafny strings. The model does not treat a NUL inside a word, or a NULL `argv[0]`.
- Option matching: the `strcmp` chain of `main` is written as one match on `Cli.Recognise`, which tests the same spellings in the same order.
