# dhclient: retry-governed DHCP exchange and driver, in Dafny

This project models the host-side DHCP bootstrap client `dhclient`. It
brings an interface up and negotiates an address over DHCPv6 or DHCPv4,
retrying up to a budget. It extracts a network configuration from the final
conversation and applies it to the interface unless the run is a dry run.

- `wrappers.dfy`: module `Wrappers`, with `Option` (Go's nil) and `Result`.
- `dhclient.dfy`: module `Dhclient`, which models `dhclient6` and `dhclient4`.
  - The budget is clamped to at least 1.
  - The retry loop keeps only the latest conversation and error and stops at
    the first success.
  - With verbose on, it logs the final conversation, whether the exchange
    succeeded or not.
  - It calls the extractor only when the final attempt succeeded.
  - `RetryExchange` and `LogConversation` are methods holding the source's
    two loops; `Negotiate` and `Dhclient6` compose them. Each method is proved
    equal to a specification function (`StopIndex`, `AttemptLog`,
    `Summaries`, `Negotiation`, `Client6`).
  - Lemmas about those functions state the client's promises.
- `driver.dfy`: module `Driver`, which models `main`.
  - The method `Execute` performs main's steps in order and returns early on
    `log.Fatal`. It is proved equal to the function `Behaviour`.
  - The lemmas cover the gate, the choice of family, the `retries+1` budget,
    dry-run behaviour, and the rule that nothing runs after a fatal error.

Collaborators are oracle parameters:
- `exchange(i)`: the conversation and error that the protocol library's
  `Exchange` returns on the (i+1)-th attempt.
- `linkLocalErr`: the error from `dhcpv6.GetLinkLocalAddr`, if any.
- `extract`: `netboot.ConversationToNetconf` or `ConversationToNetconfv4`, an
  uninterpreted function.
- `Host.ifUp`: the error from `netboot.IfUp`, if any.
- `Host.configure`: the result of `netboot.ConfigureInterface`.

Logging is modelled as the sequence of lines written, and `log.Fatal` as a
final `Fatal` effect with exit status 1.

Three facts about the Go code shape the model:
- The condition `attempt < attempts` at dhclient/main.go:50 and :81 always
  holds inside the loop, so every failed attempt logs "Error: ...". That
  includes the final attempt of the budget, which no retry follows.
  `AllFailuresExhaust` states that the retry loop's part of the log ends with
  that line.
- When the final attempt fails, the client returns that attempt's error value
  itself (dhclient/main.go:61-63 and :92-94), and main passes it to
  `log.Fatal`.
- The budget `*retries+1` (dhclient/main.go:115, :117) is Go `int`
  arithmetic, 64 bits wide on 64-bit platforms. `Driver.AddWrap`
  models the two's-complement wrap, so `-r` set to the largest `int` gives a
  budget of the smallest `int`, which the client clamps to one attempt.

## Model

| member | source | states |
|---|---|---|
| Dhclient.Clamp | dhclient/main.go:26-28 | the budget used is at least 1, equals the configured value whenever that is at least 1, and is 1 for any value below 1 |
| Dhclient.StopIndex | dhclient/main.go:47-55 | the attempt at which the loop stops lies within the budget |
| Dhclient.AttemptLog | dhclient/main.go:47-53 | the retry loop's log lines never include a message summary |
| Dhclient.Negotiation | dhclient/main.go:69-98 | a client call issues between 1 and the clamped budget exchanges |
| Dhclient.Client6 | dhclient/main.go:25-67 | dhclient6 issues no exchange exactly when the link-local lookup fails |
| Dhclient.RetryExchange | dhclient/main.go:78-86 | the loop issues exchanges up to the first success or the end of the budget, keeps the latest conversation and error, and logs each attempt line and each failure |
| Dhclient.LogConversation | dhclient/main.go:87-91 | verbose logging appends each message's summary in conversation order |
| Dhclient.Negotiate | dhclient/main.go:69-98 | dhclient4 (and dhclient6 after its lookup) does exactly what Negotiation specifies: clamp, retry loop, verbose log, extract only on success |
| Dhclient.Dhclient6 | dhclient/main.go:25-67 | dhclient6 returns a failed link-local lookup at once and otherwise behaves as the common client body |
| Dhclient.StopIndexIsFirstSuccessOrLast | dhclient/main.go:47-55 | every attempt before the stopping one failed, and the stopping one succeeded or was the last of the budget |
| Dhclient.StopIndexUnique | dhclient/main.go:47-55 | the stopping attempt is the only attempt with that property |
| Dhclient.AttemptLogContents | dhclient/main.go:47-53 | "Attempt n of budget" is logged exactly for n from 1 to the number issued, and the error of every failed attempt is logged |
| Dhclient.AttemptLogOrder | dhclient/main.go:47-48 | attempt lines are numbered from 1 to the number issued, in strictly increasing order |
| Dhclient.AttemptLogErrors | dhclient/main.go:49-53 | every error line directly follows the line of the attempt that failed and carries that attempt's error; no other error line is logged |
| Dhclient.FirstSuccessStops | dhclient/main.go:78-86 | if attempt k is the first success, exactly k exchanges are issued, attempt k+1 never starts, and the extractor gets attempt k's conversation and its result is returned |
| Dhclient.AllFailuresExhaust | dhclient/main.go:78-94 | if all attempts fail, the whole budget is used, the returned error and final conversation are the final attempt's, the retry loop's part of the log is a prefix of the log and ends with the final attempt's error line, and the extractor is not called |
| Dhclient.VerboseLogsFinalConversation | dhclient/main.go:56-63 | with verbose on, the log ends with every message of the final conversation in order, on failure too; with it off, no message is logged |
| Dhclient.ExtractionOnlyOnSuccess | dhclient/main.go:61-66 | the extractor runs if and only if the final attempt succeeded, and its result is returned unchanged; otherwise the final error is returned with no configuration |
| Dhclient.BudgetBelowOneActsAsOne | dhclient/main.go:70-72 | any budget below 1 behaves exactly like a budget of 1: one exchange |
| Dhclient.LinkLocalFailureSkipsExchange | dhclient/main.go:29-32 | a failed link-local lookup is returned with zero exchanges, nothing logged and no extraction |
| Driver.FamilyOf | dhclient/main.go:114-118 | DHCPv6 is chosen if and only if the version flag is 6 |
| Driver.AddWrap | dhclient/main.go:115 | Go's 64-bit `int` addition: the exact sum when it fits, otherwise the sum shifted by 2^64 back into range |
| Driver.Attempts | dhclient/main.go:115-117 | the budget passed to the client is retries+1, except that the largest `int` wraps to the smallest |
| Driver.ClientRun | dhclient/main.go:114-118 | the client main calls issues at most the clamped, wrapped retries+1 exchanges |
| Driver.LargestRetriesWrapToOneAttempt | dhclient/main.go:115-117 | `-r` set to the largest `int` wraps the budget to the smallest `int`, and the client then issues exactly one exchange |
| Driver.Behaviour | dhclient/main.go:100-132 | main exits with status 0 or 1 |
| Driver.Execute | dhclient/main.go:100-132 | main's sequence of calls, with early exit on each error, is exactly Behaviour |
| Driver.GateRunsUnlessSkipped | dhclient/main.go:107-113 | without -noifup the interface gate is the first step, with a 5-second timeout; a gate step appears nowhere else, and never under -noifup |
| Driver.ClientChoice | dhclient/main.go:114-118 | the client runs if and only if the gate passed or was skipped; it is DHCPv6 iff the version is 6, with the wrapped retries+1 as its budget and -d as verbose |
| Driver.FailuresAreFatal | dhclient/main.go:108-131 | a gate failure, a client error and a configurator error outside a dry run each end main with that error as its fatal step; the exit status is 0 if and only if none of these happened |
| Driver.FatalEndsProcess | dhclient/main.go:108-131 | a fatal error is always the last step, and the exit status is 1 exactly when main ended in a fatal error |
| Driver.ConfiguresOnlyOnSuccess | dhclient/main.go:119-131 | the interface is configured with a record if and only if the gate passed or was skipped, the client returned that record and this is not a dry run |
| Driver.DryRunNeverConfigures | dhclient/main.go:125-127 | a dry run never calls the interface configurator |
| Driver.DefaultRetriesGiveFourAttempts | dhclient/main.go:21 | the default of 3 retries gives four attempts when every exchange fails, and main exits 1 |
| Driver.FourthAttemptConfigures | dhclient/main.go:114-131 | DHCPv4 with 3 retries, where three attempts fail and the fourth succeeds, applies exactly the extracted record and exits 0 |
| Driver.MissingLinkLocalIsFatal | dhclient/main.go:114-121 | DHCPv6 without a link-local address issues no exchange and ends in a fatal error with the lookup's error |
| Driver.DryRunReports | dhclient/main.go:122-127 | a dry run after a successful client shows the record, announces the dry run and exits 0 |

## Left out

- packetparser/main.go, the offline capture decoder. It consists of pcap
  opening, BPF filtering, link-layer demultiplexing and library decoding,
  which are all foreign calls. Its live paths are single-shot exchanges.
- The DHCP negotiation itself (`client6.Exchange`, `client4.Exchange`). This
  is network I/O in an external library, modelled only as one oracle outcome
  per attempt. The oracle depends only on the attempt index.
- The DHCPv6 socket addresses (dhclient/main.go:33-45) are not modelled.
  They are assembled from the looked-up link-local address, the interface
  name as zone, and library constants for the ports and the server group.
- The extractors' internals are not modelled. The extractor is assumed to
  return exactly one of a configuration or an error. This excludes a nil
  configuration paired with a nil error, on which main would dereference nil
  at dhclient/main.go:128.
- `netboot.IfUp` and `netboot.ConfigureInterface` (OS interface
  manipulation) are modelled only as recorded effects with oracle results.
- Flag parsing, log formatting and timestamps, and the text of
  `m.Summary()` are not modelled. A log line is the message itself or the
  attempt numbers or error it reports.
- DHCPv4 and DHCPv6 messages share one opaque type parameter in the driver.
  The model never inspects a message.
- Dhclient6 checks the link-local lookup before clamping the budget, while
  the source clamps first. The order is not observable, because a failed
  lookup never uses the budget.
- Go's `int` on 32-bit platforms, where `*retries+1` would wrap at 2^31, is
  not modelled. The model fixes `int` at 64 bits.
