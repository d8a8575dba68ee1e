# ssl-monitor notification engine, in Dafny

ssl-monitor probes the TLS certificates of a list of sites, stores the
results, shows them on a dashboard and sends email (Postmark) and ntfy
notifications when a certificate nears expiry. This project models the
deterministic core of that program and proves properties of it:

- the notification decision engine (`Notifications`): the classifier that
  turns days-left into "critical", "warning" or "normal" (current version
  with `<`, older version with `<=`), the per-channel gates, the loading
  default of the ledger, and `processNotifications`, a loop over the scan
  results that updates a ledger mapping each site URL to its last status and
  the scan that saw it;
- the `/status` endpoint (`Status`), which reduces the ledger to
  "critical", "warning" or "okay";
- the dashboard (`Results`): colour classes, the conversion of results into
  display rows, the in-place urgency sort and the staleness flag;
- site-list editing (`Sites`): scheme stripping and the add, edit, delete
  and toggle actions;
- settings (`Config`, and `LegacyConfig` for the older root-level
  settings.go): defaults, `parseInt`, the form update rules, the
  threshold-changed trigger and the test-notification prechecks;
- the scan step (`Scans`, and `LegacyScans` for the older root-level
  sites.go): which sites are probed, in what order, and the result shape;
- the log level parser and filter (`Logging`) and the text tables of the
  two senders (`NotifySend`);
- the Go library behaviour these rely on (`GoStrings`): `strings.TrimSpace`,
  `strings.ToUpper`, a case-insensitive prefix test, `strconv.Atoi` and
  `strconv.Itoa` with 64-bit range, and Go's string order.

Everything outside the program is a parameter. Loading and saving a JSON
file is an input value: `StateFile` for the ledger, a `Result` for sites and
settings, an `Outcome` for a save. The written value is returned as
`written`. The certificate prober is a function `Site -> Probe`. The two
senders are one function `Deliver` that answers whether a channel accepted a
notification. Times are integers, with 0 standing for Go's zero time.
Strings are sequences of characters.

The ledger is a last-status record: there are no cooldown windows and no
per-level "last sent" times, and the entry of a site is overwritten with its
current status whether or not the deliveries succeeded, so a failed send is
never retried. `SecondPassIsQuiet` states
the consequence: after one pass, a second pass over the same results
attempts no delivery at all, whatever happened to the first pass's
deliveries.

The older root-level files (notifications.go, settings.go, sites.go) do not
compile together. notifications.go reads `ColorThresholds.Critical` and
`EnabledWarning`, which only the current settings declare. Each function
is modelled from its own text. The older classifier reads the current
settings type (`Notifications.Variant` selects it). The older form update
has its own settings type (`LegacyConfig.Settings`). The older
`checkCertificate` and `parseInt` behave as the current ones, so
`Scans.CheckCertificate` and `Config.ParseInt` serve both.

## Model

| member | source | states |
|---|---|---|
| Notifications.LoadNotificationState | src/notifications.go:20-39 | a missing file gives an empty ledger with zero time and no error; a null history becomes the empty map; only unreadable or undecodable files are errors |
| Notifications.DetermineCurrentStatus | src/notifications.go:49-57 | "critical" iff days-left is below the critical threshold; "warning" iff it is at least the critical one and below the warning one; "normal" iff it is at least both |
| Notifications.DetermineCurrentStatusInclusive | notifications.go:49-57 | the same three cases with `<=`: a threshold day itself is critical or warning |
| Notifications.ClassifyMonotone | src/notifications.go:49-57 | for either version and any thresholds, more days left never gives a more severe status |
| Notifications.InclusiveIsStrictOneDayEarlier | notifications.go:49-57 | the older classifier on d days equals the current one on d - 1 days |
| Notifications.VariantsDifferOnlyAtThresholds | notifications.go:50-52 | the two versions disagree only when days-left equals one of the thresholds |
| Notifications.ShouldSendEmailForStatus | src/notifications.go:59-68 | the email gate is open only for "warning" (by its warning flag) or "critical" (by its critical flag); any other status gives false |
| Notifications.ShouldSendNtfyForStatus | src/notifications.go:70-79 | the ntfy gate, the same rule with the ntfy flags |
| Notifications.ProcessNotifications | src/notifications.go:81-158 | a load failure returns the prefixed error with no delivery called and nothing sent or written; otherwise the delivery calls made are exactly `PassCalls`, the written ledger is `PassHistory` of the loaded one, the pass time becomes the last notification scan, the count is `PassSent`, and a failed save is returned with its prefix |
| Notifications.PassCallsAreAttempts | src/notifications.go:113-133 | the delivery calls of a pass are as many as its attempts |
| Notifications.PassCallsAreEscalations | src/notifications.go:90-133 | every delivery call of a pass is for an error-free result of the pass whose status is warning or critical, on a channel whose gate is open for it |
| Notifications.PassCallsFollowChanges | src/notifications.go:99-110 | every delivery call of a pass is for a result of the pass whose status differs from the one the ledger held for its site when that result was reached, and is warning or critical |
| Notifications.NewSiteInTroubleIsNotified | src/notifications.go:100-133 | a site missing from the ledger with a warning or critical status gets a call on every open channel |
| Notifications.PassSentIsAccepted | src/notifications.go:113-133 | the count of a pass is the number of its delivery calls the collaborator accepted |
| Notifications.AcceptedAttempt | src/notifications.go:113-133 | for one result, the accepted calls are its successful deliveries |
| Notifications.PassSentBounded | src/notifications.go:113-133 | successful deliveries are at most the attempts, and those at most two per result |
| Notifications.PassLeavesOthersAlone | notifications.go:92-97 | an URL carried by no error-free result keeps its entry, or stays absent: errored results and other sites never touch it |
| Notifications.PassRecordsLatest | notifications.go:145-149 | a site's entry after the pass is the status of its last error-free result with the scan time, independent of delivery |
| Notifications.PassEstablishesRecords | src/notifications.go:140-144 | when same-URL results agree, after a pass every error-free result's URL holds that result's status and the scan time |
| Notifications.PassOverRecordedIsQuiet | src/notifications.go:100-110 | over a ledger already holding each result's status, a pass attempts nothing and leaves the ledger unchanged |
| Notifications.SecondPassIsQuiet | src/notifications.go:140-148 | a second pass with the same results and settings makes no delivery call, attempts and sends nothing and rewrites the same ledger, whatever the collaborator answers: failed sends are not retried |
| Notifications.SilentSettingsAttemptNothing | src/notifications.go:113-124 | with all four notification flags off, as in the defaults, a pass attempts and calls no delivery |
| Status.CountPositiveIffPresent | src/status.go:22-29 | a status's count is positive iff some ledger entry has that status |
| Status.Aggregate | src/status.go:31-41 | the body is "critical" iff some entry is critical, "warning" iff none is critical and some is warning, "okay" iff none is either |
| Status.AggregateDependsOnlyOnStatuses | src/status.go:22-41 | two ledgers holding the same statuses give the same body, whatever the sites, times or map order |
| Status.StatusHandler | src/status.go:8-45 | a load failure gives 500 with "Error checking status" and the newline `http.Error` adds; otherwise 200, the counts are the numbers of critical and warning entries, and the body is `Aggregate` of the ledger |
| Results.GetColorClass | src/results.go:79-87 | red iff below the critical threshold, yellow iff at least critical and below warning, green iff at least both |
| Results.ColorMatchesNotifierStatus | src/results.go:79-87 | the dashboard colour is red, yellow or green exactly when the current notifier says critical, warning or normal |
| Results.ColorExamples | src/results.go:79-87 | with thresholds 30/7: 5 red, 7 yellow, 15 yellow, 30 green, 45 green, 0 and -5 red |
| Results.ToDisplay | src/results.go:143-160 | a row copies the result's fields, has an error iff the error text is non-empty, is grey iff it has an error, and otherwise takes `GetColorClass` |
| Results.BuildDisplayRows | src/results.go:142-161 | a fresh array with one row per result, row i converted from result i |
| Results.Less | src/results.go:164-179 | an error-free row is below only error-free rows with more days left; an error row is above only error rows, and two error rows are never below each other |
| Results.LessAsymmetric | src/results.go:164-179 | of two rows at most one is more urgent than the other |
| Results.LessTransitive | src/results.go:164-179 | the urgency comparator is transitive |
| Results.MostUrgent | src/results.go:164-179 | returns an index of the suffix that no later-or-equal row is more urgent than |
| Results.SortByUrgency | src/results.go:164-179 | sorts the array in place: a permutation of the rows in which no row is more urgent than one before it |
| Results.DisplayRows | src/results.go:141-179 | the shown rows are a permutation of the converted results, in urgency order |
| Results.ErrorsFirst | src/results.go:165-171 | in urgency order every error row precedes every error-free row |
| Results.ErrorRowsByName | src/results.go:174-176 | error rows are in ascending name order |
| Results.HealthyRowsByDaysLeft | src/results.go:178 | error-free rows are in ascending days-left order |
| Results.IsStale | src/results.go:182 | stale only for a non-zero modification time, and then iff it is later than the last scan |
| Results.ScanClearsStaleness | src/results.go:182 | a never-modified list is never stale, and a scan at or after the last modification clears staleness |
| Sites.StripProtocol | src/sites.go:122-134 | the result is the input minus 8, 7 or 0 leading characters: 8 iff it starts with "https://" in any case, 7 iff it starts with "http://" in any case but not "https://" |
| Sites.StripProtocolRemovesTypedScheme | src/sites.go:122-134 | a scheme typed in any letter case is removed and the rest is returned exactly |
| Sites.StripUpperCaseSchemeKeepsHostCase | src/sites.go:122-134 | "HTTPS://Example.COM" becomes "Example.COM" |
| Sites.StripPlainHttpScheme | src/sites.go:130-131 | "http://example.com" becomes "example.com" |
| Sites.StripWithoutScheme | src/sites.go:133 | a URL without a scheme is returned unchanged |
| Sites.AddSite | src/sites.go:136-165 | a form error is returned; an empty trimmed name or URL is ignored before loading; a load error is returned; otherwise the list gains exactly one enabled site at its end, with the trimmed name, the trimmed-then-stripped URL and the current time, and the save outcome is returned |
| Sites.EditSite | src/sites.go:167-201 | a form error or a non-numeric index is an error; an empty trimmed name or URL is ignored before loading; otherwise the outcome is `EditOutcome` with the trimmed name and the trimmed-then-stripped URL |
| Sites.EditLoaded | src/sites.go:190-200 | a load error is returned, an out-of-range index is ignored, otherwise the list handed to the save is `EditAt` of the loaded list |
| Sites.EditAt | src/sites.go:197-198 | only the indexed site's name and URL change; its enabled flag, its added time and every other site stay, and the length is kept |
| Sites.RemoveAt | src/sites.go:224-225 | one element shorter; the elements before the index stay, those after it move down by one |
| Sites.RemoveAtLosesOne | src/sites.go:224 | removing an index loses exactly that element of the list |
| Sites.DeleteSite | src/sites.go:203-227 | a form error or a non-numeric index is an error; an out-of-range index is ignored; otherwise the indexed site is removed and the rest kept in order |
| Sites.ToggleAt | src/sites.go:250 | the indexed site's flag is flipped, nothing else changes |
| Sites.ToggleTwice | src/sites.go:250 | toggling the same site twice restores the list |
| Sites.ToggleSite | src/sites.go:229-252 | a form error or a non-numeric index is an error; an out-of-range index is ignored; otherwise the list handed to the save is the toggled list |
| Config.DefaultSettings | src/settings.go:61-95 | a positive interval and port, a warning threshold above a positive critical one, and all four notification flags off |
| Config.DefaultSettingsValues | src/settings.go:61-95 | defaults: interval 24, port 8080, thresholds 28/7, provider "postmark", stream "ssl-monitor", all four flags off |
| Config.ParseInt | src/settings.go:427-432 | the `strconv.Atoi` value when it parses, else 0, always within 64 bits |
| Config.ParseIntExamples | src/settings.go:427-432 | "123" gives 123, "-1" gives -1, and "abc", "" and "123.45" give 0 |
| Config.ParseIntRendered | src/settings.go:427-432 | any 64-bit number printed in decimal parses back to itself |
| Config.Updated | src/settings.go:226-231 | a numeric field takes the parsed form value only when the field is non-empty and positive, else keeps the old value, so a positive value stays positive |
| Config.UpdateNumber | src/settings.go:226-231 | the guarded assignment computes `Updated` |
| Config.ResubmittedNumberKeepsValue | src/settings.go:226-231 | a numeric field submitted as rendered keeps its value |
| Config.ApplySettingsForm | src/settings.go:225-258 | `FormApplied`: interval and dashboard thresholds follow `Updated`; each flag is on iff its value is exactly "on"; token, sender, recipient, stream and ntfy URL are overwritten even with ""; provider and port never change. Positive numbers stay positive, and the thresholds count as changed iff one of the two fields overrides with a new value |
| Config.FormAppliedDetermines | src/settings.go:225-258 | the form and the old settings fix every field of the new settings |
| Config.SaveSettingsFromForm | src/settings.go:213-266 | a form or load error is returned with nothing written; otherwise the written settings are the loaded ones with the form applied (`FormApplied`) and the save outcome is returned |
| Config.ThresholdsChanged | src/settings.go:178-179 | true iff the dashboard colour thresholds differ in either value |
| Config.EmailTestPrecheck | src/settings.go:303-307 | the test email is refused, with its message, iff token, sender or recipient is empty |
| Config.NtfyTestPrecheck | src/settings.go:386-390 | the test ntfy is refused, with its message, iff the URL is empty |
| Config.DefaultsFailTestPrechecks | src/settings.go:61-95 | fresh defaults are refused by both test endpoints |
| LegacyConfig.ApplySettingsForm | settings.go:205-243 | `FormApplied`: interval and each channel's warning and critical thresholds follow `Updated` independently; each channel's flag is on iff "on"; text fields are overwritten; provider and the whole dashboard are untouched |
| LegacyConfig.FormAppliedDetermines | settings.go:205-243 | the form and the old settings fix every field of the new settings |
| LegacyConfig.FormAppliedKeepsPositive | settings.go:205-243 | a positive interval and positive channel thresholds stay positive whatever the form holds |
| LegacyConfig.SaveSettingsFromForm | settings.go:193-246 | a form or load error is returned with nothing written; otherwise the written settings are the loaded ones with the form applied (`FormApplied`, dashboard unchanged) and the save outcome is returned |
| Scans.CheckCertificate | src/scans.go:38-76 | URL, name and check time are the site's and the probe's; the error text is non-empty iff no leaf certificate was read, and then days-left is 0 and the expiry is the zero time |
| Scans.ScanAllSites | src/scans.go:78-112 | results are `Scanned` of the list, stamped with the scan time, and the first loop's count equals the number of results and of enabled sites |
| Scans.ScannedLength | src/scans.go:84-102 | there are as many results as enabled sites |
| Scans.ScannedAppend | src/scans.go:93-102 | scanning a list in two parts gives the two parts' results in order |
| Scans.ScannedFromEnabled | src/scans.go:93-101 | every result comes from an enabled site and is that site's certificate check |
| Scans.NothingEnabledScansNothing | src/scans.go:79-82 | a list with no enabled site, the empty list included, gives no results |
| LegacyScans.ScanAllSites | sites.go:86-110 | the single loop produces `Scanned` of the list, one result per enabled site, stamped with the scan time |
| Logging.LevelName | src/logger.go:19-24 | every level's printed name parses back to that level |
| Logging.ParseLevel | src/logger.go:29-43 | Debug, Info and Error iff the upper-cased value is "DEBUG", "INFO" or "ERROR"; Warning for anything else, including "WARNING", "WARN" and "" |
| Logging.ParseLevelIgnoresCase | src/logger.go:30-43 | the level parsed from a value equals the level parsed from its upper-cased form, so parsing ignores letter case |
| Logging.ParseLevelName | src/logger.go:19-43 | every level's printed name, in upper or lower case, parses back to that level |
| Logging.ParseLevelExamples | src/logger.go:19-41 | the printed names are "DEBUG", "INFO", "WARN" and "ERROR", so Warning is printed "WARN" though "WARNING" also parses to it; "WARNING", "warning", "" and "INVALID" all give Warning |
| Logging.Emits | src/logger.go:47-49 | a level always passes at itself, Error always passes, everything passes at Debug, and Debug is dropped at any other level |
| Logging.EmitsMonotone | src/logger.go:46-49 | Error always passes, Debug only at Debug, and a passing level lets every higher one pass |
| Logging.Logger.constructor | src/logger.go:26 | before the level is chosen it is the zero value, Debug |
| Logging.Logger.InitLogging | src/logger.go:29-43 | the current level becomes `ParseLevel` of the environment value |
| Logging.Logger.LogMessage | src/logger.go:46-55 | a line is produced iff the level is at least the current one, and it carries the level name and the message |
| NotifySend.EmailStatusTitle | notify-send.go:14-22 | "Critical" for critical, "Warning" for warning, "Notice" for any other status |
| NotifySend.EmailSubject | notify-send.go:24 | the subject starts with "SSL Certificate " and ends with the site name |
| NotifySend.EmailSubjectExamples | notify-send.go:24 | the subject is "SSL Certificate Critical: ", "Warning: " or "Notice: " followed by the name |
| NotifySend.EmailSubjectInjective | notify-send.go:14-24 | equal subjects have the same title and the same site name |
| NotifySend.NtfyTitle | notify-send.go:95-109 | "SSL Warning: <name>" for warning, the siren emoji and "SSL Critical: <name>" for critical, empty otherwise |
| NotifySend.NtfyPriority | notify-send.go:95-109 | "high" for warning, "urgent" for critical, empty iff any other status |
| NotifySend.NtfyTags | notify-send.go:95-109 | "warning,ssl-monitor" for warning, "warning,ssl-monitor,urgent" for critical, empty iff any other status |
| NotifySend.CriticalTagsExtendWarningTags | notify-send.go:95-109 | the critical tags are the warning tags followed by ",urgent" |
| NotifySend.DeliveryOutcome | notify-send.go:132-134 | a delivery succeeds iff the service answered 200; a transport error is returned as is |
| NotifySend.DeliveryOutcomeReportsCode | notify-send.go:85-87 | the error for a non-200 answer ends with the status code, which parses back to that code |
| GoStrings.TrimSpace | src/sites.go:142-143 | the result is a slice of the input with only white space cut off either end, and empty iff the input is all white space |
| GoStrings.ToUpper | src/logger.go:30 | the result has the input's length, maps each character by `UpperChar` (partial, see "Left out"), and holds no ASCII lower-case letter |
| GoStrings.ToUpperIdempotent | src/logger.go:30 | upper-casing twice gives the same as upper-casing once |
| GoStrings.HasPrefixFold | src/sites.go:124-129 | a match needs the input at least as long as the prefix; an input that begins with a lower-case prefix exactly matches it |
| GoStrings.Itoa | notify-send.go:86 | the decimal text of a number: non-empty, starting with '-' iff the number is negative, digits otherwise; `AtoiItoa` reads it back |
| GoStrings.Atoi | src/sites.go:173-178 | a value is read iff the string is an optional sign followed by at least one decimal digit and nothing else, and its signed decimal value fits 64 bits; the value read is that signed decimal value |
| GoStrings.AtoiSigns | src/sites.go:173-178 | "+5" reads 5, "-0" reads 0 and "07" reads 7; a lone sign, a double sign or a leading space is rejected |
| GoStrings.AtoiRejectsOutOfRange | src/settings.go:427-432 | a decimal number outside the 64-bit range is rejected |
| GoStrings.AtoiItoa | src/settings.go:427-432 | `Atoi` reads back what `Itoa` printed for any 64-bit number |
| GoStrings.StrLessAsymmetric | src/results.go:175 | of two strings at most one is below the other |
| GoStrings.StrLessTransitive | src/results.go:175 | Go's string order is transitive |
| GoStrings.StrLessTotal | src/results.go:175 | any two different strings are ordered one way or the other |

## Left out

- File I/O and JSON encoding: every load and save is an input value that may fail (`StateFile`, `Result`, `Outcome`). The creation of default files when none exists is not modelled, apart from the ledger's empty default.
- HTTP plumbing: request routing, method checks, redirects, response headers and template execution are not modelled. Only the status code and body of `/status` are kept (the body of a 500 answer with the newline `http.Error` appends), and each site action returns its error and the list it saves.
- The Postmark and ntfy HTTP calls and message bodies are not modelled. A delivery is the `Deliver` function; `NotifySend.DeliveryOutcome` states which HTTP answers count as success.
- TLS dialing and the floating-point days-left arithmetic are the prober's job. They reach the model as a `Probe` holding an integer days-left.
- Concurrency is not modelled: the `isScanning` flag and its lock, the scan goroutine and the scheduled ticker loop.
- Log output formatting (timestamp, `fmt` verbs) is not modelled; `Logger.LogMessage` returns the level name and the message.
- Wall-clock time: every `time.Now()` is an integer input.
- Sites.EditSite: on a malformed index the error text is the placeholder `InvalidIndexErrorText`, not strconv's message quoting the input.
- Sites.DeleteSite: same fixed error text for a malformed index.
- Sites.ToggleSite: same fixed error text for a malformed index.
- GoStrings.ToUpper: only the mappings that can produce an ASCII letter are modelled (a-z, dotless i, long s). This is enough for comparing with the ASCII level names.
- GoStrings.StrLess: compares by code points. This equals Go's byte order on valid UTF-8 strings, which is all the model handles.
- Notifications.ProcessNotifications: the model is deterministic. `Deliver` answers the same way for the same channel, result and status. The calls made are recorded in a ghost sequence, which is how the contract says which sends happen.
- Notifications.SecondPassIsQuiet: requires that error-free results with the same URL agree on the status, which holds when each site appears once. If a URL appears twice with different statuses, each pass ends with the later status and fires again for each of them whose status is warning or critical and whose channel gate is open.
