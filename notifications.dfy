/** The notification decision engine (src/notifications.go, and its older
    copy notifications.go).  The ledger is a map from site URL to the last
    status seen and the scan that saw it; a pass classifies every error-free
    result, fires the enabled channels only when the status changed into
    "warning" or "critical", and then records the new status whatever the
    delivery outcome. */
module Notifications {
  import opened Wrappers
  import opened Scans
  import opened Config

  const StatusNormal := "normal"
  const StatusWarning := "warning"
  const StatusCritical := "critical"

  datatype History = History(lastStatus: string, lastScan: Time)

  datatype NotificationState = NotificationState(
    lastNotificationScan: Time, history: map<string, History>)

  /** What reading and decoding data/notifications.json can give.  A decoded
      document whose history is missing or null has `history == None`. */
  datatype StateFile =
    | Missing
    | Unreadable(message: string)
    | Undecodable(message: string)
    | Decoded(lastNotificationScan: Time, history: Option<map<string, History>>)

  /** `loadNotificationState`: a missing file is an empty state, not an
      error; the history map is never absent. */
  function LoadNotificationState(f: StateFile): (r: Result<NotificationState>)
    ensures r.Err? <==> f.Unreadable? || f.Undecodable?
    ensures f.Missing? ==> r == Ok(NotificationState(ZeroTime, map[]))
    ensures f.Decoded? ==> r.Ok? && r.value.lastNotificationScan == f.lastNotificationScan
    ensures f.Decoded? && f.history.None? ==> r.value.history == map[]
    ensures f.Decoded? && f.history.Some? ==> r.value.history == f.history.value
  {
    match f
    case Missing => Ok(NotificationState(ZeroTime, map[]))
    case Unreadable(message) => Err(message)
    case Undecodable(message) => Err(message)
    case Decoded(lastScan, history) =>
      Ok(NotificationState(lastScan, if history.Some? then history.value else map[]))
  }

  // ---------------------------------------------------------------------
  // Classification

  /** The two versions of the classifier: the current one compares with
      `<`, the older one with `<=`. */
  datatype Variant = Strict | Inclusive

  function Rank(status: string): nat
  {
    if status == StatusCritical then 2 else if status == StatusWarning then 1 else 0
  }

  /** `determineCurrentStatus` (current version): critical below the
      critical threshold, checked first; warning below the warning
      threshold; normal otherwise. */
  function DetermineCurrentStatus(daysLeft: int, settings: Settings): (s: string)
    ensures s == StatusCritical <==> daysLeft < settings.dashboard.colorThresholds.critical
    ensures s == StatusWarning <==>
              settings.dashboard.colorThresholds.critical <= daysLeft < settings.dashboard.colorThresholds.warning
    ensures s == StatusNormal <==>
              daysLeft >= settings.dashboard.colorThresholds.critical
              && daysLeft >= settings.dashboard.colorThresholds.warning
  {
    if daysLeft < settings.dashboard.colorThresholds.critical then StatusCritical
    else if daysLeft < settings.dashboard.colorThresholds.warning then StatusWarning
    else StatusNormal
  }

  /** `determineCurrentStatus` (older version), which includes the
      thresholds themselves. */
  function DetermineCurrentStatusInclusive(daysLeft: int, settings: Settings): (s: string)
    ensures s == StatusCritical <==> daysLeft <= settings.dashboard.colorThresholds.critical
    ensures s == StatusWarning <==>
              settings.dashboard.colorThresholds.critical < daysLeft <= settings.dashboard.colorThresholds.warning
    ensures s == StatusNormal <==>
              daysLeft > settings.dashboard.colorThresholds.critical
              && daysLeft > settings.dashboard.colorThresholds.warning
  {
    if daysLeft <= settings.dashboard.colorThresholds.critical then StatusCritical
    else if daysLeft <= settings.dashboard.colorThresholds.warning then StatusWarning
    else StatusNormal
  }

  function Classify(v: Variant, daysLeft: int, settings: Settings): string
  {
    match v
    case Strict => DetermineCurrentStatus(daysLeft, settings)
    case Inclusive => DetermineCurrentStatusInclusive(daysLeft, settings)
  }

  /** More days left never means a more severe status, whatever the two
      thresholds are (even a critical threshold above the warning one). */
  lemma ClassifyMonotone(v: Variant, d1: int, d2: int, settings: Settings)
    requires d1 <= d2
    ensures Rank(Classify(v, d2, settings)) <= Rank(Classify(v, d1, settings))
  {
  }

  /** The older classifier sees a certificate as the current one would
      one day earlier. */
  lemma InclusiveIsStrictOneDayEarlier(daysLeft: int, settings: Settings)
    ensures DetermineCurrentStatusInclusive(daysLeft, settings)
              == DetermineCurrentStatus(daysLeft - 1, settings)
  {
  }

  /** The two versions disagree only on a threshold day. */
  lemma VariantsDifferOnlyAtThresholds(daysLeft: int, settings: Settings)
    requires DetermineCurrentStatus(daysLeft, settings) != DetermineCurrentStatusInclusive(daysLeft, settings)
    ensures daysLeft == settings.dashboard.colorThresholds.critical
            || daysLeft == settings.dashboard.colorThresholds.warning
  {
  }

  // ---------------------------------------------------------------------
  // Channel gates

  datatype Channel = Email | Ntfy

  /** `shouldSendEmailForStatus`: only "warning" and "critical" can open
      the gate, each by its own flag. */
  function ShouldSendEmailForStatus(status: string, settings: Settings): (b: bool)
    ensures b ==> status == StatusWarning || status == StatusCritical
    ensures status == StatusWarning ==> b == settings.notifications.email.enabledWarning
    ensures status == StatusCritical ==> b == settings.notifications.email.enabledCritical
  {
    if status == StatusWarning then settings.notifications.email.enabledWarning
    else if status == StatusCritical then settings.notifications.email.enabledCritical
    else false
  }

  /** `shouldSendNtfyForStatus`, the same rule with the ntfy flags. */
  function ShouldSendNtfyForStatus(status: string, settings: Settings): (b: bool)
    ensures b ==> status == StatusWarning || status == StatusCritical
    ensures status == StatusWarning ==> b == settings.notifications.ntfy.enabledWarning
    ensures status == StatusCritical ==> b == settings.notifications.ntfy.enabledCritical
  {
    if status == StatusWarning then settings.notifications.ntfy.enabledWarning
    else if status == StatusCritical then settings.notifications.ntfy.enabledCritical
    else false
  }

  function Gate(c: Channel, status: string, settings: Settings): bool
  {
    match c
    case Email => ShouldSendEmailForStatus(status, settings)
    case Ntfy => ShouldSendNtfyForStatus(status, settings)
  }

  /** The delivery collaborator: true when the channel accepted the
      notification for this result and status. */
  type Deliver = (Channel, CertResult, string) -> bool

  // ---------------------------------------------------------------------
  // One pass, as functions of the ledger and the results

  /** A site without an entry counts as previously "normal". */
  function PreviousStatus(history: map<string, History>, url: string): string
  {
    if url in history then history[url].lastStatus else StatusNormal
  }

  /** Notifications are due when the status changed and the new status is
      "warning" or "critical" (so critical -> warning is due too). */
  predicate Due(previous: string, current: string)
  {
    current != previous && (current == StatusWarning || current == StatusCritical)
  }

  /** Whether a pass attempts to deliver `r` on channel `c`, given the
      ledger as it stands when `r` is reached. */
  predicate Attempted(v: Variant, history: map<string, History>, r: CertResult,
                      settings: Settings, c: Channel)
  {
    r.error == ""
    && var current := Classify(v, r.daysLeft, settings);
       Due(PreviousStatus(history, r.url), current) && Gate(c, current, settings)
  }

  function Attempts(v: Variant, history: map<string, History>, r: CertResult, settings: Settings): nat
  {
    (if Attempted(v, history, r, settings, Email) then 1 else 0)
    + (if Attempted(v, history, r, settings, Ntfy) then 1 else 0)
  }

  /** Deliveries for `r` that the collaborator accepted. */
  function Successes(v: Variant, history: map<string, History>, r: CertResult,
                     settings: Settings, deliver: Deliver): nat
  {
    var current := Classify(v, r.daysLeft, settings);
    (if Attempted(v, history, r, settings, Email) && deliver(Email, r, current) then 1 else 0)
    + (if Attempted(v, history, r, settings, Ntfy) && deliver(Ntfy, r, current) then 1 else 0)
  }

  /** The ledger after `r`: untouched for a result with an error, otherwise
      overwritten with the current status, delivered or not. */
  function Step(v: Variant, history: map<string, History>, r: CertResult,
                settings: Settings, scanTime: Time): map<string, History>
  {
    if r.error != "" then history
    else history[r.url := History(Classify(v, r.daysLeft, settings), scanTime)]
  }

  function PassHistory(v: Variant, history: map<string, History>, rs: seq<CertResult>,
                       settings: Settings, scanTime: Time): map<string, History>
  {
    if rs == [] then history
    else Step(v, PassHistory(v, history, rs[..|rs| - 1], settings, scanTime), rs[|rs| - 1], settings, scanTime)
  }

  /** A call of the delivery collaborator: channel, result and status. */
  datatype Call = Call(channel: Channel, result: CertResult, status: string)

  /** The calls made for `r`: e-mail first, then ntfy, each only when
      attempted. */
  function AttemptCalls(v: Variant, history: map<string, History>, r: CertResult, settings: Settings): seq<Call>
  {
    var current := Classify(v, r.daysLeft, settings);
    (if Attempted(v, history, r, settings, Email) then [Call(Email, r, current)] else [])
    + (if Attempted(v, history, r, settings, Ntfy) then [Call(Ntfy, r, current)] else [])
  }

  /** Every delivery call of a pass, in the order they are made. */
  function PassCalls(v: Variant, history: map<string, History>, rs: seq<CertResult>,
                     settings: Settings, scanTime: Time): seq<Call>
  {
    if rs == [] then []
    else
      var before := PassHistory(v, history, rs[..|rs| - 1], settings, scanTime);
      PassCalls(v, history, rs[..|rs| - 1], settings, scanTime) + AttemptCalls(v, before, rs[|rs| - 1], settings)
  }

  /** How many of `calls` the collaborator accepts. */
  function Accepted(calls: seq<Call>, deliver: Deliver): nat
  {
    if calls == [] then 0
    else
      var c := calls[|calls| - 1];
      Accepted(calls[..|calls| - 1], deliver) + (if deliver(c.channel, c.result, c.status) then 1 else 0)
  }

  function PassAttempts(v: Variant, history: map<string, History>, rs: seq<CertResult>,
                        settings: Settings, scanTime: Time): nat
  {
    if rs == [] then 0
    else
      var before := PassHistory(v, history, rs[..|rs| - 1], settings, scanTime);
      PassAttempts(v, history, rs[..|rs| - 1], settings, scanTime)
        + Attempts(v, before, rs[|rs| - 1], settings)
  }

  function PassSent(v: Variant, history: map<string, History>, rs: seq<CertResult>,
                    settings: Settings, scanTime: Time, deliver: Deliver): nat
  {
    if rs == [] then 0
    else
      var before := PassHistory(v, history, rs[..|rs| - 1], settings, scanTime);
      PassSent(v, history, rs[..|rs| - 1], settings, scanTime, deliver)
        + Successes(v, before, rs[|rs| - 1], settings, deliver)
  }

  // ---------------------------------------------------------------------
  // processNotifications

  const LoadErrorPrefix := "error loading notification state: "
  const SaveErrorPrefix := "error saving notification state: "

  /** `processNotifications`.  A state that cannot be loaded aborts the pass
      before any delivery and nothing is written.  Otherwise every result is
      walked in order, the ledger and the success counter are updated as
      `PassHistory` and `PassSent` describe, the pass time is recorded, the
      state is handed to the save, and a failed save is reported. */
  method ProcessNotifications(v: Variant, results: ScanResults, settings: Settings,
                              stored: StateFile, deliver: Deliver, saveResult: Outcome)
    returns (err: Outcome, sent: nat, written: Option<NotificationState>, ghost calls: seq<Call>)
    ensures LoadNotificationState(stored).Err? ==>
              err == Fail(LoadErrorPrefix + LoadNotificationState(stored).error)
              && sent == 0 && written == None && calls == []
    ensures LoadNotificationState(stored).Ok? ==>
              var before := LoadNotificationState(stored).value.history;
              && written == Some(NotificationState(results.lastScan,
                   PassHistory(v, before, results.results, settings, results.lastScan)))
              && calls == PassCalls(v, before, results.results, settings, results.lastScan)
              && sent == PassSent(v, before, results.results, settings, results.lastScan, deliver)
              && err == (if saveResult.Pass? then Pass else Fail(SaveErrorPrefix + saveResult.error))
  {
    var loaded := LoadNotificationState(stored);
    if loaded.Err? {
      return Fail(LoadErrorPrefix + loaded.error), 0, None, [];
    }
    var state := loaded.value;
    ghost var before := state.history;
    var rs := results.results;
    sent := 0;
    calls := [];

    for i := 0 to |rs|
      invariant state.history == PassHistory(v, before, rs[..i], settings, results.lastScan)
      invariant sent == PassSent(v, before, rs[..i], settings, results.lastScan, deliver)
      invariant calls == PassCalls(v, before, rs[..i], settings, results.lastScan)
    {
      PassUnfolds(v, before, rs, settings, results.lastScan, deliver, i);
      var result := rs[i];
      if result.error != "" {
        assert AttemptCalls(v, state.history, result, settings) == [];
        continue;
      }

      var currentStatus := Classify(v, result.daysLeft, settings);
      var previousStatus := StatusNormal;
      if result.url in state.history {
        previousStatus := state.history[result.url].lastStatus;
      }

      ghost var step: seq<Call> := [];
      if currentStatus != previousStatus
         && (currentStatus == StatusWarning || currentStatus == StatusCritical) {
        if ShouldSendEmailForStatus(currentStatus, settings) {
          var delivered := deliver(Email, result, currentStatus);
          step := step + [Call(Email, result, currentStatus)];
          if delivered {
            sent := sent + 1;
          }
        }
        if ShouldSendNtfyForStatus(currentStatus, settings) {
          var delivered := deliver(Ntfy, result, currentStatus);
          step := step + [Call(Ntfy, result, currentStatus)];
          if delivered {
            sent := sent + 1;
          }
        }
      }
      assert step == AttemptCalls(v, state.history, result, settings);
      calls := calls + step;

      state := state.(history := state.history[result.url := History(currentStatus, results.lastScan)]);
    }
    assert rs[..|rs|] == rs;

    state := state.(lastNotificationScan := results.lastScan);
    written := Some(state);
    err := if saveResult.Pass? then Pass else Fail(SaveErrorPrefix + saveResult.error);
  }

  /** One more result extends the pass by one `Step` and its `Successes`. */
  lemma PassUnfolds(v: Variant, history: map<string, History>, rs: seq<CertResult>,
                    settings: Settings, scanTime: Time, deliver: Deliver, i: nat)
    requires i < |rs|
    ensures var before := PassHistory(v, history, rs[..i], settings, scanTime);
            && PassHistory(v, history, rs[..i + 1], settings, scanTime)
                 == Step(v, before, rs[i], settings, scanTime)
            && PassSent(v, history, rs[..i + 1], settings, scanTime, deliver)
                 == PassSent(v, history, rs[..i], settings, scanTime, deliver)
                    + Successes(v, before, rs[i], settings, deliver)
            && PassCalls(v, history, rs[..i + 1], settings, scanTime)
                 == PassCalls(v, history, rs[..i], settings, scanTime) + AttemptCalls(v, before, rs[i], settings)
  {
    assert rs[..i + 1][..i] == rs[..i];
  }

  // ---------------------------------------------------------------------
  // Properties of a pass

  /** Each result accounts for at most two attempts (one per channel), and
      only an accepted attempt is counted as sent. */
  lemma {:induction false} PassSentBounded(v: Variant, history: map<string, History>, rs: seq<CertResult>,
                                           settings: Settings, scanTime: Time, deliver: Deliver)
    ensures PassSent(v, history, rs, settings, scanTime, deliver)
              <= PassAttempts(v, history, rs, settings, scanTime) <= 2 * |rs|
  {
    if rs != [] {
      PassSentBounded(v, history, rs[..|rs| - 1], settings, scanTime, deliver);
    }
  }

  /** The calls of a pass are exactly its attempts. */
  lemma {:induction false} PassCallsAreAttempts(v: Variant, history: map<string, History>, rs: seq<CertResult>,
                                                settings: Settings, scanTime: Time)
    ensures |PassCalls(v, history, rs, settings, scanTime)| == PassAttempts(v, history, rs, settings, scanTime)
  {
    if rs != [] {
      PassCallsAreAttempts(v, history, rs[..|rs| - 1], settings, scanTime);
    }
  }

  /** Every delivery call of a pass is for an error-free result of the
      pass whose status is warning or critical, on a channel whose gate is
      open for that status (that the status also changed is
      `PassCallsFollowChanges`). */
  lemma {:induction false} PassCallsAreEscalations(v: Variant, history: map<string, History>, rs: seq<CertResult>,
                                                   settings: Settings, scanTime: Time, c: Call)
    requires c in PassCalls(v, history, rs, settings, scanTime)
    ensures c.result in rs && c.result.error == ""
    ensures c.status == Classify(v, c.result.daysLeft, settings)
    ensures c.status == StatusWarning || c.status == StatusCritical
    ensures Gate(c.channel, c.status, settings)
  {
    var init := rs[..|rs| - 1];
    var before := PassHistory(v, history, init, settings, scanTime);
    if c in PassCalls(v, history, init, settings, scanTime) {
      PassCallsAreEscalations(v, history, init, settings, scanTime, c);
      assert c.result in rs;
    } else {
      assert c in AttemptCalls(v, before, rs[|rs| - 1], settings);
    }
  }

  /** A delivery call goes out only when the status differs from the one
      the ledger held for that site when its result was reached. */
  lemma {:induction false} PassCallsFollowChanges(v: Variant, history: map<string, History>, rs: seq<CertResult>,
                                                  settings: Settings, scanTime: Time, c: Call)
    requires c in PassCalls(v, history, rs, settings, scanTime)
    ensures exists i :: 0 <= i < |rs| && rs[i] == c.result
                        && Due(PreviousStatus(PassHistory(v, history, rs[..i], settings, scanTime), c.result.url), c.status)
  {
    var n := |rs| - 1;
    var init := rs[..n];
    if c in PassCalls(v, history, init, settings, scanTime) {
      PassCallsFollowChanges(v, history, init, settings, scanTime, c);
      var i :| 0 <= i < |init| && init[i] == c.result
               && Due(PreviousStatus(PassHistory(v, history, init[..i], settings, scanTime), c.result.url), c.status);
      assert init[..i] == rs[..i];
    } else {
      AttemptCallIsDue(v, PassHistory(v, history, init, settings, scanTime), rs[n], settings, c);
    }
  }

  lemma AttemptCallIsDue(v: Variant, history: map<string, History>, r: CertResult, settings: Settings, c: Call)
    requires c in AttemptCalls(v, history, r, settings)
    ensures c.result == r && Due(PreviousStatus(history, r.url), c.status)
  {
  }

  /** A site the ledger does not know whose certificate is in warning or
      critical is notified on every channel whose gate is open. */
  lemma NewSiteInTroubleIsNotified(v: Variant, history: map<string, History>, r: CertResult,
                                   settings: Settings, c: Channel)
    requires r.error == "" && r.url !in history
    requires Classify(v, r.daysLeft, settings) == StatusWarning || Classify(v, r.daysLeft, settings) == StatusCritical
    requires Gate(c, Classify(v, r.daysLeft, settings), settings)
    ensures Call(c, r, Classify(v, r.daysLeft, settings)) in AttemptCalls(v, history, r, settings)
  {
    assert Attempted(v, history, r, settings, c);
  }

  /** The deliveries a pass counts as sent are exactly the calls the
      collaborator accepts. */
  lemma {:induction false} PassSentIsAccepted(v: Variant, history: map<string, History>, rs: seq<CertResult>,
                                              settings: Settings, scanTime: Time, deliver: Deliver)
    ensures Accepted(PassCalls(v, history, rs, settings, scanTime), deliver)
              == PassSent(v, history, rs, settings, scanTime, deliver)
  {
    if rs != [] {
      var init := rs[..|rs| - 1];
      var before := PassHistory(v, history, init, settings, scanTime);
      var last := AttemptCalls(v, before, rs[|rs| - 1], settings);
      PassSentIsAccepted(v, history, init, settings, scanTime, deliver);
      AcceptedAppend(PassCalls(v, history, init, settings, scanTime), last, deliver);
      AcceptedAttempt(v, before, rs[|rs| - 1], settings, deliver);
    }
  }

  lemma AcceptedAttempt(v: Variant, history: map<string, History>, r: CertResult,
                        settings: Settings, deliver: Deliver)
    ensures Accepted(AttemptCalls(v, history, r, settings), deliver) == Successes(v, history, r, settings, deliver)
  {
    var current := Classify(v, r.daysLeft, settings);
    var e := if Attempted(v, history, r, settings, Email) then [Call(Email, r, current)] else [];
    var n := if Attempted(v, history, r, settings, Ntfy) then [Call(Ntfy, r, current)] else [];
    AcceptedAppend(e, n, deliver);
    assert Accepted([Call(Email, r, current)], deliver) == if deliver(Email, r, current) then 1 else 0 by {
      assert [Call(Email, r, current)][..0] == [];
    }
    assert Accepted([Call(Ntfy, r, current)], deliver) == if deliver(Ntfy, r, current) then 1 else 0 by {
      assert [Call(Ntfy, r, current)][..0] == [];
    }
  }

  lemma {:induction false} AcceptedAppend(a: seq<Call>, b: seq<Call>, deliver: Deliver)
    ensures Accepted(a + b, deliver) == Accepted(a, deliver) + Accepted(b, deliver)
  {
    if b != [] {
      assert (a + b)[..|a + b| - 1] == a + b[..|b| - 1];
      AcceptedAppend(a, b[..|b| - 1], deliver);
    } else {
      assert a + b == a;
    }
  }

  /** A URL that no error-free result carries keeps its ledger entry (or its
      absence): results with errors and other sites leave it alone. */
  lemma {:induction false} PassLeavesOthersAlone(v: Variant, history: map<string, History>, rs: seq<CertResult>,
                                                 settings: Settings, scanTime: Time, url: string)
    requires forall r :: r in rs && r.error == "" ==> r.url != url
    ensures var after := PassHistory(v, history, rs, settings, scanTime);
            (url in after <==> url in history) && (url in history ==> after[url] == history[url])
  {
    if rs != [] {
      var init := rs[..|rs| - 1];
      assert forall r :: r in init ==> r in rs;
      PassLeavesOthersAlone(v, history, init, settings, scanTime, url);
    }
  }

  /** The entry of a site is its status in the last error-free result for
      it, stamped with the scan time. */
  lemma {:induction false} PassRecordsLatest(v: Variant, history: map<string, History>, rs: seq<CertResult>,
                                             settings: Settings, scanTime: Time, i: nat)
    requires i < |rs| && rs[i].error == ""
    requires forall j :: i < j < |rs| && rs[j].error == "" ==> rs[j].url != rs[i].url
    ensures var after := PassHistory(v, history, rs, settings, scanTime);
            rs[i].url in after
            && after[rs[i].url] == History(Classify(v, rs[i].daysLeft, settings), scanTime)
  {
    var init := rs[..|rs| - 1];
    if i < |rs| - 1 {
      assert init[i] == rs[i];
      PassRecordsLatest(v, history, init, settings, scanTime, i);
    }
  }

  /** Error-free results for the same URL agree on the status (true when
      every site appears once). */
  ghost predicate Consistent(v: Variant, rs: seq<CertResult>, settings: Settings)
  {
    forall r1, r2 :: r1 in rs && r2 in rs && r1.error == "" && r2.error == "" && r1.url == r2.url
      ==> Classify(v, r1.daysLeft, settings) == Classify(v, r2.daysLeft, settings)
  }

  /** The ledger holds, for every error-free result, that result's status
      stamped with the scan time. */
  ghost predicate Records(v: Variant, history: map<string, History>, rs: seq<CertResult>,
                          settings: Settings, scanTime: Time)
  {
    forall r :: r in rs && r.error == "" ==>
      r.url in history && history[r.url] == History(Classify(v, r.daysLeft, settings), scanTime)
  }

  lemma {:induction false} PassEstablishesRecords(v: Variant, history: map<string, History>, rs: seq<CertResult>,
                                                  settings: Settings, scanTime: Time)
    requires Consistent(v, rs, settings)
    ensures Records(v, PassHistory(v, history, rs, settings, scanTime), rs, settings, scanTime)
  {
    if rs != [] {
      var init := rs[..|rs| - 1];
      var last := rs[|rs| - 1];
      assert forall r :: r in init ==> r in rs;
      assert rs == init + [last];
      PassEstablishesRecords(v, history, init, settings, scanTime);
    }
  }

  lemma {:induction false} PassOverRecordedIsQuiet(v: Variant, history: map<string, History>, all: seq<CertResult>,
                                                   rs: seq<CertResult>, settings: Settings, scanTime: Time)
    requires Records(v, history, all, settings, scanTime)
    requires forall r :: r in rs ==> r in all
    ensures PassHistory(v, history, rs, settings, scanTime) == history
    ensures PassAttempts(v, history, rs, settings, scanTime) == 0
  {
    if rs != [] {
      var init := rs[..|rs| - 1];
      var last := rs[|rs| - 1];
      assert last in all;
      assert forall r :: r in init ==> r in rs;
      PassOverRecordedIsQuiet(v, history, all, init, settings, scanTime);
      if last.error == "" {
        assert history[last.url := history[last.url]] == history;
      }
    }
  }

  /** A second pass over the same results with the same settings attempts no
      delivery and leaves the ledger as it was, whatever the first pass's
      deliveries did: a failed delivery is never retried. */
  lemma SecondPassIsQuiet(v: Variant, history: map<string, History>, rs: seq<CertResult>,
                          settings: Settings, scanTime: Time, deliver: Deliver)
    requires Consistent(v, rs, settings)
    ensures var once := PassHistory(v, history, rs, settings, scanTime);
            && PassHistory(v, once, rs, settings, scanTime) == once
            && PassAttempts(v, once, rs, settings, scanTime) == 0
            && PassCalls(v, once, rs, settings, scanTime) == []
            && PassSent(v, once, rs, settings, scanTime, deliver) == 0
  {
    var once := PassHistory(v, history, rs, settings, scanTime);
    PassEstablishesRecords(v, history, rs, settings, scanTime);
    PassOverRecordedIsQuiet(v, once, rs, rs, settings, scanTime);
    PassSentBounded(v, once, rs, settings, scanTime, deliver);
    PassCallsAreAttempts(v, once, rs, settings, scanTime);
  }

  /** With every notification flag off (as in the default settings) a pass
      attempts nothing, though it still rewrites the ledger. */
  lemma {:induction false} SilentSettingsAttemptNothing(v: Variant, history: map<string, History>,
                                                        rs: seq<CertResult>, settings: Settings, scanTime: Time)
    requires !settings.notifications.email.enabledWarning && !settings.notifications.email.enabledCritical
    requires !settings.notifications.ntfy.enabledWarning && !settings.notifications.ntfy.enabledCritical
    ensures PassAttempts(v, history, rs, settings, scanTime) == 0
    ensures PassCalls(v, history, rs, settings, scanTime) == []
  {
    if rs != [] {
      SilentSettingsAttemptNothing(v, history, rs[..|rs| - 1], settings, scanTime);
    }
    PassCallsAreAttempts(v, history, rs, settings, scanTime);
  }
}
