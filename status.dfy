/** The /status endpoint (src/status.go): the notification ledger reduced to
    "critical", "warning" or "okay". */
module Status {
  import opened Wrappers
  import opened Notifications

  const StatusOK := 200
  const StatusInternalServerError := 500

  /** `http.Error` writes its message followed by a newline. */
  const StatusCheckFailedMessage := "Error checking status\n"

  /** The ledger entries whose last status is `status`. */
  function EntriesWith(history: map<string, History>, status: string): set<string>
  {
    set u | u in history && history[u].lastStatus == status
  }

  /** There are entries with `status` exactly when their count is
      positive. */
  lemma CountPositiveIffPresent(history: map<string, History>, status: string)
    ensures |EntriesWith(history, status)| > 0 <==> exists u :: u in history && history[u].lastStatus == status
  {
    if u :| u in history && history[u].lastStatus == status {
      assert u in EntriesWith(history, status);
    }
  }

  /** The body the endpoint reports for a ledger: critical wins over
      warning, which wins over okay; any other status counts for neither. */
  function Aggregate(history: map<string, History>): (body: string)
    ensures body == "critical" <==> exists u :: u in history && history[u].lastStatus == StatusCritical
    ensures body == "warning" <==>
              (forall u :: u in history ==> history[u].lastStatus != StatusCritical)
              && exists u :: u in history && history[u].lastStatus == StatusWarning
    ensures body == "okay" <==>
              forall u :: u in history ==> history[u].lastStatus != StatusCritical
                                           && history[u].lastStatus != StatusWarning
  {
    CountPositiveIffPresent(history, StatusCritical);
    CountPositiveIffPresent(history, StatusWarning);
    if |EntriesWith(history, StatusCritical)| > 0 then "critical"
    else if |EntriesWith(history, StatusWarning)| > 0 then "warning"
    else "okay"
  }

  /** The statuses held by a ledger, whatever the sites. */
  function Statuses(history: map<string, History>): set<string>
  {
    set u | u in history :: history[u].lastStatus
  }

  lemma SamePresence(h1: map<string, History>, h2: map<string, History>, s: string)
    requires Statuses(h1) == Statuses(h2)
    ensures (exists u :: u in h1 && h1[u].lastStatus == s) ==> (exists u :: u in h2 && h2[u].lastStatus == s)
  {
    if u :| u in h1 && h1[u].lastStatus == s {
      assert s in Statuses(h2);
      var w :| w in h2 && h2[w].lastStatus == s;
    }
  }

  /** The answer depends only on which statuses occur, not on the sites,
      their scan times, or the order of the map. */
  lemma AggregateDependsOnlyOnStatuses(h1: map<string, History>, h2: map<string, History>)
    requires Statuses(h1) == Statuses(h2)
    ensures Aggregate(h1) == Aggregate(h2)
  {
    SamePresence(h1, h2, StatusCritical);
    SamePresence(h2, h1, StatusCritical);
    SamePresence(h1, h2, StatusWarning);
    SamePresence(h2, h1, StatusWarning);
  }

  /** Entries among `visited` whose last status is `status`. */
  function Seen(history: map<string, History>, visited: set<string>, status: string): set<string>
  {
    set u | u in visited && u in history && history[u].lastStatus == status
  }

  lemma SeenGrows(history: map<string, History>, visited: set<string>, url: string, status: string)
    requires url in history && url !in visited
    ensures |Seen(history, visited + {url}, status)|
              == |Seen(history, visited, status)| + (if history[url].lastStatus == status then 1 else 0)
  {
    if history[url].lastStatus == status {
      assert Seen(history, visited + {url}, status) == Seen(history, visited, status) + {url};
    } else {
      assert Seen(history, visited + {url}, status) == Seen(history, visited, status);
    }
  }

  /** `statusHandler`: a ledger that cannot be loaded gives 500 with a fixed
      message; otherwise the entries are counted one by one and the body is
      chosen from the two counts. */
  method StatusHandler(stored: StateFile) returns (code: int, body: string, criticalCount: nat, warningCount: nat)
    ensures LoadNotificationState(stored).Err? ==>
              code == StatusInternalServerError && body == StatusCheckFailedMessage
    ensures LoadNotificationState(stored).Ok? ==>
              var history := LoadNotificationState(stored).value.history;
              && code == StatusOK
              && criticalCount == |EntriesWith(history, StatusCritical)|
              && warningCount == |EntriesWith(history, StatusWarning)|
              && body == Aggregate(history)
  {
    var state := LoadNotificationState(stored);
    if state.Err? {
      return StatusInternalServerError, StatusCheckFailedMessage, 0, 0;
    }
    var history := state.value.history;

    criticalCount, warningCount := 0, 0;
    var pending := history.Keys;
    ghost var visited: set<string> := {};
    while pending != {}
      invariant pending !! visited && pending + visited == history.Keys
      invariant criticalCount == |Seen(history, visited, StatusCritical)|
      invariant warningCount == |Seen(history, visited, StatusWarning)|
      decreases |pending|
    {
      var url :| url in pending;
      SeenGrows(history, visited, url, StatusCritical);
      SeenGrows(history, visited, url, StatusWarning);
      match history[url].lastStatus {
        case "critical" => criticalCount := criticalCount + 1;
        case "warning" => warningCount := warningCount + 1;
        case _ =>
      }
      pending := pending - {url};
      visited := visited + {url};
    }
    assert Seen(history, visited, StatusCritical) == EntriesWith(history, StatusCritical);
    assert Seen(history, visited, StatusWarning) == EntriesWith(history, StatusWarning);

    code := StatusOK;
    if criticalCount > 0 {
      body := "critical";
    } else if warningCount > 0 {
      body := "warning";
    } else {
      body := "okay";
    }
  }
}
