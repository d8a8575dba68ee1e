/** The results dashboard (src/results.go): colour classes, the conversion of
    scan results to display rows, the in-place urgency sort and the
    staleness flag. */
module Results {
  import opened Wrappers
  import opened GoStrings
  import opened Scans
  import opened Config
  import opened Notifications

  const Red := "red"
  const Yellow := "yellow"
  const Green := "green"
  const Grey := "grey"

  /** `getColorClass`: red below the critical threshold (checked first),
      yellow below the warning threshold, green otherwise. */
  function GetColorClass(daysLeft: int, settings: Settings): (c: string)
    ensures c == Red <==> daysLeft < settings.dashboard.colorThresholds.critical
    ensures c == Yellow <==>
              settings.dashboard.colorThresholds.critical <= daysLeft < settings.dashboard.colorThresholds.warning
    ensures c == Green <==>
              daysLeft >= settings.dashboard.colorThresholds.critical
              && daysLeft >= settings.dashboard.colorThresholds.warning
  {
    if daysLeft < settings.dashboard.colorThresholds.critical then Red
    else if daysLeft < settings.dashboard.colorThresholds.warning then Yellow
    else Green
  }

  /** The dashboard colour and the notifier's status always agree: red is
      critical, yellow is warning, green is normal. */
  lemma ColorMatchesNotifierStatus(daysLeft: int, settings: Settings)
    ensures GetColorClass(daysLeft, settings) == Red <==> DetermineCurrentStatus(daysLeft, settings) == StatusCritical
    ensures GetColorClass(daysLeft, settings) == Yellow <==> DetermineCurrentStatus(daysLeft, settings) == StatusWarning
    ensures GetColorClass(daysLeft, settings) == Green <==> DetermineCurrentStatus(daysLeft, settings) == StatusNormal
  {
  }

  /** The boundary cases with thresholds 30/7: a threshold day takes the
      milder colour, and no days left (or fewer) is red. */
  lemma ColorExamples(settings: Settings)
    requires settings.dashboard.colorThresholds == ColorThresholds(30, 7)
    ensures GetColorClass(5, settings) == Red
    ensures GetColorClass(7, settings) == Yellow
    ensures GetColorClass(15, settings) == Yellow
    ensures GetColorClass(30, settings) == Green
    ensures GetColorClass(45, settings) == Green
    ensures GetColorClass(0, settings) == Red && GetColorClass(-5, settings) == Red
  {
  }

  datatype ResultDisplay = ResultDisplay(
    url: string,
    name: string,
    expiryDate: Time,
    daysLeft: int,
    lastCheck: Time,
    error: string,
    colorClass: string,
    hasError: bool)

  /** One row of the conversion loop: the result's fields copied, the error
      flag set from the error text, grey for an error whatever the days
      left. */
  function ToDisplay(r: CertResult, settings: Settings): (d: ResultDisplay)
    ensures d.url == r.url && d.name == r.name && d.expiryDate == r.expiryDate
    ensures d.daysLeft == r.daysLeft && d.lastCheck == r.lastCheck && d.error == r.error
    ensures d.hasError <==> r.error != ""
    ensures d.colorClass == Grey <==> d.hasError
    ensures !d.hasError ==> d.colorClass == GetColorClass(r.daysLeft, settings)
  {
    var hasError := r.error != "";
    ResultDisplay(r.url, r.name, r.expiryDate, r.daysLeft, r.lastCheck, r.error,
                  if hasError then Grey else GetColorClass(r.daysLeft, settings), hasError)
  }

  /** The conversion loop: a fresh slice with one row per result, filled in
      index order. */
  method BuildDisplayRows(results: seq<CertResult>, settings: Settings) returns (rows: array<ResultDisplay>)
    ensures fresh(rows)
    ensures rows.Length == |results|
    ensures forall i :: 0 <= i < |results| ==> rows[i] == ToDisplay(results[i], settings)
  {
    rows := new ResultDisplay[|results|](i => ResultDisplay("", "", ZeroTime, 0, ZeroTime, "", "", false));
    for i := 0 to |results|
      invariant forall k :: 0 <= k < i ==> rows[k] == ToDisplay(results[k], settings)
    {
      rows[i] := ToDisplay(results[i], settings);
    }
  }

  // ---------------------------------------------------------------------
  // Urgency order

  /** The `sort.Slice` comparator: error rows first; error rows by name;
      other rows by days left. */
  predicate Less(x: ResultDisplay, y: ResultDisplay)
    ensures Less(x, y) && !x.hasError ==> !y.hasError && x.daysLeft < y.daysLeft
    ensures Less(x, y) && y.hasError ==> x.hasError && !StrLess(y.name, x.name)
  {
    if x.hasError && !y.hasError then true
    else if !x.hasError && y.hasError then false
    else if x.hasError && y.hasError then (StrLessAsymmetric(x.name, y.name); StrLess(x.name, y.name))
    else x.daysLeft < y.daysLeft
  }

  lemma LessIrreflexive(x: ResultDisplay)
    ensures !Less(x, x)
  {
    StrLessIrreflexive(x.name);
  }

  lemma LessAsymmetric(x: ResultDisplay, y: ResultDisplay)
    requires Less(x, y)
    ensures !Less(y, x)
  {
  }

  lemma LessTransitive(x: ResultDisplay, y: ResultDisplay, z: ResultDisplay)
    requires Less(x, y) && Less(y, z)
    ensures Less(x, z)
  {
    if x.hasError && y.hasError && z.hasError {
      StrLessTransitive(x.name, y.name, z.name);
    }
  }

  /** No row is more urgent than a row placed before it. */
  ghost predicate SortedByUrgency(s: seq<ResultDisplay>)
  {
    forall i, j :: 0 <= i < j < |s| ==> !Less(s[j], s[i])
  }

  /** Index of a most urgent row of `a[from..]`. */
  method MostUrgent(a: array<ResultDisplay>, from: nat) returns (m: nat)
    requires from < a.Length
    ensures from <= m < a.Length
    ensures forall q :: from <= q < a.Length ==> !Less(a[q], a[m])
  {
    m := from;
    LessIrreflexive(a[from]);
    for j := from + 1 to a.Length
      invariant from <= m < j
      invariant forall q :: from <= q < j ==> !Less(a[q], a[m])
    {
      if Less(a[j], a[m]) {
        forall q | from <= q < j
          ensures !Less(a[q], a[j])
        {
          if Less(a[q], a[j]) {
            LessTransitive(a[q], a[j], a[m]);
          }
        }
        LessIrreflexive(a[j]);
        m := j;
      }
    }
  }

  method Swap(a: array<ResultDisplay>, i: nat, j: nat)
    requires i < a.Length && j < a.Length
    modifies a
    ensures a[..] == old(a[..])[i := old(a[j])][j := old(a[i])]
    ensures multiset(a[..]) == multiset(old(a[..]))
  {
    a[i], a[j] := a[j], a[i];
  }

  /** The two facts the sort keeps about the first `i` rows: they are in
      urgency order, and none of the remaining rows is more urgent than any
      of them. */
  ghost predicate SortedPrefix(s: seq<ResultDisplay>, i: nat)
    requires i <= |s|
  {
    && (forall p, q :: 0 <= p < q < i ==> !Less(s[q], s[p]))
    && (forall p, q :: 0 <= p < i <= q < |s| ==> !Less(s[q], s[p]))
  }

  /** Swapping a most urgent remaining row into place `i` extends the
      sorted prefix by one. */
  lemma SwapExtendsPrefix(s: seq<ResultDisplay>, i: nat, m: nat)
    requires i <= m < |s| && SortedPrefix(s, i)
    requires forall q :: i <= q < |s| ==> !Less(s[q], s[m])
    ensures SortedPrefix(s[i := s[m]][m := s[i]], i + 1)
  {
    var t := s[i := s[m]][m := s[i]];
    forall p, q | 0 <= p < i + 1 <= q < |s|
      ensures !Less(t[q], t[p])
    {
      assert t[q] == s[if q == m then i else q];
    }
  }

  /** The in-place sort: afterwards the rows are a permutation of what they
      were, in urgency order. */
  method SortByUrgency(a: array<ResultDisplay>)
    modifies a
    ensures multiset(a[..]) == multiset(old(a[..]))
    ensures SortedByUrgency(a[..])
  {
    for i := 0 to a.Length
      invariant multiset(a[..]) == multiset(old(a[..]))
      invariant SortedPrefix(a[..], i)
    {
      var m := MostUrgent(a, i);
      SwapExtendsPrefix(a[..], i, m);
      Swap(a, i, m);
    }
  }

  /** The rows the dashboard shows: converted, then sorted. */
  method DisplayRows(results: ScanResults, settings: Settings) returns (rows: array<ResultDisplay>)
    ensures fresh(rows)
    ensures multiset(rows[..]) == multiset(seq(|results.results|, i requires 0 <= i < |results.results| =>
                                                 ToDisplay(results.results[i], settings)))
    ensures SortedByUrgency(rows[..])
  {
    rows := BuildDisplayRows(results.results, settings);
    assert rows[..] == seq(|results.results|, i requires 0 <= i < |results.results| =>
                             ToDisplay(results.results[i], settings));
    SortByUrgency(rows);
  }

  /** In urgency order every error row comes before every other row. */
  lemma ErrorsFirst(s: seq<ResultDisplay>, i: nat, j: nat)
    requires SortedByUrgency(s)
    requires i < |s| && j < |s| && s[j].hasError && !s[i].hasError
    ensures j < i
  {
    assert Less(s[j], s[i]);
  }

  /** Error rows are in ascending name order (equal names may sit either
      way round). */
  lemma ErrorRowsByName(s: seq<ResultDisplay>, i: nat, j: nat)
    requires SortedByUrgency(s)
    requires i < j < |s| && s[i].hasError && s[j].hasError
    ensures s[i].name == s[j].name || StrLess(s[i].name, s[j].name)
  {
    assert !Less(s[j], s[i]);
    if s[i].name != s[j].name {
      StrLessTotal(s[i].name, s[j].name);
    }
  }

  /** Rows without an error are in ascending days-left order. */
  lemma HealthyRowsByDaysLeft(s: seq<ResultDisplay>, i: nat, j: nat)
    requires SortedByUrgency(s)
    requires i < j < |s| && !s[i].hasError && !s[j].hasError
    ensures s[i].daysLeft <= s[j].daysLeft
  {
    assert !Less(s[j], s[i]);
  }

  // ---------------------------------------------------------------------
  // Staleness

  /** `isStale`: the site list was modified (its time is not the zero time)
      after the last scan. */
  function IsStale(lastModified: Time, lastScan: Time): (stale: bool)
    ensures stale ==> lastModified != ZeroTime
    ensures lastModified != ZeroTime ==> (stale <==> lastScan < lastModified)
  {
    lastModified != ZeroTime && lastModified > lastScan
  }

  /** A site list never modified is never stale, and a scan at or after the
      last modification clears staleness. */
  lemma ScanClearsStaleness(lastModified: Time, lastScan: Time)
    ensures !IsStale(ZeroTime, lastScan)
    ensures lastScan >= lastModified ==> !IsStale(lastModified, lastScan)
  {
  }
}
