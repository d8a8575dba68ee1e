/** The scan step (src/scans.go): which sites are probed, in what order, and
    the shape of the certificate result the prober's answer is turned into.
    The TLS dial itself and the floating-point days-left arithmetic are the
    prober's business: they reach the model as a `Probe` value. */
module Scans {
  import opened Wrappers

  datatype Site = Site(name: string, url: string, enabled: bool, added: Time)

  /** `Error` is "" when the certificate was read. */
  datatype CertResult = CertResult(
    url: string, name: string, expiryDate: Time, daysLeft: int,
    lastCheck: Time, error: string)

  datatype ScanResults = ScanResults(lastScan: Time, results: seq<CertResult>)

  /** A Go error's text: the dialer's errors are never empty. */
  type ErrorText = s: string | s != [] witness "error"

  /** What dialling `url:443` and reading the peer certificates gave. */
  datatype ProbeOutcome =
    | DialFailed(message: ErrorText)
    | NoCertificates
    | Leaf(notAfter: Time, daysLeft: int)

  /** The prober's answer, with the instant at which it was asked. */
  datatype Probe = Probe(checkedAt: Time, outcome: ProbeOutcome)

  const NoCertificatesError := "No certificates found"

  /** The result is built from the site's URL and name and the check time;
      a failed probe fills in only `Error`, a successful one only the expiry
      and the days left. */
  function CheckCertificate(site: Site, probe: Probe): (r: CertResult)
    ensures r.url == site.url && r.name == site.name && r.lastCheck == probe.checkedAt
    ensures r.error != "" <==> !probe.outcome.Leaf?
    ensures !probe.outcome.Leaf? ==> r.daysLeft == 0 && r.expiryDate == ZeroTime
    ensures probe.outcome.Leaf? ==>
              r.daysLeft == probe.outcome.daysLeft && r.expiryDate == probe.outcome.notAfter
  {
    var blank := CertResult(site.url, site.name, ZeroTime, 0, probe.checkedAt, "");
    match probe.outcome
    case DialFailed(message) => blank.(error := message)
    case NoCertificates => blank.(error := NoCertificatesError)
    case Leaf(notAfter, daysLeft) => blank.(expiryDate := notAfter, daysLeft := daysLeft)
  }

  /** The results of scanning `sites` in order: one per enabled site. */
  function Scanned(sites: seq<Site>, probe: Site -> Probe): seq<CertResult>
  {
    if sites == [] then []
    else
      var last := sites[|sites| - 1];
      Scanned(sites[..|sites| - 1], probe)
        + (if last.enabled then [CheckCertificate(last, probe(last))] else [])
  }

  function CountEnabled(sites: seq<Site>): nat
  {
    if sites == [] then 0
    else CountEnabled(sites[..|sites| - 1]) + (if sites[|sites| - 1].enabled then 1 else 0)
  }

  /** `scanAllSites`: first counts the enabled sites (for the log line), then
      probes each enabled site in list order and appends its result. */
  method ScanAllSites(sites: seq<Site>, probe: Site -> Probe, now: Time)
    returns (results: ScanResults, enabledCount: nat)
    ensures results.lastScan == now
    ensures results.results == Scanned(sites, probe)
    ensures enabledCount == |results.results| == CountEnabled(sites)
  {
    results := ScanResults(now, []);
    enabledCount := 0;
    for i := 0 to |sites|
      invariant enabledCount == CountEnabled(sites[..i])
    {
      assert sites[..i + 1][..i] == sites[..i];
      if sites[i].enabled {
        enabledCount := enabledCount + 1;
      }
    }
    assert sites[..|sites|] == sites;
    for i := 0 to |sites|
      invariant results == ScanResults(now, Scanned(sites[..i], probe))
    {
      assert sites[..i + 1][..i] == sites[..i];
      var site := sites[i];
      if !site.enabled {
        continue;
      }
      var result := CheckCertificate(site, probe(site));
      results := results.(results := results.results + [result]);
    }
    ScannedLength(sites, probe);
  }

  lemma {:induction false} ScannedLength(sites: seq<Site>, probe: Site -> Probe)
    ensures |Scanned(sites, probe)| == CountEnabled(sites)
  {
    if sites != [] {
      ScannedLength(sites[..|sites| - 1], probe);
    }
  }

  /** Scanning a list in two parts gives the two parts' results in the same
      order: results follow the input order of the enabled sites. */
  lemma {:induction false} ScannedAppend(a: seq<Site>, b: seq<Site>, probe: Site -> Probe)
    ensures Scanned(a + b, probe) == Scanned(a, probe) + Scanned(b, probe)
  {
    if b == [] {
      assert a + b == a;
    } else {
      var b' := b[..|b| - 1];
      assert (a + b)[..|a + b| - 1] == a + b';
      ScannedAppend(a, b', probe);
    }
  }

  /** Every result comes from an enabled site of the list and carries that
      site's URL and name; disabled sites contribute nothing. */
  lemma {:induction false} ScannedFromEnabled(sites: seq<Site>, probe: Site -> Probe, k: nat)
    requires k < |Scanned(sites, probe)|
    ensures exists j :: 0 <= j < |sites| && sites[j].enabled
              && Scanned(sites, probe)[k] == CheckCertificate(sites[j], probe(sites[j]))
  {
    var init := sites[..|sites| - 1];
    var last := sites[|sites| - 1];
    if k < |Scanned(init, probe)| {
      ScannedFromEnabled(init, probe, k);
      var j :| 0 <= j < |init| && init[j].enabled
               && Scanned(init, probe)[k] == CheckCertificate(init[j], probe(init[j]));
      assert sites[j] == init[j];
    } else {
      assert sites[|sites| - 1] == last;
    }
  }

  /** A list without enabled sites scans to nothing (including the empty
      list). */
  lemma {:induction false} NothingEnabledScansNothing(sites: seq<Site>, probe: Site -> Probe)
    requires forall j :: 0 <= j < |sites| ==> !sites[j].enabled
    ensures Scanned(sites, probe) == []
  {
    if sites != [] {
      NothingEnabledScansNothing(sites[..|sites| - 1], probe);
    }
  }
}
