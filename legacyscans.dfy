/** The scan step of the older version (sites.go at the repository root):
    one loop, no count.  Its certificate result has the same shape as the
    current one, so `Scans.CheckCertificate` and `Scans.Scanned` describe
    it. */
module LegacyScans {
  import opened Wrappers
  import opened Scans

  /** `scanAllSites`: enabled sites are probed in list order, each result
      appended as it comes. */
  method ScanAllSites(sites: seq<Site>, probe: Site -> Probe, now: Time) returns (results: ScanResults)
    ensures results.lastScan == now
    ensures results.results == Scanned(sites, probe)
    ensures |results.results| == CountEnabled(sites)
  {
    results := ScanResults(now, []);
    for i := 0 to |sites|
      invariant results == ScanResults(now, Scanned(sites[..i], probe))
    {
      assert sites[..i + 1][..i] == sites[..i];
      var site := sites[i];
      if !site.enabled {
        continue;
      }
      var result := CheckCertificate(site, probe(site));
      results := results.(results := results.results + [result]);
    }
    assert sites[..|sites|] == sites;
    ScannedLength(sites, probe);
  }
}
