/** Site-list editing (src/sites.go): scheme stripping and the add, edit,
    delete and toggle actions.  Each action reads the submitted form,
    loads the stored list, transforms it and hands it to the save; the
    load and the save are inputs (`stored`, `saveResult`) and the list
    handed to the save is returned as `written`. */
module Sites {
  import opened Wrappers
  import opened GoStrings
  import opened Scans

  /** `stripProtocol`: a leading "https://" or else "http://", matched
      without regard to letter case, is cut off; the rest keeps its case. */
  function StripProtocol(url: string): (r: string)
    ensures |url| - |r| in {0, 7, 8} && r == url[|url| - |r|..]
    ensures |url| - |r| == 8 <==> HasPrefixFold(url, "https://")
    ensures |url| - |r| == 7 <==> !HasPrefixFold(url, "https://") && HasPrefixFold(url, "http://")
  {
    if HasPrefixFold(url, "https://") then url[8..]
    else if HasPrefixFold(url, "http://") then url[7..]
    else url
  }

  /** Whatever the case of the scheme that was typed, stripping gives back
      the host part exactly. */
  lemma StripProtocolRemovesTypedScheme(scheme: string, rest: string)
    requires (|scheme| == 8 && HasPrefixFold(scheme, "https://"))
             || (|scheme| == 7 && HasPrefixFold(scheme, "http://"))
    ensures StripProtocol(scheme + rest) == rest
  {
    var url := scheme + rest;
    if |scheme| == 7 {
      assert LowerAscii(url[4]) == ':';
      assert !HasPrefixFold(url, "https://");
    } else {
      assert forall k :: 0 <= k < 8 ==> url[k] == scheme[k];
    }
    assert url[|scheme|..] == rest;
  }

  /** The host part keeps its own letter case. */
  lemma StripUpperCaseSchemeKeepsHostCase()
    ensures StripProtocol("HTTPS://Example.COM") == "Example.COM"
  {
    StripProtocolRemovesTypedScheme("HTTPS://", "Example.COM");
    assert "HTTPS://" + "Example.COM" == "HTTPS://Example.COM";
  }

  lemma StripPlainHttpScheme()
    ensures StripProtocol("http://example.com") == "example.com"
  {
    StripProtocolRemovesTypedScheme("http://", "example.com");
    assert "http://" + "example.com" == "http://example.com";
  }

  lemma StripWithoutScheme()
    ensures StripProtocol("example.com") == "example.com"
  {
    assert LowerAscii("example.com"[0]) != 'h';
  }

  /** A stand-in for the error returned when the index field is not a
      decimal integer; Go's own message quotes the offending input, which
      is not modelled. */
  const InvalidIndexErrorText := "invalid index"

  function FormIndex(form: Form): Option<int>
  {
    Atoi(FormValue(form, "index"))
  }

  /** `addSite`.  An empty name or URL (after trimming) is ignored without
      loading anything; emptiness is judged before the scheme is stripped. */
  method AddSite(request: Result<Form>, stored: Result<seq<Site>>, saveResult: Outcome, now: Time)
    returns (err: Outcome, written: Option<seq<Site>>)
    ensures request.Err? ==> err == Fail(request.error) && written == None
    ensures request.Ok? ==>
              var name := TrimSpace(FormValue(request.value, "name"));
              var url := TrimSpace(FormValue(request.value, "url"));
              && (name == "" || url == "" ==> err == Pass && written == None)
              && (name != "" && url != "" && stored.Err? ==> err == Fail(stored.error) && written == None)
              && (name != "" && url != "" && stored.Ok? ==>
                    err == saveResult
                    && written == Some(stored.value + [Site(name, StripProtocol(url), true, now)]))
  {
    if request.Err? {
      return Fail(request.error), None;
    }
    var form := request.value;
    var name := TrimSpace(FormValue(form, "name"));
    var url := TrimSpace(FormValue(form, "url"));
    if name == "" || url == "" {
      return Pass, None;
    }
    url := StripProtocol(url);
    if stored.Err? {
      return Fail(stored.error), None;
    }
    var sites := stored.value;
    var newSite := Site(name, url, true, now);
    sites := sites + [newSite];
    return saveResult, Some(sites);
  }

  /** The list with the `index`th site renamed and re-pointed; its flag,
      its added time and every other site are kept. */
  function EditAt(sites: seq<Site>, index: nat, name: string, url: string): (r: seq<Site>)
    requires index < |sites|
    ensures |r| == |sites|
    ensures r[index] == Site(name, url, sites[index].enabled, sites[index].added)
    ensures forall k :: 0 <= k < |sites| && k != index ==> r[k] == sites[k]
  {
    sites[index := sites[index].(name := name, url := url)]
  }

  /** `editSite`: a bad index is an error; an empty field or an index out
      of range is ignored; otherwise only the name and URL of the indexed
      site change. */
  method EditSite(request: Result<Form>, stored: Result<seq<Site>>, saveResult: Outcome)
    returns (err: Outcome, written: Option<seq<Site>>)
    ensures request.Err? ==> err == Fail(request.error) && written == None
    ensures request.Ok? && FormIndex(request.value).None? ==> err == Fail(InvalidIndexErrorText) && written == None
    ensures request.Ok? && FormIndex(request.value).Some?
            && (TrimSpace(FormValue(request.value, "name")) == "" || TrimSpace(FormValue(request.value, "url")) == "")
            ==> err == Pass && written == None
    ensures request.Ok? && FormIndex(request.value).Some?
            && TrimSpace(FormValue(request.value, "name")) != "" && TrimSpace(FormValue(request.value, "url")) != ""
            ==> EditOutcome(stored, FormIndex(request.value).value, TrimSpace(FormValue(request.value, "name")),
                            StripProtocol(TrimSpace(FormValue(request.value, "url"))), saveResult, err, written)
  {
    if request.Err? {
      return Fail(request.error), None;
    }
    var form := request.value;
    var parsed := FormIndex(form);
    if parsed.None? {
      return Fail(InvalidIndexErrorText), None;
    }
    var index := parsed.value;
    var name := TrimSpace(FormValue(form, "name"));
    var url := TrimSpace(FormValue(form, "url"));
    if name == "" || url == "" {
      return Pass, None;
    }
    url := StripProtocol(url);
    err, written := EditLoaded(stored, index, name, url, saveResult);
  }

  /** The second half of `editSite`: load, check the index, rewrite the two
      fields of the indexed site, save. */
  method EditLoaded(stored: Result<seq<Site>>, index: int, name: string, url: string, saveResult: Outcome)
    returns (err: Outcome, written: Option<seq<Site>>)
    ensures EditOutcome(stored, index, name, url, saveResult, err, written)
  {
    if stored.Err? {
      return Fail(stored.error), None;
    }
    var sites := stored.value;
    if index < 0 || index >= |sites| {
      return Pass, None;
    }
    var site := sites[index];
    site := site.(name := name);
    site := site.(url := url);
    sites := sites[index := site];
    return saveResult, Some(sites);
  }

  /** What `editSite` does once the form has given a well-formed index and
      non-empty fields: a load error is returned, an index out of range is
      ignored, and otherwise the edited list is handed to the save. */
  predicate EditOutcome(stored: Result<seq<Site>>, index: int, name: string, url: string,
                        saveResult: Outcome, err: Outcome, written: Option<seq<Site>>)
  {
    if stored.Err? then err == Fail(stored.error) && written == None
    else if !(0 <= index < |stored.value|) then err == Pass && written == None
    else err == saveResult && written == Some(EditAt(stored.value, index, name, url))
  }

  /** The list without its `index`th element, the others in order. */
  function RemoveAt(sites: seq<Site>, index: nat): (r: seq<Site>)
    requires index < |sites|
    ensures |r| == |sites| - 1
    ensures forall k :: 0 <= k < index ==> r[k] == sites[k]
    ensures forall k :: index <= k < |r| ==> r[k] == sites[k + 1]
  {
    sites[..index] + sites[index + 1..]
  }

  /** Removing an element loses exactly that one element. */
  lemma RemoveAtLosesOne(sites: seq<Site>, index: nat)
    requires index < |sites|
    ensures multiset(RemoveAt(sites, index)) + multiset{sites[index]} == multiset(sites)
  {
    assert sites == sites[..index] + [sites[index]] + sites[index + 1..];
  }

  /** `deleteSite`: a bad index is an error, an index out of range is
      ignored, otherwise the indexed site is removed. */
  method DeleteSite(request: Result<Form>, stored: Result<seq<Site>>, saveResult: Outcome)
    returns (err: Outcome, written: Option<seq<Site>>)
    ensures request.Err? ==> err == Fail(request.error) && written == None
    ensures request.Ok? && FormIndex(request.value).None? ==> err == Fail(InvalidIndexErrorText) && written == None
    ensures request.Ok? && FormIndex(request.value).Some? ==>
              var index := FormIndex(request.value).value;
              && (stored.Err? ==> err == Fail(stored.error) && written == None)
              && (stored.Ok? && !(0 <= index < |stored.value|) ==> err == Pass && written == None)
              && (stored.Ok? && 0 <= index < |stored.value| ==>
                    err == saveResult && written == Some(RemoveAt(stored.value, index)))
  {
    if request.Err? {
      return Fail(request.error), None;
    }
    var parsed := FormIndex(request.value);
    if parsed.None? {
      return Fail(InvalidIndexErrorText), None;
    }
    var index := parsed.value;
    if stored.Err? {
      return Fail(stored.error), None;
    }
    var sites := stored.value;
    if index < 0 || index >= |sites| {
      return Pass, None;
    }
    sites := sites[..index] + sites[index + 1..];
    return saveResult, Some(sites);
  }

  /** The list with the `index`th site's enabled flag flipped. */
  function ToggleAt(sites: seq<Site>, index: nat): (r: seq<Site>)
    requires index < |sites|
    ensures |r| == |sites|
    ensures r[index].enabled == !sites[index].enabled
    ensures r[index] == sites[index].(enabled := r[index].enabled)
    ensures forall k :: 0 <= k < |sites| && k != index ==> r[k] == sites[k]
  {
    sites[index := sites[index].(enabled := !sites[index].enabled)]
  }

  /** Toggling the same site twice restores the list. */
  lemma ToggleTwice(sites: seq<Site>, index: nat)
    requires index < |sites|
    ensures ToggleAt(ToggleAt(sites, index), index) == sites
  {
    var once := ToggleAt(sites, index);
    var twice := ToggleAt(once, index);
    assert forall k :: 0 <= k < |sites| ==> twice[k] == sites[k];
  }

  /** `toggleSite`: a bad index is an error, an index out of range is
      ignored, otherwise only the indexed site's flag flips. */
  method ToggleSite(request: Result<Form>, stored: Result<seq<Site>>, saveResult: Outcome)
    returns (err: Outcome, written: Option<seq<Site>>)
    ensures request.Err? ==> err == Fail(request.error) && written == None
    ensures request.Ok? && FormIndex(request.value).None? ==> err == Fail(InvalidIndexErrorText) && written == None
    ensures request.Ok? && FormIndex(request.value).Some? ==>
              var index := FormIndex(request.value).value;
              && (stored.Err? ==> err == Fail(stored.error) && written == None)
              && (stored.Ok? && !(0 <= index < |stored.value|) ==> err == Pass && written == None)
              && (stored.Ok? && 0 <= index < |stored.value| ==>
                    err == saveResult && written == Some(ToggleAt(stored.value, index)))
  {
    if request.Err? {
      return Fail(request.error), None;
    }
    var parsed := FormIndex(request.value);
    if parsed.None? {
      return Fail(InvalidIndexErrorText), None;
    }
    var index := parsed.value;
    if stored.Err? {
      return Fail(stored.error), None;
    }
    var sites := stored.value;
    if index < 0 || index >= |sites| {
      return Pass, None;
    }
    sites := sites[index := sites[index].(enabled := !sites[index].enabled)];
    return saveResult, Some(sites);
  }
}
