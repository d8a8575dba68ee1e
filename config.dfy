/** Settings of the current version (src/settings.go): the default settings,
    `parseInt`, the form-update rules of `saveSettingsFromForm`, the
    threshold-changed test that triggers re-processing of notifications, and
    the completeness checks of the two test-notification endpoints. */
module Config {
  import opened Wrappers
  import opened GoStrings

  datatype NtfySettings = NtfySettings(enabledWarning: bool, enabledCritical: bool, url: string)

  datatype EmailSettings = EmailSettings(
    enabledWarning: bool, enabledCritical: bool, provider: string,
    serverToken: string, from: string, to: string, messageStream: string)

  datatype NotificationSettings = NotificationSettings(ntfy: NtfySettings, email: EmailSettings)

  datatype ColorThresholds = ColorThresholds(warning: int, critical: int)

  datatype DashboardSettings = DashboardSettings(port: int, colorThresholds: ColorThresholds)

  datatype Settings = Settings(
    scanIntervalHours: int, notifications: NotificationSettings, dashboard: DashboardSettings)

  /** The settings written when no settings file exists. */
  function DefaultSettings(): (d: Settings)
    ensures d.scanIntervalHours > 0 && d.dashboard.port > 0
    ensures d.dashboard.colorThresholds.warning > d.dashboard.colorThresholds.critical > 0
    ensures !d.notifications.email.enabledWarning && !d.notifications.email.enabledCritical
    ensures !d.notifications.ntfy.enabledWarning && !d.notifications.ntfy.enabledCritical
  {
    Settings(
      24,
      NotificationSettings(
        NtfySettings(false, false, ""),
        EmailSettings(false, false, "postmark", "", "", "", "ssl-monitor")),
      DashboardSettings(8080, ColorThresholds(28, 7)))
  }

  /** What the settings test expects of the defaults: a daily scan, port
      8080, warning below 28 days and critical below 7, Postmark with the
      "ssl-monitor" stream, and every notification switched off. */
  lemma DefaultSettingsValues()
    ensures var d := DefaultSettings();
      && d.scanIntervalHours == 24 && d.dashboard.port == 8080
      && d.dashboard.colorThresholds == ColorThresholds(28, 7)
      && d.notifications.email.provider == "postmark"
      && d.notifications.email.messageStream == "ssl-monitor"
      && !d.notifications.email.enabledWarning && !d.notifications.email.enabledCritical
      && !d.notifications.ntfy.enabledWarning && !d.notifications.ntfy.enabledCritical
  {
  }

  /** `parseInt`: the value `strconv.Atoi` reads, or 0 when it fails. */
  function ParseInt(s: string): (v: int)
    ensures Atoi(s).Some? ==> v == Atoi(s).value
    ensures Atoi(s).None? ==> v == 0
    ensures MinInt <= v <= MaxInt
  {
    match Atoi(s)
    case Some(n) => n
    case None => 0
  }

  /** The examples of the parseInt test. */
  lemma ParseIntExamples()
    ensures ParseInt("123") == 123 && ParseInt("0") == 0 && ParseInt("-1") == -1
    ensures ParseInt("abc") == 0 && ParseInt("") == 0 && ParseInt("123.45") == 0
  {
    assert "123"[..2] == "12" && "12"[..1] == "1" && "1"[..0] == "";
    assert DigitsValue("1") == 1;
    assert DigitsValue("12") == 12;
    assert DigitsValue("123") == 123;
    assert "-1"[1..] == "1";
    assert !IsDigit("abc"[0]);
    assert !IsDigit("123.45"[3]);
  }

  /** A number rendered into a form field parses back to itself. */
  lemma ParseIntRendered(v: int)
    requires MinInt <= v <= MaxInt
    ensures ParseInt(Itoa(v)) == v
  {
    AtoiItoa(v);
  }

  /** A numeric form field that takes effect: present, non-empty, and
      positive once parsed. */
  predicate Overrides(form: Form, key: string)
  {
    FormValue(form, key) != "" && ParseInt(FormValue(form, key)) > 0
  }

  predicate Checked(form: Form, key: string)
  {
    FormValue(form, key) == "on"
  }

  /** The value a numeric field ends with: the parsed form value when it is
      non-empty and positive, otherwise the old value. */
  function Updated(form: Form, key: string, before: int): (v: int)
    ensures Overrides(form, key) ==> v == ParseInt(FormValue(form, key)) && v > 0
    ensures !Overrides(form, key) ==> v == before
    ensures before > 0 ==> v > 0
  {
    if Overrides(form, key) then ParseInt(FormValue(form, key)) else before
  }

  /** The guarded assignment the source repeats for each numeric field. */
  method UpdateNumber(form: Form, key: string, before: int) returns (v: int)
    ensures v == Updated(form, key, before)
  {
    v := before;
    var val := FormValue(form, key);
    if val != "" {
      var n := ParseInt(val);
      if n > 0 {
        v := n;
      }
    }
  }

  /** A numeric field submitted as the form rendered it (with `Itoa`)
      keeps its value: it parses back to itself, or is ignored when it is
      not positive. */
  lemma ResubmittedNumberKeepsValue(before: int, form: Form, key: string)
    requires MinInt <= before <= MaxInt
    requires key in form && form[key] == Itoa(before)
    ensures Updated(form, key, before) == before
  {
    ParseIntRendered(before);
  }

  /** `s` is `current` with the form applied: every field of the settings
      is fixed by the form and the old settings. */
  predicate FormApplied(current: Settings, form: Form, s: Settings)
  {
    // numeric fields: replaced only by a positive parsed value
    && s.scanIntervalHours == Updated(form, "scan_interval_hours", current.scanIntervalHours)
    && s.dashboard.colorThresholds ==
         ColorThresholds(Updated(form, "dashboard_warning", current.dashboard.colorThresholds.warning),
                         Updated(form, "dashboard_critical", current.dashboard.colorThresholds.critical))
    // checkboxes: on iff the value is exactly "on"
    && s.notifications.email.enabledWarning == Checked(form, "email_enabled_warning")
    && s.notifications.email.enabledCritical == Checked(form, "email_enabled_critical")
    && s.notifications.ntfy.enabledWarning == Checked(form, "ntfy_enabled_warning")
    && s.notifications.ntfy.enabledCritical == Checked(form, "ntfy_enabled_critical")
    // text fields: overwritten unconditionally, even with ""
    && s.notifications.email.serverToken == FormValue(form, "email_server_token")
    && s.notifications.email.from == FormValue(form, "email_from")
    && s.notifications.email.to == FormValue(form, "email_to")
    && s.notifications.email.messageStream == FormValue(form, "email_message_stream")
    && s.notifications.ntfy.url == FormValue(form, "ntfy_url")
    // never touched
    && s.notifications.email.provider == current.notifications.email.provider
    && s.dashboard.port == current.dashboard.port
  }

  /** Applying a form has exactly one outcome: nothing in the settings is
      left open. */
  lemma FormAppliedDetermines(current: Settings, form: Form, s1: Settings, s2: Settings)
    requires FormApplied(current, form, s1) && FormApplied(current, form, s2)
    ensures s1 == s2
  {
    assert s1.notifications.email == s2.notifications.email;
    assert s1.notifications.ntfy == s2.notifications.ntfy;
  }

  /** The field updates of `saveSettingsFromForm`, applied in order to the
      loaded settings. */
  method ApplySettingsForm(current: Settings, form: Form) returns (s: Settings)
    ensures FormApplied(current, form, s)
    // positive numbers stay positive, whatever the form holds
    ensures current.scanIntervalHours > 0 ==> s.scanIntervalHours > 0
    ensures current.dashboard.colorThresholds.warning > 0 ==> s.dashboard.colorThresholds.warning > 0
    ensures current.dashboard.colorThresholds.critical > 0 ==> s.dashboard.colorThresholds.critical > 0
    // the re-processing trigger fires exactly when a threshold field overrides with a new value
    ensures ThresholdsChanged(current, s) <==>
              (Overrides(form, "dashboard_warning")
                 && ParseInt(form["dashboard_warning"]) != current.dashboard.colorThresholds.warning)
              || (Overrides(form, "dashboard_critical")
                 && ParseInt(form["dashboard_critical"]) != current.dashboard.colorThresholds.critical)
  {
    s := current;
    var hours := UpdateNumber(form, "scan_interval_hours", s.scanIntervalHours);
    s := s.(scanIntervalHours := hours);

    var days := UpdateNumber(form, "dashboard_warning", s.dashboard.colorThresholds.warning);
    s := s.(dashboard := s.dashboard.(colorThresholds := s.dashboard.colorThresholds.(warning := days)));
    days := UpdateNumber(form, "dashboard_critical", s.dashboard.colorThresholds.critical);
    s := s.(dashboard := s.dashboard.(colorThresholds := s.dashboard.colorThresholds.(critical := days)));

    var email := s.notifications.email;
    email := email.(enabledWarning := FormValue(form, "email_enabled_warning") == "on");
    email := email.(enabledCritical := FormValue(form, "email_enabled_critical") == "on");
    email := email.(serverToken := FormValue(form, "email_server_token"));
    email := email.(from := FormValue(form, "email_from"));
    email := email.(to := FormValue(form, "email_to"));
    email := email.(messageStream := FormValue(form, "email_message_stream"));
    s := s.(notifications := s.notifications.(email := email));

    var ntfy := s.notifications.ntfy;
    ntfy := ntfy.(enabledWarning := FormValue(form, "ntfy_enabled_warning") == "on");
    ntfy := ntfy.(enabledCritical := FormValue(form, "ntfy_enabled_critical") == "on");
    ntfy := ntfy.(url := FormValue(form, "ntfy_url"));
    s := s.(notifications := s.notifications.(ntfy := ntfy));
  }

  /** `saveSettingsFromForm`: a form that cannot be parsed or settings that
      cannot be loaded abort before anything is written; otherwise the
      updated settings are handed to the save, whose error is returned. */
  method SaveSettingsFromForm(request: Result<Form>, loaded: Result<Settings>, saveResult: Outcome)
    returns (err: Outcome, written: Option<Settings>)
    ensures request.Err? ==> err == Fail(request.error) && written == None
    ensures request.Ok? && loaded.Err? ==> err == Fail(loaded.error) && written == None
    ensures request.Ok? && loaded.Ok? ==>
              err == saveResult && written.Some? && FormApplied(loaded.value, request.value, written.value)
  {
    if request.Err? {
      return Fail(request.error), None;
    }
    if loaded.Err? {
      return Fail(loaded.error), None;
    }
    var updated := ApplySettingsForm(loaded.value, request.value);
    return saveResult, Some(updated);
  }

  /** Thresholds changed iff the dashboard warning or critical value differs. */
  predicate ThresholdsChanged(before: Settings, after: Settings)
    ensures ThresholdsChanged(before, after) <==>
              before.dashboard.colorThresholds != after.dashboard.colorThresholds
  {
    before.dashboard.colorThresholds.warning != after.dashboard.colorThresholds.warning
    || before.dashboard.colorThresholds.critical != after.dashboard.colorThresholds.critical
  }

  const EmailIncompleteMessage := "Email settings incomplete (missing server token, from, or to address)"
  const NtfyNotConfiguredMessage := "NTFY URL not configured"

  /** The test-email endpoint refuses to send unless token, sender and
      recipient are all set; the stream may be empty. */
  function EmailTestPrecheck(e: EmailSettings): (r: Option<string>)
    ensures r.Some? <==> (e.serverToken == "" || e.from == "" || e.to == "")
    ensures r.Some? ==> r.value == EmailIncompleteMessage
  {
    if e.serverToken == "" || e.from == "" || e.to == "" then Some(EmailIncompleteMessage) else None
  }

  /** The test-ntfy endpoint refuses to send without a URL. */
  function NtfyTestPrecheck(url: string): (r: Option<string>)
    ensures r.Some? <==> url == ""
    ensures r.Some? ==> r.value == NtfyNotConfiguredMessage
  {
    if url == "" then Some(NtfyNotConfiguredMessage) else None
  }

  /** Fresh default settings are not ready for either test notification. */
  lemma DefaultsFailTestPrechecks()
    ensures EmailTestPrecheck(DefaultSettings().notifications.email) == Some(EmailIncompleteMessage)
    ensures NtfyTestPrecheck(DefaultSettings().notifications.ntfy.url) == Some(NtfyNotConfiguredMessage)
  {
  }
}
