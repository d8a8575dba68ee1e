/** Settings of the older version (settings.go at the repository root): one
    enabled flag and one pair of day thresholds per channel, and a
    dashboard with green, yellow and red values that the form never
    touches.  Its `parseInt` is the same as the current one
    (`Config.ParseInt`). */
module LegacyConfig {
  import opened Wrappers
  import opened Config

  datatype Thresholds = Thresholds(warning: int, critical: int)

  datatype NtfySettings = NtfySettings(enabled: bool, url: string, thresholds: Thresholds)

  datatype EmailSettings = EmailSettings(
    enabled: bool, provider: string, serverToken: string, from: string, to: string,
    messageStream: string, thresholds: Thresholds)

  datatype NotificationSettings = NotificationSettings(ntfy: NtfySettings, email: EmailSettings)

  datatype ColorThresholds = ColorThresholds(green: int, yellow: int, red: int)

  datatype DashboardSettings = DashboardSettings(port: int, colorThresholds: ColorThresholds)

  datatype Settings = Settings(
    scanIntervalHours: int, notifications: NotificationSettings, dashboard: DashboardSettings)

  /** `s` is `current` with the form applied: every field is fixed by the
      form and the old settings. */
  predicate FormApplied(current: Settings, form: Form, s: Settings)
  {
    && s.scanIntervalHours == Updated(form, "scan_interval_hours", current.scanIntervalHours)
    && s.notifications.email.thresholds ==
         Thresholds(Updated(form, "email_warning", current.notifications.email.thresholds.warning),
                    Updated(form, "email_critical", current.notifications.email.thresholds.critical))
    && s.notifications.ntfy.thresholds ==
         Thresholds(Updated(form, "ntfy_warning", current.notifications.ntfy.thresholds.warning),
                    Updated(form, "ntfy_critical", current.notifications.ntfy.thresholds.critical))
    && s.notifications.email.enabled == Checked(form, "email_enabled")
    && s.notifications.ntfy.enabled == Checked(form, "ntfy_enabled")
    && s.notifications.email.serverToken == FormValue(form, "email_server_token")
    && s.notifications.email.from == FormValue(form, "email_from")
    && s.notifications.email.to == FormValue(form, "email_to")
    && s.notifications.email.messageStream == FormValue(form, "email_message_stream")
    && s.notifications.ntfy.url == FormValue(form, "ntfy_url")
    && s.notifications.email.provider == current.notifications.email.provider
    && s.dashboard == current.dashboard
  }

  /** Applying a form has exactly one outcome. */
  lemma FormAppliedDetermines(current: Settings, form: Form, s1: Settings, s2: Settings)
    requires FormApplied(current, form, s1) && FormApplied(current, form, s2)
    ensures s1 == s2
  {
    assert s1.notifications.email == s2.notifications.email;
    assert s1.notifications.ntfy == s2.notifications.ntfy;
  }

  /** Positive day thresholds and scan interval stay positive whatever the
      form holds. */
  lemma FormAppliedKeepsPositive(current: Settings, form: Form, s: Settings)
    requires FormApplied(current, form, s)
    requires current.scanIntervalHours > 0
    requires current.notifications.email.thresholds.warning > 0 && current.notifications.email.thresholds.critical > 0
    requires current.notifications.ntfy.thresholds.warning > 0 && current.notifications.ntfy.thresholds.critical > 0
    ensures s.scanIntervalHours > 0
    ensures s.notifications.email.thresholds.warning > 0 && s.notifications.email.thresholds.critical > 0
    ensures s.notifications.ntfy.thresholds.warning > 0 && s.notifications.ntfy.thresholds.critical > 0
  {
  }

  /** The field updates of `saveSettingsFromForm`, in source order. */
  method ApplySettingsForm(current: Settings, form: Form) returns (s: Settings)
    ensures FormApplied(current, form, s)
  {
    s := current;
    var hours := UpdateNumber(form, "scan_interval_hours", s.scanIntervalHours);
    s := s.(scanIntervalHours := hours);

    var email := s.notifications.email;
    email := email.(enabled := FormValue(form, "email_enabled") == "on");
    email := email.(serverToken := FormValue(form, "email_server_token"));
    email := email.(from := FormValue(form, "email_from"));
    email := email.(to := FormValue(form, "email_to"));
    email := email.(messageStream := FormValue(form, "email_message_stream"));
    var days := UpdateNumber(form, "email_warning", email.thresholds.warning);
    email := email.(thresholds := email.thresholds.(warning := days));
    days := UpdateNumber(form, "email_critical", email.thresholds.critical);
    email := email.(thresholds := email.thresholds.(critical := days));
    s := s.(notifications := s.notifications.(email := email));

    var ntfy := s.notifications.ntfy;
    ntfy := ntfy.(enabled := FormValue(form, "ntfy_enabled") == "on");
    ntfy := ntfy.(url := FormValue(form, "ntfy_url"));
    days := UpdateNumber(form, "ntfy_warning", ntfy.thresholds.warning);
    ntfy := ntfy.(thresholds := ntfy.thresholds.(warning := days));
    days := UpdateNumber(form, "ntfy_critical", ntfy.thresholds.critical);
    ntfy := ntfy.(thresholds := ntfy.thresholds.(critical := days));
    s := s.(notifications := s.notifications.(ntfy := ntfy));
  }

  /** `saveSettingsFromForm`: a form that cannot be parsed or settings that
      cannot be loaded abort before anything is written; otherwise the
      updated settings are handed to the save, whose error is returned. */
  method SaveSettingsFromForm(request: Result<Form>, loaded: Result<Settings>, saveResult: Outcome)
    returns (err: Outcome, written: Option<Settings>)
    ensures request.Err? ==> err == Fail(request.error) && written == None
    ensures request.Ok? && loaded.Err? ==> err == Fail(loaded.error) && written == None
    ensures request.Ok? && loaded.Ok? ==>
              err == saveResult && written.Some? && FormApplied(loaded.value, request.value, written.value)
  {
    if request.Err? {
      return Fail(request.error), None;
    }
    if loaded.Err? {
      return Fail(loaded.error), None;
    }
    var updated := ApplySettingsForm(loaded.value, request.value);
    return saveResult, Some(updated);
  }
}
