/** The text tables of the two senders (notify-send.go): email subject,
    ntfy title, priority and tags, and the rule that any HTTP answer but
    200 is a failed delivery. */
module NotifySend {
  import opened Wrappers
  import opened GoStrings
  import opened Scans
  import opened Notifications

  /** The title word of the email: "Critical", "Warning", else "Notice". */
  function EmailStatusTitle(status: string): (title: string)
    ensures status == StatusCritical ==> title == "Critical"
    ensures status == StatusWarning ==> title == "Warning"
    ensures status != StatusCritical && status != StatusWarning ==> title == "Notice"
  {
    match status
    case "critical" => "Critical"
    case "warning" => "Warning"
    case _ => "Notice"
  }

  const SubjectPrefix := "SSL Certificate "

  /** "SSL Certificate <Title>: <Name>". */
  function EmailSubject(result: CertResult, status: string): (subject: string)
    ensures |SubjectPrefix| < |subject| && subject[..|SubjectPrefix|] == SubjectPrefix
    ensures |result.name| < |subject| && subject[|subject| - |result.name|..] == result.name
  {
    SubjectPrefix + EmailStatusTitle(status) + ": " + result.name
  }

  lemma EmailSubjectExamples(result: CertResult)
    ensures EmailSubject(result, StatusCritical) == "SSL Certificate Critical: " + result.name
    ensures EmailSubject(result, StatusWarning) == "SSL Certificate Warning: " + result.name
    ensures EmailSubject(result, StatusNormal) == "SSL Certificate Notice: " + result.name
  {
    assert SubjectPrefix + "Critical" + ": " == "SSL Certificate Critical: ";
    assert SubjectPrefix + "Warning" + ": " == "SSL Certificate Warning: ";
    assert SubjectPrefix + "Notice" + ": " == "SSL Certificate Notice: ";
  }

  /** A subject names its certificate and title unambiguously: two equal
      subjects have the same site name and the same title. */
  lemma EmailSubjectInjective(r1: CertResult, s1: string, r2: CertResult, s2: string)
    requires EmailSubject(r1, s1) == EmailSubject(r2, s2)
    ensures EmailStatusTitle(s1) == EmailStatusTitle(s2)
    ensures r1.name == r2.name
  {
    var t1, t2 := EmailStatusTitle(s1), EmailStatusTitle(s2);
    var a, b := EmailSubject(r1, s1), EmailSubject(r2, s2);
    assert a[|SubjectPrefix|] == t1[0] && b[|SubjectPrefix|] == t2[0];
    assert t1 == t2;
    var n := |SubjectPrefix + t1 + ": "|;
    assert a[n..] == r1.name && b[n..] == r2.name;
  }

  /** The ntfy "Title" header: a warning or critical headline with the site
      name, empty for any other status. */
  function NtfyTitle(result: CertResult, status: string): (title: string)
    ensures status == StatusWarning ==> title == "SSL Warning: " + result.name
    ensures status == StatusCritical ==> title == "\U{1F6A8} SSL Critical: " + result.name
    ensures status != StatusCritical && status != StatusWarning ==> title == ""
  {
    match status
    case "warning" => "SSL Warning: " + result.name
    case "critical" => "\U{1F6A8} SSL Critical: " + result.name
    case _ => ""
  }

  /** The ntfy "Priority" header. */
  function NtfyPriority(status: string): (priority: string)
    ensures status == StatusWarning ==> priority == "high"
    ensures status == StatusCritical ==> priority == "urgent"
    ensures priority != "" <==> status == StatusWarning || status == StatusCritical
  {
    match status
    case "warning" => "high"
    case "critical" => "urgent"
    case _ => ""
  }

  /** The ntfy "Tags" header. */
  function NtfyTags(status: string): (tags: string)
    ensures status == StatusWarning ==> tags == "warning,ssl-monitor"
    ensures status == StatusCritical ==> tags == "warning,ssl-monitor,urgent"
    ensures tags != "" <==> status == StatusWarning || status == StatusCritical
  {
    match status
    case "warning" => "warning,ssl-monitor"
    case "critical" => "warning,ssl-monitor,urgent"
    case _ => ""
  }

  /** A critical notice carries every warning tag and adds "urgent". */
  lemma CriticalTagsExtendWarningTags()
    ensures NtfyTags(StatusCritical) == NtfyTags(StatusWarning) + ",urgent"
  {
  }

  /** What the HTTP exchange gave: no answer (the request could not be
      built or sent), or an answer with a status code. */
  datatype Exchange = RequestFailed(message: string) | Responded(statusCode: int)

  const PostmarkService := "postmark"
  const NtfyService := "ntfy"

  /** The outcome a sender returns: the transport error as is, success for
      200 and "<service> returned status code: <code>" for any other
      answer. */
  function DeliveryOutcome(service: string, exchange: Exchange): (o: Outcome)
    ensures o.Pass? <==> exchange == Responded(200)
    ensures exchange.RequestFailed? ==> o == Fail(exchange.message)
  {
    match exchange
    case RequestFailed(message) => Fail(message)
    case Responded(code) =>
      if code != 200 then Fail(service + " returned status code: " + Itoa(code)) else Pass
  }

  /** The failure text of a non-200 answer gives the status code back. */
  lemma DeliveryOutcomeReportsCode(service: string, code: int)
    requires code != 200 && MinInt <= code <= MaxInt
    ensures var o := DeliveryOutcome(service, Responded(code));
            var prefix := service + " returned status code: ";
            && o.Fail? && |prefix| <= |o.error| && o.error[..|prefix|] == prefix
            && Atoi(o.error[|prefix|..]) == Some(code)
  {
    var prefix := service + " returned status code: ";
    var o := DeliveryOutcome(service, Responded(code));
    assert o.error == prefix + Itoa(code);
    assert o.error[|prefix|..] == Itoa(code);
    AtoiItoa(code);
  }
}
