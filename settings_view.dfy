/** The Meta API settings page of src/pages/SettingsView.tsx: the mount
    status check, saving the configuration and testing the connection.
    Both buttons are disabled while `loading`; the request they start is
    recorded in `pending` until its answer arrives. */
module SettingsView {
  import opened Wrappers
  import opened Text

  datatype MetaConfig = MetaConfig(phoneId: string, wabaId: string, accessToken: string)

  const EmptyConfig := MetaConfig("", "", "")

  const Checking := "Checking..."
  const Configured := "Configured"
  const NotConfigured := "Not Configured"
  const CheckFailed := "Error checking status"
  const SavedText := "Settings saved successfully"
  const SaveFailedText := "Failed to save settings"
  const TestPassedText := "Connection successful!"
  const TestFailedText := "Connection failed"

  /** The body of `GET /settings/meta`. */
  datatype StatusResponse = StatusResponse(status: string, phoneId: string, wabaId: string)

  datatype NoticeKind = Success | Failure

  /** The banner under the form. */
  datatype Notice = Notice(kind: NoticeKind, text: string)

  /** The request one of the two buttons has sent. */
  datatype Pending = Idle | Saving(config: MetaConfig) | Testing

  /** The status label after the mount check. */
  function FetchedStatus(outcome: Result<StatusResponse, string>): string {
    if outcome.Err? then CheckFailed
    else if outcome.value.status == Configured then Configured
    else NotConfigured
  }

  /** The check ends in one of three labels: 'Configured' exactly when the
      backend says so, 'Error checking status' exactly when the request
      failed, and 'Not Configured' for any other answer; it never leaves
      'Checking...'. */
  lemma FetchedStatusCases(outcome: Result<StatusResponse, string>)
    ensures FetchedStatus(outcome) == Configured <==> outcome.Ok? && outcome.value.status == Configured
    ensures FetchedStatus(outcome) == CheckFailed <==> outcome.Err?
    ensures FetchedStatus(outcome) == NotConfigured <==> outcome.Ok? && outcome.value.status != Configured
    ensures FetchedStatus(outcome) != Checking
  {
  }

  /** The banner after a test: the fixed success text, or the backend's
      message (the fallback when missing or empty) as a failure. */
  function TestNotice(outcome: Result<(), Option<string>>): Notice {
    if outcome.Ok? then Notice(Success, TestPassedText)
    else Notice(Failure, OrDefault(outcome.error, TestFailedText))
  }

  /** A passed test shows 'Connection successful!' as a success; a failed
      one shows the backend's message as a failure, or 'Connection failed'
      when the message is missing or empty, so the text is never blank. */
  lemma TestNoticeCases(outcome: Result<(), Option<string>>)
    ensures TestNotice(outcome).kind == Success <==> outcome.Ok?
    ensures outcome.Ok? ==> TestNotice(outcome).text == TestPassedText
    ensures outcome.Err? && outcome.error.Some? && outcome.error.value != "" ==>
      TestNotice(outcome).text == outcome.error.value
    ensures outcome.Err? && (outcome.error.None? || outcome.error.value == "") ==>
      TestNotice(outcome).text == TestFailedText
    ensures TestNotice(outcome).text != ""
  {
    OrDefaultCases(if outcome.Err? then outcome.error else None, TestFailedText);
  }

  class SettingsPage {
    var metaConfig: MetaConfig
    var status: string
    var loading: bool
    var message: Option<Notice>
    var pending: Pending
    /** The mount effect's `GET /settings/meta` has not been answered. */
    var statusCheckOutstanding: bool

    ghost predicate Valid()
      reads this
    {
      loading <==> !pending.Idle?
    }

    constructor ()
      ensures Valid()
      ensures metaConfig == EmptyConfig && status == Checking && !loading && message == None
      ensures pending == Idle && statusCheckOutstanding
    {
      metaConfig := EmptyConfig;
      status := Checking;
      loading := false;
      message := None;
      pending := Idle;
      statusCheckOutstanding := true;
    }

    /** The three inputs. */
    method EditConfig(config: MetaConfig)
      requires Valid()
      modifies this
      ensures Valid()
      ensures metaConfig == config
      ensures status == old(status) && loading == old(loading) && message == old(message)
      ensures pending == old(pending) && statusCheckOutstanding == old(statusCheckOutstanding)
    {
      metaConfig := config;
    }

    /** The answer to the mount check: 'Configured' copies the phone and
        account ids and keeps the access token; the status label is
        `FetchedStatus(outcome)` in every case. */
    method FetchStatusResponse(outcome: Result<StatusResponse, string>)
      requires Valid() && statusCheckOutstanding
      modifies this
      ensures Valid()
      ensures status == FetchedStatus(outcome)
      ensures metaConfig == if outcome.Ok? && outcome.value.status == Configured
        then old(metaConfig).(phoneId := outcome.value.phoneId, wabaId := outcome.value.wabaId)
        else old(metaConfig)
      ensures !statusCheckOutstanding
      ensures loading == old(loading) && message == old(message) && pending == old(pending)
    {
      match outcome {
        case Ok(data) =>
          if data.status == Configured {
            status := Configured;
            metaConfig := metaConfig.(phoneId := data.phoneId, wabaId := data.wabaId);
          } else {
            status := NotConfigured;
          }
        case Err(_) =>
          status := CheckFailed;
      }
      statusCheckOutstanding := false;
    }

    /** 'Save Configuration': sets `loading`, clears the banner and posts
        the current configuration. */
    method SaveClick() returns (sent: Option<MetaConfig>)
      requires Valid()
      modifies this
      ensures Valid()
      ensures old(loading) ==> sent == None && message == old(message) && pending == old(pending)
      ensures !old(loading) ==> sent == Some(old(metaConfig)) && message == None && pending == Saving(old(metaConfig))
      ensures loading
      ensures metaConfig == old(metaConfig) && status == old(status)
      ensures statusCheckOutstanding == old(statusCheckOutstanding)
    {
      if loading {
        return None;
      }
      loading := true;
      message := None;
      pending := Saving(metaConfig);
      sent := Some(metaConfig);
    }

    /** The answer to the save: success shows the success banner and
        marks the page 'Configured'; failure shows the error banner and
        leaves the status as it was. `loading` ends false. */
    method SaveResponse(ok: bool)
      requires Valid() && pending.Saving?
      modifies this
      ensures Valid()
      ensures !loading && pending == Idle
      ensures ok ==> message == Some(Notice(Success, SavedText)) && status == Configured
      ensures !ok ==> message == Some(Notice(Failure, SaveFailedText)) && status == old(status)
      ensures metaConfig == old(metaConfig) && statusCheckOutstanding == old(statusCheckOutstanding)
    {
      if ok {
        message := Some(Notice(Success, SavedText));
        status := Configured;
      } else {
        message := Some(Notice(Failure, SaveFailedText));
      }
      loading := false;
      pending := Idle;
    }

    /** 'Test Connection': sets `loading`, clears the banner and posts the
        test. */
    method TestClick() returns (sent: bool)
      requires Valid()
      modifies this
      ensures Valid()
      ensures sent == !old(loading)
      ensures sent ==> message == None && pending == Testing
      ensures !sent ==> message == old(message) && pending == old(pending)
      ensures loading
      ensures metaConfig == old(metaConfig) && status == old(status)
      ensures statusCheckOutstanding == old(statusCheckOutstanding)
    {
      sent := !loading;
      if sent {
        loading := true;
        message := None;
        pending := Testing;
      }
    }

    /** The answer to the test sets the banner and never the status. */
    method TestResponse(outcome: Result<(), Option<string>>)
      requires Valid() && pending.Testing?
      modifies this
      ensures Valid()
      ensures !loading && pending == Idle
      ensures message == Some(TestNotice(outcome))
      ensures status == old(status) && metaConfig == old(metaConfig)
      ensures statusCheckOutstanding == old(statusCheckOutstanding)
    {
      message := Some(TestNotice(outcome));
      loading := false;
      pending := Idle;
    }
  }
}
