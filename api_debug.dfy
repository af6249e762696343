/** The API debug panel: a hidden button that opens a box showing the API
    base URL and a connection test. */
module ApiDebug {
  import opened Common
  import Api

  const DefaultApiUrl: string := "http://localhost:8000/api"
  const Succeeded: string := "API bağlantısı başarılı!"
  const FailedBase: string := "API bağlantısı başarısız."
  const StatusPart: string := " Durum kodu: "
  const NoReplyPart: string := " Sunucudan yanıt alınamadı."
  const SetupPart: string := " Hata: "

  datatype TestResult = TestResult(success: bool, message: string)

  /** The result of a test, given how its request to "/" settled: the base
      failure text extended by the status, by the missing reply, or by the
      error's own message, in that order of precedence. */
  function ResultOf(reply: Outcome<()>): (r: TestResult)
    ensures r.success <==> reply.Ok?
    ensures reply.Ok? ==> r.message == Succeeded
    ensures reply.HttpError? ==> r.message == FailedBase + StatusPart + IntToString(reply.status)
    ensures reply.NoResponse? ==> r.message == FailedBase + NoReplyPart
    ensures reply.SetupError? ==> r.message == FailedBase + SetupPart + reply.message
  {
    match reply
    case Ok(_) => TestResult(true, Succeeded)
    case HttpError(status, _, _) => TestResult(false, FailedBase + StatusPart + IntToString(status))
    case NoResponse(_) => TestResult(false, FailedBase + NoReplyPart)
    case SetupError(message) => TestResult(false, FailedBase + SetupPart + message)
  }

  /** Every failure text starts with the base message. */
  lemma FailuresStartWithBase(reply: Outcome<()>)
    requires !reply.Ok?
    ensures StartsWith(ResultOf(reply).message, FailedBase)
  {
    var m := ResultOf(reply).message;
    assert m[..|FailedBase|] == FailedBase;
  }

  /** The status can be read back from a status failure: two different
      statuses never give the same text. */
  lemma StatusIsRecoverable(a: Outcome<()>, b: Outcome<()>)
    requires a.HttpError? && b.HttpError? && ResultOf(a).message == ResultOf(b).message
    ensures a.status == b.status
  {
    var p := FailedBase + StatusPart;
    var sa, sb := IntToString(a.status), IntToString(b.status);
    assert FailedBase + StatusPart + sa == p + sa;
    assert FailedBase + StatusPart + sb == p + sb;
    assert sa == (p + sa)[|p|..];
    assert sb == (p + sb)[|p|..];
    IntToStringInjective(a.status, b.status);
  }

  class Panel {
    var isVisible: bool
    var apiUrl: string
    var testResult: Option<TestResult>
    var isLoading: bool

    /** The panel starts hidden, with no URL, result or test running. */
    constructor ()
      ensures !isVisible && apiUrl == "" && testResult == None && !isLoading
    {
      isVisible, apiUrl, testResult, isLoading := false, "", None, false;
    }

    /** The mount effect, given the configured base URL if any. */
    method ReadApiUrl(configured: Option<string>)
      modifies this
      ensures Truthy(configured) ==> apiUrl == configured.value
      ensures !Truthy(configured) ==> apiUrl == DefaultApiUrl
      ensures isVisible == old(isVisible) && testResult == old(testResult) && isLoading == old(isLoading)
    {
      apiUrl := if Truthy(configured) then configured.value else DefaultApiUrl;
    }

    method Show()
      modifies this
      ensures isVisible && apiUrl == old(apiUrl) && testResult == old(testResult) && isLoading == old(isLoading)
    {
      isVisible := true;
    }

    method Hide()
      modifies this
      ensures !isVisible && apiUrl == old(apiUrl) && testResult == old(testResult) && isLoading == old(isLoading)
    {
      isVisible := false;
    }

    /** `testConnection`; returns the request it sends. */
    method TestConnection(reply: Outcome<()>) returns (route: Api.Route)
      modifies this
      ensures route == Api.Route(Api.Get, "/")
      ensures testResult == Some(ResultOf(reply)) && !isLoading
      ensures isVisible == old(isVisible) && apiUrl == old(apiUrl)
    {
      isLoading := true;
      testResult := None;
      route := Api.Route(Api.Get, "/");
      if reply.Ok? {
        testResult := Some(TestResult(true, Succeeded));
      } else {
        var errorMessage := FailedBase;
        if reply.HttpError? {
          errorMessage := errorMessage + StatusPart + IntToString(reply.status);
        } else if reply.NoResponse? {
          errorMessage := errorMessage + NoReplyPart;
        } else {
          errorMessage := errorMessage + SetupPart + reply.message;
        }
        testResult := Some(TestResult(false, errorMessage));
      }
      isLoading := false;
    }
  }
}
