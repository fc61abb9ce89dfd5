/** The external alert endpoints (controllers/ExternalAlertController.java): issuing an API
    key to a new application, and forwarding an application's alert to Telegram once its
    key checks out. External alerts are neither deduplicated nor stored as alert records. */
module ExternalAlerts {
  import opened Domain
  import opened Text
  import opened Repositories
  import opened ApiClients
  import ThresholdAlerting

  /** The body of POST /api/external/alert; `log` is the one optional field. */
  datatype CustomAlertRequest = CustomAlertRequest(
    appName: string,
    apiKey: string,
    executionDate: string,
    application: string,
    log: Option<string>)

  /** A response body: a plain message, or the created client serialised as JSON. */
  datatype Body = Plain(text: string) | ClientJson(client: ApiClient)

  datatype Response = Response(status: int, body: Body)

  const EXTERNAL := "EXTERNAL"
  const NO_LOG := "(no log provided)"

  function LogText(log: Option<string>): string
  {
    if log.Some? then log.value else NO_LOG
  }

  /** The lines of the template "[%s] \nApplication: %s\nDate: %s\nLog:\n%s". */
  function MessageLines(req: CustomAlertRequest): seq<string>
  {
    HeaderLines(req) + [LogText(req.log)]
  }

  function HeaderLines(req: CustomAlertRequest): seq<string>
  {
    ["[" + req.appName + "] ", "Application: " + req.application, "Date: " + req.executionDate, "Log:"]
  }

  /** The text forwarded for a custom alert. */
  function CustomAlertMessage(req: CustomAlertRequest): string
  {
    Join(MessageLines(req), "\n")
  }

  lemma HeaderSingleLines(req: CustomAlertRequest)
    requires SingleLine(req.appName) && SingleLine(req.application) && SingleLine(req.executionDate)
    ensures forall i, j :: 0 <= i < 4 && 0 <= j < |MessageLines(req)[i]| ==> MessageLines(req)[i][j] != '\n'
  {
    assert SingleLine("[") && SingleLine("] ") && SingleLine("Application: ") && SingleLine("Date: ");
    assert SingleLine("Log:");
    SingleLineConcat("[", req.appName);
    SingleLineConcat("[" + req.appName, "] ");
    SingleLineConcat("Application: ", req.application);
    SingleLineConcat("Date: ", req.executionDate);
    var xs := MessageLines(req);
    assert forall i :: 0 <= i < 4 ==> SingleLine(xs[i]);
  }

  /** The forwarded text, read line by line: the application name in brackets, the
      application, the execution date, "Log:", then the lines of the log, or the fixed
      notice when the request carried no log. */
  lemma CustomAlertMessageLines(req: CustomAlertRequest)
    requires SingleLine(req.appName) && SingleLine(req.application) && SingleLine(req.executionDate)
    ensures SplitOn(CustomAlertMessage(req), '\n') == HeaderLines(req) + SplitOn(LogText(req.log), '\n')
    ensures req.log.None? ==> SplitOn(CustomAlertMessage(req), '\n')[4..] == [NO_LOG]
  {
    var xs := MessageLines(req);
    HeaderSingleLines(req);
    SplitJoinHead(xs, 4, '\n');
    assert xs[..4] == HeaderLines(req);
    assert xs[4..] == [LogText(req.log)];
    if req.log.None? {
      NoLogSingleLine();
    }
  }

  lemma NoLogSingleLine()
    ensures SplitOn(NO_LOG, '\n') == [NO_LOG]
  {
    assert SingleLine("(no log ") && SingleLine("provided)");
    assert NO_LOG == "(no log " + "provided)";
    SingleLineConcat("(no log ", "provided)");
    SplitJoin([NO_LOG], '\n');
  }

  class ExternalAlertController {
    const clientService: ApiClientService
    const alertService: ThresholdAlerting.AlertService

    constructor(clientService: ApiClientService, alertService: ThresholdAlerting.AlertService)
      ensures this.clientService == clientService && this.alertService == alertService
    {
      this.clientService := clientService;
      this.alertService := alertService;
    }

    /** `createApiKey`: 400 "appName already exists" with the registry unchanged when the
        name is taken; otherwise 200 with the new client, whose key then validates. */
    method CreateApiKey(appName: string, now: int, freshKey: string, formatHuman: int -> string)
      returns (response: Response)
      requires UniqueApps(clientService.repo.clients)
      modifies clientService.repo
      ensures UniqueApps(clientService.repo.clients)
      ensures old(FindByAppName(clientService.repo.clients, appName)).Some? ==>
                response == Response(400, Plain("appName already exists"))
                && clientService.repo.clients == old(clientService.repo.clients)
      ensures old(FindByAppName(clientService.repo.clients, appName)).None? ==>
                response == Response(200, ClientJson(NewClient(appName, now, freshKey, formatHuman)))
                && clientService.repo.clients == old(clientService.repo.clients) + [response.body.client]
                && ValidKey(clientService.repo.clients, appName, freshKey)
    {
      var client := clientService.CreateClient(appName, now, freshKey, formatHuman);
      if client.None? {
        return Response(400, Plain("appName already exists"));
      }
      return Response(200, ClientJson(client.value));
    }

    /** `sendCustomAlert`: 401 and nothing sent unless the key is valid for the application;
        otherwise exactly one EXTERNAL notification with the templated text and 200
        "Alert sent". No alert record is written. */
    method SendCustomAlert(req: CustomAlertRequest) returns (response: Response)
      modifies alertService.notifier
      ensures !ValidKey(clientService.repo.clients, req.appName, req.apiKey) ==>
                response == Response(401, Plain("Invalid apiKey or appName"))
                && alertService.notifier.outbox == old(alertService.notifier.outbox)
      ensures ValidKey(clientService.repo.clients, req.appName, req.apiKey) ==>
                response == Response(200, Plain("Alert sent"))
                && alertService.notifier.outbox ==
                   old(alertService.notifier.outbox) + [Notification(EXTERNAL, CustomAlertMessage(req))]
    {
      var valid := clientService.ValidateKey(req.appName, req.apiKey);
      if !valid {
        return Response(401, Plain("Invalid apiKey or appName"));
      }
      var message := CustomAlertMessage(req);
      alertService.SendCustomTelegramAlert(EXTERNAL, message);
      return Response(200, Plain("Alert sent"));
    }
  }
}
