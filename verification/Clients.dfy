/** The remote clients reduced to their attempts: clients/container_maker_client.py, clients/cloud_client.py. */
module Clients {
  import opened Wrappers
  import opened Retry

  /** Status codes of a failed container-maker call; only UNAVAILABLE is told apart. */
  datatype StatusCode = UNAVAILABLE | OtherCode

  /** A gRPC error may lack a code; anything else is not a gRPC error. */
  datatype MakerError = RpcError(code: Option<StatusCode>) | NotRpcError

  type MakerReply = Attempt<string, MakerError>

  const MAKER_ATTEMPTS := 3

  predicate MakerRetryable(e: MakerError) {
    e.RpcError? && e.code == Some(UNAVAILABLE)
  }

  /** Container Maker processed the request, or may have: it only did not if the channel was unavailable. */
  predicate Processed(reply: MakerReply) {
    reply != Threw(RpcError(Some(UNAVAILABLE)))
  }

  /** How a container-maker call ends for its caller. */
  datatype MakerVerdict = Response(name: string) | MakerClientError | Escaped

  /**
    `create_container`, `delete_container` and `save_container` are this one retried call. A gRPC
    error becomes a client error; any other exception escapes unchanged.
   */
  method CallContainerMaker(replies: nat -> MakerReply, jitter: nat -> real)
    returns (verdict: MakerVerdict, made: seq<MakerReply>, sleeps: seq<real>)
    ensures Complete(made, MakerRetryable, MAKER_ATTEMPTS)
    ensures made != [] && forall i :: 0 <= i < |made| ==> made[i] == replies(i)
    ensures forall i :: 0 <= i < |made| ==> (i + 1 < |made| <==> made[i] == Threw(RpcError(Some(UNAVAILABLE))) && i < 2)
    ensures |sleeps| == |made| - 1 && SleptBetween(sleeps, 0.5, 5.0, jitter)
    ensures verdict.Response? <==> made[|made| - 1].Returned?
    ensures verdict.Response? ==> verdict.name == made[|made| - 1].value
    ensures verdict.Escaped? <==> made[|made| - 1] == Threw(NotRpcError)
    ensures verdict.MakerClientError? <==> made[|made| - 1].Threw? && made[|made| - 1].error.RpcError?
    ensures Reached(made, Processed) == if made[|made| - 1] == Threw(RpcError(Some(UNAVAILABLE))) then 0 else 1
  {
    var answer;
    answer, made, sleeps := CallWithRetry(replies, MakerRetryable, MAKER_ATTEMPTS, 0.5, 5.0, jitter);
    LastAloneReaches(made, MakerRetryable, MAKER_ATTEMPTS, Processed);
    match answer
    case Value(name) => verdict := Response(name);
    case Error(error) => verdict := if error.RpcError? then MakerClientError else Escaped;
    case Unreachable => verdict := Escaped;
  }

  /**
    Failures of a request to Cloud. Connect failures never reach it; another transport failure, or
    an exception that is not an HTTP error at all, may or may not have reached it first.
   */
  datatype HttpError =
    | ConnectError
    | ConnectTimeout
    | OtherTransportError(reached: bool)
    | HttpStatusError
    | NotHttpError(reached: bool, message: string)

  datatype HttpResponse = HttpResponse(status: int, body: string)

  type HttpAttempt = Attempt<HttpResponse, HttpError>

  predicate IsHttpError(e: HttpError) { !e.NotHttpError? }

  predicate RetryableTransportError(e: HttpError) { IsHttpError(e) && !e.HttpStatusError? }

  predicate RetryableConnectError(e: HttpError) { e.ConnectError? || e.ConnectTimeout? }

  predicate ReachedCloud(attempt: HttpAttempt) {
    match attempt
    case Returned(_) => true
    case Threw(ConnectError) => false
    case Threw(ConnectTimeout) => false
    case Threw(OtherTransportError(reached)) => reached
    case Threw(HttpStatusError) => true
    case Threw(NotHttpError(reached, _)) => reached
  }

  datatype TicketVerdict = Consumed(body: string) | Invalid | TicketRaised

  /** `consume_terminal_ticket`: a single-use ticket is submitted to Cloud at most once. */
  method ConsumeTerminalTicket(attempts: nat -> HttpAttempt, jitter: nat -> real)
    returns (verdict: TicketVerdict, made: seq<HttpAttempt>, sleeps: seq<real>)
    ensures made != [] && forall i :: 0 <= i < |made| ==> made[i] == attempts(i)
    ensures forall i :: 0 <= i < |made| ==>
              (i + 1 < |made| <==> (made[i] == Threw(ConnectError) || made[i] == Threw(ConnectTimeout)) && i < 2)
    ensures |sleeps| == |made| - 1 && SleptBetween(sleeps, 0.5, 5.0, jitter)
    ensures Reached(made, ReachedCloud) <= 1
    ensures verdict.Consumed? <==> made[|made| - 1].Returned? && made[|made| - 1].value.status == 200
    ensures verdict.Consumed? ==> verdict.body == made[|made| - 1].value.body && Reached(made, ReachedCloud) == 1
    ensures verdict.TicketRaised? <==> made[|made| - 1].Threw? && made[|made| - 1].error.NotHttpError?
  {
    var answer;
    answer, made, sleeps := CallWithRetry(attempts, RetryableConnectError, 3, 0.5, 5.0, jitter);
    ReachesAtMostOnce(made, RetryableConnectError, 3, ReachedCloud);
    match answer
    case Value(response) => verdict := if response.status == 200 then Consumed(response.body) else Invalid;
    case Error(error) => verdict := if IsHttpError(error) then Invalid else TicketRaised;
    case Unreachable => verdict := Invalid;
  }

  /** Concrete input: the broader classifier used for reports would submit the ticket twice. */
  lemma TransportRetryWouldResubmit()
    ensures var made: seq<HttpAttempt> := [Threw(OtherTransportError(true)), Returned(HttpResponse(400, ""))];
            Complete(made, RetryableTransportError, 3) && Reached(made, ReachedCloud) == 2
  {
    var first: HttpAttempt, second: HttpAttempt := Threw(OtherTransportError(true)), Returned(HttpResponse(400, ""));
    var made := [first, second];
    assert made[..1] == [first];
    assert [first][..0] == [];
    assert !Retried(made[1], RetryableTransportError);
  }

  /** How the report of a finished command ends. */
  datatype ReportEnd = Confirmed | Unconfirmed | ReportThrew(message: string)

  /** One report: for each POST made, whether it reached Cloud; and the end. */
  datatype Report = Report(posts: seq<bool>, end: ReportEnd)

  const REPORT_ATTEMPTS := 5

  /** The reports that can happen: at most five POSTs, and confirmed only if one reached Cloud. */
  predicate ValidReport(report: Report) {
    && |report.posts| <= REPORT_ATTEMPTS
    && (report.end.Confirmed? ==> true in report.posts)
  }

  function Posts(made: seq<HttpAttempt>): (posts: seq<bool>)
    ensures |posts| == |made| && forall i :: 0 <= i < |made| ==> posts[i] == ReachedCloud(made[i])
  {
    seq(|made|, i requires 0 <= i < |made| => ReachedCloud(made[i]))
  }

  /** `report_command_result`: confirmed exactly by a 200; an exception that is not an HTTP error escapes. */
  method ReportCommandResult(attempts: nat -> HttpAttempt, jitter: nat -> real)
    returns (report: Report, made: seq<HttpAttempt>, sleeps: seq<real>)
    ensures made != [] && forall i :: 0 <= i < |made| ==> made[i] == attempts(i)
    ensures forall i :: 0 <= i < |made| ==>
              (i + 1 < |made| <==>
               made[i].Threw? && (made[i].error.ConnectError? || made[i].error.ConnectTimeout? || made[i].error.OtherTransportError?) && i < 4)
    ensures |sleeps| == |made| - 1 && SleptBetween(sleeps, 0.5, 5.0, jitter)
    ensures ValidReport(report) && |report.posts| == |made|
    ensures forall i :: 0 <= i < |made| ==>
              (report.posts[i] <==>
               match made[i]
               case Returned(_) => true
               case Threw(error) => error.HttpStatusError? || ((error.OtherTransportError? || error.NotHttpError?) && error.reached))
    ensures report.end.Confirmed? <==> made[|made| - 1].Returned? && made[|made| - 1].value.status == 200
    ensures report.end.ReportThrew? <==> made[|made| - 1].Threw? && made[|made| - 1].error.NotHttpError?
    ensures report.end.ReportThrew? ==> report.end.message == made[|made| - 1].error.message
  {
    var answer;
    answer, made, sleeps := CallWithRetry(attempts, RetryableTransportError, REPORT_ATTEMPTS, 0.5, 5.0, jitter);
    var end: ReportEnd := Unconfirmed;
    match answer {
      case Value(response) => if response.status == 200 { end := Confirmed; }
      case Error(error) => if !IsHttpError(error) { end := ReportThrew(error.message); }
      case Unreachable =>
    }
    report := Report(Posts(made), end);
    assert report.posts[|made| - 1] == ReachedCloud(made[|made| - 1]);
  }
}
