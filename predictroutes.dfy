/**
 * The decisions of the `/predict` routes: the poller that waits for an
 * offline MMT run, the `/offline` dispatch (validation order, queue or direct
 * prediction, automatic fallback when the broker is down), the interface
 * listing, the `/online` checks and the `/online/status` view.
 */
module PredictRoutes {
  import opened Wrappers
  import opened Text
  import QueueErrors
  import JobQueue
  import Connector

  // ---------------------------------------------------------------------------
  // waitForMMTCompletion

  const DefaultTimeoutMs: int := 300000
  const DefaultPollMs: int := 500

  /** One look at the MMT status: whether it still runs, and the time since the wait began. */
  datatype Poll = Poll(mmtRunning: bool, elapsedMs: int)

  /** How a wait ends, with the number of polls it took; `Waiting` when the polls seen decide nothing yet. */
  datatype Wait = Resolved(polls: nat) | TimedOut(polls: nat) | Waiting

  /** None of `polls` ends the wait: MMT was running and the timeout not yet exceeded. */
  predicate Continues(polls: seq<Poll>, timeout: int) {
    forall i :: 0 <= i < |polls| ==> polls[i].mmtRunning && polls[i].elapsedMs <= timeout
  }

  /**
   * The outcome of the polls: the first poll that sees MMT stopped resolves,
   * else the first one past the timeout rejects; the stop test comes first.
   */
  function WaitResult(polls: seq<Poll>, timeout: int): (r: Wait)
    ensures r.Resolved? ==> (1 <= r.polls <= |polls| && !polls[r.polls - 1].mmtRunning
      && Continues(polls[..r.polls - 1], timeout))
    ensures r.TimedOut? ==> (1 <= r.polls <= |polls| && polls[r.polls - 1].mmtRunning
      && polls[r.polls - 1].elapsedMs > timeout && Continues(polls[..r.polls - 1], timeout))
    ensures r.Waiting? <==> Continues(polls, timeout)
  {
    if polls == [] then Waiting
    else if !polls[0].mmtRunning then Resolved(1)
    else if polls[0].elapsedMs > timeout then TimedOut(1)
    else
      var rest := WaitResult(polls[1..], timeout);
      assert forall k :: 0 <= k < |polls[1..]| ==> polls[1..][k] == polls[k + 1];
      match rest
      case Resolved(n) =>
        assert polls[1..][..n - 1] == polls[1..n];
        Resolved(n + 1)
      case TimedOut(n) =>
        assert polls[1..][..n - 1] == polls[1..n];
        TimedOut(n + 1)
      case Waiting => Waiting
  }

  /** The outcome is fixed by the first poll that ends the wait, whatever follows it. */
  lemma {:induction false} WaitDecidedAt(polls: seq<Poll>, timeout: int, i: nat)
    requires i < |polls| && Continues(polls[..i], timeout)
    requires !polls[i].mmtRunning || polls[i].elapsedMs > timeout
    ensures WaitResult(polls, timeout) == if !polls[i].mmtRunning then Resolved(i + 1) else TimedOut(i + 1)
    decreases i
  {
    if i > 0 {
      assert polls[0] == polls[..i][0];
      var t := polls[1..][..i - 1];
      assert Continues(t, timeout) by {
        forall k | 0 <= k < |t|
          ensures t[k].mmtRunning && t[k].elapsedMs <= timeout
        {
          assert t[k] == polls[..i][k + 1];
        }
      }
      WaitDecidedAt(polls[1..], timeout, i - 1);
    }
  }

  /**
   * `waitForMMTCompletion(timeout, pollInterval)` over the polls it makes: it
   * stops at the first poll that sees MMT stopped or the timeout exceeded.
   */
  method WaitForMmtCompletion(polls: seq<Poll>, timeout: int) returns (r: Wait)
    ensures r == WaitResult(polls, timeout)
  {
    var i := 0;
    while i < |polls|
      invariant 0 <= i <= |polls|
      invariant Continues(polls[..i], timeout)
    {
      if !polls[i].mmtRunning || polls[i].elapsedMs > timeout {
        WaitDecidedAt(polls, timeout, i);
        if !polls[i].mmtRunning {
          return Resolved(i + 1);
        }
        return TimedOut(i + 1);
      }
      assert polls[..i + 1] == polls[..i] + [polls[i]];
      i := i + 1;
    }
    assert polls[..i] == polls;
    return Waiting;
  }

  /** Polls made every `interval` ms on an ideal timer, the `k`-th at `k * interval`. */
  function Schedule(running: seq<bool>, interval: int): (polls: seq<Poll>)
    ensures |polls| == |running|
    ensures forall k :: 0 <= k < |polls| ==> polls[k] == Poll(running[k], k * interval)
  {
    seq(|running|, k requires 0 <= k < |running| => Poll(running[k], k * interval))
  }

  lemma MulMonotone(a: int, b: int, c: int)
    requires 0 <= a <= b && c >= 0
    ensures a * c <= b * c
  {
  }

  /**
   * On an ideal timer, an MMT run that never stops makes the wait reject at
   * poll `timeout / interval + 2`: the first poll strictly past the timeout.
   */
  lemma TimeoutPoll(running: seq<bool>, interval: int, timeout: int)
    requires interval > 0 && timeout >= 0
    requires |running| >= timeout / interval + 2
    requires forall k :: 0 <= k < |running| ==> running[k]
    ensures WaitResult(Schedule(running, interval), timeout) == TimedOut(timeout / interval + 2)
  {
    var polls := Schedule(running, interval);
    var q := timeout / interval;
    assert q * interval <= timeout < (q + 1) * interval;
    var t := polls[..q + 1];
    assert Continues(t, timeout) by {
      forall k | 0 <= k < |t|
        ensures t[k].mmtRunning && t[k].elapsedMs <= timeout
      {
        MulMonotone(k, q, interval);
      }
    }
    WaitDecidedAt(polls, timeout, q + 1);
  }

  /** With the defaults (300000 ms, every 500 ms) a run that never stops is given up at the 602nd poll. */
  lemma DefaultTimeoutPoll(running: seq<bool>)
    requires |running| >= 602
    requires forall k :: 0 <= k < |running| ==> running[k]
    ensures WaitResult(Schedule(running, DefaultPollMs), DefaultTimeoutMs) == TimedOut(602)
  {
    TimeoutPoll(running, DefaultPollMs, DefaultTimeoutMs);
  }

  /** A run seen stopped at a poll within the timeout resolves there, even on the poll at exactly the limit. */
  lemma StopWithinTimeoutResolves(running: seq<bool>, interval: int, timeout: int, i: nat)
    requires interval > 0 && i < |running| && i * interval <= timeout
    requires forall k :: 0 <= k < i ==> running[k]
    requires !running[i]
    ensures WaitResult(Schedule(running, interval), timeout) == Resolved(i + 1)
  {
    var polls := Schedule(running, interval);
    var t := polls[..i];
    assert Continues(t, timeout) by {
      forall k | 0 <= k < |t|
        ensures t[k].mmtRunning && t[k].elapsedMs <= timeout
      {
        MulMonotone(k, i, interval);
      }
    }
    WaitDecidedAt(polls, timeout, i);
  }

  // ---------------------------------------------------------------------------
  // POST /offline

  /** A body field is missing (`None`) or present; JavaScript's `!x` also holds for an empty string. */
  predicate Truthy(v: Option<string>) {
    v.Some? && v.value != ""
  }

  /** The body of `POST /offline`; `useQueue` is `None` when it is left out. */
  datatype OfflineRequest = OfflineRequest(
    modelId: Option<string>, pcapFile: Option<string>, reportId: Option<string>,
    reportFileName: Option<string>, useQueue: Option<bool>)

  /** What `startMMTOffline` called back with. */
  datatype MmtOffline = MmtOffline(error: Option<string>, sessionId: string)

  /**
   * What the collaborators of one request answer: MMT's start, whether the
   * wait resolved, the `.csv` files of the new report, `USE_QUEUE_BY_DEFAULT`,
   * the queue submission and the direct prediction.
   */
  datatype OfflineWorld = OfflineWorld(
    mmt: MmtOffline, mmtFinished: bool, reportCsvFiles: seq<string>,
    useQueueByDefault: Option<string>, now: int, uuid: string,
    queued: Result<JobQueue.AddReply, QueueErrors.Thrown>, direct: Connector.PredictReply)

  /** The prediction job handed to the queue. */
  datatype PredictionJob = PredictionJob(
    modelId: string, reportId: Option<string>, reportFileName: Option<string>, predictionId: string, priority: int)

  /** The report handed to `startPredicting` for a direct prediction. */
  datatype DirectRequest = DirectRequest(modelId: string, reportId: Option<string>, reportFileName: Option<string>)

  datatype OfflineReply =
    | Rejected(status: int, error: string, message: string)
    | JobQueued(predictionId: string, job: JobQueue.AddReply)
    | QueueFailed(response: QueueErrors.ErrorResponse)
    | DirectFailed(error: string)
    | DirectStarted(startedId: Option<string>, predicting: Connector.PredictStatus, message: string, warning: Option<string>)

  /** The reply, and the work the request caused. */
  datatype Dispatch = Dispatch(reply: OfflineReply, mmtRun: bool, job: Option<PredictionJob>, direct: Option<DirectRequest>)

  const RedisFallbackWarning: string := "Redis/Valkey service is unavailable. Automatically switched to synchronous processing mode."
  const FallbackMessage: string := "Prediction started in sync mode (Redis unavailable, automatic fallback)"
  const BlockingMessage: string := "Prediction started (blocking mode)"
  const MissingParam: string := "Missing required parameter"
  const ModelIdRequired: string := "modelId is required"
  const MmtFailed: string := "MMT analysis failed"
  const MmtTimeout: string := "MMT analysis timeout"
  const MmtTooLong: string := "MMT processing took too long"
  const ReportFailed: string := "Report generation failed"
  const NoCsvGenerated: string := "No CSV file was generated by MMT analysis"
  const MissingParams: string := "Missing required parameters"
  const PcapOrReport: string := "Either pcapFile OR (reportId and reportFileName) are required"
  /** The operation named in queue errors; a failure other than Redis's reads `"<operation> failed"`. */
  const PredictionQueue: string := "Prediction queue"
  const MissingModelId: string := "Missing required parameter: modelId"
  const ProvideModelId: string := "Please provide a trained model ID"
  const MissingInterface: string := "Missing required parameter: interface"
  const ProvideInterface: string := "Please provide a network interface name (e.g., eth0, lo)"
  const OnlineStartedPrefix: string := "Online prediction started on interface "
  const UsingModel: string := " using model "

  /** The simplified mode: a pcap file and neither report field. */
  predicate Simplified(req: OfflineRequest) {
    Truthy(req.pcapFile) && !Truthy(req.reportId) && !Truthy(req.reportFileName)
  }

  /** The legacy check: without a pcap file both report fields are required. */
  predicate LegacyComplete(req: OfflineRequest) {
    Truthy(req.pcapFile) || (Truthy(req.reportId) && Truthy(req.reportFileName))
  }

  /** `useQueue` when given, else the environment default, on unless it is the string `false`. */
  function ShouldUseQueue(req: OfflineRequest, byDefault: Option<string>): (b: bool)
    ensures req.useQueue.Some? ==> b == req.useQueue.value
    ensures req.useQueue.None? ==> (b <==> byDefault != Some("false"))
  {
    if req.useQueue.Some? then req.useQueue.value else byDefault != Some("false")
  }

  /** `predict-<now>-<first 8 characters of a UUID>`. */
  function PredictionId(now: int, uuid: string): (id: string)
    ensures StartsWith(id, "predict-")
  {
    var id := "predict-" + IntToString(now) + "-" + uuid[..if |uuid| < 8 then |uuid| else 8];
    assert id[..8] == "predict-";
    id
  }

  function FirstFile(files: seq<string>): Option<string> {
    if |files| > 0 then Some(files[0]) else None
  }

  /** The direct prediction's answer, marked as a fallback or as blocking mode. */
  function DirectReply(reply: Connector.PredictReply, fallback: bool): (r: OfflineReply)
    ensures reply.PredictError? ==> r == DirectFailed(reply.error)
    ensures reply.PredictStarted? ==> (r.DirectStarted? && r.predicting == reply.status
      && r.startedId == reply.status.lastPredictedId
      && (fallback <==> r.warning == Some(RedisFallbackWarning))
      && r.message == (if fallback then FallbackMessage else BlockingMessage))
  {
    match reply
    case PredictError(e, _, _) => DirectFailed(e)
    case PredictStarted(st) =>
      DirectStarted(st.lastPredictedId, st, if fallback then FallbackMessage else BlockingMessage,
        if fallback then Some(RedisFallbackWarning) else None)
  }

  /** The submission once the report is known: the queue, or directly, or directly after a broker failure. */
  function Submit(modelId: string, reportId: Option<string>, reportFileName: Option<string>, useQueue: bool,
                  mmtRun: bool, w: OfflineWorld): Dispatch
  {
    var direct := DirectRequest(modelId, reportId, reportFileName);
    if !useQueue then
      Dispatch(DirectReply(w.direct, false), mmtRun, None, Some(direct))
    else
      var id := PredictionId(w.now, w.uuid);
      var job := PredictionJob(modelId, reportId, reportFileName, id, 5);
      match w.queued
      case Success(info) => Dispatch(JobQueued(id, info), mmtRun, Some(job), None)
      case Failure(e) =>
        if QueueErrors.IsRedisError(Some(e)) then
          Dispatch(DirectReply(w.direct, true), mmtRun, Some(job), Some(direct))
        else
          Dispatch(QueueFailed(QueueErrors.HandleQueueError(e, Some(PredictionQueue))), mmtRun, Some(job), None)
  }

  /**
   * `POST /offline`. A missing model id is refused before anything runs; MMT
   * runs only in the simplified mode; the queue is tried when `useQueue` says
   * so, a broker failure falls back to a direct prediction with a warning and
   * any other queue failure is answered by the shared error handler.
   */
  function Offline(req: OfflineRequest, w: OfflineWorld): (d: Dispatch)
    ensures !Truthy(req.modelId) ==>
      d == Dispatch(Rejected(400, MissingParam, ModelIdRequired), false, None, None)
    ensures d.mmtRun <==> Truthy(req.modelId) && Simplified(req)
    ensures Truthy(req.modelId) && !LegacyComplete(req) ==> d.reply.Rejected? && d.reply.status == 400
    ensures d.job.Some? ==> (d.job.value.priority == 5 && Some(d.job.value.modelId) == req.modelId
      && StartsWith(d.job.value.predictionId, "predict-"))
    ensures d.job.Some? <==> (Truthy(req.modelId) && LegacyComplete(req)
      && !(Simplified(req) && (Truthy(w.mmt.error) || !w.mmtFinished || !Truthy(FirstFile(w.reportCsvFiles))))
      && ShouldUseQueue(req, w.useQueueByDefault))
    ensures d.reply.JobQueued? <==> d.job.Some? && w.queued.Success?
    ensures d.direct.Some? ==> d.job.None? || (w.queued.Failure? && QueueErrors.IsRedisError(Some(w.queued.error)))
    ensures d.reply.QueueFailed? <==> d.job.Some? && w.queued.Failure? && !QueueErrors.IsRedisError(Some(w.queued.error))
    ensures (Truthy(req.modelId) && LegacyComplete(req)
      && !(Simplified(req) && (Truthy(w.mmt.error) || !w.mmtFinished || !Truthy(FirstFile(w.reportCsvFiles))))
      && !ShouldUseQueue(req, w.useQueueByDefault)) ==>
        (d.job.None? && d.direct.Some? && d.reply == DirectReply(w.direct, false))
  {
    if !Truthy(req.modelId) then
      Dispatch(Rejected(400, MissingParam, ModelIdRequired), false, None, None)
    else if Simplified(req) then
      if Truthy(w.mmt.error) then
        Dispatch(Rejected(400, MmtFailed, w.mmt.error.value), true, None, None)
      else if !w.mmtFinished then
        Dispatch(Rejected(500, MmtTimeout, MmtTooLong), true, None, None)
      else if !Truthy(FirstFile(w.reportCsvFiles)) then
        Dispatch(Rejected(500, ReportFailed, NoCsvGenerated), true, None, None)
      else
        Submit(req.modelId.value, Some("report-" + w.mmt.sessionId), FirstFile(w.reportCsvFiles),
          ShouldUseQueue(req, w.useQueueByDefault), true, w)
    else if !LegacyComplete(req) then
      Dispatch(Rejected(400, MissingParams, PcapOrReport), false, None, None)
    else
      Submit(req.modelId.value, req.reportId, req.reportFileName, ShouldUseQueue(req, w.useQueueByDefault), false, w)
  }

  /**
   * The `/offline` handler as it runs: the report fields start as given, the
   * simplified mode replaces them with MMT's report, and a broker failure
   * sets `fallbackToSync` before the direct prediction.
   */
  method PostOffline(req: OfflineRequest, w: OfflineWorld) returns (d: Dispatch)
    ensures d == Offline(req, w)
  {
    if !Truthy(req.modelId) {
      return Dispatch(Rejected(400, MissingParam, ModelIdRequired), false, None, None);
    }
    var modelId := req.modelId.value;
    var finalReportId, finalReportFileName := req.reportId, req.reportFileName;
    var mmtRun := false;
    if Truthy(req.pcapFile) && !Truthy(req.reportId) && !Truthy(req.reportFileName) {
      mmtRun := true;
      if Truthy(w.mmt.error) {
        return Dispatch(Rejected(400, MmtFailed, w.mmt.error.value), true, None, None);
      }
      if !w.mmtFinished {
        return Dispatch(Rejected(500, MmtTimeout, MmtTooLong), true, None, None);
      }
      finalReportId := Some("report-" + w.mmt.sessionId);
      finalReportFileName := FirstFile(w.reportCsvFiles);
      if !Truthy(finalReportFileName) {
        return Dispatch(Rejected(500, ReportFailed, NoCsvGenerated), true, None, None);
      }
    }
    if !Truthy(req.pcapFile) && (!Truthy(req.reportId) || !Truthy(req.reportFileName)) {
      return Dispatch(Rejected(400, MissingParams, PcapOrReport), false, None, None);
    }
    var shouldUseQueue := if req.useQueue.Some? then req.useQueue.value else w.useQueueByDefault != Some("false");
    var fallbackToSync := false;
    var job: Option<PredictionJob> := None;
    if shouldUseQueue {
      var predictionId := PredictionId(w.now, w.uuid);
      job := Some(PredictionJob(modelId, finalReportId, finalReportFileName, predictionId, 5));
      match w.queued {
        case Success(info) =>
          return Dispatch(JobQueued(predictionId, info), mmtRun, job, None);
        case Failure(e) =>
          if QueueErrors.IsRedisError(Some(e)) {
            fallbackToSync := true;
          } else {
            return Dispatch(QueueFailed(QueueErrors.HandleQueueError(e, Some(PredictionQueue))), mmtRun, job, None);
          }
      }
    }
    var direct := DirectRequest(modelId, finalReportId, finalReportFileName);
    d := Dispatch(DirectReply(w.direct, fallbackToSync), mmtRun, job, Some(direct));
  }

  /** A report the simplified mode generated is handed on as `report-<MMT session>` with its first `.csv` file. */
  lemma SimplifiedUsesGeneratedReport(req: OfflineRequest, w: OfflineWorld)
    requires Truthy(req.modelId) && Simplified(req)
    requires !Truthy(w.mmt.error) && w.mmtFinished && |w.reportCsvFiles| > 0 && w.reportCsvFiles[0] != ""
    ensures var d := Offline(req, w);
      && (d.job.Some? ==> d.job.value.reportId == Some("report-" + w.mmt.sessionId)
                          && d.job.value.reportFileName == Some(w.reportCsvFiles[0]))
      && (d.direct.Some? ==> d.direct.value.reportId == Some("report-" + w.mmt.sessionId)
                             && d.direct.value.reportFileName == Some(w.reportCsvFiles[0]))
  {
  }

  /**
   * A pcap file with only one of the report fields skips MMT and passes the
   * legacy check, so the job is queued without a report file name.
   */
  lemma PcapWithOneReportField(w: OfflineWorld)
    requires w.queued.Success?
    ensures var req := OfflineRequest(Some("model"), Some("a.pcap"), Some("report-1"), None, Some(true));
      var d := Offline(req, w);
      !d.mmtRun && d.job.Some? && d.job.value.reportFileName.None?
  {
    var req := OfflineRequest(Some("model"), Some("a.pcap"), Some("report-1"), None, Some(true));
    assert Truthy(req.reportId);
  }

  /** A broker failure while queuing yields a direct prediction that carries the fallback warning. */
  lemma RedisFailureFallsBack(req: OfflineRequest, w: OfflineWorld)
    requires Offline(req, w).job.Some? && w.queued.Failure? && QueueErrors.IsRedisError(Some(w.queued.error))
    ensures var d := Offline(req, w);
      d.direct.Some? && (w.direct.PredictStarted? ==> d.reply.DirectStarted? && d.reply.warning == Some(RedisFallbackWarning))
      && (w.direct.PredictError? ==> d.reply == DirectFailed(w.direct.error))
  {
  }

  /** Any other queue failure is answered with the error handler's 500 for the `Prediction queue` operation. */
  lemma OtherQueueFailureAnswered(req: OfflineRequest, w: OfflineWorld)
    requires Offline(req, w).job.Some? && w.queued.Failure? && !QueueErrors.IsRedisError(Some(w.queued.error))
    ensures var d := Offline(req, w);
      d.direct.None? && d.reply.QueueFailed? && d.reply.response.status == 500
      && d.reply.response.error == PredictionQueue + " failed"
  {
    QueueErrors.OtherErrorIs500(w.queued.error, Some(PredictionQueue));
  }

  // ---------------------------------------------------------------------------
  // GET /interfaces

  datatype Address = Address(family: string, address: string)
  datatype NetInterface = NetInterface(name: string, addresses: seq<Address>)

  /** The index of the first IPv4 address, if any. */
  function FirstIPv4(addrs: seq<Address>): (r: Option<nat>)
    ensures r.Some? ==> (r.value < |addrs| && addrs[r.value].family == "IPv4"
      && forall j :: 0 <= j < r.value ==> addrs[j].family != "IPv4")
    ensures r.None? <==> forall j :: 0 <= j < |addrs| ==> addrs[j].family != "IPv4"
  {
    if addrs == [] then None
    else if addrs[0].family == "IPv4" then Some(0)
    else
      var r := FirstIPv4(addrs[1..]);
      assert forall j :: 1 <= j < |addrs| ==> addrs[j] == addrs[1..][j - 1];
      if r.Some? then Some(r.value + 1) else None
  }

  /** The entry an interface contributes: `name - address` of its first IPv4 address. */
  predicate Listed(i: NetInterface, entry: string) {
    var k := FirstIPv4(i.addresses);
    k.Some? && entry == i.name + " - " + i.addresses[k.value].address
  }

  /** The `/interfaces` list; interfaces without an IPv4 address are left out. */
  function InterfaceList(ifs: seq<NetInterface>): (r: seq<string>)
    ensures |r| <= |ifs|
    ensures forall e :: e in r <==> exists i :: 0 <= i < |ifs| && Listed(ifs[i], e)
  {
    if ifs == [] then []
    else
      var init := ifs[..|ifs| - 1];
      var last := ifs[|ifs| - 1];
      var r0 := InterfaceList(init);
      assert forall i :: 0 <= i < |init| ==> init[i] == ifs[i];
      var k := FirstIPv4(last.addresses);
      if k.Some? then r0 + [last.name + " - " + last.addresses[k.value].address] else r0
  }

  /** The positions of the interfaces that have an IPv4 address. */
  function WithIPv4(ifs: seq<NetInterface>): set<int> {
    set i | 0 <= i < |ifs| && FirstIPv4(ifs[i].addresses).Some?
  }

  lemma InterfaceListLast(ifs: seq<NetInterface>)
    requires ifs != []
    ensures |InterfaceList(ifs)| == |InterfaceList(ifs[..|ifs| - 1])|
      + (if FirstIPv4(ifs[|ifs| - 1].addresses).Some? then 1 else 0)
  {
  }

  lemma WithIPv4Last(ifs: seq<NetInterface>)
    requires ifs != []
    ensures var n := |ifs| - 1;
      WithIPv4(ifs) == WithIPv4(ifs[..n]) + (if FirstIPv4(ifs[n].addresses).Some? then {n} else {})
      && n !in WithIPv4(ifs[..n])
  {
    var n := |ifs| - 1;
    assert forall i :: 0 <= i < n ==> ifs[..n][i] == ifs[i];
  }

  /** Every interface with an IPv4 address is listed, one entry each. */
  lemma {:induction false} InterfaceListCount(ifs: seq<NetInterface>)
    ensures |InterfaceList(ifs)| == |WithIPv4(ifs)|
  {
    if ifs != [] {
      InterfaceListCount(ifs[..|ifs| - 1]);
      InterfaceListLast(ifs);
      WithIPv4Last(ifs);
    }
  }

  // ---------------------------------------------------------------------------
  // POST /online and GET /online/status

  datatype Rejection = Rejection(status: int, error: string, message: string)

  /** `POST /online`'s checks: the model id first, then the interface; a valid body becomes an `online` configuration. */
  function OnlineConfig(modelId: Option<string>, netInf: Option<string>): (r: Result<Connector.PredictConfig, Rejection>)
    ensures !Truthy(modelId) ==> r == Failure(Rejection(400, MissingModelId, ProvideModelId))
    ensures Truthy(modelId) && !Truthy(netInf) ==>
      r.Failure? && r.error.status == 400 && r.error.error == MissingInterface
    ensures r.Success? <==> Truthy(modelId) && Truthy(netInf)
    ensures r.Success? ==> r.value == Connector.PredictConfig(modelId.value, Connector.OnlineInput(netInf.value))
  {
    if !Truthy(modelId) then
      Failure(Rejection(400, MissingModelId, ProvideModelId))
    else if !Truthy(netInf) then
      Failure(Rejection(400, MissingInterface, ProvideInterface))
    else
      Success(Connector.PredictConfig(modelId.value, Connector.OnlineInput(netInf.value)))
  }

  datatype OnlineReply =
    | OnlineFailed(error: string)
    | OnlineRunning(netInf: string, modelId: string, predictionId: Option<string>, isRunning: bool,
                    startedAt: Option<int>, message: string)

  /**
   * The answer once `startPredicting` called back (`None` when it never does,
   * as when MMT did not start): its error as a 500, or the running session.
   */
  function OnlineAnswer(config: Connector.PredictConfig, reply: Option<Connector.PredictReply>): (r: Option<OnlineReply>)
    requires config.inputTraffic.OnlineInput?
    ensures r.Some? <==> reply.Some?
    ensures reply.Some? && reply.value.PredictError? ==> r == Some(OnlineFailed(reply.value.error))
    ensures reply.Some? && reply.value.PredictStarted? ==> (r.value.OnlineRunning?
      && r.value.predictionId == reply.value.status.lastPredictedId
      && r.value.isRunning == reply.value.status.isRunning
      && r.value.startedAt == reply.value.status.lastPredictedAt
      && r.value.message == OnlineStartedPrefix + config.inputTraffic.netInf
         + UsingModel + config.modelId)
  {
    match reply
    case None => None
    case Some(PredictError(e, _, _)) => Some(OnlineFailed(e))
    case Some(PredictStarted(st)) =>
      var n := config.inputTraffic.netInf;
      Some(OnlineRunning(n, config.modelId, st.lastPredictedId, st.isRunning, st.lastPredictedAt,
        OnlineStartedPrefix + n + UsingModel + config.modelId))
  }

  datatype StatusView = StatusView(
    mode: string, isRunning: bool, predictionId: Option<string>, netInf: Option<string>,
    modelId: Option<string>, startedAt: Option<int>, config: Option<Connector.PredictConfig>)

  predicate IsOnline(st: Connector.PredictStatus) {
    st.config.Some? && st.config.value.inputTraffic.OnlineInput?
  }

  /** `/online/status`: the interface and model are shown only for an online configuration. */
  function OnlineStatusView(st: Connector.PredictStatus): (v: StatusView)
    ensures v.mode == "online" <==> IsOnline(st)
    ensures v.mode == "offline" <==> !IsOnline(st)
    ensures IsOnline(st) ==> v.netInf == Some(st.config.value.inputTraffic.netInf) && v.modelId == Some(st.config.value.modelId)
    ensures !IsOnline(st) ==> v.netInf.None? && v.modelId.None?
    ensures v.isRunning == st.isRunning && v.predictionId == st.lastPredictedId
      && v.startedAt == st.lastPredictedAt && v.config == st.config
  {
    if IsOnline(st) then
      StatusView("online", st.isRunning, st.lastPredictedId, Some(st.config.value.inputTraffic.netInf),
        Some(st.config.value.modelId), st.lastPredictedAt, st.config)
    else
      StatusView("offline", st.isRunning, st.lastPredictedId, None, None, st.lastPredictedAt, st.config)
  }

  /** Whatever `/online` started is shown back by `/online/status` with the same interface and model. */
  lemma OnlineStatusShowsConfig(modelId: Option<string>, netInf: Option<string>, st: Connector.PredictStatus)
    requires OnlineConfig(modelId, netInf).Success?
    requires st.config == Some(OnlineConfig(modelId, netInf).value)
    ensures var v := OnlineStatusView(st);
      v.mode == "online" && v.netInf == netInf && v.modelId == modelId
  {
  }
}
