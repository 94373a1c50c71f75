/**
 * The deep-learning connector's module-level state: the `buildingStatus`,
 * `retrainStatus` and `predictingStatus` records, the prediction sessions kept
 * by the session manager, and the online pump chains started by
 * `startPredicting`; plus `prepareTraining`'s dataset expansion.
 *
 * Asynchronous callbacks of unseen code (file existence checks, `spawnCommand`,
 * `startMMTOnline`, `stopMMT`) become parameters or separate methods that stand
 * for the moment the callback runs. `Date.now()` and `getUniqueId()` are parameters.
 */
module Connector {
  import opened Wrappers
  import opened Text
  import Pump

  // ---------------------------------------------------------------- prepareTraining

  /** The report that `prepareTraining` never feeds to training. */
  const SecurityReports: string := "security-reports.csv"
  const InvalidDatasetMsg: string := "Invalid dataset. Please check the document and the example"
  const PrepareFailedMsg: string := "Failed to prepare the training location"
  const NoDatasetPrefix: string := "Invalid dataset. Dataset "
  const DoesNotExist: string := " does not exist"
  const BadTrainingMsg: string := "Invalid training dataset"
  const BadTestingMsg: string := "Invalid testing dataset"
  const NoModelFilePrefix: string := "The given model file "
  const RetrainBusyMsg: string := "An building process is on going"
  const UnsupportedTrafficPrefix: string := "Unsupported input traffic type: "
  const NoReportPrefix: string := "The report file does not exist: "
  const NoReportHint: string :=
    ". You must first run feature extraction (POST /features/extract) to generate a report before running prediction."
  /** The message for a missing model keeps the source's spelling. */
  const NoModelSuffix: string := " doest not exist"

  datatype Dataset = Dataset(datasetId: string, isAttack: bool)
  datatype BuildEntry = BuildEntry(csvPath: string, isAttack: bool)
  /** The build configuration; the training parameters are passed on untouched. */
  datatype BuildConfig = BuildConfig(datasets: Option<seq<Dataset>>, trainParameters: string)

  /** `${REPORT_PATH}${datasetId}/`. */
  function Folder(reportPath: string, d: Dataset): string {
    reportPath + d.datasetId + "/"
  }

  /** The entries one dataset folder contributes, in listing order. */
  function FolderEntries(folder: string, files: seq<string>, isAttack: bool): seq<BuildEntry>
    decreases |files|
  {
    if files == [] then []
    else
      var last := files[|files| - 1];
      FolderEntries(folder, files[..|files| - 1], isAttack)
        + (if last != SecurityReports then [BuildEntry(folder + last, isAttack)] else [])
  }

  ghost predicate AllPresent(reportPath: string, ds: seq<Dataset>, folders: map<string, seq<string>>) {
    forall j :: 0 <= j < |ds| ==> Folder(reportPath, ds[j]) in folders
  }

  /** The expansion of every dataset, in dataset order. */
  function Entries(reportPath: string, ds: seq<Dataset>, folders: map<string, seq<string>>): seq<BuildEntry>
    requires AllPresent(reportPath, ds, folders)
    decreases |ds|
  {
    if ds == [] then []
    else
      var d := ds[|ds| - 1];
      Entries(reportPath, ds[..|ds| - 1], folders)
        + FolderEntries(Folder(reportPath, d), folders[Folder(reportPath, d)], d.isAttack)
  }

  /** The first dataset whose folder does not exist. */
  function FirstMissing(reportPath: string, ds: seq<Dataset>, folders: map<string, seq<string>>): (r: Option<nat>)
    ensures r.Some? ==> (r.value < |ds| && Folder(reportPath, ds[r.value]) !in folders
      && forall j :: 0 <= j < r.value ==> Folder(reportPath, ds[j]) in folders)
    ensures r.None? <==> AllPresent(reportPath, ds, folders)
    decreases |ds|
  {
    if ds == [] then None
    else if Folder(reportPath, ds[0]) !in folders then Some(0)
    else
      match FirstMissing(reportPath, ds[1..], folders)
      case None => None
      case Some(k) => Some(k + 1)
  }

  /**
   * What `prepareTraining` answers: `folders` maps each existing dataset
   * folder to its `.csv` listing (the write of `build-config.json` is not part of it).
   */
  function Prepare(reportPath: string, datasets: Option<seq<Dataset>>, folders: map<string, seq<string>>)
    : Result<seq<BuildEntry>, string>
  {
    if datasets.None? || |datasets.value| < 2 then Failure(InvalidDatasetMsg)
    else
      match FirstMissing(reportPath, datasets.value, folders)
      case Some(k) => Failure(NoDatasetPrefix + datasets.value[k].datasetId + DoesNotExist)
      case None => Success(Entries(reportPath, datasets.value, folders))
  }

  /** `prepareTraining`'s nested loops pushing into `buildDatasets`. */
  method PrepareTraining(reportPath: string, datasets: Option<seq<Dataset>>, folders: map<string, seq<string>>)
    returns (r: Result<seq<BuildEntry>, string>)
    ensures r == Prepare(reportPath, datasets, folders)
  {
    if datasets.None? || |datasets.value| < 2 {
      return Failure(InvalidDatasetMsg);
    }
    var ds := datasets.value;
    var built: seq<BuildEntry> := [];
    var i := 0;
    while i < |ds|
      invariant 0 <= i <= |ds|
      invariant AllPresent(reportPath, ds[..i], folders)
      invariant built == Entries(reportPath, ds[..i], folders)
    {
      var folder := Folder(reportPath, ds[i]);
      if folder !in folders {
        var m := FirstMissing(reportPath, ds, folders);
        assert forall j :: 0 <= j < i ==> ds[..i][j] == ds[j];
        assert m == Some(i);
        return Failure(NoDatasetPrefix + ds[i].datasetId + DoesNotExist);
      }
      var entries := ExpandFolder(folder, folders[folder], ds[i].isAttack);
      built := built + entries;
      assert ds[..i + 1][..i] == ds[..i];
      i := i + 1;
    }
    assert ds[..i] == ds;
    return Success(built);
  }

  /** The inner loop of `prepareTraining`: one entry per listed file but the security report. */
  method ExpandFolder(folder: string, files: seq<string>, isAttack: bool) returns (entries: seq<BuildEntry>)
    ensures entries == FolderEntries(folder, files, isAttack)
  {
    entries := [];
    var k := 0;
    while k < |files|
      invariant 0 <= k <= |files|
      invariant entries == FolderEntries(folder, files[..k], isAttack)
    {
      if files[k] != SecurityReports {
        entries := entries + [BuildEntry(folder + files[k], isAttack)];
      }
      assert files[..k + 1][..k] == files[..k];
      k := k + 1;
    }
    assert files[..k] == files;
  }

  lemma {:induction false} FolderEntriesMembers(folder: string, files: seq<string>, isAttack: bool, e: BuildEntry)
    ensures e in FolderEntries(folder, files, isAttack) <==>
      exists f :: f in files && f != SecurityReports && e == BuildEntry(folder + f, isAttack)
    decreases |files|
  {
    if files != [] {
      var init := files[..|files| - 1];
      FolderEntriesMembers(folder, init, isAttack, e);
      assert files == init + [files[|files| - 1]];
    }
  }

  lemma {:induction false} EntriesMembers(reportPath: string, ds: seq<Dataset>, folders: map<string, seq<string>>, e: BuildEntry)
    requires AllPresent(reportPath, ds, folders)
    ensures e in Entries(reportPath, ds, folders) <==>
      exists j :: 0 <= j < |ds| && e in FolderEntries(Folder(reportPath, ds[j]), folders[Folder(reportPath, ds[j])], ds[j].isAttack)
    decreases |ds|
  {
    if ds != [] {
      var init := ds[..|ds| - 1];
      assert AllPresent(reportPath, init, folders) by {
        forall j | 0 <= j < |init| ensures init[j] == ds[j] { }
      }
      EntriesMembers(reportPath, init, folders, e);
      assert forall j :: 0 <= j < |init| ==> init[j] == ds[j];
    }
  }

  /**
   * `prepareTraining` fails exactly when there are fewer than two datasets or
   * some dataset folder is missing; otherwise its entries are exactly the
   * listed `.csv` files other than `security-reports.csv`, each tagged with
   * its dataset's `isAttack`.
   */
  lemma PrepareOutcome(reportPath: string, datasets: Option<seq<Dataset>>, folders: map<string, seq<string>>)
    ensures Prepare(reportPath, datasets, folders).Failure? <==>
      datasets.None? || |datasets.value| < 2 ||
      exists j :: 0 <= j < |datasets.value| && Folder(reportPath, datasets.value[j]) !in folders
    ensures Prepare(reportPath, datasets, folders).Success? ==>
      var ds := datasets.value;
      forall e :: e in Prepare(reportPath, datasets, folders).value <==>
        exists j, f :: 0 <= j < |ds| && f in folders[Folder(reportPath, ds[j])] && f != SecurityReports
          && e == BuildEntry(Folder(reportPath, ds[j]) + f, ds[j].isAttack)
  {
    var r := Prepare(reportPath, datasets, folders);
    if r.Success? {
      var ds := datasets.value;
      forall e
        ensures e in r.value <==>
          exists j, f :: 0 <= j < |ds| && f in folders[Folder(reportPath, ds[j])] && f != SecurityReports
            && e == BuildEntry(Folder(reportPath, ds[j]) + f, ds[j].isAttack)
      {
        EntriesMembers(reportPath, ds, folders, e);
        forall j | 0 <= j < |ds| {
          FolderEntriesMembers(Folder(reportPath, ds[j]), folders[Folder(reportPath, ds[j])], ds[j].isAttack, e);
        }
      }
    }
  }

  // ---------------------------------------------------------------- status records

  datatype BuildStatus = BuildStatus(isRunning: bool, lastBuildAt: Option<int>, lastBuildId: Option<string>, config: Option<BuildConfig>)

  datatype RetrainConfig = RetrainConfig(modelId: string, trainingDataset: string, testingDataset: string)
  datatype RetrainStatus = RetrainStatus(isRunning: bool, lastRetrainAt: Option<int>, config: Option<RetrainConfig>, lastRetrainId: Option<string>)
  /** Which of the files `retrainModel` probes exist. */
  datatype RetrainFiles = RetrainFiles(trainingInAttacks: bool, trainingInTraining: bool, testingInTraining: bool, modelExists: bool)
  /** The callback value of a retrain that started: the id of its folder under the training path. */
  datatype RetrainStarted = RetrainStarted(retrainId: string)

  datatype Traffic =
    | ReportInput(reportId: string, reportFileName: string)
    | OnlineInput(netInf: string)
    | PcapInput
    | OtherInput(kind: string)
  datatype PredictConfig = PredictConfig(modelId: string, inputTraffic: Traffic)
  datatype PredictStatus = PredictStatus(isRunning: bool, lastPredictedAt: Option<int>, lastPredictedId: Option<string>, config: Option<PredictConfig>)

  /** What the session manager keeps per prediction id. */
  datatype Session = Session(mode: string, isRunning: bool, createdAt: int, config: PredictConfig)
  /** The value `startMMTOnline` hands its callback. */
  datatype MmtStatus = MmtStatus(isRunning: bool, sessionId: string)

  datatype PredictReply =
    | PredictError(error: string, details: Option<string>, missingFile: Option<string>)
    | PredictStarted(status: PredictStatus)

  const IdleStatus := PredictStatus(false, None, None, None)

  class DeepLearningConnector {
    /** `REPORT_PATH`. */
    const reportPath: string
    var building: BuildStatus
    var retrain: RetrainStatus
    /** The deprecated record that still governs the online pump. */
    var predicting: PredictStatus
    var sessions: map<string, Session>
    /** The session the session manager reports as the legacy prediction status. */
    var lastSession: Option<string>
    /** The pending call of every online pump chain started so far. */
    var chains: seq<Pump.Call>

    ghost predicate Valid()
      reads this
    {
      lastSession.Some? ==> lastSession.value in sessions
    }

    constructor (reportPath: string)
      ensures Valid()
      ensures this.reportPath == reportPath
      ensures !building.isRunning && !retrain.isRunning && predicting == IdleStatus
      ensures sessions == map[] && lastSession == None && chains == []
    {
      this.reportPath := reportPath;
      building := BuildStatus(false, None, None, None);
      retrain := RetrainStatus(false, None, None, None);
      predicting := IdleStatus;
      sessions := map[];
      lastSession := None;
      chains := [];
    }

    /**
     * `startBuildingModel`: any failure of `prepareTraining` (or of writing the
     * build configuration, `writeOk`) is reported as the same message; otherwise the
     * build is marked running. It does not check whether a build already runs.
     */
    method StartBuildingModel(config: BuildConfig, folders: map<string, seq<string>>, writeOk: bool, buildId: string, now: int)
      returns (r: Result<BuildStatus, string>)
      modifies this
      ensures Prepare(reportPath, config.datasets, folders).Failure? || !writeOk ==>
        r == Failure(PrepareFailedMsg) && building == old(building)
      ensures Prepare(reportPath, config.datasets, folders).Success? && writeOk ==>
        building == BuildStatus(true, Some(now), Some(buildId), Some(config)) && r == Success(building)
      ensures retrain == old(retrain) && predicting == old(predicting) && sessions == old(sessions)
      ensures lastSession == old(lastSession) && chains == old(chains)
    {
      var prepared := PrepareTraining(reportPath, config.datasets, folders);
      if prepared.Failure? || !writeOk {
        return Failure(PrepareFailedMsg);
      }
      building := building.(isRunning := true, config := Some(config), lastBuildAt := Some(now), lastBuildId := Some(buildId));
      return Success(building);
    }

    /** The build process exited: the only place the flag is cleared. */
    method BuildFinished()
      modifies this
      ensures building == old(building).(isRunning := false)
      ensures retrain == old(retrain) && predicting == old(predicting) && sessions == old(sessions)
      ensures lastSession == old(lastSession) && chains == old(chains)
    {
      building := building.(isRunning := false);
    }

    /**
     * `retrainModel`: refused while a retrain runs; then the training dataset is
     * looked up among the model's attacks and then its datasets, the testing
     * dataset among its datasets, and the model file must exist. Only when all
     * checks pass is the retrain marked running.
     */
    method RetrainModel(config: RetrainConfig, files: RetrainFiles, retrainId: string, now: int)
      returns (r: Result<RetrainStarted, string>)
      modifies this
      ensures old(retrain.isRunning) ==> r == Failure(RetrainBusyMsg)
      ensures !old(retrain.isRunning) && !files.trainingInAttacks && !files.trainingInTraining ==>
        r == Failure(BadTrainingMsg)
      ensures !old(retrain.isRunning) && (files.trainingInAttacks || files.trainingInTraining) && !files.testingInTraining ==>
        r == Failure(BadTestingMsg)
      ensures (!old(retrain.isRunning) && (files.trainingInAttacks || files.trainingInTraining) && files.testingInTraining
        && !files.modelExists) ==>
        r == Failure(NoModelFilePrefix + config.modelId + DoesNotExist)
      ensures r.Failure? <==> retrain == old(retrain)
      ensures r.Success? ==>
        r.value == RetrainStarted(retrainId) && retrain == RetrainStatus(true, Some(now), Some(config), Some(retrainId))
      ensures building == old(building) && predicting == old(predicting) && sessions == old(sessions)
      ensures lastSession == old(lastSession) && chains == old(chains)
    {
      if retrain.isRunning {
        return Failure(RetrainBusyMsg);
      }
      if !files.trainingInAttacks && !files.trainingInTraining {
        return Failure(BadTrainingMsg);
      }
      if !files.testingInTraining {
        return Failure(BadTestingMsg);
      }
      if !files.modelExists {
        return Failure(NoModelFilePrefix + config.modelId + DoesNotExist);
      }
      retrain := RetrainStatus(true, Some(now), Some(config), Some(retrainId));
      return Success(RetrainStarted(retrainId));
    }

    /** The retrain process exited. */
    method RetrainFinished()
      modifies this
      ensures retrain == old(retrain).(isRunning := false)
      ensures building == old(building) && predicting == old(predicting) && sessions == old(sessions)
      ensures lastSession == old(lastSession) && chains == old(chains)
    {
      retrain := retrain.(isRunning := false);
    }

    /** `stopOnlinePrediction`, at the moment `stopMMT` calls back: clears the pump's flag and nothing else. */
    method StopOnlinePrediction() returns (status: PredictStatus)
      modifies this
      ensures predicting == old(predicting).(isRunning := false) && status == predicting
      ensures building == old(building) && retrain == old(retrain) && sessions == old(sessions)
      ensures lastSession == old(lastSession) && chains == old(chains)
    {
      predicting := predicting.(isRunning := false);
      return predicting;
    }

    /** `sessionManager.createSession('prediction', id, mode, { config })`. */
    method CreateSession(id: string, mode: string, config: PredictConfig, now: int)
      requires Valid()
      modifies this
      ensures Valid()
      ensures sessions == old(sessions)[id := Session(mode, true, now, config)] && lastSession == Some(id)
      ensures building == old(building) && retrain == old(retrain) && predicting == old(predicting)
      ensures chains == old(chains)
    {
      sessions := sessions[id := Session(mode, true, now, config)];
      lastSession := Some(id);
    }

    /** `sessionManager.completeSession('prediction', id)`; an unknown id changes nothing. */
    method CompleteSession(id: string)
      requires Valid()
      modifies this
      ensures Valid()
      ensures id in old(sessions) ==> sessions == old(sessions)[id := old(sessions)[id].(isRunning := false)]
      ensures id !in old(sessions) ==> sessions == old(sessions)
      ensures lastSession == old(lastSession)
      ensures building == old(building) && retrain == old(retrain) && predicting == old(predicting)
      ensures chains == old(chains)
    {
      if id in sessions {
        sessions := sessions[id := sessions[id].(isRunning := false)];
      }
    }

    /** The legacy view of a session, as both `startPredicting` replies and `getPredictingStatus` give it. */
    function LegacyView(id: string): PredictStatus
      reads this
      requires id in sessions
    {
      var s := sessions[id];
      PredictStatus(s.isRunning, Some(s.createdAt), Some(id), Some(s.config))
    }

    /** `getPredictingStatus`: the session manager's legacy status, idle when no prediction was ever started. */
    function PredictingStatus(): (st: PredictStatus)
      reads this
      requires Valid()
      ensures lastSession.None? ==> st == IdleStatus
      ensures lastSession.Some? ==> st.lastPredictedId == lastSession && st.isRunning == sessions[lastSession.value].isRunning
    {
      if lastSession.None? then IdleStatus else LegacyView(lastSession.value)
    }

    /**
     * `startPredicting`, once its callbacks have run. `None` means the callback
     * is never called: for `pcap` traffic, and for online traffic when MMT did
     * not report itself running (`mmt` is what `startMMTOnline` called back with).
     */
    method StartPredicting(config: PredictConfig, predictionId: string, now: int, modelExists: bool,
                           reportExists: bool, reportContent: Option<string>, mmt: Option<MmtStatus>)
      returns (reply: Option<PredictReply>)
      requires Valid()
      modifies this
      ensures Valid()
      ensures building == old(building) && retrain == old(retrain)
      ensures PredictOutcome(config, predictionId, now, modelExists, reportExists, reportContent, mmt, reply,
        old(sessions), old(lastSession), old(predicting), old(chains))
    {
      if !modelExists {
        return Some(PredictError("Model " + config.modelId + NoModelSuffix, None, None));
      }
      match config.inputTraffic
      case ReportInput(_, _) =>
        reply := StartReportPrediction(config, predictionId, now, reportExists, reportContent);
      case OnlineInput(_) =>
        reply := StartOnline(config, predictionId, now, mmt);
      case PcapInput =>
        return None;
      case OtherInput(kind) =>
        return Some(PredictError(UnsupportedTrafficPrefix + kind, None, None));
    }

    /** The error for a report file that does not exist, naming the path `REPORT_PATH/reportId/reportFileName`. */
    function MissingReport(t: Traffic): (e: PredictReply)
      reads this
      requires t.ReportInput?
      ensures e.PredictError? && e.missingFile == Some(reportPath + "/" + t.reportId + "/" + t.reportFileName)
      ensures e.error == NoReportPrefix + t.reportFileName
    {
      PredictError(NoReportPrefix + t.reportFileName,
        Some("Report ID: " + t.reportId + NoReportHint),
        Some(reportPath + "/" + t.reportId + "/" + t.reportFileName))
    }

    /**
     * The outcome of `startPredicting` by traffic type: a missing model is an
     * error; `pcap` never answers and an unknown type is an error, both without
     * any change; `report` and `online` as below.
     */
    ghost predicate PredictOutcome(config: PredictConfig, predictionId: string, now: int, modelExists: bool,
                                   reportExists: bool, reportContent: Option<string>, mmt: Option<MmtStatus>,
                                   reply: Option<PredictReply>,
                                   s0: map<string, Session>, l0: Option<string>, p0: PredictStatus, c0: seq<Pump.Call>)
      reads this
    {
      if !modelExists then
        reply == Some(PredictError("Model " + config.modelId + NoModelSuffix, None, None)) && Unchanged(s0, l0, p0, c0)
      else
        match config.inputTraffic
        case PcapInput => reply == None && Unchanged(s0, l0, p0, c0)
        case OtherInput(kind) =>
          reply == Some(PredictError(UnsupportedTrafficPrefix + kind, None, None)) && Unchanged(s0, l0, p0, c0)
        case ReportInput(_, _) => ReportStarted(config, predictionId, now, reportExists, reportContent, reply, s0, l0, p0, c0)
        case OnlineInput(_) => OnlineStarted(config, predictionId, now, mmt, reply, s0, l0, p0, c0)
    }

    /** Nothing of the prediction state changed. */
    ghost predicate Unchanged(s0: map<string, Session>, l0: Option<string>, p0: PredictStatus, c0: seq<Pump.Call>)
      reads this
    {
      sessions == s0 && lastSession == l0 && predicting == p0 && chains == c0
    }

    /**
     * The `report` case: a missing report is an error and changes nothing;
     * otherwise the offline session is created, and a skipped or unreadable
     * report completes it before the reply is built from it.
     */
    ghost predicate ReportStarted(config: PredictConfig, predictionId: string, now: int, reportExists: bool,
                                  reportContent: Option<string>, reply: Option<PredictReply>,
                                  s0: map<string, Session>, l0: Option<string>, p0: PredictStatus, c0: seq<Pump.Call>)
      reads this
      requires config.inputTraffic.ReportInput?
    {
      var t := config.inputTraffic;
      if !reportExists then
        && reply == Some(MissingReport(t))
        && Unchanged(s0, l0, p0, c0)
      else
        var running := Pump.Execute(reportContent) == Pump.Spawned;
        && sessions == s0[predictionId := Session("offline", running, now, config)]
        && lastSession == Some(predictionId)
        && predicting == p0 && chains == c0
        && reply == Some(PredictStarted(PredictStatus(running, Some(now), Some(predictionId), Some(config))))
    }

    /**
     * The `online` case: unless MMT reports itself running nothing happens and
     * nothing is replied; otherwise the online session is created, the
     * deprecated `predictingStatus` is set running, and a new pump chain starts at index 0.
     */
    ghost predicate OnlineStarted(config: PredictConfig, predictionId: string, now: int, mmt: Option<MmtStatus>,
                                  reply: Option<PredictReply>,
                                  s0: map<string, Session>, l0: Option<string>, p0: PredictStatus, c0: seq<Pump.Call>)
      reads this
    {
      if mmt.None? || !mmt.value.isRunning then
        reply == None && Unchanged(s0, l0, p0, c0)
      else
        && sessions == s0[predictionId := Session("online", true, now, config)]
        && lastSession == Some(predictionId)
        && predicting == PredictStatus(true, Some(now), Some(predictionId), Some(config))
        && chains == c0 + [Pump.CheckCsv(0, 0)]
        && reply == Some(PredictStarted(predicting))
    }

    method StartReportPrediction(config: PredictConfig, predictionId: string, now: int, reportExists: bool,
                                 reportContent: Option<string>)
      returns (reply: Option<PredictReply>)
      requires Valid() && config.inputTraffic.ReportInput?
      modifies this
      ensures Valid()
      ensures building == old(building) && retrain == old(retrain)
      ensures ReportStarted(config, predictionId, now, reportExists, reportContent, reply,
        old(sessions), old(lastSession), old(predicting), old(chains))
    {
      ghost var s0 := sessions;
      var t := config.inputTraffic;
      if !reportExists {
        return Some(MissingReport(t));
      }
      CreateSession(predictionId, "offline", config, now);
      var launch := Pump.Execute(reportContent);
      if launch != Pump.Spawned {
        CompleteSession(predictionId);
        assert sessions == s0[predictionId := Session("offline", false, now, config)];
      }
      return Some(PredictStarted(LegacyView(predictionId)));
    }

    method StartOnline(config: PredictConfig, predictionId: string, now: int, mmt: Option<MmtStatus>)
      returns (reply: Option<PredictReply>)
      requires Valid()
      modifies this
      ensures Valid()
      ensures building == old(building) && retrain == old(retrain)
      ensures OnlineStarted(config, predictionId, now, mmt, reply, old(sessions), old(lastSession), old(predicting), old(chains))
    {
      if mmt.None? || !mmt.value.isRunning {
        return None;
      }
      CreateSession(predictionId, "online", config, now);
      predicting := PredictStatus(true, Some(now), Some(predictionId), Some(config));
      reply := Some(PredictStarted(LegacyView(predictionId)));
      chains := chains + [Pump.CheckCsv(0, 0)];
    }

    /** The classifier of an offline report prediction exited: its session is completed. */
    method OfflineClassifierExited(predictionId: string)
      requires Valid()
      modifies this
      ensures Valid()
      ensures predictionId in old(sessions) ==>
        sessions == old(sessions)[predictionId := old(sessions)[predictionId].(isRunning := false)]
      ensures predictionId !in old(sessions) ==> sessions == old(sessions)
      ensures building == old(building) && retrain == old(retrain) && predicting == old(predicting)
      ensures lastSession == old(lastSession) && chains == old(chains)
    {
      CompleteSession(predictionId);
    }

    /**
     * The pending call of chain `k` runs. It consults `predictingStatus.isRunning`,
     * not the chain's session, and changes nothing but that chain.
     */
    method PumpTick(k: nat, dir: Pump.Listing) returns (processed: Option<nat>)
      requires k < |chains|
      modifies this
      ensures var s := Pump.Next(old(chains[k]), Pump.Tick(old(predicting.isRunning), dir));
        chains == old(chains)[k := s.next] && processed == s.processed
      ensures !predicting.isRunning && (old(chains[k]).CheckCsv? || old(chains[k]).CheckSem?) ==>
        chains[k] == Pump.Stopped(old(chains[k]).index) && processed == None
      ensures building == old(building) && retrain == old(retrain) && predicting == old(predicting)
      ensures sessions == old(sessions) && lastSession == old(lastSession)
    {
      if chains[k].CheckCsv? || chains[k].CheckSem? {
        Pump.StopEndsChain(chains[k], dir);
      }
      var s := Pump.Next(chains[k], Pump.Tick(predicting.isRunning, dir));
      chains := chains[k := s.next];
      processed := s.processed;
    }

    /** The classifier spawned by chain `k` called back. */
    method PumpClassifierExit(k: nat, failed: bool)
      requires k < |chains|
      modifies this
      ensures chains == old(chains)[k := Pump.Next(old(chains[k]), Pump.ClassifierExit(failed)).next]
      ensures old(chains[k]).Classifying? ==> chains[k] == Pump.CheckCsv(old(chains[k]).index + 1, 0)
      ensures building == old(building) && retrain == old(retrain) && predicting == old(predicting)
      ensures sessions == old(sessions) && lastSession == old(lastSession)
    {
      chains := chains[k := Pump.Next(chains[k], Pump.ClassifierExit(failed)).next];
    }
  }
}
