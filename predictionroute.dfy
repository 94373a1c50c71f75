/**
 * The `/prediction` routes: the answer for one prediction's results, decided
 * from its session and the files under the prediction directory, and the
 * three file downloads.
 */
module PredictionRoute {
  import opened Wrappers
  import Connector

  /** The files and directories the routes look at, by full path; a file maps to its text. */
  datatype Disk = Disk(files: map<string, string>, dirs: set<string>)

  function StatsPath(predictionPath: string, id: string): string {
    predictionPath + id + "/stats.csv"
  }

  datatype ResultReply =
    | Processing(predictionId: string, startedAt: int)
    | Stats(prediction: string)
    | NotFound(message: string)
    | Failed(predictionId: string)
    | NotAvailable(predictionId: string)

  function StatusCode(r: ResultReply): int {
    match r
    case Processing(_, _) => 202
    case Stats(_) => 200
    case NotFound(_) => 404
    case Failed(_) => 500
    case NotAvailable(_) => 404
  }

  predicate Running(session: Option<Connector.Session>) {
    session.Some? && session.value.isRunning
  }

  /**
   * `GET /:predictionId`. A running session answers 202 whatever files exist;
   * otherwise readable stats are sent; otherwise a missing directory is 404
   * "Prediction not found", a finished session 500 "Prediction failed", and
   * no session at all 404 "Results not available".
   */
  function Result(predictionPath: string, id: string, session: Option<Connector.Session>, disk: Disk): (r: ResultReply)
    ensures StatusCode(r) == 202 <==> Running(session)
    ensures r.Processing? ==> r.predictionId == id && r.startedAt == session.value.createdAt
    ensures StatusCode(r) == 200 <==> !Running(session) && StatsPath(predictionPath, id) in disk.files
    ensures r.Stats? ==> r.prediction == disk.files[StatsPath(predictionPath, id)]
    ensures r.NotFound? <==> (!Running(session) && StatsPath(predictionPath, id) !in disk.files
      && predictionPath + id !in disk.dirs)
    ensures StatusCode(r) == 500 <==> (session.Some? && !session.value.isRunning
      && StatsPath(predictionPath, id) !in disk.files && predictionPath + id in disk.dirs)
    ensures r.NotAvailable? <==> (session.None? && StatsPath(predictionPath, id) !in disk.files
      && predictionPath + id in disk.dirs)
  {
    if Running(session) then Processing(id, session.value.createdAt)
    else if StatsPath(predictionPath, id) in disk.files then Stats(disk.files[StatsPath(predictionPath, id)])
    else if predictionPath + id !in disk.dirs then NotFound("No prediction found with ID: " + id)
    else if session.Some? then Failed(id)
    else NotAvailable(id)
  }

  /** Every result answer is one of 200, 202, 404 and 500; 404 is reached only without readable stats. */
  lemma ResultCodes(predictionPath: string, id: string, session: Option<Connector.Session>, disk: Disk)
    ensures var c := StatusCode(Result(predictionPath, id, session, disk));
      (c == 200 || c == 202 || c == 404 || c == 500)
      && (c == 404 ==> StatsPath(predictionPath, id) !in disk.files)
  {
  }

  /** The downloadable result files. */
  datatype ResultFile = AllPredictions | Attacks | Normals

  function FileName(f: ResultFile): string {
    match f
    case AllPredictions => "predictions.csv"
    case Attacks => "attacks.csv"
    case Normals => "normals.csv"
  }

  datatype FileReply = SendFile(path: string) | Missing(status: int, message: string)

  /** `/download`, `/attack` and `/normal`: the file is sent when it exists, else 401 with a message naming the prediction. */
  function Serve(predictionPath: string, id: string, f: ResultFile, disk: Disk): (r: FileReply)
    ensures r.SendFile? <==> predictionPath + id + "/" + FileName(f) in disk.files
    ensures r.SendFile? ==> r.path == predictionPath + id + "/" + FileName(f)
    ensures r.Missing? ==> r.status == 401
  {
    var path := predictionPath + id + "/" + FileName(f);
    if path in disk.files then SendFile(path)
    else
      var what := match f
        case AllPredictions => "The prediction file of "
        case Attacks => "The prediction file for attack traffic of "
        case Normals => "The prediction file for normal traffic of ";
      Missing(401, what + id + " does not exist")
  }

  /** The three routes serve three different files of the same prediction. */
  lemma ServeDistinctFiles(predictionPath: string, id: string, f: ResultFile, g: ResultFile, disk: Disk)
    requires f != g
    requires Serve(predictionPath, id, f, disk).SendFile? && Serve(predictionPath, id, g, disk).SendFile?
    ensures Serve(predictionPath, id, f, disk).path != Serve(predictionPath, id, g, disk).path
  {
    var p := predictionPath + id + "/";
    var a := FileName(f);
    var b := FileName(g);
    assert (p + a)[|p|..] == a;
    assert (p + b)[|p|..] == b;
  }
}
