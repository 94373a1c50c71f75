/**
 * What the job-queue manager adds on top of its broker library: queue-name
 * lookup, worker configuration, wait-time estimation and duration formatting,
 * the Redis retry and reconnect policies, statistics totals, job priority and
 * the cleanup window, and the bookkeeping of the seven queues' job table and of
 * the `REDIS_AVAILABLE` flag. The broker itself is an abstract table of jobs.
 */
module JobQueue {
  import opened Wrappers
  import opened Text

  // ---------------------------------------------------------------- queue names

  datatype QueueName =
    | FeatureExtraction | ModelTraining | Prediction | RuleBasedDetection
    | XaiExplanations | AdversarialAttacks | ModelRetraining

  const AllQueues: seq<QueueName> :=
    [FeatureExtraction, ModelTraining, Prediction, RuleBasedDetection, XaiExplanations, AdversarialAttacks, ModelRetraining]

  /** The broker-side names of the queues. */
  const FeatureExtractionName: string := "feature-extraction"
  const ModelTrainingName: string := "model-training"
  const PredictionName: string := "prediction"
  const RuleBasedDetectionName: string := "rule-based-detection"
  const XaiExplanationsName: string := "xai-explanations"
  const AdversarialAttacksName: string := "adversarial-attacks"
  const ModelRetrainingName: string := "model-retraining"

  /** The broker-side name of a queue. */
  function Name(q: QueueName): string {
    match q
    case FeatureExtraction => FeatureExtractionName
    case ModelTraining => ModelTrainingName
    case Prediction => PredictionName
    case RuleBasedDetection => RuleBasedDetectionName
    case XaiExplanations => XaiExplanationsName
    case AdversarialAttacks => AdversarialAttacksName
    case ModelRetraining => ModelRetrainingName
  }

  /** The name-to-queue table of `getJobStatus` and `cancelJob`. */
  function Lookup(name: string): Option<QueueName> {
    if name == FeatureExtractionName then Some(FeatureExtraction)
    else if name == ModelTrainingName then Some(ModelTraining)
    else if name == PredictionName then Some(Prediction)
    else if name == RuleBasedDetectionName then Some(RuleBasedDetection)
    else if name == XaiExplanationsName then Some(XaiExplanations)
    else if name == AdversarialAttacksName then Some(AdversarialAttacks)
    else if name == ModelRetrainingName then Some(ModelRetraining)
    else None
  }

  /** Exactly the seven queue names are known, each to its own queue. */
  lemma LookupInvertsName(q: QueueName, name: string)
    ensures Lookup(Name(q)) == Some(q)
    ensures Lookup(name).Some? ==> Name(Lookup(name).value) == name
    ensures q in AllQueues
  {
  }

  // ---------------------------------------------------------------- workers

  /** `parseInt(process.env[envVar]) || default`: a missing, unparsable or zero setting gives the default. */
  function ConfiguredWorkers(envVar: string, default: int, env: map<string, string>): (w: int)
    requires default != 0
    ensures w != 0
    ensures envVar !in env ==> w == default
    ensures envVar in env && ParseInt(env[envVar]).Some? && ParseInt(env[envVar]).value != 0 ==>
              w == ParseInt(env[envVar]).value
    ensures envVar in env && (ParseInt(env[envVar]).None? || ParseInt(env[envVar]).value == 0) ==>
              w == default
  {
    var p := if envVar in env then ParseInt(env[envVar]) else None;
    if p.Some? && p.value != 0 then p.value else default
  }

  /** The keys of the `CONCURRENCY` table. */
  const FeatureExtractionKey: string := "featureExtraction"
  const ModelTrainingKey: string := "modelTraining"
  const PredictionKey: string := "prediction"
  const RuleBasedDetectionKey: string := "ruleBasedDetection"
  const XaiExplanationsKey: string := "xaiExplanations"
  const AdversarialAttacksKey: string := "adversarialAttacks"
  const ModelRetrainingKey: string := "modelRetraining"

  /** `CONCURRENCY[key]`: the table is keyed by camel-case names. */
  function Concurrency(key: string, env: map<string, string>): (w: Option<int>)
    ensures w.Some? ==> w.value != 0
    ensures w.Some? <==> key in {FeatureExtractionKey, ModelTrainingKey, PredictionKey, RuleBasedDetectionKey,
                                 XaiExplanationsKey, AdversarialAttacksKey, ModelRetrainingKey}
    ensures key == FeatureExtractionKey ==> w == Some(ConfiguredWorkers("FEATURE_WORKERS", 3, env))
    ensures key == ModelTrainingKey ==> w == Some(ConfiguredWorkers("TRAINING_WORKERS", 2, env))
    ensures key == PredictionKey ==> w == Some(ConfiguredWorkers("PREDICTION_WORKERS", 3, env))
    ensures key == RuleBasedDetectionKey ==> w == Some(ConfiguredWorkers("RULEBASED_WORKERS", 2, env))
    ensures key == XaiExplanationsKey ==> w == Some(ConfiguredWorkers("XAI_WORKERS", 1, env))
    ensures key == AdversarialAttacksKey ==> w == Some(ConfiguredWorkers("ATTACK_WORKERS", 2, env))
    ensures key == ModelRetrainingKey ==> w == Some(ConfiguredWorkers("RETRAIN_WORKERS", 2, env))
  {
    if key == FeatureExtractionKey then Some(ConfiguredWorkers("FEATURE_WORKERS", 3, env))
    else if key == ModelTrainingKey then Some(ConfiguredWorkers("TRAINING_WORKERS", 2, env))
    else if key == PredictionKey then Some(ConfiguredWorkers("PREDICTION_WORKERS", 3, env))
    else if key == RuleBasedDetectionKey then Some(ConfiguredWorkers("RULEBASED_WORKERS", 2, env))
    else if key == XaiExplanationsKey then Some(ConfiguredWorkers("XAI_WORKERS", 1, env))
    else if key == AdversarialAttacksKey then Some(ConfiguredWorkers("ATTACK_WORKERS", 2, env))
    else if key == ModelRetrainingKey then Some(ConfiguredWorkers("RETRAIN_WORKERS", 2, env))
    else None
  }

  /** `CONCURRENCY[queue.name.replace('-', '')] || 1`. */
  function WorkersFor(q: QueueName, env: map<string, string>): (w: int)
    ensures w != 0
  {
    Concurrency(RemoveFirst(Name(q), '-'), env).GetOr(1)
  }

  predicate NoUpper(s: string) {
    forall i :: 0 <= i < |s| ==> !('A' <= s[i] <= 'Z')
  }

  lemma {:induction false} RemoveFirstKeepsCase(s: string, c: char)
    requires NoUpper(s)
    ensures NoUpper(RemoveFirst(s, c))
    decreases |s|
  {
    if s != [] && s[0] != c {
      RemoveFirstKeepsCase(s[1..], c);
      assert RemoveFirst(s, c) == [s[0]] + RemoveFirst(s[1..], c);
    }
  }

  /** Every `CONCURRENCY` key but `prediction` holds an upper-case letter. */
  lemma LowerCaseKeyMisses(key: string, env: map<string, string>)
    requires NoUpper(key) && key != PredictionKey
    ensures Concurrency(key, env) == None
  {
    assert !NoUpper(FeatureExtractionKey) by { assert FeatureExtractionKey[7] == 'E'; }
    assert !NoUpper(ModelTrainingKey) by { assert ModelTrainingKey[5] == 'T'; }
    assert !NoUpper(RuleBasedDetectionKey) by { assert RuleBasedDetectionKey[4] == 'B'; }
    assert !NoUpper(XaiExplanationsKey) by { assert XaiExplanationsKey[3] == 'E'; }
    assert !NoUpper(AdversarialAttacksKey) by { assert AdversarialAttacksKey[11] == 'A'; }
    assert !NoUpper(ModelRetrainingKey) by { assert ModelRetrainingKey[5] == 'R'; }
  }

  /** Every queue name is lower case. */
  lemma LowerName(q: QueueName)
    ensures NoUpper(Name(q))
  {
  }

  /** Every queue name but `prediction` has a dash. */
  lemma DashedName(q: QueueName)
    requires q != Prediction
    ensures '-' in Name(q) && |Name(q)| != 11
  {
    var name := Name(q);
    match q
    case FeatureExtraction => assert name[7] == '-';
    case ModelTraining => assert name[5] == '-';
    case RuleBasedDetection => assert name[4] == '-';
    case XaiExplanations => assert name[3] == '-';
    case AdversarialAttacks => assert name[11] == '-';
    case ModelRetraining => assert name[5] == '-';
  }

  /**
   * Removing only the first `-` from a queue name matches a `CONCURRENCY` key
   * for `prediction` alone: every other queue estimates with one worker,
   * whatever its configured concurrency.
   */
  lemma OnlyPredictionFindsItsWorkers(q: QueueName, env: map<string, string>)
    ensures q == Prediction ==> WorkersFor(q, env) == ConfiguredWorkers("PREDICTION_WORKERS", 3, env)
    ensures q != Prediction ==> WorkersFor(q, env) == 1
  {
    if q == Prediction {
      assert '-' !in Name(q);
    } else {
      DashedName(q);
      LowerName(q);
      RemoveFirstKeepsCase(Name(q), '-');
      LowerCaseKeyMisses(RemoveFirst(Name(q), '-'), env);
    }
  }

  // ---------------------------------------------------------------- wait estimate

  /** `getJobCounts()`; a count is `None` when the broker leaves it out. */
  datatype JobCounts = JobCounts(waiting: Option<int>, active: Option<int>, completed: Option<int>, failed: Option<int>)
  datatype WaitEstimate = WaitEstimate(seconds: int, minutes: int, formatted: string)

  /** `x || 0` for a count. */
  function Or0(x: Option<int>): int {
    x.GetOr(0)
  }

  /** The assumed average run time of one job, in seconds. */
  function AvgDuration(q: QueueName): nat {
    match q
    case FeatureExtraction => 60
    case ModelTraining => 300
    case Prediction => 30
    case RuleBasedDetection => 45
    case _ => 60
  }

  /** `Math.ceil`. */
  function Ceil(x: real): (c: int)
    ensures c as real >= x && (c - 1) as real < x
  {
    -((-x).Floor)
  }

  /** `Math.ceil(a / b)` for integers. */
  function CeilDiv(a: int, b: int): (c: int)
    requires b > 0
    ensures (c - 1) * b < a <= c * b
  {
    -((-a) / b)
  }

  /** `position || metrics.waiting || 0`: a position of 0 counts as absent. */
  function WaitingJobs(position: int, metrics: JobCounts): (n: int)
    ensures position != 0 ==> n == position
    ensures position == 0 ==> n == Or0(metrics.waiting)
  {
    if position != 0 then position else Or0(metrics.waiting)
  }

  /**
   * `estimateWaitTime`: `position` is what `job.getPosition()` gave (0 when it
   * is missing or throws); `metrics` is `None` when `getJobCounts()` throws.
   */
  function EstimateWaitTime(q: QueueName, position: int, metrics: Option<JobCounts>, env: map<string, string>): WaitEstimate {
    match metrics
    case None => WaitEstimate(0, 0, "Unknown")
    case Some(m) => EstimateFrom(WaitingJobs(position, m), WorkersFor(q, env), AvgDuration(q))
  }

  /** The arithmetic of `estimateWaitTime` once the waiting jobs, workers and average are known. */
  function EstimateFrom(waiting: int, workers: int, avg: nat): (e: WaitEstimate)
    requires workers != 0
    ensures var exact := (waiting as real / workers as real) * avg as real;
      (e.seconds - 1) as real < exact <= e.seconds as real
    ensures (e.minutes - 1) * 60 < e.seconds <= e.minutes * 60
  {
    var seconds := Ceil((waiting as real / workers as real) * avg as real);
    WaitEstimate(seconds, CeilDiv(seconds, 60), FormatDuration(seconds))
  }

  /** A broker error gives zero and `Unknown`; otherwise the arithmetic runs on the queue's own figures. */
  lemma EstimateOnError(q: QueueName, position: int, metrics: Option<JobCounts>, env: map<string, string>)
    ensures metrics.None? ==> EstimateWaitTime(q, position, metrics, env) == WaitEstimate(0, 0, "Unknown")
    ensures metrics.Some? ==>
      EstimateWaitTime(q, position, metrics, env) == EstimateFrom(WaitingJobs(position, metrics.value), WorkersFor(q, env), AvgDuration(q))
  {
  }

  lemma ScaledMonotone(p1: int, p2: int, w: real, a: real)
    requires p1 <= p2 && w > 0.0 && a >= 0.0
    ensures (p1 as real / w) * a <= (p2 as real / w) * a
  {
    var u1 := p1 as real / w;
    var u2 := p2 as real / w;
    assert u2 - u1 == (p2 - p1) as real / w;
    assert u1 <= u2;
    assert u2 * a - u1 * a == (u2 - u1) * a;
  }

  /** More waiting jobs never give a shorter estimate, for a positive worker count. */
  lemma EstimateMonotone(p1: int, p2: int, workers: int, avg: nat)
    requires workers > 0 && p1 <= p2
    ensures EstimateFrom(p1, workers, avg).seconds <= EstimateFrom(p2, workers, avg).seconds
  {
    var x1 := (p1 as real / workers as real) * avg as real;
    var x2 := (p2 as real / workers as real) * avg as real;
    ScaledMonotone(p1, p2, workers as real, avg as real);
    CeilMonotone(x1, x2);
  }

  lemma CeilMonotone(x1: real, x2: real)
    requires x1 <= x2
    ensures Ceil(x1) <= Ceil(x2)
  {
  }

  /** With no worker settings, 7 waiting predictions share 3 workers: 70 s, "2 minutes". */
  lemma DefaultPredictionEstimate(m: JobCounts)
    ensures EstimateWaitTime(Prediction, 7, Some(m), map[]) == WaitEstimate(70, 2, "2 minutes")
  {
    OnlyPredictionFindsItsWorkers(Prediction, map[]);
    SevenPredictions();
  }

  lemma SevenPredictions()
    ensures EstimateFrom(7, 3, 30) == WaitEstimate(70, 2, "2 minutes")
  {
    assert (7 as real / 3 as real) * 30 as real == 70.0;
    assert DurationOf(70) == Minutes(2);
  }

  /** 3 waiting feature extractions, for which 3 workers are configured, are still estimated with one: 180 s. */
  lemma DefaultFeatureEstimate(m: JobCounts)
    ensures EstimateWaitTime(FeatureExtraction, 3, Some(m), map[]) == WaitEstimate(180, 3, "3 minutes")
  {
    OnlyPredictionFindsItsWorkers(FeatureExtraction, map[]);
    ThreeExtractions();
  }

  lemma ThreeExtractions()
    ensures EstimateFrom(3, 1, 60) == WaitEstimate(180, 3, "3 minutes")
  {
    assert (3 as real / 1 as real) * 60 as real == 180.0;
    assert DurationOf(180) == Minutes(3);
  }

  // ---------------------------------------------------------------- formatDuration

  /** The three shapes `formatDuration` writes. */
  datatype Duration = Seconds(n: int) | Minutes(m: int) | HoursMinutes(h: int, m: int)

  /** How `formatDuration` reads a number of seconds. */
  function DurationOf(seconds: int): (d: Duration)
    ensures d.Seconds? ==> d.n == seconds < 60
    ensures d.Minutes? ==> seconds >= 60 && 1 <= d.m < 60 && (d.m - 1) * 60 < seconds <= d.m * 60
    ensures d.HoursMinutes? ==> (seconds >= 60 && d.h >= 1 && 0 <= d.m < 60
      && (60 * d.h + d.m - 1) * 60 < seconds <= (60 * d.h + d.m) * 60)
  {
    if seconds < 60 then Seconds(seconds)
    else
      var minutes := CeilDiv(seconds, 60);
      if minutes < 60 then Minutes(minutes) else HoursMinutes(minutes / 60, minutes % 60)
  }

  function Render(d: Duration): string {
    match d
    case Seconds(n) => IntToString(n) + " seconds"
    case Minutes(m) => if m == 1 then "1 minute" else IntToString(m) + " minutes"
    case HoursMinutes(h, m) => IntToString(h) + "h " + IntToString(m) + "m"
  }

  /** `formatDuration(seconds)`. */
  function FormatDuration(seconds: int): string {
    Render(DurationOf(seconds))
  }

  /** Reads back what `formatDuration` wrote. */
  function ReadDuration(s: string): Option<Duration> {
    if s == "1 minute" then Some(Minutes(1))
    else if EndsWith(s, " seconds") then
      (match ParseInt(s) case Some(n) => Some(Seconds(n)) case None => None)
    else if EndsWith(s, " minutes") then
      (match ParseInt(s) case Some(m) => Some(Minutes(m)) case None => None)
    else
      match IndexOf(s, "h ")
      case None => None
      case Some(i) =>
        match (ParseInt(s[..i]), ParseInt(s[i + 2..]))
        case (Some(h), Some(m)) => Some(HoursMinutes(h, m))
        case _ => None
  }

  lemma {:induction false} HoursMarkAfterDigits(d: string, rest: string)
    requires AllDigits(d)
    ensures IndexOf(d + "h " + rest, "h ") == Some(|d|)
  {
    var s := d + "h " + rest;
    assert s[|d|..|d| + 2] == "h ";
    ContainsAt(s, "h ", |d|);
    var r := IndexOf(s, "h ");
    assert r.Some?;
    assert s[r.value] == s[r.value..r.value + 2][0] == 'h';
    assert forall i :: 0 <= i < |d| ==> s[i] == d[i] && IsDigit(s[i]);
    assert r.value >= |d|;
    assert StartsWith(s[|d|..], "h ");
  }

  lemma SecondsReadBack(n: int)
    ensures ReadDuration(Render(Seconds(n))) == Some(Seconds(n))
  {
    var s := Render(Seconds(n));
    ParseIntOfIntToString(n, " seconds");
    assert |s| > 8 && s[|s| - 8..] == " seconds";
  }

  lemma MinutesSuffix(t: string)
    requires |t| >= 1
    ensures var s := t + " minutes";
      s != "1 minute" && !EndsWith(s, " seconds") && EndsWith(s, " minutes")
  {
    var s := t + " minutes";
    assert s[|s| - 8..] == " minutes";
    assert s[|s| - 7] == 'm';
  }

  lemma MinutesReadBack(m: int)
    requires m != 1
    ensures ReadDuration(Render(Minutes(m))) == Some(Minutes(m))
  {
    var t := IntToString(m);
    assert |t| >= 1;
    MinutesSuffix(t);
    ParseIntOfIntToString(m, " minutes");
  }

  /** A text ending in `m` is neither `1 minute` nor a count of seconds or minutes. */
  lemma EndsInM(s: string)
    requires s != [] && s[|s| - 1] == 'm'
    ensures s != "1 minute" && !EndsWith(s, " seconds") && !EndsWith(s, " minutes")
  {
    assert "1 minute"[7] == 'e' && " seconds"[7] == 's' && " minutes"[7] == 's';
  }

  lemma HoursMinutesReadBack(h: nat, m: nat)
    ensures ReadDuration(Render(HoursMinutes(h, m))) == Some(HoursMinutes(h, m))
  {
    var s := Render(HoursMinutes(h, m));
    var hs := IntToString(h);
    var ms := IntToString(m);
    assert AllDigits(hs) && AllDigits(ms);
    assert s == hs + "h " + (ms + "m");
    EndsInM(s);
    HoursMarkAfterDigits(hs, ms + "m");
    assert s[..|hs|] == hs + [];
    ParseIntOfIntToString(h, []);
    assert s[|hs| + 2..] == ms + "m";
    ParseIntOfIntToString(m, "m");
  }

  /** Formatting loses nothing of the duration's reading: it is read back exactly. */
  lemma FormatDurationReadsBack(seconds: int)
    ensures ReadDuration(FormatDuration(seconds)) == Some(DurationOf(seconds))
  {
    match DurationOf(seconds)
    case Seconds(n) => SecondsReadBack(n);
    case Minutes(m) => if m != 1 { MinutesReadBack(m); }
    case HoursMinutes(h, m) => HoursMinutesReadBack(h, m);
  }

  // ---------------------------------------------------------------- Redis connection policy

  /** `retryStrategy(times)`: the delay before reconnect attempt `times`, `None` to stop. */
  function RetryStrategy(times: int): (d: Option<int>)
    ensures d.Some? <==> times <= 3
    ensures d.Some? ==> d.value <= 1500
  {
    if times > 3 then None else Some(if times * 500 < 1500 then times * 500 else 1500)
  }

  /** The three attempts wait 500, 1000 and 1500 ms, 3 s in all, and the fourth is refused. */
  lemma RetrySchedule()
    ensures RetryStrategy(1) == Some(500) && RetryStrategy(2) == Some(1000) && RetryStrategy(3) == Some(1500)
    ensures RetryStrategy(1).value + RetryStrategy(2).value + RetryStrategy(3).value == 3000
    ensures RetryStrategy(4) == None
  {
  }

  const ReconnectTokens: seq<string> := ["READONLY", "ECONNRESET", "ETIMEDOUT"]

  /** `reconnectOnError(err)`. */
  predicate ReconnectOnError(message: string) {
    Contains(message, "READONLY") || Contains(message, "ECONNRESET") || Contains(message, "ETIMEDOUT")
  }

  /** A message embedding any of the three words, anywhere, triggers a reconnect. */
  lemma ReconnectOnAnyToken(before: string, k: nat, after: string)
    requires k < |ReconnectTokens|
    ensures ReconnectOnError(before + ReconnectTokens[k] + after)
  {
    var t := ReconnectTokens[k];
    assert t[0..|t|] == t;
    ContainsAt(t, t, 0);
    ContainsInContext(before, t, after, t);
    if k == 0 { assert t == "READONLY"; }
    else if k == 1 { assert t == "ECONNRESET"; }
    else { assert t == "ETIMEDOUT"; }
  }

  // ---------------------------------------------------------------- statistics, priority, cleanup

  datatype CountKind = WaitingCount | ActiveCount | CompletedCount | FailedCount
  datatype Totals = Totals(waiting: int, active: int, completed: int, failed: int)

  /** One count of a queue, missing read as 0. */
  function Count(c: JobCounts, k: CountKind): int {
    match k
    case WaitingCount => Or0(c.waiting)
    case ActiveCount => Or0(c.active)
    case CompletedCount => Or0(c.completed)
    case FailedCount => Or0(c.failed)
  }

  function SumCounts(qs: seq<QueueName>, stats: map<QueueName, JobCounts>, k: CountKind): int
    requires forall q :: q in qs ==> q in stats
  {
    if qs == [] then 0 else Count(stats[qs[0]], k) + SumCounts(qs[1..], stats, k)
  }

  function Total(t: Totals, k: CountKind): int {
    match k
    case WaitingCount => t.waiting
    case ActiveCount => t.active
    case CompletedCount => t.completed
    case FailedCount => t.failed
  }

  /** The `total` record of `getQueueStats`, over the seven queues' counts. */
  function QueueTotals(stats: map<QueueName, JobCounts>): Totals
    requires forall q: QueueName :: q in stats
  {
    Totals(SumCounts(AllQueues, stats, WaitingCount), SumCounts(AllQueues, stats, ActiveCount),
      SumCounts(AllQueues, stats, CompletedCount), SumCounts(AllQueues, stats, FailedCount))
  }

  lemma {:induction false} SumCountsUpdate(qs: seq<QueueName>, stats: map<QueueName, JobCounts>, q: QueueName, c: JobCounts, k: CountKind)
    requires forall p :: p in qs ==> p in stats
    requires forall i, j :: 0 <= i < j < |qs| ==> qs[i] != qs[j]
    ensures SumCounts(qs, stats[q := c], k) ==
      SumCounts(qs, stats, k) + (if q in qs then Count(c, k) - Count(stats[q], k) else 0)
    decreases |qs|
  {
    if qs != [] {
      assert forall i, j :: 0 <= i < j < |qs[1..]| ==> qs[1..][i] != qs[1..][j] by {
        forall i, j | 0 <= i < j < |qs[1..]| ensures qs[1..][i] != qs[1..][j] {
          assert qs[1..][i] == qs[i + 1] && qs[1..][j] == qs[j + 1];
        }
      }
      SumCountsUpdate(qs[1..], stats, q, c, k);
      if qs[0] == q {
        assert q !in qs[1..] by {
          forall i | 0 <= i < |qs[1..]| ensures qs[1..][i] != q {
            assert qs[1..][i] == qs[i + 1];
          }
        }
      } else {
        assert q in qs <==> q in qs[1..];
      }
    }
  }

  /**
   * Each queue is counted exactly once in every total: changing one queue's
   * counts moves each total by exactly that queue's change (missing counts being 0).
   */
  lemma TotalsCountEachQueueOnce(stats: map<QueueName, JobCounts>, q: QueueName, c: JobCounts, k: CountKind)
    requires forall p: QueueName :: p in stats
    ensures Total(QueueTotals(stats[q := c]), k) == Total(QueueTotals(stats), k) - Count(stats[q], k) + Count(c, k)
  {
    assert forall i, j :: 0 <= i < j < |AllQueues| ==> AllQueues[i] != AllQueues[j];
    LookupInvertsName(q, "");
    SumCountsUpdate(AllQueues, stats, q, c, k);
  }

  /** `data.priority || 5`: a missing or zero priority becomes 5. */
  function Priority(requested: Option<int>): (p: int)
    ensures p != 0
    ensures requested.Some? && requested.value != 0 ==> p == requested.value
  {
    if requested.Some? && requested.value != 0 then requested.value else 5
  }

  /** `olderThanHours * 60 * 60 * 1000`, with the default of 24 hours. */
  function CleanupWindowMs(olderThanHours: Option<int>): (ms: int)
    ensures olderThanHours.None? ==> ms == 86400000
    ensures olderThanHours.Some? ==> ms == olderThanHours.value * 3600000
  {
    olderThanHours.GetOr(24) * 60 * 60 * 1000
  }

  // ---------------------------------------------------------------- the broker's job table

  datatype JobState = Completed | Failed | Delayed | Active | Waiting | Paused | Stuck
  datatype JobKey = JobKey(queue: QueueName, id: string)
  /** A job as the code sees it; `position` is what `getPosition()` gives, `None` when it is missing or throws. */
  datatype Job = Job(state: JobState, priority: int, progress: int, position: Option<int>, finishedOn: Option<int>)

  datatype AddReply = AddReply(jobId: string, queueName: string, position: int, estimatedWait: WaitEstimate)
  datatype StatusReply =
    | NotFound
    | Found(jobId: string, status: JobState, progress: int, position: Option<int>, estimatedWait: Option<WaitEstimate>)
  datatype CancelReply = CancelReply(success: bool, message: string)

  /** A finished job the cleanup of a window removes. */
  predicate Stale(j: Job, windowMs: int, now: int) {
    (j.state == Completed || j.state == Failed) && j.finishedOn.Some? && j.finishedOn.value < now - windowMs
  }

  class Broker {
    /** The worker settings of the process environment. */
    const env: map<string, string>
    /** `REDIS_AVAILABLE`. */
    var redisAvailable: bool
    var jobs: map<JobKey, Job>

    constructor (env: map<string, string>)
      ensures this.env == env && !redisAvailable && jobs == map[]
    {
      this.env := env;
      redisAvailable := false;
      jobs := map[];
    }

    /** A queue's `error` event, whatever the message. */
    method OnError()
      modifies this
      ensures !redisAvailable && jobs == old(jobs)
    {
      redisAvailable := false;
    }

    /** A queue's `ready` event. */
    method OnReady()
      modifies this
      ensures redisAvailable && jobs == old(jobs)
    {
      redisAvailable := true;
    }

    /** `testConnection`: the ping answered within 3 s, or not. */
    method TestConnection(pingAnswered: bool)
      modifies this
      ensures redisAvailable == pingAnswered && jobs == old(jobs)
    {
      redisAvailable := pingAnswered;
    }

    /** `getJobCounts()` of one queue, computed from the table. */
    function CountsOf(q: QueueName): JobCounts
      reads this
    {
      JobCounts(
        Some(|set k | k in jobs && k.queue == q && jobs[k].state == Waiting|),
        Some(|set k | k in jobs && k.queue == q && jobs[k].state == Active|),
        Some(|set k | k in jobs && k.queue == q && jobs[k].state == Completed|),
        Some(|set k | k in jobs && k.queue == q && jobs[k].state == Failed|))
    }

    /**
     * `queueFeatureExtraction` and its six siblings: the job is added waiting with
     * priority `data.priority || 5` (an id already present keeps its job), and the
     * reply carries its position (0 when unknown) and the wait estimate.
     */
    method Add(q: QueueName, id: string, requestedPriority: Option<int>, reportedPosition: Option<int>)
      returns (r: AddReply)
      modifies this
      ensures JobKey(q, id) !in old(jobs) ==>
        jobs == old(jobs)[JobKey(q, id) := Job(Waiting, Priority(requestedPriority), 0, reportedPosition, None)]
      ensures JobKey(q, id) in old(jobs) ==> jobs == old(jobs)
      ensures redisAvailable == old(redisAvailable)
      ensures r.jobId == id && r.queueName == Name(q) && r.position == reportedPosition.GetOr(0)
      ensures r.estimatedWait == EstimateWaitTime(q, r.position, Some(CountsOf(q)), env)
    {
      if JobKey(q, id) !in jobs {
        jobs := jobs[JobKey(q, id) := Job(Waiting, Priority(requestedPriority), 0, reportedPosition, None)];
      }
      var position := reportedPosition.GetOr(0);
      var counts := CountsOf(q);
      r := AddReply(id, Name(q), position, EstimateWaitTime(q, position, Some(counts), env));
    }

    /**
     * `getJobStatus`: an unknown queue name is an error, an unknown id is
     * `not-found`; a position, and with it a wait estimate, is only given for a
     * waiting job.
     */
    method GetJobStatus(queueName: string, id: string) returns (r: Result<StatusReply, string>)
      ensures r.Failure? <==> Lookup(queueName).None?
      ensures r.Failure? ==> r.error == "Unknown queue: " + queueName
      ensures r.Success? ==> (r.value.NotFound? <==> JobKey(Lookup(queueName).value, id) !in jobs)
      ensures r.Success? && r.value.Found? ==>
        var q := Lookup(queueName).value;
        var j := jobs[JobKey(q, id)];
        && r.value.jobId == id && r.value.status == j.state && r.value.progress == j.progress
        && (r.value.position.Some? ==> r.value.status == Waiting && r.value.position == j.position)
        && (r.value.status == Waiting ==> r.value.position == j.position)
        && (r.value.estimatedWait.Some? <==> r.value.position.Some?)
        && (r.value.estimatedWait.Some? ==>
              r.value.estimatedWait.value == EstimateWaitTime(q, r.value.position.value, Some(CountsOf(q)), env))
    {
      var lookedUp := Lookup(queueName);
      if lookedUp.None? {
        return Failure("Unknown queue: " + queueName);
      }
      var q := lookedUp.value;
      if JobKey(q, id) !in jobs {
        return Success(NotFound);
      }
      var j := jobs[JobKey(q, id)];
      var position: Option<int> := None;
      if j.state == Waiting {
        position := j.position;
      }
      var estimate: Option<WaitEstimate> := None;
      if position.Some? {
        estimate := Some(EstimateWaitTime(q, position.value, Some(CountsOf(q)), env));
      }
      return Success(Found(id, j.state, j.progress, position, estimate));
    }

    /** `cancelJob`: an unknown queue name is an error; a known job is removed. */
    method CancelJob(queueName: string, id: string) returns (r: Result<CancelReply, string>)
      modifies this
      ensures Lookup(queueName).None? ==> r == Failure("Unknown queue: " + queueName) && jobs == old(jobs)
      ensures Lookup(queueName).Some? && JobKey(Lookup(queueName).value, id) in old(jobs) ==>
        r == Success(CancelReply(true, "Job cancelled")) && jobs == old(jobs) - {JobKey(Lookup(queueName).value, id)}
      ensures Lookup(queueName).Some? && JobKey(Lookup(queueName).value, id) !in old(jobs) ==>
        r == Success(CancelReply(false, "Job not found")) && jobs == old(jobs)
      ensures redisAvailable == old(redisAvailable)
    {
      var lookedUp := Lookup(queueName);
      if lookedUp.None? {
        return Failure("Unknown queue: " + queueName);
      }
      var key := JobKey(lookedUp.value, id);
      if key in jobs {
        jobs := jobs - {key};
        return Success(CancelReply(true, "Job cancelled"));
      }
      return Success(CancelReply(false, "Job not found"));
    }

    /**
     * `cleanupOldJobs(olderThanHours)`: in every queue, the completed and the
     * failed jobs older than the window go; every other job stays as it was.
     */
    method CleanupOldJobs(olderThanHours: Option<int>, now: int)
      modifies this
      ensures forall k :: k in jobs <==> k in old(jobs) && !Stale(old(jobs)[k], CleanupWindowMs(olderThanHours), now)
      ensures forall k :: k in jobs ==> jobs[k] == old(jobs)[k]
      ensures forall k :: k in old(jobs) && old(jobs)[k].state !in {Completed, Failed} ==> k in jobs
      ensures redisAvailable == old(redisAvailable)
    {
      var window := CleanupWindowMs(olderThanHours);
      var kept: map<JobKey, Job> := map[];
      var pending := jobs.Keys;
      while pending != {}
        invariant pending <= jobs.Keys
        invariant forall k :: k in kept <==> k in jobs && k !in pending && !Stale(jobs[k], window, now)
        invariant forall k :: k in kept ==> kept[k] == jobs[k]
        decreases pending
      {
        var k :| k in pending;
        if !Stale(jobs[k], window, now) {
          kept := kept[k := jobs[k]];
        }
        pending := pending - {k};
      }
      jobs := kept;
    }
  }
}
