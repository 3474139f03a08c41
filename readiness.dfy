/**
 * The engine's readiness, held by the web app: the flags `is_training_started`
 * and `is_model_ready`, the `init_progress` record, the one-shot build trigger
 * of the status endpoint and the gate in front of every other page.
 *
 * Phases: NotStarted --GetStatus--> Building --InitModelBackground--> Ready
 * or Failed. The build runs in a thread; here it is the separate step
 * InitModelBackground, which only the thread started by GetStatus takes.
 */
module Readiness {
  import opened Wrappers
  import opened Seeds
  import opened Catalog

  /** The similarity engine once built: its ranking is not part of this model. */
  datatype Recommender = Recommender(recommend: (seq<SeedInfo>, nat) -> seq<Record>)

  datatype Progress = Progress(percent: int, message: string)

  datatype Phase = NotStarted | Building | Ready | Failed

  /**
   * What constructing the engine does: the progress it reports through its
   * callback, in order, then either the engine or the message of the
   * exception it raised.
   */
  datatype BuildOutcome =
    | Built(engine: Recommender, reports: seq<Progress>)
    | Crashed(reports: seq<Progress>, error: string)

  const InitialProgress := Progress(0, "等待初始化...")
  const FailurePrefix := "初始化失败: "

  /** Endpoints served whether or not the engine is ready. */
  const PublicEndpoints: set<string> :=
    {"static", "get_status", "songs", "api_songs", "api_songs_recommendations", "song_detail", "log_event"}

  /**
   * The progress left after the `update_progress` callbacks `reports`, applied
   * one after another to `p`: each overwrites both fields, so the last one wins.
   */
  function AfterReports(p: Progress, reports: seq<Progress>): (q: Progress)
    ensures |reports| == 0 ==> q == p
    ensures |reports| > 0 ==> q == reports[|reports| - 1]
    decreases |reports|
  {
    if |reports| == 0 then p else AfterReports(reports[0], reports[1..])
  }

  class AppState {
    var recommender: Option<Recommender>
    var isModelReady: bool
    var isTrainingStarted: bool
    var progress: Progress
    /** The phase the flags encode. */
    ghost var phase: Phase
    /** How many build threads have been started. */
    ghost var launches: nat

    ghost predicate Valid()
      reads this
    {
      && (phase == NotStarted <==> !isTrainingStarted)
      && (isModelReady <==> phase == Ready)
      && (isModelReady <==> recommender.Some?)
      && launches == (if isTrainingStarted then 1 else 0)
    }

    constructor ()
      ensures Valid() && phase == NotStarted && launches == 0
      ensures progress == InitialProgress
    {
      recommender := None;
      isModelReady := false;
      isTrainingStarted := false;
      progress := InitialProgress;
      phase := NotStarted;
      launches := 0;
    }

    /** `update_progress`, the engine's progress callback. */
    method UpdateProgress(percent: int, message: string)
      modifies this`progress
      ensures progress == Progress(percent, message)
    {
      progress := Progress(percent, message);
    }

    /**
     * `init_model_background`: the model becomes ready only when the engine
     * was constructed without an exception; on an exception progress is reset
     * to 0 with the failure message, and since the started flag stays set no
     * build is ever triggered again.
     */
    method InitModelBackground(outcome: BuildOutcome)
      requires Valid() && phase == Building
      modifies this`recommender, this`isModelReady, this`progress, this`phase
      ensures Valid()
      ensures isTrainingStarted && launches == 1
      ensures outcome.Built? ==>
        && phase == Ready && isModelReady
        && recommender == Some(outcome.engine)
        && progress == AfterReports(old(progress), outcome.reports)
      ensures outcome.Crashed? ==>
        && phase == Failed && !isModelReady && recommender.None?
        && progress == Progress(0, FailurePrefix + outcome.error)
    {
      var reports := outcome.reports;
      var i := 0;
      while i < |reports|
        invariant 0 <= i <= |reports|
        invariant progress == AfterReports(old(progress), reports[..i])
        modifies this`progress
      {
        assert reports[..i + 1][..i] == reports[..i];
        UpdateProgress(reports[i].percent, reports[i].message);
        i := i + 1;
      }
      assert reports[..i] == reports;
      match outcome
      case Built(engine, _) =>
        recommender := Some(engine);
        isModelReady := true;
        phase := Ready;
      case Crashed(_, error) =>
        UpdateProgress(0, FailurePrefix + error);
        phase := Failed;
    }

    /**
     * `get_status`: the first poll while neither flag is set sets the started
     * flag and then starts the build (`launched`); every poll reports the
     * readiness flag and the progress.
     */
    method GetStatus() returns (ready: bool, reported: Progress, launched: bool)
      requires Valid()
      modifies this`isTrainingStarted, this`phase, this`launches
      ensures Valid() && launches <= 1
      ensures launched <==> old(phase) == NotStarted
      ensures launched ==> isTrainingStarted && phase == Building && launches == 1
      ensures !launched ==> phase == old(phase) && launches == old(launches)
      ensures ready == isModelReady && ready == (phase == Ready)
      ensures reported == progress
    {
      launched := false;
      if !isTrainingStarted && !isModelReady {
        isTrainingStarted := true;
        phase := Building;
        launches := launches + 1;
        launched := true;
      }
      ready := isModelReady;
      reported := progress;
    }

    /**
     * `check_model_ready`: public endpoints always pass; any other request
     * (including one that matched no endpoint) gets the loading page exactly
     * when the model is not ready.
     */
    method CheckModelReady(endpoint: Option<string>) returns (showLoading: bool)
      requires Valid()
      ensures endpoint.Some? && endpoint.value in PublicEndpoints ==> !showLoading
      ensures !(endpoint.Some? && endpoint.value in PublicEndpoints) ==> (showLoading <==> phase != Ready)
    {
      if endpoint.Some? && endpoint.value in PublicEndpoints {
        return false;
      }
      showLoading := !isModelReady;
    }
  }

  /** A failed build is permanent: later polls start nothing and the model stays not ready. */
  method PollAfterFailure(app: AppState) returns (ready: bool, launched: bool)
    requires app.Valid() && app.phase == Failed
    modifies app
    ensures !ready && !launched && app.phase == Failed
  {
    var reported;
    ready, reported, launched := app.GetStatus();
  }

  /** Two first polls in a row start one build between them. */
  method TwoPolls(app: AppState) returns (first: bool, second: bool)
    requires app.Valid() && app.phase == NotStarted
    modifies app
    ensures first && !second && app.launches == 1
  {
    var ready, reported;
    ready, reported, first := app.GetStatus();
    ready, reported, second := app.GetStatus();
  }
}
