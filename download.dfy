/**
 * The bounded retry fetch of main.py: `download_reel`, which asks instaloader
 * for a post up to `MAX_RETRIES` times, pausing `RETRY_DELAY` seconds between
 * attempts, and `check_file`, which validates the downloaded file.
 *
 * instaloader and the file system enter the model as the outcome of each
 * attempt, an `Attempt`; the pauses enter it as `Pause` steps of a trace.
 */
module Download {
  import opened Wrappers

  const MaxRetries: nat := 3
  const RetryDelay: nat := 2

  /** The directory downloads go to. */
  const TempDir: string := "temp_downloads"

  /** What the file system says about the expected video file after a download. */
  datatype FileState = FileState(present: bool, size: nat)

  /**
   * What one attempt meets: the fetch or download raises an error with the
   * given text, the post turns out not to be a video, or the download
   * completes and leaves the file in the given state.
   */
  datatype Attempt = Failed(error: string) | NotVideo | Downloaded(file: FileState)

  /** The exception `download_reel` raises when it gives up: its message and its count. */
  datatype ErrorDownload = ErrorDownload(lastError: Option<string>, retryCount: nat)

  /** One step of the fetch, as it is seen from outside: an attempt, numbered from 1, or a pause. */
  datatype Step = Try(attempt: nat) | Pause(seconds: nat)

  const MissingFileMessage: string := "Файл видео не существует"
  const EmptyFileMessage: string := "Загруженный файл пуст"
  const NotVideoMessage: string := "Публикация не содержит видео"

  /** `check_file`: nothing when the file is fine, else the text of the exception it raises. */
  function CheckFile(f: FileState): (error: Option<string>)
    ensures error.None? <==> f.present && f.size != 0
    ensures !f.present ==> error == Some(MissingFileMessage)
    ensures f.present && f.size == 0 ==> error == Some(EmptyFileMessage)
  {
    if !f.present then Some(MissingFileMessage)
    else if f.size == 0 then Some(EmptyFileMessage)
    else None
  }

  /** The text of the exception one attempt ends in, or nothing when it succeeds. */
  function AttemptError(a: Attempt): Option<string> {
    match a
    case Failed(e) => Some(e)
    case NotVideo => Some(NotVideoMessage)
    case Downloaded(f) => CheckFile(f)
  }

  predicate Passes(a: Attempt) {
    AttemptError(a).None?
  }

  /** The message `download_reel` records for a failed attempt. */
  function FailureText(error: string, shortcode: string): string {
    "Unexpected error: " + error + " for " + shortcode
  }

  /** Where the video of a reel is saved: `<shortcode>.mp4` in the downloads directory. */
  function VideoPath(shortcode: string): string {
    TempDir + "/" + shortcode + ".mp4"
  }

  // ---------------------------------------------------------------------
  // The specification of the fetch
  // ---------------------------------------------------------------------

  /** The first attempt from `k` up to `MaxRetries` that passes, if any. */
  function FirstPass(provider: nat -> Attempt, k: nat): Option<nat>
    decreases MaxRetries + 1 - k
  {
    if k > MaxRetries then None
    else if Passes(provider(k)) then Some(k)
    else FirstPass(provider, k + 1)
  }

  /** The attempts made and the pauses between them: `Try(1)`, a pause, `Try(2)`, …, `Try(n)`. */
  function Schedule(n: nat): seq<Step> {
    if n == 0 then []
    else if n == 1 then [Try(1)]
    else Schedule(n - 1) + [Pause(RetryDelay), Try(n)]
  }

  /** How many attempts the fetch makes. */
  function AttemptsMade(provider: nat -> Attempt): nat {
    match FirstPass(provider, 1)
    case Some(k) => k
    case None => MaxRetries
  }

  /** What the fetch returns, or the exception it raises. */
  function FetchResult(shortcode: string, provider: nat -> Attempt): Result<string, ErrorDownload> {
    match FirstPass(provider, 1)
    case Some(_) => Success(VideoPath(shortcode))
    case None =>
      Failure(ErrorDownload(Some(FailureText(AttemptError(provider(MaxRetries)).GetOr(""), shortcode)), MaxRetries + 1))
  }

  /** The number of pauses in a trace. */
  function Pauses(steps: seq<Step>): nat {
    if |steps| == 0 then 0
    else (if steps[|steps| - 1].Pause? then 1 else 0) + Pauses(steps[..|steps| - 1])
  }

  // ---------------------------------------------------------------------
  // The loop
  // ---------------------------------------------------------------------

  /**
   * `download_reel(shortcode)`, where `provider(k)` is what attempt `k` meets.
   * It returns the saved file's path or the exception it raises, and the
   * steps it takes.
   */
  method DownloadReel(shortcode: string, provider: nat -> Attempt)
    returns (result: Result<string, ErrorDownload>, steps: seq<Step>)
    ensures result == FetchResult(shortcode, provider)
    ensures steps == Schedule(AttemptsMade(provider))
  {
    var retryCount: nat := 1;
    var lastError: Option<string> := None;
    steps := [];
    while retryCount <= MaxRetries
      invariant 1 <= retryCount <= MaxRetries + 1
      invariant FirstPass(provider, 1) == FirstPass(provider, retryCount)
      invariant retryCount > 1 ==>
        lastError == Some(FailureText(AttemptError(provider(retryCount - 1)).GetOr(""), shortcode))
      invariant steps == Schedule(retryCount - 1) + (if 1 < retryCount <= MaxRetries then [Pause(RetryDelay)] else [])
    {
      steps := steps + [Try(retryCount)];
      var error := AttemptError(provider(retryCount));
      if error.None? {
        assert FirstPass(provider, retryCount) == Some(retryCount);
        return Success(VideoPath(shortcode)), steps;
      }
      lastError := Some(FailureText(error.value, shortcode));
      retryCount := retryCount + 1;
      if retryCount <= MaxRetries {
        steps := steps + [Pause(RetryDelay)];
      }
    }
    result := Failure(ErrorDownload(lastError, retryCount));
  }

  // ---------------------------------------------------------------------
  // Properties of the fetch
  // ---------------------------------------------------------------------

  /**
   * The first passing attempt is `k` exactly when attempt `k` passes and every
   * attempt before it, from `from` on, fails.
   */
  lemma {:induction false} FirstPassIff(provider: nat -> Attempt, from: nat, k: nat)
    requires 1 <= from
    ensures FirstPass(provider, from) == Some(k) <==>
      from <= k <= MaxRetries && Passes(provider(k)) &&
      forall j :: from <= j < k ==> !Passes(provider(j))
    decreases MaxRetries + 1 - from
  {
    if from <= MaxRetries && !Passes(provider(from)) {
      FirstPassIff(provider, from + 1, k);
    }
  }

  /** No attempt passes exactly when all `MaxRetries` attempts fail. */
  lemma {:induction false} FirstPassNoneIff(provider: nat -> Attempt, from: nat)
    ensures FirstPass(provider, from).None? <==> forall j :: from <= j <= MaxRetries ==> !Passes(provider(j))
    decreases MaxRetries + 1 - from
  {
    if from <= MaxRetries && !Passes(provider(from)) {
      FirstPassNoneIff(provider, from + 1);
    }
  }

  /** The trace of `n` attempts holds `n` attempts, in order, and a pause between each two. */
  lemma {:induction false} ScheduleShape(n: nat)
    requires n >= 1
    ensures |Schedule(n)| == 2 * n - 1
    ensures forall i :: 0 <= i < |Schedule(n)| && i % 2 == 0 ==> Schedule(n)[i] == Try(i / 2 + 1)
    ensures forall i :: 0 <= i < |Schedule(n)| && i % 2 == 1 ==> Schedule(n)[i] == Pause(RetryDelay)
    ensures Pauses(Schedule(n)) == n - 1
  {
    if n > 1 {
      ScheduleShape(n - 1);
      var s := Schedule(n - 1);
      assert Schedule(n)[..|Schedule(n)| - 1] == s + [Pause(RetryDelay)];
      assert (s + [Pause(RetryDelay)])[..|s|] == s;
    }
  }

  /**
   * When attempt `k` is the first to pass, the fetch returns the video's path
   * after exactly `k` attempts and `k - 1` pauses, and tries nothing after `k`.
   */
  lemma SucceedsAt(shortcode: string, provider: nat -> Attempt, k: nat)
    requires 1 <= k <= MaxRetries && Passes(provider(k))
    requires forall j :: 1 <= j < k ==> !Passes(provider(j))
    ensures FetchResult(shortcode, provider) == Success("temp_downloads/" + shortcode + ".mp4")
    ensures AttemptsMade(provider) == k
    ensures Pauses(Schedule(AttemptsMade(provider))) == k - 1
    ensures Schedule(AttemptsMade(provider))[|Schedule(AttemptsMade(provider))| - 1] == Try(k)
  {
    FirstPassIff(provider, 1, k);
    ScheduleShape(k);
    assert VideoPath(shortcode) == "temp_downloads/" + shortcode + ".mp4";
  }

  /**
   * When every attempt fails, the fetch makes `MaxRetries` attempts with a
   * pause between each two and none after the last, and raises an error that
   * carries the last attempt's error text and the count `MaxRetries + 1`.
   */
  lemma FailsEverywhere(shortcode: string, provider: nat -> Attempt)
    requires forall j :: 1 <= j <= MaxRetries ==> !Passes(provider(j))
    ensures AttemptError(provider(3)).Some?
    ensures FetchResult(shortcode, provider) ==
      Failure(ErrorDownload(Some("Unexpected error: " + AttemptError(provider(3)).value + " for " + shortcode), 4))
    ensures AttemptsMade(provider) == MaxRetries
    ensures Pauses(Schedule(AttemptsMade(provider))) == MaxRetries - 1
    ensures Schedule(AttemptsMade(provider))[|Schedule(AttemptsMade(provider))| - 1] == Try(MaxRetries)
  {
    FirstPassNoneIff(provider, 1);
    ScheduleShape(MaxRetries);
  }

  /** The fetch fails exactly when none of the attempts passes. */
  lemma FetchFailsIff(shortcode: string, provider: nat -> Attempt)
    ensures FetchResult(shortcode, provider).Failure? <==> forall j :: 1 <= j <= MaxRetries ==> !Passes(provider(j))
  {
    FirstPassNoneIff(provider, 1);
  }

  /** A fetch that succeeds ends with an attempt that downloaded a file which exists and is not empty. */
  lemma SuccessHasFile(shortcode: string, provider: nat -> Attempt)
    requires FetchResult(shortcode, provider).Success?
    ensures provider(AttemptsMade(provider)).Downloaded?
    ensures provider(AttemptsMade(provider)).file.present
    ensures provider(AttemptsMade(provider)).file.size > 0
  {
    FirstPassIff(provider, 1, FirstPass(provider, 1).value);
  }

  /** A post that is not a video fails its attempt, and the fetch retries it like any other error. */
  lemma NotVideoRetried(provider: nat -> Attempt, k: nat)
    requires 1 <= k < MaxRetries && provider(k) == NotVideo
    requires forall j :: 1 <= j < k ==> !Passes(provider(j))
    ensures AttemptsMade(provider) > k
  {
    if FirstPass(provider, 1).Some? {
      FirstPassIff(provider, 1, FirstPass(provider, 1).value);
    } else {
      FirstPassNoneIff(provider, 1);
    }
  }
}
