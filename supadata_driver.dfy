/**
 * `main()` of main_supadata.py: walk every creator's videos, skip those with
 * captions and those already fetched whose transcript file exists, fetch the
 * rest through Supadata, record the outcome in `downloaded_via_supadata`
 * and save the catalogue after each attempt.
 *
 * The file system is the set of existing paths, and the network seen by the
 * n-th download is `world(n)`. Saving is recorded, not performed. Its
 * exceptions are caught and only printed, so a failed save changes nothing
 * the driver goes on to use.
 */
module SupadataDriver {
  import opened Wrappers
  import opened Json
  import opened Catalogue
  import opened SupadataNaming
  import opened SupadataApi
  import SupadataApiFacts
  import opened Loops

  /** The replies one download call receives. */
  datatype World = World(initial: Reply, polls: seq<Reply>, writeError: Option<string>)

  /**
   * What `main` depends on: how a file name is made (`generate_filename`, or
   * the `ValueError` it raises), how a call to the downloader ends, the API key
   * in the environment, and the network seen by the n-th download.
   */
  datatype Io = Io(
    name: (string, string, string) -> Result<string, string>,
    fetch: Env -> Run,
    apiKey: Option<string>,
    world: nat -> World)

  /** The functions main_supadata.py itself uses. */
  function Supadata(apiKey: Option<string>, world: nat -> World): Io
  {
    Io(GenerateFilename, Fetch, apiKey, world)
  }

  /** The five counters of `main`. */
  datatype Stats = Stats(total: nat, successful: nat, failed: nat, already: nat, skippedCaptions: nat)

  /**
   * Where the driver is: the catalogue as mutated so far, the counters, the
   * catalogues handed to `save_content_resources` in order, the number of
   * download calls, the existing files, and the `ValueError` message that ended
   * the run, if any.
   */
  datatype State = State(data: Catalogue, stats: Stats, saves: seq<Catalogue>, calls: nat, files: set<string>, halt: Option<string>)

  function Start(data: Catalogue, files: set<string>): State
  {
    State(data, Stats(0, 0, 0, 0, 0), [], 0, files, None)
  }

  /** `os.path.join(output_dir, generate_filename(...))`, or the `ValueError` it raises. */
  function OutputPath(name: (string, string, string) -> Result<string, string>, creatorName: string, v: Video): Result<string, string>
  {
    match name(v.publishedTime, creatorName, v.videoId)
    case Ok(f) => Ok(OutputDir + "/" + f)
    case Err(m) => Err(m)
  }

  /** With main_supadata.py's namer, the path fails exactly on a bad date, with its message. */
  lemma OutputPathIs(creatorName: string, v: Video)
    ensures OutputPath(GenerateFilename, creatorName, v).Ok? <==> FormatDate(v.publishedTime).Ok?
    ensures OutputPath(GenerateFilename, creatorName, v).Ok? ==>
      OutputPath(GenerateFilename, creatorName, v).value == OutputDir + "/" + GenerateFilename(v.publishedTime, creatorName, v.videoId).value
    ensures OutputPath(GenerateFilename, creatorName, v).Err? ==>
      OutputPath(GenerateFilename, creatorName, v).error == InvalidDateMessage(v.publishedTime)
  {
  }

  /** What the driver does with a video before counting it. */
  datatype Decision = SkipCaptions | AlreadyDone | Invalid(message: string) | Attempt

  function Decide(name: (string, string, string) -> Result<string, string>, creatorName: string, v: Video, files: set<string>): Decision
  {
    if Flag(v.captionEnabled, true) then SkipCaptions
    else if Flag(v.downloadedViaSupadata, false) then
      match OutputPath(name, creatorName, v)
      case Err(m) => Invalid(m)
      case Ok(p) => if p in files then AlreadyDone else Attempt
    else Attempt
  }

  /**
   * The skip rules: a video with captions (or no `caption_enabled` at all) is
   * skipped; one already fetched is skipped only when its file exists;
   * everything else is attempted.
   */
  lemma DecideRules(name: (string, string, string) -> Result<string, string>, creatorName: string, v: Video, files: set<string>)
    ensures Decide(name, creatorName, v, files) == SkipCaptions <==> Flag(v.captionEnabled, true)
    ensures Decide(name, creatorName, v, files) == AlreadyDone <==>
      !Flag(v.captionEnabled, true) && Flag(v.downloadedViaSupadata, false) &&
      OutputPath(name, creatorName, v).Ok? && OutputPath(name, creatorName, v).value in files
    ensures Decide(name, creatorName, v, files).Invalid? <==>
      !Flag(v.captionEnabled, true) && Flag(v.downloadedViaSupadata, false) && OutputPath(name, creatorName, v).Err?
    ensures Decide(name, creatorName, v, files) == Attempt <==>
      !Flag(v.captionEnabled, true) &&
      (!Flag(v.downloadedViaSupadata, false) || (OutputPath(name, creatorName, v).Ok? && OutputPath(name, creatorName, v).value !in files))
  {
  }

  /** The environment of the download call for video `v` of creator `c`. */
  function EnvFor(c: Creator, v: Video, apiKey: Option<string>, w: World): Env
  {
    Env(v.videoId, c.nativeLang, apiKey, w.initial, w.polls, w.writeError)
  }

  /** The catalogue after an attempt on video `j` of creator `i`: its `downloaded_via_supadata` is the outcome. */
  function Record(data: Catalogue, i: nat, j: nat, ok: bool): Catalogue
    requires i < |data| && j < |data[i].collection|
  {
    WithVideo(data, i, j, data[i].collection[j].(downloadedViaSupadata := Some(JBool(ok))))
  }

  /** Downloading video `j` of creator `i` to `path`, recording the outcome and saving. */
  function Attempted(io: Io, st: State, i: nat, j: nat, path: string): State
    requires i < |st.data| && j < |st.data[i].collection|
  {
    var run := io.fetch(EnvFor(st.data[i], st.data[i].collection[j], io.apiKey, io.world(st.calls)));
    var ok := run.outcome == Written;
    var data := Record(st.data, i, j, ok);
    var s := st.stats;
    var s := if ok then s.(successful := s.successful + 1) else s.(failed := s.failed + 1);
    State(data, s, st.saves + [data], st.calls + 1, if run.file.Some? then st.files + {path} else st.files, None)
  }

  /** One turn of the inner loop, for video `j` of creator `i`; out of range, nothing happens. */
  function Turn(io: Io, st: State, i: nat, j: nat): State
  {
    if i < |st.data| && j < |st.data[i].collection| then
      var c := st.data[i];
      var v := c.collection[j];
      var s := st.stats;
      match Decide(io.name, c.name, v, st.files)
      case SkipCaptions => st.(stats := s.(skippedCaptions := s.skippedCaptions + 1))
      case AlreadyDone => st.(stats := s.(already := s.already + 1))
      case Invalid(m) => st.(halt := Some(m))
      case Attempt =>
        var st := st.(stats := s.(total := s.total + 1));
        match OutputPath(io.name, c.name, v)
        case Err(m) => st.(halt := Some(m))
        case Ok(path) => Attempted(io, st, i, j, path)
    else st
  }

  /** Whether a `ValueError` has ended the run. */
  predicate Halted(st: State)
  {
    st.halt.Some?
  }

  function Stepper(io: Io): (State, nat, nat) -> State
  {
    (st: State, i: nat, j: nat) => Turn(io, st, i, j)
  }

  /** The whole run. */
  function Final(io: Io, data: Catalogue, files: set<string>): State
  {
    Upto(Stepper(io), Halted, Shape(data), Start(data, files), |data|)
  }

  /** One more turn of the inner loop. */
  lemma PrefixSucc(io: Io, st: State, i: nat, j: nat)
    requires Prefix(Stepper(io), Halted, st, i, j).halt.None?
    ensures Prefix(Stepper(io), Halted, st, i, j + 1) == Turn(io, Prefix(Stepper(io), Halted, st, i, j), i, j)
  {
  }

  /** A video with captions is only counted. */
  lemma TurnSkips(io: Io, st: State, i: nat, j: nat)
    requires i < |st.data| && j < |st.data[i].collection|
    requires Flag(st.data[i].collection[j].captionEnabled, true)
    ensures Turn(io, st, i, j) == st.(stats := st.stats.(skippedCaptions := st.stats.skippedCaptions + 1))
  {
  }

  /** A video already fetched whose file exists is only counted. */
  lemma TurnAlready(io: Io, st: State, i: nat, j: nat)
    requires i < |st.data| && j < |st.data[i].collection|
    requires Decide(io.name, st.data[i].name, st.data[i].collection[j], st.files) == AlreadyDone
    ensures Turn(io, st, i, j) == st.(stats := st.stats.(already := st.stats.already + 1))
  {
  }

  /** A bad date met before counting ends the run with the counters as they were. */
  lemma TurnInvalid(io: Io, st: State, i: nat, j: nat, m: string)
    requires i < |st.data| && j < |st.data[i].collection|
    requires Decide(io.name, st.data[i].name, st.data[i].collection[j], st.files) == Invalid(m)
    ensures Turn(io, st, i, j) == st.(halt := Some(m))
  {
  }

  /** A video to attempt is counted first; a bad date then ends the run, otherwise it is downloaded. */
  lemma TurnAttempts(io: Io, st: State, i: nat, j: nat)
    requires i < |st.data| && j < |st.data[i].collection|
    requires Decide(io.name, st.data[i].name, st.data[i].collection[j], st.files) == Attempt
    ensures var counted := st.(stats := st.stats.(total := st.stats.total + 1));
      match OutputPath(io.name, st.data[i].name, st.data[i].collection[j])
      case Err(m) => Turn(io, st, i, j) == counted.(halt := Some(m))
      case Ok(path) => Turn(io, st, i, j) == Attempted(io, counted, i, j, path)
  {
  }

  /** One pass of the inner loop's body, for video `j` of creator `i`. */
  method Visit(io: Io, data0: Catalogue, stats0: Stats, saves0: seq<Catalogue>, calls0: nat, files0: set<string>, i: nat, j: nat)
    returns (data: Catalogue, stats: Stats, saves: seq<Catalogue>, calls: nat, files: set<string>, halt: Option<string>)
    requires i < |data0| && j < |data0[i].collection|
    ensures State(data, stats, saves, calls, files, halt) == Turn(io, State(data0, stats0, saves0, calls0, files0, None), i, j)
    ensures SameShape(data0, data)
  {
    TurnShape(io, State(data0, stats0, saves0, calls0, files0, None), i, j);
    data, stats, saves, calls, files, halt := data0, stats0, saves0, calls0, files0, None;
    var creator := data[i];
    var video := creator.collection[j];
    if Flag(video.captionEnabled, true) {
      TurnSkips(io, State(data0, stats0, saves0, calls0, files0, None), i, j);
      stats := stats.(skippedCaptions := stats.skippedCaptions + 1);
      return;
    }
    if Flag(video.downloadedViaSupadata, false) {
      var filename := io.name(video.publishedTime, creator.name, video.videoId);
      if filename.Err? {
        TurnInvalid(io, State(data0, stats0, saves0, calls0, files0, None), i, j, filename.error);
        halt := Some(filename.error);
        return;
      }
      if OutputDir + "/" + filename.value in files {
        TurnAlready(io, State(data0, stats0, saves0, calls0, files0, None), i, j);
        stats := stats.(already := stats.already + 1);
        return;
      }
    }
    TurnAttempts(io, State(data0, stats0, saves0, calls0, files0, None), i, j);
    stats := stats.(total := stats.total + 1);
    var filename := io.name(video.publishedTime, creator.name, video.videoId);
    if filename.Err? {
      halt := Some(filename.error);
      return;
    }
    data, stats, saves, calls, files := Download(io, data, stats, saves, calls, files, i, j, OutputDir + "/" + filename.value);
  }

  /** The download of video `j` of creator `i` to `outputPath`, its flag update and the save. */
  method Download(io: Io, data0: Catalogue, stats0: Stats, saves0: seq<Catalogue>, calls0: nat, files0: set<string>,
                  i: nat, j: nat, outputPath: string)
    returns (data: Catalogue, stats: Stats, saves: seq<Catalogue>, calls: nat, files: set<string>)
    requires i < |data0| && j < |data0[i].collection|
    ensures State(data, stats, saves, calls, files, None) ==
      Attempted(io, State(data0, stats0, saves0, calls0, files0, None), i, j, outputPath)
  {
    data, stats, saves, calls, files := data0, stats0, saves0, calls0, files0;
    var creator := data[i];
    var video := creator.collection[j];
    var run := io.fetch(EnvFor(creator, video, io.apiKey, io.world(calls)));
    var success := run.outcome == Written;
    if run.file.Some? {
      files := files + {outputPath};
    }
    calls := calls + 1;
    data := WithVideo(data, i, j, video.(downloadedViaSupadata := Some(JBool(success))));
    saves := saves + [data];
    if success {
      stats := stats.(successful := stats.successful + 1);
    } else {
      stats := stats.(failed := stats.failed + 1);
    }
  }

  /** The inner loop: the videos of creator `i`, in order, until one raises `ValueError`. */
  method VisitCreator(io: Io, data0: Catalogue, stats0: Stats, saves0: seq<Catalogue>, calls0: nat, files0: set<string>, i: nat)
    returns (data: Catalogue, stats: Stats, saves: seq<Catalogue>, calls: nat, files: set<string>, halt: Option<string>)
    requires i < |data0|
    ensures SameShape(data0, data)
    ensures State(data, stats, saves, calls, files, halt) ==
      Prefix(Stepper(io), Halted, State(data0, stats0, saves0, calls0, files0, None), i, |data0[i].collection|)
  {
    data, stats, saves, calls, files, halt := data0, stats0, saves0, calls0, files0, None;
    ghost var step := Stepper(io);
    ghost var outer := State(data0, stats0, saves0, calls0, files0, None);
    var j := 0;
    while j < |data[i].collection|
      invariant SameShape(data0, data) && 0 <= j <= |data[i].collection| && halt == None
      invariant State(data, stats, saves, calls, files, None) == Prefix(step, Halted, outer, i, j)
    {
      ghost var before := State(data, stats, saves, calls, files, None);
      data, stats, saves, calls, files, halt := Visit(io, data, stats, saves, calls, files, i, j);
      SameShapeTrans(data0, before.data, data);
      PrefixSucc(io, outer, i, j);
      if halt.Some? {
        PrefixHalted(step, Halted, outer, i, j + 1, |data0[i].collection|);
        return;
      }
      j := j + 1;
    }
    assert |data[i].collection| == |data0[i].collection|;
  }

  /**
   * `main()`: returns the catalogue as the run leaves it, the counters, the
   * catalogues saved in order, the number of download calls, the files that
   * exist afterwards, and the `ValueError` message if one ended the run.
   */
  method RunSupadata(io: Io, data0: Catalogue, files0: set<string>)
    returns (data: Catalogue, stats: Stats, saves: seq<Catalogue>, calls: nat, files: set<string>, halt: Option<string>)
    ensures State(data, stats, saves, calls, files, halt) == Final(io, data0, files0)
  {
    data, stats, saves, calls, files, halt := data0, Stats(0, 0, 0, 0, 0), [], 0, files0, None;
    ghost var step := Stepper(io);
    ghost var shape := Shape(data0);
    ghost var st0 := Start(data0, files0);
    var i := 0;
    while i < |data|
      invariant 0 <= i <= |data| && SameShape(data0, data) && halt == None
      invariant State(data, stats, saves, calls, files, None) == Upto(step, Halted, shape, st0, i)
    {
      ghost var cur := State(data, stats, saves, calls, files, None);
      assert shape[i] == |data[i].collection|;
      if data[i].collection == [] {
        PrefixZero(step, Halted, cur, i);
        OuterNext(step, Halted, shape, st0, i, cur);
        i := i + 1;
        continue;
      }
      ghost var before := data;
      data, stats, saves, calls, files, halt := VisitCreator(io, data, stats, saves, calls, files, i);
      SameShapeTrans(data0, before, data);
      OuterNext(step, Halted, shape, st0, i, State(data, stats, saves, calls, files, halt));
      if halt.Some? {
        return;
      }
      i := i + 1;
    }
  }

  lemma TurnShape(io: Io, st: State, i: nat, j: nat)
    ensures SameShape(st.data, Turn(io, st, i, j).data)
  {
  }
}
