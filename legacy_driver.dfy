/**
 * `main()` of main.py: walk every creator's videos, count each of them in
 * `total_videos`, skip those whose `downloaded` flag is set, fetch the rest,
 * record the outcome in `downloaded`, and save the catalogue after each
 * success.
 *
 * Unlike main_supadata.py, nothing here is caught: a bad date makes
 * `generate_filename` raise and a failing save raises too, and either one
 * ends the run. The downloader is an oracle: the n-th call succeeds or not
 * as `download` says for the video id, the output path, the creator's
 * `native_lang` and n. The n-th save succeeds as `saveOk(n)` says.
 */
module LegacyDriver {
  import opened Wrappers
  import opened Json
  import opened Catalogue
  import opened Dates
  import opened LegacyNaming
  import opened Loops

  type Namer = (string, string, string) -> Result<string, StrptimeError>

  /** What `main` depends on: `generate_filename`, the downloader and the saves. */
  datatype Io = Io(
    name: Namer,
    download: (string, string, Option<string>, nat) -> bool,
    saveOk: nat -> bool)

  /** The functions main.py itself uses, with a given downloader and file system. */
  function Legacy(download: (string, string, Option<string>, nat) -> bool, saveOk: nat -> bool): Io
  {
    Io(GenerateFilename, download, saveOk)
  }

  /** The four counters of `main`. */
  datatype Stats = Stats(total: nat, successful: nat, failed: nat, already: nat)

  /** The uncaught exception that ended the run. */
  datatype Halt = BadDate(error: StrptimeError) | SaveFailed

  /**
   * Where the driver is: the catalogue as mutated so far, the counters, the
   * catalogues saved in order, the number of download calls, and the
   * exception that ended the run, if any.
   */
  datatype State = State(data: Catalogue, stats: Stats, saves: seq<Catalogue>, calls: nat, halt: Option<Halt>)

  function Start(data: Catalogue): State
  {
    State(data, Stats(0, 0, 0, 0), [], 0, None)
  }

  /** `os.path.join(output_dir, filename)`. */
  function PathOf(filename: string): string
  {
    OutputDir + "/" + filename
  }

  /** The catalogue with the `downloaded` flag of video `j` of creator `i` set to `ok`. */
  function Record(data: Catalogue, i: nat, j: nat, ok: bool): Catalogue
    requires i < |data| && j < |data[i].collection|
  {
    WithVideo(data, i, j, data[i].collection[j].(downloaded := Some(JBool(ok))))
  }

  /**
   * Downloading video `j` of creator `i` to `path`: the flag becomes the
   * outcome; a success is saved and counted once the save returns, and a
   * failing save ends the run; a failure is counted and not saved.
   */
  function Attempted(io: Io, st: State, i: nat, j: nat, path: string): State
    requires i < |st.data| && j < |st.data[i].collection|
  {
    var c := st.data[i];
    var v := c.collection[j];
    var ok := io.download(v.videoId, path, c.nativeLang, st.calls);
    var data := Record(st.data, i, j, ok);
    var s := st.stats;
    if !ok then
      State(data, s.(failed := s.failed + 1), st.saves, st.calls + 1, None)
    else if io.saveOk(|st.saves|) then
      State(data, s.(successful := s.successful + 1), st.saves + [data], st.calls + 1, None)
    else
      State(data, s, st.saves, st.calls + 1, Some(SaveFailed))
  }

  /** One turn of the inner loop, for video `j` of creator `i`; out of range, nothing happens. */
  function Turn(io: Io, st: State, i: nat, j: nat): State
  {
    if i < |st.data| && j < |st.data[i].collection| then
      var c := st.data[i];
      var v := c.collection[j];
      var st := st.(stats := st.stats.(total := st.stats.total + 1));
      if Flag(v.downloaded, false) then
        st.(stats := st.stats.(already := st.stats.already + 1))
      else
        match io.name(v.publishedTime, c.name, v.videoId)
        case Err(e) => st.(halt := Some(BadDate(e)))
        case Ok(f) => Attempted(io, st, i, j, PathOf(f))
    else st
  }

  /** Whether an exception has ended the run. */
  predicate Halted(st: State)
  {
    st.halt.Some?
  }

  function Stepper(io: Io): (State, nat, nat) -> State
  {
    (st: State, i: nat, j: nat) => Turn(io, st, i, j)
  }

  /** The whole run. */
  function Final(io: Io, data: Catalogue): State
  {
    Upto(Stepper(io), Halted, Shape(data), Start(data), |data|)
  }

  /** A video whose `downloaded` flag is truthy is counted in `total_videos` and as already downloaded, and nothing else: no name, no call, no save. */
  lemma TurnAlready(io: Io, st: State, i: nat, j: nat)
    requires i < |st.data| && j < |st.data[i].collection|
    requires Flag(st.data[i].collection[j].downloaded, false)
    ensures Turn(io, st, i, j) == st.(stats := st.stats.(total := st.stats.total + 1, already := st.stats.already + 1))
  {
  }

  /** Otherwise the video is counted, and a date `generate_filename` rejects ends the run with that error. */
  lemma TurnBadDate(io: Io, st: State, i: nat, j: nat)
    requires i < |st.data| && j < |st.data[i].collection|
    requires !Flag(st.data[i].collection[j].downloaded, false)
    requires io.name(st.data[i].collection[j].publishedTime, st.data[i].name, st.data[i].collection[j].videoId).Err?
    ensures Turn(io, st, i, j) == st.(stats := st.stats.(total := st.stats.total + 1),
      halt := Some(BadDate(io.name(st.data[i].collection[j].publishedTime, st.data[i].name, st.data[i].collection[j].videoId).error)))
  {
  }

  /** With main.py's namer, that error is `strptime`'s own. */
  lemma LegacyBadDate(download: (string, string, Option<string>, nat) -> bool, saveOk: nat -> bool, st: State, i: nat, j: nat)
    requires i < |st.data| && j < |st.data[i].collection|
    requires !Flag(st.data[i].collection[j].downloaded, false)
    requires Strptime(st.data[i].collection[j].publishedTime).Err?
    ensures Turn(Legacy(download, saveOk), st, i, j).halt == Some(BadDate(Strptime(st.data[i].collection[j].publishedTime).error))
  {
  }

  /** Otherwise the video is counted and downloaded to its path. */
  lemma TurnDownloads(io: Io, st: State, i: nat, j: nat)
    requires i < |st.data| && j < |st.data[i].collection|
    requires !Flag(st.data[i].collection[j].downloaded, false)
    requires io.name(st.data[i].collection[j].publishedTime, st.data[i].name, st.data[i].collection[j].videoId).Ok?
    ensures Turn(io, st, i, j) == Attempted(io, st.(stats := st.stats.(total := st.stats.total + 1)), i, j,
      PathOf(io.name(st.data[i].collection[j].publishedTime, st.data[i].name, st.data[i].collection[j].videoId).value))
  {
  }

  lemma TurnShape(io: Io, st: State, i: nat, j: nat)
    ensures SameShape(st.data, Turn(io, st, i, j).data)
  {
  }

  /** One pass of the inner loop's body, for video `j` of creator `i`. */
  method Visit(io: Io, data0: Catalogue, stats0: Stats, saves0: seq<Catalogue>, calls0: nat, i: nat, j: nat)
    returns (data: Catalogue, stats: Stats, saves: seq<Catalogue>, calls: nat, halt: Option<Halt>)
    requires i < |data0| && j < |data0[i].collection|
    ensures State(data, stats, saves, calls, halt) == Turn(io, State(data0, stats0, saves0, calls0, None), i, j)
    ensures SameShape(data0, data)
  {
    ghost var st := State(data0, stats0, saves0, calls0, None);
    TurnShape(io, st, i, j);
    data, stats, saves, calls, halt := data0, stats0, saves0, calls0, None;
    var creator := data[i];
    var video := creator.collection[j];
    stats := stats.(total := stats.total + 1);
    if Flag(video.downloaded, false) {
      TurnAlready(io, st, i, j);
      stats := stats.(already := stats.already + 1);
      return;
    }
    var filename := io.name(video.publishedTime, creator.name, video.videoId);
    if filename.Err? {
      TurnBadDate(io, st, i, j);
      halt := Some(BadDate(filename.error));
      return;
    }
    TurnDownloads(io, st, i, j);
    data, stats, saves, calls, halt := Download(io, data, stats, saves, calls, i, j, PathOf(filename.value));
  }

  /** The download of video `j` of creator `i` to `outputPath`, its flag update and, on success, the save. */
  method Download(io: Io, data0: Catalogue, stats0: Stats, saves0: seq<Catalogue>, calls0: nat,
                  i: nat, j: nat, outputPath: string)
    returns (data: Catalogue, stats: Stats, saves: seq<Catalogue>, calls: nat, halt: Option<Halt>)
    requires i < |data0| && j < |data0[i].collection|
    ensures State(data, stats, saves, calls, halt) == Attempted(io, State(data0, stats0, saves0, calls0, None), i, j, outputPath)
  {
    data, stats, saves, calls, halt := data0, stats0, saves0, calls0, None;
    var creator := data[i];
    var video := creator.collection[j];
    var success := io.download(video.videoId, outputPath, creator.nativeLang, calls);
    calls := calls + 1;
    if success {
      data := WithVideo(data, i, j, video.(downloaded := Some(JBool(true))));
      if !io.saveOk(|saves|) {
        halt := Some(SaveFailed);
        return;
      }
      saves := saves + [data];
      stats := stats.(successful := stats.successful + 1);
    } else {
      data := WithVideo(data, i, j, video.(downloaded := Some(JBool(false))));
      stats := stats.(failed := stats.failed + 1);
    }
  }

  /** The inner loop: the videos of creator `i`, in order, until one raises. */
  method VisitCreator(io: Io, data0: Catalogue, stats0: Stats, saves0: seq<Catalogue>, calls0: nat, i: nat)
    returns (data: Catalogue, stats: Stats, saves: seq<Catalogue>, calls: nat, halt: Option<Halt>)
    requires i < |data0|
    ensures SameShape(data0, data)
    ensures State(data, stats, saves, calls, halt) ==
      Prefix(Stepper(io), Halted, State(data0, stats0, saves0, calls0, None), i, |data0[i].collection|)
  {
    data, stats, saves, calls, halt := data0, stats0, saves0, calls0, None;
    ghost var step := Stepper(io);
    ghost var outer := State(data0, stats0, saves0, calls0, None);
    var j := 0;
    while j < |data[i].collection|
      invariant SameShape(data0, data) && 0 <= j <= |data[i].collection| && halt == None
      invariant State(data, stats, saves, calls, None) == Prefix(step, Halted, outer, i, j)
    {
      ghost var before := State(data, stats, saves, calls, None);
      data, stats, saves, calls, halt := Visit(io, data, stats, saves, calls, i, j);
      SameShapeTrans(data0, before.data, data);
      assert step(before, i, j) == State(data, stats, saves, calls, halt);
      InnerNext(step, Halted, outer, i, j, |data0[i].collection|, State(data, stats, saves, calls, halt));
      if halt.Some? {
        return;
      }
      j := j + 1;
    }
    assert |data[i].collection| == |data0[i].collection|;
  }

  /**
   * `main()`: returns the catalogue as the run leaves it, the counters, the
   * catalogues saved in order, the number of download calls, and the
   * exception if one ended the run.
   */
  method RunLegacy(io: Io, data0: Catalogue)
    returns (data: Catalogue, stats: Stats, saves: seq<Catalogue>, calls: nat, halt: Option<Halt>)
    ensures State(data, stats, saves, calls, halt) == Final(io, data0)
  {
    data, stats, saves, calls, halt := data0, Stats(0, 0, 0, 0), [], 0, None;
    ghost var step := Stepper(io);
    ghost var shape := Shape(data0);
    ghost var st0 := Start(data0);
    var i := 0;
    while i < |data|
      invariant 0 <= i <= |data| && SameShape(data0, data) && halt == None
      invariant State(data, stats, saves, calls, None) == Upto(step, Halted, shape, st0, i)
    {
      ghost var cur := State(data, stats, saves, calls, None);
      assert shape[i] == |data[i].collection|;
      if data[i].collection == [] {
        PrefixZero(step, Halted, cur, i);
        OuterNext(step, Halted, shape, st0, i, cur);
        i := i + 1;
        continue;
      }
      ghost var before := data;
      data, stats, saves, calls, halt := VisitCreator(io, data, stats, saves, calls, i);
      SameShapeTrans(data0, before, data);
      OuterNext(step, Halted, shape, st0, i, State(data, stats, saves, calls, halt));
      if halt.Some? {
        return;
      }
      i := i + 1;
    }
  }
}
