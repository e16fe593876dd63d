/**
 * What `main()` of main_supadata.py guarantees about a whole run: the
 * counters partition the videos visited, every attempt is one download call
 * and one save of the current catalogue, the catalogue changes only in
 * `downloaded_via_supadata` of caption-less videos, files are never lost, and
 * after a run that reaches its end every fetched video is one a second run
 * skips.
 *
 * The facts are proved once for a single turn and then carried through the
 * two loops by induction, for any turn function that has them.
 */
module SupadataDriverFacts {
  import opened Wrappers
  import opened Json
  import opened Catalogue
  import opened SupadataNaming
  import opened SupadataApi
  import SupadataApiFacts
  import opened SupadataDriver
  import opened Loops

  type Namer = (string, string, string) -> Result<string, string>

  /** Every outcome recorded is one download call and one save, and the last save is the current catalogue. */
  predicate Ledger(s: State)
  {
    s.stats.successful + s.stats.failed == |s.saves| == s.calls &&
    (s.saves != [] ==> s.saves[|s.saves| - 1] == s.data)
  }

  /** The videos visited: skipped for captions, skipped as already fetched, or counted in `total_videos`. */
  function Tally(s: Stats): nat
  {
    s.skippedCaptions + s.already + s.total
  }

  /** Every video counted in `total_videos` was either a success or a failure. */
  predicate Balanced(s: Stats)
  {
    s.total == s.successful + s.failed
  }

  /** `b` is `a` with at most `downloaded_via_supadata` changed, and only on caption-less videos. */
  predicate Frame(a: Catalogue, b: Catalogue)
  {
    SameShape(a, b) &&
    forall i, j :: 0 <= i < |a| && 0 <= j < |a[i].collection| ==>
      b[i].collection[j] == a[i].collection[j].(downloadedViaSupadata := b[i].collection[j].downloadedViaSupadata) &&
      (Flag(a[i].collection[j].captionEnabled, true) ==> b[i].collection[j] == a[i].collection[j])
  }

  lemma FrameTrans(a: Catalogue, b: Catalogue, c: Catalogue)
    requires Frame(a, b) && Frame(b, c)
    ensures Frame(a, c)
  {
  }

  /**
   * A video a later run leaves alone or may fetch again without loss: it has
   * captions, or it is not marked as fetched, or its transcript file exists.
   */
  predicate Settled(name: Namer, c: Creator, v: Video, files: set<string>)
  {
    Flag(v.captionEnabled, true) || !Flag(v.downloadedViaSupadata, false) ||
    (OutputPath(name, c.name, v).Ok? && OutputPath(name, c.name, v).value in files)
  }

  /** What no turn undoes; the last two only while no `ValueError` has ended the run. */
  predicate Keeps(name: Namer, s: State, r: State)
  {
    Frame(s.data, r.data) && s.files <= r.files && (Ledger(s) ==> Ledger(r)) &&
    (r.halt.None? ==>
      (Balanced(s.stats) ==> Balanced(r.stats)) &&
      forall x, y ::
        (0 <= x < |s.data| && 0 <= y < |s.data[x].collection| && Settled(name, s.data[x], s.data[x].collection[y], s.files)) ==>
          Settled(name, r.data[x], r.data[x].collection[y], r.files))
  }

  lemma KeepsTrans(name: Namer, a: State, b: State, c: State)
    requires Keeps(name, a, b) && Keeps(name, b, c) && (c.halt.None? ==> b.halt.None?)
    ensures Keeps(name, a, c)
  {
    FrameTrans(a.data, b.data, c.data);
  }

  /** One turn on video `(a, b)` that does not halt visits one video and settles it. */
  predicate StepFacts(name: Namer, s: State, r: State, a: nat, b: nat)
  {
    Keeps(name, s, r) &&
    (r.halt.None? && a < |r.data| && b < |r.data[a].collection| ==>
      Tally(r.stats) == Tally(s.stats) + 1 && Settled(name, r.data[a], r.data[a].collection[b], r.files))
  }

  /** A turn function with the single-turn facts. */
  ghost predicate Proper(name: Namer, step: (State, nat, nat) -> State)
  {
    forall s: State, a: nat, b: nat {:trigger step(s, a, b)} ::
      s.halt.None? && a < |s.data| && b < |s.data[a].collection| ==> StepFacts(name, s, step(s, a, b), a, b)
  }

  /** A downloader that reports success only after it has written the file. */
  ghost predicate WritesOnSuccess(fetch: Env -> Run)
  {
    forall env: Env {:trigger fetch(env)} :: fetch(env).outcome == Written ==> fetch(env).file.Some?
  }

  lemma SupadataWritesOnSuccess()
    ensures WritesOnSuccess(Fetch)
  {
    forall env: Env
      ensures Fetch(env).outcome == Written ==> Fetch(env).file.Some?
    {
      SupadataApiFacts.FileOnlyWhenOpened(env);
    }
  }

  lemma FrameRefl(a: Catalogue)
    ensures Frame(a, a)
  {
  }

  /** A turn that only counts or halts keeps everything. */
  lemma CountingKeeps(name: Namer, s: State, r: State)
    requires r.data == s.data && r.saves == s.saves && r.calls == s.calls && r.files == s.files
    requires r.stats.successful == s.stats.successful && r.stats.failed == s.stats.failed
    requires r.halt.None? ==> r.stats.total == s.stats.total
    ensures Keeps(name, s, r)
  {
    FrameRefl(s.data);
  }

  /** An attempt changes only the attempted video's flag, saves it and adds at most its file. */
  lemma AttemptedKeeps(io: Io, s: State, i: nat, j: nat, path: string)
    requires WritesOnSuccess(io.fetch)
    requires i < |s.data| && j < |s.data[i].collection|
    requires OutputPath(io.name, s.data[i].name, s.data[i].collection[j]) == Ok(path)
    requires !Flag(s.data[i].collection[j].captionEnabled, true)
    ensures Keeps(io.name, s, Attempted(io, s.(stats := s.stats.(total := s.stats.total + 1)), i, j, path))
  {
    var r := Attempted(io, s.(stats := s.stats.(total := s.stats.total + 1)), i, j, path);
    assert Frame(s.data, r.data);
    forall x, y | 0 <= x < |s.data| && 0 <= y < |s.data[x].collection| && Settled(io.name, s.data[x], s.data[x].collection[y], s.files)
      ensures Settled(io.name, r.data[x], r.data[x].collection[y], r.files)
    {
      if x != i || y != j {
        assert r.data[x].collection[y] == s.data[x].collection[y];
      }
    }
  }

  /**
   * An attempt records its outcome: the video's `downloaded_via_supadata`
   * becomes the success of the call, `successful` grows by one on success and
   * `failed` by one otherwise, the catalogue is saved as it now is, and the
   * path is added to the files exactly when the call left a file.
   */
  lemma AttemptedRecords(io: Io, s: State, i: nat, j: nat, path: string)
    requires i < |s.data| && j < |s.data[i].collection|
    ensures var run := io.fetch(EnvFor(s.data[i], s.data[i].collection[j], io.apiKey, io.world(s.calls)));
      var ok := run.outcome == Written;
      var r := Attempted(io, s, i, j, path);
      r.data[i].collection[j] == s.data[i].collection[j].(downloadedViaSupadata := Some(JBool(ok))) &&
      (ok ==> r.stats == s.stats.(successful := s.stats.successful + 1)) &&
      (!ok ==> r.stats == s.stats.(failed := s.stats.failed + 1)) &&
      r.saves == s.saves + [r.data] && r.calls == s.calls + 1 && r.halt.None? &&
      (path in r.files <==> path in s.files || run.file.Some?)
  {
  }

  /**
   * A turn that attempts a video counts it in `total_videos` and leaves its
   * `downloaded_via_supadata` equal to the success of the download call.
   */
  lemma TurnRecords(io: Io, s: State, a: nat, b: nat, path: string)
    requires a < |s.data| && b < |s.data[a].collection|
    requires Decide(io.name, s.data[a].name, s.data[a].collection[b], s.files) == Attempt
    requires OutputPath(io.name, s.data[a].name, s.data[a].collection[b]) == Ok(path)
    ensures var run := io.fetch(EnvFor(s.data[a], s.data[a].collection[b], io.apiKey, io.world(s.calls)));
      var r := Turn(io, s, a, b);
      r.halt.None? && r.stats.total == s.stats.total + 1 &&
      r.data[a].collection[b].downloadedViaSupadata == Some(JBool(run.outcome == Written)) &&
      (run.outcome == Written ==> r.stats.successful == s.stats.successful + 1 && r.stats.failed == s.stats.failed) &&
      (run.outcome != Written ==> r.stats.failed == s.stats.failed + 1 && r.stats.successful == s.stats.successful)
  {
    TurnAttempts(io, s, a, b);
    AttemptedRecords(io, s.(stats := s.stats.(total := s.stats.total + 1)), a, b, path);
  }

  lemma TurnKeeps(io: Io, s: State, a: nat, b: nat)
    requires WritesOnSuccess(io.fetch)
    requires s.halt.None? && a < |s.data| && b < |s.data[a].collection|
    ensures Keeps(io.name, s, Turn(io, s, a, b))
  {
    var c := s.data[a];
    var v := c.collection[b];
    match Decide(io.name, c.name, v, s.files)
    case SkipCaptions =>
      TurnSkips(io, s, a, b);
      CountingKeeps(io.name, s, Turn(io, s, a, b));
    case AlreadyDone =>
      TurnAlready(io, s, a, b);
      CountingKeeps(io.name, s, Turn(io, s, a, b));
    case Invalid(m) =>
      TurnInvalid(io, s, a, b, m);
      CountingKeeps(io.name, s, Turn(io, s, a, b));
    case Attempt =>
      TurnAttempts(io, s, a, b);
      var counted := s.(stats := s.stats.(total := s.stats.total + 1));
      match OutputPath(io.name, c.name, v)
      case Err(m) =>
        CountingKeeps(io.name, s, Turn(io, s, a, b));
      case Ok(path) =>
        DecideRules(io.name, c.name, v, s.files);
        AttemptedKeeps(io, s, a, b, path);
  }

  lemma TurnCounts(io: Io, s: State, a: nat, b: nat)
    requires s.halt.None? && a < |s.data| && b < |s.data[a].collection|
    ensures Turn(io, s, a, b).halt.None? ==> Tally(Turn(io, s, a, b).stats) == Tally(s.stats) + 1
  {
  }

  lemma TurnSettles(io: Io, s: State, a: nat, b: nat)
    requires WritesOnSuccess(io.fetch)
    requires s.halt.None? && a < |s.data| && b < |s.data[a].collection|
    ensures SameShape(s.data, Turn(io, s, a, b).data)
    ensures Turn(io, s, a, b).halt.None? ==>
      Settled(io.name, Turn(io, s, a, b).data[a], Turn(io, s, a, b).data[a].collection[b], Turn(io, s, a, b).files)
  {
    TurnShape(io, s, a, b);
  }

  /** The driver's own turn has the single-turn facts. */
  lemma StepperProper(io: Io)
    requires WritesOnSuccess(io.fetch)
    ensures Proper(io.name, Stepper(io))
  {
    forall s: State, a: nat, b: nat | s.halt.None? && a < |s.data| && b < |s.data[a].collection|
      ensures StepFacts(io.name, s, Stepper(io)(s, a, b), a, b)
    {
      TurnKeeps(io, s, a, b);
      TurnCounts(io, s, a, b);
      TurnSettles(io, s, a, b);
    }
  }

  lemma KeepsRefl(name: Namer, s: State)
    ensures Keeps(name, s, s)
  {
    FrameRefl(s.data);
  }

  /** The first `j` turns over creator `i` keep the facts, count `j` videos and settle each of them. */
  lemma {:induction false} PrefixFacts(name: Namer, step: (State, nat, nat) -> State, st: State, i: nat, j: nat)
    requires Proper(name, step)
    requires st.halt.None? && i < |st.data| && j <= |st.data[i].collection|
    ensures Keeps(name, st, Prefix(step, Halted, st, i, j))
    ensures var r := Prefix(step, Halted, st, i, j);
      r.halt.None? ==>
        Tally(r.stats) == Tally(st.stats) + j &&
        forall y :: 0 <= y < j ==> Settled(name, r.data[i], r.data[i].collection[y], r.files)
    decreases j
  {
    if j == 0 {
      KeepsRefl(name, st);
    } else {
      PrefixFacts(name, step, st, i, j - 1);
      var p := Prefix(step, Halted, st, i, j - 1);
      if p.halt.None? {
        var r := step(p, i, j - 1);
        assert Prefix(step, Halted, st, i, j) == r;
        assert StepFacts(name, p, r, i, j - 1);
        KeepsTrans(name, st, p, r);
      } else {
        assert Prefix(step, Halted, st, i, j) == p;
      }
    }
  }

  /** Every video of the first `n` creators is settled. */
  predicate SettledBefore(name: Namer, r: State, n: nat)
  {
    forall x, y :: 0 <= x < n && x < |r.data| && 0 <= y < |r.data[x].collection| ==>
      Settled(name, r.data[x], r.data[x].collection[y], r.files)
  }

  /** The facts of the first `i` creators' turns. */
  predicate UptoOk(name: Namer, st: State, r: State, shape: seq<nat>, i: nat)
    requires i <= |shape|
  {
    Keeps(name, st, r) &&
    (r.halt.None? ==> Tally(r.stats) == Tally(st.stats) + Sum(shape[..i]) && SettledBefore(name, r, i))
  }

  /** Creator `n`'s videos settled on top of the first `n` creators'. */
  lemma SettledGrow(name: Namer, u: State, r: State, n: nat)
    requires n < |u.data| && SettledBefore(name, u, n) && Keeps(name, u, r) && r.halt.None?
    requires forall y :: 0 <= y < |u.data[n].collection| ==> Settled(name, r.data[n], r.data[n].collection[y], r.files)
    ensures SettledBefore(name, r, n + 1)
  {
  }

  /** One more creator. */
  lemma UptoStep(name: Namer, step: (State, nat, nat) -> State, shape: seq<nat>, st: State, i: nat)
    requires Proper(name, step)
    requires st.halt.None? && shape == Shape(st.data) && 0 < i <= |shape|
    requires UptoOk(name, st, Upto(step, Halted, shape, st, i - 1), shape, i - 1)
    ensures UptoOk(name, st, Upto(step, Halted, shape, st, i), shape, i)
  {
    var u := Upto(step, Halted, shape, st, i - 1);
    if u.halt.None? {
      var r := Prefix(step, Halted, u, i - 1, shape[i - 1]);
      assert Upto(step, Halted, shape, st, i) == r;
      assert shape[i - 1] == |u.data[i - 1].collection|;
      PrefixFacts(name, step, u, i - 1, shape[i - 1]);
      KeepsTrans(name, st, u, r);
      if r.halt.None? {
        SumPrefix(shape, i);
        SettledGrow(name, u, r, i - 1);
      }
    } else {
      assert Upto(step, Halted, shape, st, i) == u;
    }
  }

  /** The first `i` creators: the facts are kept, their videos counted and all of them settled. */
  lemma {:induction false} UptoFacts(name: Namer, step: (State, nat, nat) -> State, shape: seq<nat>, st: State, i: nat)
    requires Proper(name, step)
    requires st.halt.None? && shape == Shape(st.data) && i <= |shape|
    ensures UptoOk(name, st, Upto(step, Halted, shape, st, i), shape, i)
    decreases i
  {
    if i == 0 {
      KeepsRefl(name, st);
    } else {
      UptoFacts(name, step, shape, st, i - 1);
      UptoStep(name, step, shape, st, i);
    }
  }

  /** The whole run is the fold over every creator, so the facts of `UptoFacts` hold of it. */
  lemma RunOk(io: Io, data0: Catalogue, files0: set<string>)
    requires WritesOnSuccess(io.fetch)
    ensures UptoOk(io.name, Start(data0, files0), Final(io, data0, files0), Shape(data0), |data0|)
  {
    StepperProper(io);
    UptoFacts(io.name, Stepper(io), Shape(data0), Start(data0, files0), |data0|);
  }

  /** A run changes only the flags of caption-less videos, loses no file, and makes one call and one save per outcome. */
  lemma RunKeeps(io: Io, data0: Catalogue, files0: set<string>)
    requires WritesOnSuccess(io.fetch)
    ensures var r := Final(io, data0, files0);
      Frame(data0, r.data) && files0 <= r.files && Ledger(r)
  {
    RunOk(io, data0, files0);
  }

  /** A run that reaches its end has counted every video once, and each attempt as a success or a failure. */
  lemma RunCounts(io: Io, data0: Catalogue, files0: set<string>)
    requires WritesOnSuccess(io.fetch)
    ensures var r := Final(io, data0, files0);
      r.halt.None? ==>
        Balanced(r.stats) && Tally(r.stats) == VideoCount(data0) &&
        forall x, y :: 0 <= x < |r.data| && 0 <= y < |r.data[x].collection| ==>
          Settled(io.name, r.data[x], r.data[x].collection[y], r.files)
  {
    var st := Start(data0, files0);
    var r := Final(io, data0, files0);
    RunOk(io, data0, files0);
    if r.halt.None? {
      assert Balanced(st.stats);
      assert SameShape(data0, r.data);
      assert Shape(data0)[..|data0|] == Shape(data0);
      ShapeCount(data0);
      assert SettledBefore(io.name, r, |data0|);
    }
  }

  /**
   * A whole run of `main()`: only `downloaded_via_supadata` of caption-less
   * videos changes, no file is lost, every outcome is one call and one save of
   * the current catalogue, and a run that ends normally counts every video
   * exactly once, every counted one as a success or a failure, and leaves
   * every video settled.
   */
  lemma RunFacts(io: Io, data0: Catalogue, files0: set<string>)
    requires WritesOnSuccess(io.fetch)
    ensures var r := Final(io, data0, files0);
      Frame(data0, r.data) && files0 <= r.files && Ledger(r) &&
      (r.halt.None? ==>
        Balanced(r.stats) && Tally(r.stats) == VideoCount(data0) &&
        forall x, y :: 0 <= x < |r.data| && 0 <= y < |r.data[x].collection| ==>
          Settled(io.name, r.data[x], r.data[x].collection[y], r.files))
  {
    RunKeeps(io, data0, files0);
    RunCounts(io, data0, files0);
  }

  /** A settled video is skipped by a later run unless its `downloaded_via_supadata` is false. */
  lemma SettledDecides(name: Namer, c: Creator, v: Video, files: set<string>)
    requires Settled(name, c, v, files)
    ensures Decide(name, c.name, v, files) == SkipCaptions || Decide(name, c.name, v, files) == AlreadyDone ||
      !Flag(v.downloadedViaSupadata, false)
  {
    DecideRules(name, c.name, v, files);
  }

  /**
   * main_supadata.py's own run: the whole-run facts, and a second run over
   * what the first one left behind fetches nothing it has fetched already.
   */
  lemma SupadataRun(apiKey: Option<string>, world: nat -> World, data0: Catalogue, files0: set<string>)
    ensures var r := Final(Supadata(apiKey, world), data0, files0);
      Frame(data0, r.data) && files0 <= r.files && Ledger(r) &&
      (r.halt.None? ==>
        Balanced(r.stats) && Tally(r.stats) == VideoCount(data0) &&
        forall x, y :: 0 <= x < |r.data| && 0 <= y < |r.data[x].collection| ==>
          var v := r.data[x].collection[y];
          Decide(GenerateFilename, r.data[x].name, v, r.files) == SkipCaptions ||
          Decide(GenerateFilename, r.data[x].name, v, r.files) == AlreadyDone ||
          !Flag(v.downloadedViaSupadata, false))
  {
    var io := Supadata(apiKey, world);
    var r := Final(io, data0, files0);
    SupadataWritesOnSuccess();
    RunFacts(io, data0, files0);
    if r.halt.None? {
      forall x, y | 0 <= x < |r.data| && 0 <= y < |r.data[x].collection|
        ensures var v := r.data[x].collection[y];
          Decide(GenerateFilename, r.data[x].name, v, r.files) == SkipCaptions ||
          Decide(GenerateFilename, r.data[x].name, v, r.files) == AlreadyDone ||
          !Flag(v.downloadedViaSupadata, false)
      {
        SettledDecides(GenerateFilename, r.data[x], r.data[x].collection[y], r.files);
      }
    }
  }
}
