/**
 * What `main()` of main.py guarantees about a whole run. Every video visited
 * is counted in `total_videos` and lands in exactly one of "already
 * downloaded", "successful" and "failed", except a last one whose exception
 * ends the run. Every success is one save, and every outcome is one
 * download call. The catalogue changes only in the `downloaded` flag of
 * videos that did not already have it set. After a run that reaches its end,
 * every video either is marked downloaded or carries an explicit `False`.
 *
 * As for main_supadata.py, the facts are proved for one turn and carried
 * through the two loops by induction.
 */
module LegacyDriverFacts {
  import opened Wrappers
  import opened Json
  import opened Catalogue
  import opened LegacyDriver
  import opened Loops

  /** A `downloaded` value the driver writes. */
  predicate Marked(flag: Option<Json>)
  {
    flag == Some(JBool(true)) || flag == Some(JBool(false))
  }

  /**
   * `b` is `a` with at most `downloaded` changed, only on videos where it was
   * not already truthy, and only to `True` or `False`.
   */
  predicate Frame(a: Catalogue, b: Catalogue)
  {
    SameShape(a, b) &&
    forall i, j :: 0 <= i < |a| && 0 <= j < |a[i].collection| ==>
      b[i].collection[j] == a[i].collection[j].(downloaded := b[i].collection[j].downloaded) &&
      (Flag(a[i].collection[j].downloaded, false) ==> b[i].collection[j] == a[i].collection[j]) &&
      (b[i].collection[j].downloaded == a[i].collection[j].downloaded || Marked(b[i].collection[j].downloaded))
  }

  lemma FrameRefl(a: Catalogue)
    ensures Frame(a, a)
  {
  }

  lemma FrameTrans(a: Catalogue, b: Catalogue, c: Catalogue)
    requires Frame(a, b) && Frame(b, c)
    ensures Frame(a, c)
  {
  }

  /** Exactly the successes are saved; every outcome, and a save that raised, is one download call. */
  predicate Ledger(s: State)
  {
    |s.saves| == s.stats.successful &&
    s.calls == s.stats.successful + s.stats.failed + (if s.halt == Some(SaveFailed) then 1 else 0)
  }

  /** `total_videos` is the sum of the other three counters, plus the video whose exception ended the run. */
  predicate Partition(s: State)
  {
    s.stats.total == s.stats.already + s.stats.successful + s.stats.failed + (if s.halt.Some? then 1 else 0)
  }

  /** A video a second run skips, or one whose last download is recorded as failed. */
  predicate Settled(v: Video)
  {
    Flag(v.downloaded, false) || v.downloaded == Some(JBool(false))
  }

  /** What no turn undoes, from a state the run has not left. */
  predicate Keeps(s: State, r: State)
  {
    Frame(s.data, r.data) && (Ledger(s) ==> Ledger(r)) && (Partition(s) ==> Partition(r)) &&
    (r.halt.None? ==>
      forall x, y :: 0 <= x < |s.data| && 0 <= y < |s.data[x].collection| && Settled(s.data[x].collection[y]) ==>
        Settled(r.data[x].collection[y]))
  }

  lemma KeepsRefl(s: State)
    requires s.halt.None?
    ensures Keeps(s, s)
  {
    FrameRefl(s.data);
  }

  lemma KeepsTrans(a: State, b: State, c: State)
    requires Keeps(a, b) && Keeps(b, c) && b.halt.None?
    ensures Keeps(a, c)
  {
    FrameTrans(a.data, b.data, c.data);
  }

  /** One turn on video `(a, b)` that does not end the run counts it and settles it. */
  predicate StepFacts(s: State, r: State, a: nat, b: nat)
  {
    Keeps(s, r) &&
    (r.halt.None? && a < |r.data| && b < |r.data[a].collection| ==>
      r.stats.total == s.stats.total + 1 && Settled(r.data[a].collection[b]))
  }

  /** A turn function with the single-turn facts. */
  ghost predicate Proper(step: (State, nat, nat) -> State)
  {
    forall s: State, a: nat, b: nat {:trigger step(s, a, b)} ::
      s.halt.None? && a < |s.data| && b < |s.data[a].collection| ==> StepFacts(s, step(s, a, b), a, b)
  }

  /** Recording an outcome changes only that video's flag, to the outcome, and settles it. */
  lemma RecordFacts(data: Catalogue, i: nat, j: nat, ok: bool)
    requires i < |data| && j < |data[i].collection|
    requires !Flag(data[i].collection[j].downloaded, false)
    ensures Frame(data, Record(data, i, j, ok))
    ensures Record(data, i, j, ok)[i].collection[j].downloaded == Some(JBool(ok))
    ensures Settled(Record(data, i, j, ok)[i].collection[j])
    ensures forall x, y :: 0 <= x < |data| && 0 <= y < |data[x].collection| && Settled(data[x].collection[y]) ==>
      Settled(Record(data, i, j, ok)[x].collection[y])
  {
    var r := Record(data, i, j, ok);
    forall x, y | 0 <= x < |data| && 0 <= y < |data[x].collection| && Settled(data[x].collection[y])
      ensures Settled(r[x].collection[y])
    {
      if x != i || y != j {
        assert r[x].collection[y] == data[x].collection[y];
      }
    }
  }

  /** A download changes only the attempted video's flag, to its outcome, and settles that video. */
  lemma AttemptedFacts(io: Io, s: State, i: nat, j: nat, path: string)
    requires s.halt.None? && i < |s.data| && j < |s.data[i].collection|
    requires !Flag(s.data[i].collection[j].downloaded, false)
    ensures var r := Attempted(io, s.(stats := s.stats.(total := s.stats.total + 1)), i, j, path);
      StepFacts(s, r, i, j)
  {
    var c := s.data[i];
    var v := c.collection[j];
    var ok := io.download(v.videoId, path, c.nativeLang, s.calls);
    RecordFacts(s.data, i, j, ok);
  }

  /**
   * What a download records: the flag becomes the outcome of the call. A
   * failure is counted in `failed` and not saved. A success is saved as the
   * catalogue now is and then counted in `successful`; when that save fails,
   * the run ends with nothing counted.
   */
  lemma AttemptedRecords(io: Io, s: State, i: nat, j: nat, path: string)
    requires i < |s.data| && j < |s.data[i].collection|
    ensures var v := s.data[i].collection[j];
      var ok := io.download(v.videoId, path, s.data[i].nativeLang, s.calls);
      var r := Attempted(io, s, i, j, path);
      r.data[i].collection[j] == v.(downloaded := Some(JBool(ok))) && r.calls == s.calls + 1 &&
      (!ok ==> r.stats == s.stats.(failed := s.stats.failed + 1) && r.saves == s.saves && r.halt.None?) &&
      (ok && io.saveOk(|s.saves|) ==>
        r.stats == s.stats.(successful := s.stats.successful + 1) && r.saves == s.saves + [r.data] && r.halt.None?) &&
      (ok && !io.saveOk(|s.saves|) ==> r.stats == s.stats && r.saves == s.saves && r.halt == Some(SaveFailed))
  {
  }

  /**
   * A turn that downloads a video counts it in `total_videos` and leaves its
   * `downloaded` equal to the outcome of the call.
   */
  lemma TurnRecords(io: Io, s: State, a: nat, b: nat, f: string)
    requires a < |s.data| && b < |s.data[a].collection|
    requires !Flag(s.data[a].collection[b].downloaded, false)
    requires io.name(s.data[a].collection[b].publishedTime, s.data[a].name, s.data[a].collection[b].videoId) == Ok(f)
    ensures var v := s.data[a].collection[b];
      var ok := io.download(v.videoId, PathOf(f), s.data[a].nativeLang, s.calls);
      var r := Turn(io, s, a, b);
      r.stats.total == s.stats.total + 1 && r.data[a].collection[b].downloaded == Some(JBool(ok)) &&
      (!ok ==> r.stats.failed == s.stats.failed + 1 && r.stats.successful == s.stats.successful && r.halt.None?) &&
      (ok && io.saveOk(|s.saves|) ==> r.stats.successful == s.stats.successful + 1 && r.stats.failed == s.stats.failed) &&
      (ok && !io.saveOk(|s.saves|) ==> r.stats.successful == s.stats.successful && r.halt == Some(SaveFailed))
  {
    TurnDownloads(io, s, a, b);
    AttemptedRecords(io, s.(stats := s.stats.(total := s.stats.total + 1)), a, b, PathOf(f));
  }

  lemma TurnFacts(io: Io, s: State, a: nat, b: nat)
    requires s.halt.None? && a < |s.data| && b < |s.data[a].collection|
    ensures StepFacts(s, Turn(io, s, a, b), a, b)
  {
    var c := s.data[a];
    var v := c.collection[b];
    if Flag(v.downloaded, false) {
      TurnAlready(io, s, a, b);
      FrameRefl(s.data);
    } else if io.name(v.publishedTime, c.name, v.videoId).Err? {
      TurnBadDate(io, s, a, b);
      FrameRefl(s.data);
    } else {
      TurnDownloads(io, s, a, b);
      AttemptedFacts(io, s, a, b, PathOf(io.name(v.publishedTime, c.name, v.videoId).value));
    }
  }

  /** The driver's own turn has the single-turn facts. */
  lemma StepperProper(io: Io)
    ensures Proper(Stepper(io))
  {
    forall s: State, a: nat, b: nat | s.halt.None? && a < |s.data| && b < |s.data[a].collection|
      ensures StepFacts(s, Stepper(io)(s, a, b), a, b)
    {
      TurnFacts(io, s, a, b);
    }
  }

  /** The first `j` turns over creator `i` keep the facts, count `j` videos and settle each of them. */
  lemma {:induction false} PrefixFacts(step: (State, nat, nat) -> State, st: State, i: nat, j: nat)
    requires Proper(step)
    requires st.halt.None? && i < |st.data| && j <= |st.data[i].collection|
    ensures Keeps(st, Prefix(step, Halted, st, i, j))
    ensures var r := Prefix(step, Halted, st, i, j);
      r.halt.None? ==>
        r.stats.total == st.stats.total + j &&
        forall y :: 0 <= y < j ==> Settled(r.data[i].collection[y])
    decreases j
  {
    if j == 0 {
      KeepsRefl(st);
    } else {
      PrefixFacts(step, st, i, j - 1);
      var p := Prefix(step, Halted, st, i, j - 1);
      if p.halt.None? {
        var r := step(p, i, j - 1);
        assert Prefix(step, Halted, st, i, j) == r;
        assert StepFacts(p, r, i, j - 1);
        KeepsTrans(st, p, r);
      } else {
        assert Prefix(step, Halted, st, i, j) == p;
      }
    }
  }

  /** Every video of the first `n` creators is settled. */
  predicate SettledBefore(r: State, n: nat)
  {
    forall x, y :: 0 <= x < n && x < |r.data| && 0 <= y < |r.data[x].collection| ==> Settled(r.data[x].collection[y])
  }

  /** The facts of the first `i` creators' turns. */
  predicate UptoOk(st: State, r: State, shape: seq<nat>, i: nat)
    requires i <= |shape|
  {
    Keeps(st, r) && (r.halt.None? ==> r.stats.total == st.stats.total + Sum(shape[..i]) && SettledBefore(r, i))
  }

  /** Creator `n`'s videos settled on top of the first `n` creators'. */
  lemma SettledGrow(u: State, r: State, n: nat)
    requires n < |u.data| && SettledBefore(u, n) && Keeps(u, r) && r.halt.None?
    requires forall y :: 0 <= y < |u.data[n].collection| ==> Settled(r.data[n].collection[y])
    ensures SettledBefore(r, n + 1)
  {
  }

  /** One more creator. */
  lemma UptoStep(step: (State, nat, nat) -> State, shape: seq<nat>, st: State, i: nat)
    requires Proper(step)
    requires st.halt.None? && shape == Shape(st.data) && 0 < i <= |shape|
    requires UptoOk(st, Upto(step, Halted, shape, st, i - 1), shape, i - 1)
    ensures UptoOk(st, Upto(step, Halted, shape, st, i), shape, i)
  {
    var u := Upto(step, Halted, shape, st, i - 1);
    if u.halt.None? {
      var r := Prefix(step, Halted, u, i - 1, shape[i - 1]);
      assert Upto(step, Halted, shape, st, i) == r;
      assert shape[i - 1] == |u.data[i - 1].collection|;
      PrefixFacts(step, u, i - 1, shape[i - 1]);
      KeepsTrans(st, u, r);
      if r.halt.None? {
        SumPrefix(shape, i);
        SettledGrow(u, r, i - 1);
      }
    } else {
      assert Upto(step, Halted, shape, st, i) == u;
    }
  }

  /** The first `i` creators: the facts are kept, their videos counted and all of them settled. */
  lemma {:induction false} UptoFacts(step: (State, nat, nat) -> State, shape: seq<nat>, st: State, i: nat)
    requires Proper(step)
    requires st.halt.None? && shape == Shape(st.data) && i <= |shape|
    ensures UptoOk(st, Upto(step, Halted, shape, st, i), shape, i)
    decreases i
  {
    if i == 0 {
      KeepsRefl(st);
    } else {
      UptoFacts(step, shape, st, i - 1);
      UptoStep(step, shape, st, i);
    }
  }

  /**
   * A whole run of `main()`: only `downloaded` changes, and only where it
   * was not already truthy; the saves are the successes and the calls the
   * outcomes; `total_videos` partitions into the other counters; and a run
   * that ends normally counts every video and leaves every one of them
   * marked downloaded or explicitly failed.
   */
  lemma RunFacts(io: Io, data0: Catalogue)
    ensures var r := Final(io, data0);
      Frame(data0, r.data) && Ledger(r) && Partition(r) &&
      (r.halt.None? ==>
        r.stats.total == VideoCount(data0) &&
        forall x, y :: 0 <= x < |r.data| && 0 <= y < |r.data[x].collection| ==> Settled(r.data[x].collection[y]))
  {
    var st := Start(data0);
    StepperProper(io);
    UptoFacts(Stepper(io), Shape(data0), st, |data0|);
    assert Shape(data0)[..|data0|] == Shape(data0);
    ShapeCount(data0);
  }
}
