/**
  The per-step metric protocol of `MNISTPredictor` and `CIFAR10Predictor`.

  Each of `training_step`, `validation_step` and `test_step` reports its loss and accuracy to the
  metrics sink (`self.log`), appends one line to its loss log and then one line to its accuracy
  log, and returns the loss. The exception is `CIFAR10Predictor.training_step`, which does not
  report to the sink. A failing open or write raises out of the step.

  The log files are a `LogStore` object whose `files` map a path to the lines written to it; the
  sink is the predictor's `logged` sequence. Loss and accuracy are values of an opaque type `S`,
  and `render` stands for `str(round(x, 4))`. `StepWrites` and `RunSteps` state on values what one
  step and a run of steps do to the files; the lemmas state the append-only facts about them.
 */
module PhaseRunner {
  import opened LogPaths

  /** The log files: each path with the lines appended to it, oldest first.
      A path outside the map has no file yet. */
  type Files = map<string, seq<string>>

  function Contents(files: Files, path: string): seq<string> {
    if path in files then files[path] else []
  }

  /** One write of `line` to `path` opened in append mode, which creates a missing file. */
  function Appended(files: Files, path: string, line: string): (r: Files)
    ensures Contents(r, path) == Contents(files, path) + [line]
    ensures forall q :: q != path ==> Contents(r, q) == Contents(files, q)
  {
    files[path := Contents(files, path) + [line]]
  }

  /** Every file of `before` is a prefix of the same file in `after`: nothing was removed or rewritten. */
  ghost predicate AppendOnly(before: Files, after: Files) {
    forall q :: Contents(before, q) <= Contents(after, q)
  }

  /** The text one step writes for a metric value: its rendering and a newline. */
  function Line<S>(render: S -> string, x: S): (r: string)
    ensures |r| > 0 && r[|r| - 1] == '\n'
  {
    render(x) + "\n"
  }

  /** One `self.log(key, value)` call. */
  datatype Report<S> = Report(key: string, value: S)

  /** How a step ends: it returns the loss, or the open/write of `path` raises. */
  datatype Outcome<S> = Returned(loss: S) | Raised(path: string)

  /** All predictor steps report to the sink except the training step of the CIFAR-10 predictor. */
  predicate ReportsToSink(v: Variant, p: Phase) {
    !(v == Cifar10 && p == Train)
  }

  /** The sink reports of one step, in call order. */
  function SinkReports<S>(v: Variant, p: Phase, loss: S, acc: S): (r: seq<Report<S>>)
    ensures ReportsToSink(v, p) ==>
              r == [Report(PhaseName(p) + "_loss", loss), Report(PhaseName(p) + "_acc", acc)]
              && r[0].key != r[1].key
    ensures v == Cifar10 && p == Train ==> r == []
  {
    if ReportsToSink(v, p) then
      SinkKeyInjective(p, Loss, p, Acc);
      assert Tag(MetricName(Loss)) == "_loss" && Tag(MetricName(Acc)) == "_acc";
      [Report(SinkKey(p, Loss), loss), Report(SinkKey(p, Acc), acc)]
    else []
  }

  /** The files after one step's two writes, and the path whose write failed, if any. */
  datatype Written = Written(files: Files, failed: Option<string>)

  /** The two writes of a step: the loss line, then the accuracy line. A write to a path in
      `unwritable` fails and leaves the files as they are, and no later write happens. */
  function WriteBoth(unwritable: set<string>, files: Files,
                     lossPath: string, lossLine: string, accPath: string, accLine: string): Written
  {
    if lossPath in unwritable then Written(files, Some(lossPath))
    else
      var afterLoss := Appended(files, lossPath, lossLine);
      if accPath in unwritable then Written(afterLoss, Some(accPath))
      else Written(Appended(afterLoss, accPath, accLine), None)
  }

  /** Which write of a step fails, and what each write leaves in the files: the loss write fails
      exactly when its path is unwritable and then changes nothing; otherwise the loss line is
      appended, and the accuracy line too unless the accuracy path is unwritable; no other file
      changes. */
  lemma WriteBothOutcome(unwritable: set<string>, files: Files,
                         lossPath: string, lossLine: string, accPath: string, accLine: string)
    ensures var r := WriteBoth(unwritable, files, lossPath, lossLine, accPath, accLine);
            && (r.failed == None <==> lossPath !in unwritable && accPath !in unwritable)
            && (r.failed == Some(lossPath) <==> lossPath in unwritable)
            && (r.failed.Some? ==> r.failed.value in unwritable && r.failed.value in {lossPath, accPath})
            && (lossPath in unwritable ==> r.files == files)
            && (lossPath != accPath && lossPath !in unwritable ==>
                  Contents(r.files, lossPath) == Contents(files, lossPath) + [lossLine])
            && (lossPath != accPath && r.failed == None ==>
                  Contents(r.files, accPath) == Contents(files, accPath) + [accLine])
            && (lossPath != accPath && accPath in unwritable ==>
                  Contents(r.files, accPath) == Contents(files, accPath))
            && forall q :: q != lossPath && q != accPath ==> Contents(r.files, q) == Contents(files, q)
  {
  }

  /** The writes of one step of phase `p` of a predictor built with `optim`. */
  function StepWrites(optim: string, v: Variant, p: Phase, unwritable: set<string>,
                      files: Files, lossLine: string, accLine: string): Written
  {
    WriteBoth(unwritable, files, LogPath(optim, p, Loss, v), lossLine, LogPath(optim, p, Acc, v), accLine)
  }

  /** Successive steps writing the given (loss, accuracy) values to the two paths;
      the first step that raises ends the run. */
  function RunWrites<S>(unwritable: set<string>, files: Files, lossPath: string, accPath: string,
                        render: S -> string, metrics: seq<(S, S)>): Written
    decreases |metrics|
  {
    if metrics == [] then Written(files, None)
    else
      var w := WriteBoth(unwritable, files, lossPath, Line(render, metrics[0].0),
                         accPath, Line(render, metrics[0].1));
      if w.failed.Some? then w
      else RunWrites(unwritable, w.files, lossPath, accPath, render, metrics[1..])
  }

  /** `n` successive calls of one phase's step, with the given (loss, accuracy) values. */
  function RunSteps<S>(optim: string, v: Variant, p: Phase, render: S -> string,
                       unwritable: set<string>, files: Files, metrics: seq<(S, S)>): Written
  {
    RunWrites(unwritable, files, LogPath(optim, p, Loss, v), LogPath(optim, p, Acc, v), render, metrics)
  }

  // ---------------------------------------------------------------------------
  // Lemmas about one step and about runs of steps

  /** A step raises exactly when one of its two logs is unwritable, and then names an unwritable
      one of them; whatever happens, no file other than the two logs changes. */
  lemma StepWritesOutcome(optim: string, v: Variant, p: Phase, unwritable: set<string>,
                          files: Files, lossLine: string, accLine: string)
    ensures var r := StepWrites(optim, v, p, unwritable, files, lossLine, accLine);
            && (r.failed == None <==> LogPath(optim, p, Loss, v) !in unwritable && LogPath(optim, p, Acc, v) !in unwritable)
            && (r.failed.Some? ==> r.failed.value in unwritable
                                   && r.failed.value in {LogPath(optim, p, Loss, v), LogPath(optim, p, Acc, v)})
            && forall q :: q != LogPath(optim, p, Loss, v) && q != LogPath(optim, p, Acc, v) ==>
                 Contents(r.files, q) == Contents(files, q)
  {
    WriteBothOutcome(unwritable, files, LogPath(optim, p, Loss, v), lossLine, LogPath(optim, p, Acc, v), accLine);
  }

  /** A step whose writes succeed appends exactly its loss line to the loss log and its accuracy
      line to the accuracy log, and leaves every other file as it was. */
  lemma StepAppendsOneLineEach(optim: string, v: Variant, p: Phase, unwritable: set<string>,
                               files: Files, lossLine: string, accLine: string)
    requires LogPath(optim, p, Loss, v) !in unwritable && LogPath(optim, p, Acc, v) !in unwritable
    ensures var w := StepWrites(optim, v, p, unwritable, files, lossLine, accLine);
            && w.failed == None
            && Contents(w.files, LogPath(optim, p, Loss, v)) == Contents(files, LogPath(optim, p, Loss, v)) + [lossLine]
            && Contents(w.files, LogPath(optim, p, Acc, v)) == Contents(files, LogPath(optim, p, Acc, v)) + [accLine]
            && forall q :: q != LogPath(optim, p, Loss, v) && q != LogPath(optim, p, Acc, v) ==>
                 Contents(w.files, q) == Contents(files, q)
  {
    LogPathsDistinct(optim, v, p, Loss, p, Acc);
  }

  /** When the loss write fails, nothing is written: in particular the accuracy log is untouched. */
  lemma LossWriteFailureWritesNothing(optim: string, v: Variant, p: Phase, unwritable: set<string>,
                                      files: Files, lossLine: string, accLine: string)
    requires LogPath(optim, p, Loss, v) in unwritable
    ensures StepWrites(optim, v, p, unwritable, files, lossLine, accLine)
            == Written(files, Some(LogPath(optim, p, Loss, v)))
  {
  }

  /** When only the accuracy write fails, the loss line is already in place and the accuracy
      log is unchanged. */
  lemma AccWriteFailureKeepsLossLine(optim: string, v: Variant, p: Phase, unwritable: set<string>,
                                     files: Files, lossLine: string, accLine: string)
    requires LogPath(optim, p, Loss, v) !in unwritable && LogPath(optim, p, Acc, v) in unwritable
    ensures var w := StepWrites(optim, v, p, unwritable, files, lossLine, accLine);
            && w.failed == Some(LogPath(optim, p, Acc, v))
            && Contents(w.files, LogPath(optim, p, Loss, v)) == Contents(files, LogPath(optim, p, Loss, v)) + [lossLine]
            && Contents(w.files, LogPath(optim, p, Acc, v)) == Contents(files, LogPath(optim, p, Acc, v))
  {
    LogPathsDistinct(optim, v, p, Loss, p, Acc);
  }

  /** Whatever fails, a step only appends: every old file is a prefix of the new one,
      longer by at most one line. */
  lemma StepIsAppendOnly(optim: string, v: Variant, p: Phase, unwritable: set<string>,
                         files: Files, lossLine: string, accLine: string)
    ensures var w := StepWrites(optim, v, p, unwritable, files, lossLine, accLine);
            && AppendOnly(files, w.files)
            && forall q :: |Contents(w.files, q)| <= |Contents(files, q)| + 1
  {
    LogPathsDistinct(optim, v, p, Loss, p, Acc);
    WriteBothIsAppendOnly(unwritable, files, LogPath(optim, p, Loss, v), lossLine, LogPath(optim, p, Acc, v), accLine);
  }

  /** The values of metric `m` in a run, rendered as the step writes them. */
  function MetricLines<S>(render: S -> string, metrics: seq<(S, S)>, m: Metric): (r: seq<string>)
    ensures |r| == |metrics|
    decreases |metrics|
  {
    if metrics == [] then []
    else [Line(render, if m == Loss then metrics[0].0 else metrics[0].1)] + MetricLines(render, metrics[1..], m)
  }

  lemma AppendAssoc<T>(a: seq<T>, b: seq<T>, c: seq<T>)
    ensures a + b + c == a + (b + c)
  {
  }

  /** Both writes of a step succeed on two distinct writable paths, each adding its one line. */
  lemma WriteBothSucceeds(unwritable: set<string>, files: Files,
                          lossPath: string, lossLine: string, accPath: string, accLine: string)
    requires lossPath != accPath && lossPath !in unwritable && accPath !in unwritable
    ensures var w := WriteBoth(unwritable, files, lossPath, lossLine, accPath, accLine);
            && w.failed == None
            && Contents(w.files, lossPath) == Contents(files, lossPath) + [lossLine]
            && Contents(w.files, accPath) == Contents(files, accPath) + [accLine]
  {
  }

  /** The two writes of a step only append, and to two distinct paths at most one line each. */
  lemma WriteBothIsAppendOnly(unwritable: set<string>, files: Files,
                              lossPath: string, lossLine: string, accPath: string, accLine: string)
    requires lossPath != accPath
    ensures var w := WriteBoth(unwritable, files, lossPath, lossLine, accPath, accLine);
            && AppendOnly(files, w.files)
            && forall q :: |Contents(w.files, q)| <= |Contents(files, q)| + 1
  {
    var w := WriteBoth(unwritable, files, lossPath, lossLine, accPath, accLine);
    forall q ensures Contents(files, q) <= Contents(w.files, q) && |Contents(w.files, q)| <= |Contents(files, q)| + 1 {
    }
  }

  /** Successful writes to two distinct paths append the values of each metric to its file,
      in call order. */
  lemma {:induction false} RunWritesAppendsInOrder<S>(unwritable: set<string>, files: Files,
                                                      lossPath: string, accPath: string,
                                                      render: S -> string, metrics: seq<(S, S)>, m: Metric)
    requires lossPath != accPath && lossPath !in unwritable && accPath !in unwritable
    ensures var path := if m == Loss then lossPath else accPath;
            var w := RunWrites(unwritable, files, lossPath, accPath, render, metrics);
            w.failed == None && Contents(w.files, path) == Contents(files, path) + MetricLines(render, metrics, m)
    decreases |metrics|
  {
    if metrics != [] {
      var path := if m == Loss then lossPath else accPath;
      var lossLine, accLine := Line(render, metrics[0].0), Line(render, metrics[0].1);
      var line := if m == Loss then lossLine else accLine;
      var w1 := WriteBoth(unwritable, files, lossPath, lossLine, accPath, accLine);
      assert w1.failed == None && Contents(w1.files, path) == Contents(files, path) + [line] by {
        WriteBothSucceeds(unwritable, files, lossPath, lossLine, accPath, accLine);
      }
      var rest := metrics[1..];
      var w := RunWrites(unwritable, w1.files, lossPath, accPath, render, rest);
      assert RunWrites(unwritable, files, lossPath, accPath, render, metrics) == w;
      RunWritesAppendsInOrder(unwritable, w1.files, lossPath, accPath, render, rest, m);
      assert MetricLines(render, metrics, m) == [line] + MetricLines(render, rest, m);
      AppendAssoc(Contents(files, path), [line], MetricLines(render, rest, m));
    }
  }

  /** `n` successful steps of one phase append exactly `n` lines to each of that phase's two logs,
      the values in call order. */
  lemma RunStepsAppendsInOrder<S>(optim: string, v: Variant, p: Phase, render: S -> string,
                                  unwritable: set<string>, files: Files, metrics: seq<(S, S)>)
    requires LogPath(optim, p, Loss, v) !in unwritable && LogPath(optim, p, Acc, v) !in unwritable
    ensures var w := RunSteps(optim, v, p, render, unwritable, files, metrics);
            && w.failed == None
            && Contents(w.files, LogPath(optim, p, Loss, v)) == Contents(files, LogPath(optim, p, Loss, v)) + MetricLines(render, metrics, Loss)
            && Contents(w.files, LogPath(optim, p, Acc, v)) == Contents(files, LogPath(optim, p, Acc, v)) + MetricLines(render, metrics, Acc)
            && |Contents(w.files, LogPath(optim, p, Loss, v))| == |Contents(files, LogPath(optim, p, Loss, v))| + |metrics|
            && |Contents(w.files, LogPath(optim, p, Acc, v))| == |Contents(files, LogPath(optim, p, Acc, v))| + |metrics|
  {
    var lossPath, accPath := LogPath(optim, p, Loss, v), LogPath(optim, p, Acc, v);
    LogPathsDistinct(optim, v, p, Loss, p, Acc);
    RunWritesAppendsInOrder(unwritable, files, lossPath, accPath, render, metrics, Loss);
    RunWritesAppendsInOrder(unwritable, files, lossPath, accPath, render, metrics, Acc);
  }

  /** Writes to two paths change no third file. */
  lemma {:induction false} RunWritesLeavesOtherFiles<S>(unwritable: set<string>, files: Files,
                                                        lossPath: string, accPath: string,
                                                        render: S -> string, metrics: seq<(S, S)>, q: string)
    requires q != lossPath && q != accPath
    ensures Contents(RunWrites(unwritable, files, lossPath, accPath, render, metrics).files, q) == Contents(files, q)
    decreases |metrics|
  {
    if metrics != [] {
      var w1 := WriteBoth(unwritable, files, lossPath, Line(render, metrics[0].0), accPath, Line(render, metrics[0].1));
      if w1.failed.None? {
        RunWritesLeavesOtherFiles(unwritable, w1.files, lossPath, accPath, render, metrics[1..], q);
      }
    }
  }

  /** A run of steps, failing or not, changes no file other than the two logs of its phase. */
  lemma RunStepsLeavesOtherFiles<S>(optim: string, v: Variant, p: Phase, render: S -> string,
                                    unwritable: set<string>, files: Files, metrics: seq<(S, S)>, q: string)
    requires q != LogPath(optim, p, Loss, v) && q != LogPath(optim, p, Acc, v)
    ensures Contents(RunSteps(optim, v, p, render, unwritable, files, metrics).files, q) == Contents(files, q)
  {
    RunWritesLeavesOtherFiles(unwritable, files, LogPath(optim, p, Loss, v), LogPath(optim, p, Acc, v), render, metrics, q);
  }

  /** A run of writes, failing or not, never removes or rewrites a line of any file. */
  lemma {:induction false} RunWritesIsAppendOnly<S>(unwritable: set<string>, files: Files,
                                                    lossPath: string, accPath: string,
                                                    render: S -> string, metrics: seq<(S, S)>)
    ensures AppendOnly(files, RunWrites(unwritable, files, lossPath, accPath, render, metrics).files)
    decreases |metrics|
  {
    if metrics != [] {
      var w1 := WriteBoth(unwritable, files, lossPath, Line(render, metrics[0].0), accPath, Line(render, metrics[0].1));
      assert AppendOnly(files, w1.files) by {
        forall q ensures Contents(files, q) <= Contents(w1.files, q) {
        }
      }
      if w1.failed.None? {
        RunWritesIsAppendOnly(unwritable, w1.files, lossPath, accPath, render, metrics[1..]);
        var w := RunWrites(unwritable, w1.files, lossPath, accPath, render, metrics[1..]);
        forall q ensures Contents(files, q) <= Contents(w.files, q) {
          assert Contents(files, q) <= Contents(w1.files, q);
          assert Contents(w1.files, q) <= Contents(w.files, q);
        }
      }
    }
  }

  /** A run of steps, failing or not, never removes or rewrites a line of any file. */
  lemma RunStepsIsAppendOnly<S>(optim: string, v: Variant, p: Phase, render: S -> string,
                                unwritable: set<string>, files: Files, metrics: seq<(S, S)>)
    ensures AppendOnly(files, RunSteps(optim, v, p, render, unwritable, files, metrics).files)
  {
    RunWritesIsAppendOnly(unwritable, files, LogPath(optim, p, Loss, v), LogPath(optim, p, Acc, v), render, metrics);
  }

  /** One more step after a run: if the run raised, nothing more happens; otherwise the next
      step's two writes act on the files the run left. */
  lemma {:induction false} RunWritesSnoc<S>(unwritable: set<string>, files: Files,
                                            lossPath: string, accPath: string,
                                            render: S -> string, metrics: seq<(S, S)>, x: (S, S))
    ensures var w := RunWrites(unwritable, files, lossPath, accPath, render, metrics);
            RunWrites(unwritable, files, lossPath, accPath, render, metrics + [x])
            == if w.failed.Some? then w
               else WriteBoth(unwritable, w.files, lossPath, Line(render, x.0), accPath, Line(render, x.1))
    decreases |metrics|
  {
    if metrics == [] {
      assert metrics + [x] == [x];
    } else {
      assert (metrics + [x])[0] == metrics[0];
      assert (metrics + [x])[1..] == metrics[1..] + [x];
      var w1 := WriteBoth(unwritable, files, lossPath, Line(render, metrics[0].0), accPath, Line(render, metrics[0].1));
      if w1.failed.None? {
        RunWritesSnoc(unwritable, w1.files, lossPath, accPath, render, metrics[1..], x);
      }
    }
  }

  /** Calling a phase's step once more extends the run by one `StepWrites`, unless the run
      already raised, in which case the later call never happens. */
  lemma RunStepsSnoc<S>(optim: string, v: Variant, p: Phase, render: S -> string,
                        unwritable: set<string>, files: Files, metrics: seq<(S, S)>, x: (S, S))
    ensures var w := RunSteps(optim, v, p, render, unwritable, files, metrics);
            RunSteps(optim, v, p, render, unwritable, files, metrics + [x])
            == if w.failed.Some? then w
               else StepWrites(optim, v, p, unwritable, w.files, Line(render, x.0), Line(render, x.1))
  {
    RunWritesSnoc(unwritable, files, LogPath(optim, p, Loss, v), LogPath(optim, p, Acc, v), render, metrics, x);
  }

  // ---------------------------------------------------------------------------
  // The state that the steps change in place

  /** The `manual_logs/` files. Opening or writing a path in `unwritable` fails (a missing
      directory, a permission error); such a failure leaves the file as it was. */
  class LogStore {
    var files: Files
    const unwritable: set<string>

    constructor (files: Files, unwritable: set<string>)
      ensures this.files == files && this.unwritable == unwritable
    {
      this.files := files;
      this.unwritable := unwritable;
    }

    /** `with open(path, 'a') as f: f.write(line)`; `ok` is false when it raises. */
    method Append(path: string, line: string) returns (ok: bool)
      modifies this
      ensures ok <==> path !in unwritable
      ensures files == if ok then Appended(old(files), path, line) else old(files)
    {
      ok := path !in unwritable;
      if ok {
        files := files[path := Contents(files, path) + [line]];
      }
    }
  }

  /** A predictor: `MNISTPredictor` for `Mnist`, `CIFAR10Predictor` for `Cifar10`. */
  class Predictor<S> {
    const optim: string
    const variant: Variant
    /** `str(round(x, 4))` of a metric value. */
    const render: S -> string
    /** Everything reported through `self.log`, in call order. */
    var logged: seq<Report<S>>

    constructor (variant: Variant, render: S -> string, optim: string := "Adam")
      ensures this.optim == optim && this.variant == variant && this.render == render
      ensures logged == []
    {
      this.optim := optim;
      this.variant := variant;
      this.render := render;
      logged := [];
    }

    /** The common body of the three step methods: report, write the loss line, write the
        accuracy line, return the loss. */
    method RunPhase(p: Phase, store: LogStore, loss: S, acc: S) returns (outcome: Outcome<S>)
      modifies this, store
      ensures logged == old(logged) + SinkReports(variant, p, loss, acc)
      ensures var w := StepWrites(optim, variant, p, store.unwritable, old(store.files),
                                  Line(render, loss), Line(render, acc));
              && store.files == w.files
              && outcome == (if w.failed.None? then Returned(loss) else Raised(w.failed.value))
    {
      if ReportsToSink(variant, p) {
        logged := logged + [Report(SinkKey(p, Loss), loss)];
        logged := logged + [Report(SinkKey(p, Acc), acc)];
      }
      var lossPath := LogPath(optim, p, Loss, variant);
      var accPath := LogPath(optim, p, Acc, variant);
      var lossLine, accLine := Line(render, loss), Line(render, acc);
      ghost var w := WriteBoth(store.unwritable, store.files, lossPath, lossLine, accPath, accLine);
      var ok := store.Append(lossPath, lossLine);
      if !ok {
        assert w == Written(store.files, Some(lossPath));
        return Raised(lossPath);
      }
      ok := store.Append(accPath, accLine);
      if !ok {
        assert w == Written(store.files, Some(accPath));
        return Raised(accPath);
      }
      assert w == Written(store.files, None);
      return Returned(loss);
    }

    method TrainingStep(store: LogStore, loss: S, acc: S) returns (outcome: Outcome<S>)
      modifies this, store
      ensures logged == old(logged) + SinkReports(variant, Train, loss, acc)
      ensures var w := StepWrites(optim, variant, Train, store.unwritable, old(store.files),
                                  Line(render, loss), Line(render, acc));
              && store.files == w.files
              && outcome == (if w.failed.None? then Returned(loss) else Raised(w.failed.value))
    {
      outcome := RunPhase(Train, store, loss, acc);
    }

    method ValidationStep(store: LogStore, loss: S, acc: S) returns (outcome: Outcome<S>)
      modifies this, store
      ensures logged == old(logged) + SinkReports(variant, Val, loss, acc)
      ensures var w := StepWrites(optim, variant, Val, store.unwritable, old(store.files),
                                  Line(render, loss), Line(render, acc));
              && store.files == w.files
              && outcome == (if w.failed.None? then Returned(loss) else Raised(w.failed.value))
    {
      outcome := RunPhase(Val, store, loss, acc);
    }

    method TestStep(store: LogStore, loss: S, acc: S) returns (outcome: Outcome<S>)
      modifies this, store
      ensures logged == old(logged) + SinkReports(variant, Test, loss, acc)
      ensures var w := StepWrites(optim, variant, Test, store.unwritable, old(store.files),
                                  Line(render, loss), Line(render, acc));
              && store.files == w.files
              && outcome == (if w.failed.None? then Returned(loss) else Raised(w.failed.value))
    {
      outcome := RunPhase(Test, store, loss, acc);
    }
  }
}
