/**
  Naming of the per-step metric logs and of the metrics-sink keys.

  Every step of either predictor writes to `manual_logs/<optim>_<phase>_<metric>_<dataset>.txt`,
  where `<optim>` is the lower-cased optimizer name. `ParseLogPath` recovers the lower-cased name,
  the phase, the metric and the dataset of a log path; from that follow the facts the rest of the
  model relies on: the paths of one predictor are pairwise distinct, and the optimizer name
  matters only through its lower-cased form.
 */
module LogPaths {

  datatype Option<T> = None | Some(value: T)

  /** The three phases the training driver calls. */
  datatype Phase = Train | Val | Test

  /** The two metrics each step records. */
  datatype Metric = Loss | Acc

  /** The two predictor classes: `MNISTPredictor` and `CIFAR10Predictor`. */
  datatype Variant = Mnist | Cifar10

  const LogDir: string := "manual_logs/"
  const LogExt: string := ".txt"

  function PhaseName(p: Phase): string {
    match p
    case Train => "train"
    case Val => "val"
    case Test => "test"
  }

  function MetricName(m: Metric): string {
    match m
    case Loss => "loss"
    case Acc => "acc"
  }

  function DatasetName(v: Variant): string {
    match v
    case Mnist => "mnist"
    case Cifar10 => "cifar10"
  }

  /** Each name component is written into a path behind an underscore. */
  function Tag(name: string): string {
    "_" + name
  }

  function LowerChar(c: char): (r: char)
    ensures !('A' <= r <= 'Z')
    ensures 'A' <= c <= 'Z' ==> r as int == c as int + 32
    ensures !('A' <= c <= 'Z') ==> r == c
  {
    if 'A' <= c <= 'Z' then (c as int + 32) as char else c
  }

  /** Python's `str.lower`, on the ASCII letters. */
  function Lower(s: string): (r: string)
    ensures |r| == |s|
    ensures forall i :: 0 <= i < |s| ==> !('A' <= r[i] <= 'Z')
    ensures forall i :: 0 <= i < |s| && 'A' <= s[i] <= 'Z' ==> r[i] as int == s[i] as int + 32
    ensures forall i :: 0 <= i < |s| && !('A' <= s[i] <= 'Z') ==> r[i] == s[i]
  {
    seq(|s|, i requires 0 <= i < |s| => LowerChar(s[i]))
  }

  /** The file a step of `variant` in phase `p` appends metric `m` to. */
  function LogPath(optim: string, p: Phase, m: Metric, v: Variant): string {
    LogDir + LogFileName(Lower(optim), p, m, v)
  }

  /** The name of that file inside `manual_logs/`, for the lower-cased optimizer name `name`. */
  function LogFileName(name: string, p: Phase, m: Metric, v: Variant): string {
    name + Tag(PhaseName(p)) + Tag(MetricName(m)) + Tag(DatasetName(v)) + LogExt
  }

  /** The key under which a step reports metric `m` of phase `p` to the metrics sink:
      the phase name, an underscore and the metric name, and nothing else. */
  function SinkKey(p: Phase, m: Metric): (r: string)
    ensures StartsWith(r, PhaseName(p)) && EndsWith(r, Tag(MetricName(m)))
    ensures |r| == |PhaseName(p)| + |Tag(MetricName(m))|
  {
    DropPrefixConcat(PhaseName(p), Tag(MetricName(m)));
    DropSuffixConcat(PhaseName(p), Tag(MetricName(m)));
    PhaseName(p) + Tag(MetricName(m))
  }

  // ---------------------------------------------------------------------------
  // Decoding a log path back into its components

  /** What a log path names: the lower-cased optimizer, the phase, the metric and the dataset. */
  datatype LogName = LogName(optim: string, phase: Phase, metric: Metric, variant: Variant)

  predicate StartsWith(s: string, pre: string) {
    |pre| <= |s| && s[..|pre|] == pre
  }

  predicate EndsWith(s: string, suf: string) {
    |suf| <= |s| && s[|s| - |suf|..] == suf
  }

  function DropPrefix(s: string, pre: string): (r: string)
    requires StartsWith(s, pre)
    ensures pre + r == s
  {
    s[|pre|..]
  }

  function DropSuffix(s: string, suf: string): (r: string)
    requires EndsWith(s, suf)
    ensures r + suf == s
  {
    s[..|s| - |suf|]
  }

  function ParseVariant(s: string): Option<(string, Variant)> {
    if EndsWith(s, Tag(DatasetName(Mnist))) then Some((DropSuffix(s, Tag(DatasetName(Mnist))), Mnist))
    else if EndsWith(s, Tag(DatasetName(Cifar10))) then Some((DropSuffix(s, Tag(DatasetName(Cifar10))), Cifar10))
    else None
  }

  function ParseMetric(s: string): Option<(string, Metric)> {
    if EndsWith(s, Tag(MetricName(Loss))) then Some((DropSuffix(s, Tag(MetricName(Loss))), Loss))
    else if EndsWith(s, Tag(MetricName(Acc))) then Some((DropSuffix(s, Tag(MetricName(Acc))), Acc))
    else None
  }

  function ParsePhase(s: string): Option<(string, Phase)> {
    if EndsWith(s, Tag(PhaseName(Train))) then Some((DropSuffix(s, Tag(PhaseName(Train))), Train))
    else if EndsWith(s, Tag(PhaseName(Val))) then Some((DropSuffix(s, Tag(PhaseName(Val))), Val))
    else if EndsWith(s, Tag(PhaseName(Test))) then Some((DropSuffix(s, Tag(PhaseName(Test))), Test))
    else None
  }

  /** Reads a path of the `manual_logs/` scheme backwards, from the extension to the optimizer name. */
  function ParseLogPath(path: string): Option<LogName> {
    if !StartsWith(path, LogDir) then None
    else
      var body := DropPrefix(path, LogDir);
      if !EndsWith(body, LogExt) then None
      else
        match ParseVariant(DropSuffix(body, LogExt))
        case None => None
        case Some((r1, v)) =>
          match ParseMetric(r1)
          case None => None
          case Some((r2, m)) =>
            match ParsePhase(r2)
            case None => None
            case Some((name, p)) => Some(LogName(name, p, m, v))
  }

  // ---------------------------------------------------------------------------
  // Lemmas

  lemma EndsWithConcat(x: string, y: string, z: string)
    ensures |z| <= |y| ==> (EndsWith(x + y, z) <==> EndsWith(y, z))
    ensures |y| <= |z| && EndsWith(x + y, z) ==> EndsWith(z, y)
  {
    var s := x + y;
    if |z| <= |y| {
      assert s[|s| - |z|..] == y[|y| - |z|..];
    }
    if |y| <= |z| <= |s| && EndsWith(s, z) {
      assert z[|z| - |y|..] == s[|s| - |y|..] == y;
    }
  }

  lemma DropSuffixConcat(x: string, y: string)
    ensures EndsWith(x + y, y) && DropSuffix(x + y, y) == x
  {
    assert (x + y)[|x|..] == y;
  }

  lemma ParseVariantTag(x: string, v: Variant)
    ensures ParseVariant(x + Tag(DatasetName(v))) == Some((x, v))
  {
    DropSuffixConcat(x, Tag(DatasetName(v)));
    if v == Cifar10 {
      EndsWithConcat(x, Tag(DatasetName(Cifar10)), Tag(DatasetName(Mnist)));
      assert Tag(DatasetName(Cifar10))[2..][0] != Tag(DatasetName(Mnist))[0];
    }
  }

  lemma ParseMetricTag(x: string, m: Metric)
    ensures ParseMetric(x + Tag(MetricName(m))) == Some((x, m))
  {
    DropSuffixConcat(x, Tag(MetricName(m)));
    if m == Acc {
      EndsWithConcat(x, Tag(MetricName(Acc)), Tag(MetricName(Loss)));
      assert Tag(MetricName(Loss))[1..][1] != Tag(MetricName(Acc))[1];
    }
  }

  lemma ParsePhaseTag(x: string, p: Phase)
    ensures ParsePhase(x + Tag(PhaseName(p))) == Some((x, p))
  {
    DropSuffixConcat(x, Tag(PhaseName(p)));
    match p
    case Train =>
    case Val =>
      EndsWithConcat(x, Tag(PhaseName(Val)), Tag(PhaseName(Train)));
      assert Tag(PhaseName(Train))[2..][1] != Tag(PhaseName(Val))[1];
    case Test =>
      EndsWithConcat(x, Tag(PhaseName(Test)), Tag(PhaseName(Train)));
      assert Tag(PhaseName(Train))[1..][1] != Tag(PhaseName(Test))[1];
      EndsWithConcat(x, Tag(PhaseName(Test)), Tag(PhaseName(Val)));
      assert Tag(PhaseName(Test))[1..][1] != Tag(PhaseName(Val))[1];
  }

  lemma ConcatAssoc(x: string, y: string, z: string)
    ensures x + y + z == x + (y + z)
  {
  }

  lemma DropPrefixConcat(x: string, y: string)
    ensures StartsWith(x + y, x) && DropPrefix(x + y, x) == y
  {
    assert (x + y)[..|x|] == x;
  }

  /** `ParseLogPath` recovers the lower-cased optimizer name, the phase, the metric and the
      dataset of a log path. */
  lemma ParseLogPathInverse(optim: string, p: Phase, m: Metric, v: Variant)
    ensures ParseLogPath(LogPath(optim, p, m, v)) == Some(LogName(Lower(optim), p, m, v))
  {
    var name := Lower(optim);
    var r2 := name + Tag(PhaseName(p));
    var r1 := r2 + Tag(MetricName(m));
    var r0 := r1 + Tag(DatasetName(v));
    DropPrefixConcat(LogDir, LogFileName(name, p, m, v));
    DropSuffixConcat(r0, LogExt);
    ParseVariantTag(r1, v);
    ParseMetricTag(r2, m);
    ParsePhaseTag(name, p);
  }

  /** Two log paths coincide exactly when they agree on the lower-cased optimizer name,
      the phase, the metric and the dataset. */
  lemma LogPathInjective(a: string, p: Phase, m: Metric, v: Variant,
                         b: string, p': Phase, m': Metric, v': Variant)
    ensures LogPath(a, p, m, v) == LogPath(b, p', m', v') <==>
              Lower(a) == Lower(b) && p == p' && m == m' && v == v'
  {
    ParseLogPathInverse(a, p, m, v);
    ParseLogPathInverse(b, p', m', v');
  }

  /** Of one optimizer and dataset, the loss and the accuracy log of a phase are different files,
      and so are the logs of two different phases. */
  lemma LogPathsDistinct(optim: string, v: Variant, p: Phase, m: Metric, p': Phase, m': Metric)
    requires (p, m) != (p', m')
    ensures LogPath(optim, p, m, v) != LogPath(optim, p', m', v)
  {
    LogPathInjective(optim, p, m, v, optim, p', m', v);
  }

  lemma DatasetSuffix(name: string, p: Phase, m: Metric, v: Variant)
    ensures EndsWith(LogDir + LogFileName(name, p, m, v), Tag(DatasetName(v)) + LogExt)
  {
    var file := LogFileName(name, p, m, v);
    var head := name + Tag(PhaseName(p)) + Tag(MetricName(m));
    var tail := Tag(DatasetName(v)) + LogExt;
    ConcatAssoc(head, Tag(DatasetName(v)), LogExt);
    DropSuffixConcat(head, tail);
    EndsWithConcat(LogDir, file, tail);
  }

  lemma DatasetSuffixText(v: Variant)
    ensures Tag(DatasetName(v)) + LogExt == if v == Mnist then "_mnist.txt" else "_cifar10.txt"
  {
  }

  /** Every log path lies in `manual_logs/` and ends in the dataset's `_mnist.txt` or `_cifar10.txt`. */
  lemma LogPathShape(optim: string, p: Phase, m: Metric, v: Variant)
    ensures StartsWith(LogPath(optim, p, m, v), "manual_logs/")
    ensures v == Mnist ==> EndsWith(LogPath(optim, p, m, v), "_mnist.txt")
    ensures v == Cifar10 ==> EndsWith(LogPath(optim, p, m, v), "_cifar10.txt")
  {
    DropPrefixConcat(LogDir, LogFileName(Lower(optim), p, m, v));
    DatasetSuffix(Lower(optim), p, m, v);
    DatasetSuffixText(v);
  }

  /** Two optimizer names that differ only in the case of their letters. */
  ghost predicate SameIgnoringCase(a: string, b: string) {
    |a| == |b| && forall i :: 0 <= i < |a| ==> LowerChar(a[i]) == LowerChar(b[i])
  }

  /** Lower-casing identifies exactly the names that differ only in letter case. */
  lemma LowerSameIgnoringCase(a: string, b: string)
    ensures Lower(a) == Lower(b) <==> SameIgnoringCase(a, b)
  {
    if SameIgnoringCase(a, b) {
      assert Lower(a) == Lower(b);
    }
    if Lower(a) == Lower(b) {
      assert forall i :: 0 <= i < |a| ==> LowerChar(a[i]) == Lower(a)[i];
    }
  }

  /** The optimizer name reaches the log path only through its lower-cased form:
      two names give the same paths exactly when they differ only in letter case. */
  lemma LogPathCaseInsensitive(a: string, b: string, p: Phase, m: Metric, v: Variant)
    ensures LogPath(a, p, m, v) == LogPath(b, p, m, v) <==> SameIgnoringCase(a, b)
  {
    LogPathInjective(a, p, m, v, b, p, m, v);
    LowerSameIgnoringCase(a, b);
  }

  /** The sink keys of the two metrics of a phase differ, and no key is shared between phases. */
  lemma SinkKeyInjective(p: Phase, m: Metric, p': Phase, m': Metric)
    ensures SinkKey(p, m) == SinkKey(p', m') <==> p == p' && m == m'
  {
    if SinkKey(p, m) == SinkKey(p', m') {
      var k := SinkKey(p, m);
      assert k[0] == SinkKey(p', m')[0];
      assert |k| == |SinkKey(p', m')|;
      assert k[|k| - 1] == SinkKey(p', m')[|k| - 1];
    }
  }
}
