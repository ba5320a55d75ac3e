/**
  Learning-rate lookup and optimizer selection.

  `get_lr` reads `hyperparams.txt`, parses it as a literal `{"lr": {name: rate, ...}}` and indexes
  it twice; `configure_optimizers` (identical in both predictor classes) builds AdaBelief for the
  exact name `"Adabelief"` and otherwise the `torch.optim` class of that name, both with the rate
  looked up for the name. The file system is a map from file name to what parsing the file gives;
  the optimizer is a tag with its rate.
 */
module OptimizerConfig {

  /** A learning rate; only ever copied, never computed with. */
  type Rate = real

  /** The parsed configuration: outer key to (optimizer name to rate). */
  type Config = map<string, map<string, Rate>>

  /** What reading and parsing one configuration file yields. */
  datatype ConfigFile =
    | Literal(config: Config)  // the file holds a mapping literal
    | Unreadable               // the file cannot be read or is not a mapping literal

  /** Configuration files by name; a name outside the map is a missing file. */
  type Disk = map<string, ConfigFile>

  const HyperparamsFile: string := "hyperparams.txt"
  const RateKey: string := "lr"
  const AdaBeliefName: string := "Adabelief"

  datatype Error =
    | ConfigError(file: string)   // open or literal parsing failed
    | KeyError(key: string)       // a dictionary index failed
    | AttributeError(name: string) // `torch.optim` has no class of that name

  datatype Result<T> = Ok(value: T) | Err(error: Error)

  /** The optimizer that was built, with the learning rate it was built with. */
  datatype Optimizer =
    | AdaBelief(lr: Rate)
    | Generic(className: string, lr: Rate)

  predicate Readable(disk: Disk, filename: string) {
    filename in disk && disk[filename].Literal?
  }

  /** The rate `config["lr"][optim]`, or the step of the lookup that fails. */
  function GetLr(disk: Disk, filename: string, optim: string): (r: Result<Rate>)
    ensures r.Ok? <==> Readable(disk, filename) && RateKey in disk[filename].config
                       && optim in disk[filename].config[RateKey]
    ensures r.Ok? ==> r.value == disk[filename].config[RateKey][optim]
    ensures !Readable(disk, filename) ==> r == Err(ConfigError(filename))
    ensures Readable(disk, filename) && RateKey !in disk[filename].config ==> r == Err(KeyError(RateKey))
    ensures (Readable(disk, filename) && RateKey in disk[filename].config
             && optim !in disk[filename].config[RateKey]) ==> r == Err(KeyError(optim))
  {
    if filename !in disk then Err(ConfigError(filename))
    else match disk[filename]
    case Unreadable => Err(ConfigError(filename))
    case Literal(config) =>
      if RateKey !in config then Err(KeyError(RateKey))
      else if optim !in config[RateKey] then Err(KeyError(optim))
      else Ok(config[RateKey][optim])
  }

  /** `configure_optimizers` of a predictor built with optimizer name `optim`; `known` is the set of
      class names in `torch.optim`. The class is resolved before the rate is looked up. */
  function ConfigureOptimizers(optim: string, disk: Disk, known: set<string>): (r: Result<Optimizer>)
    ensures r.Ok? ==> (r.value.AdaBelief? <==> optim == AdaBeliefName)
    ensures r.Ok? && r.value.Generic? ==> r.value.className == optim && optim in known
    ensures r.Ok? ==> GetLr(disk, HyperparamsFile, optim) == Ok(r.value.lr)
    ensures optim != AdaBeliefName && optim !in known ==> r == Err(AttributeError(optim))
    ensures (optim == AdaBeliefName || optim in known) && GetLr(disk, HyperparamsFile, optim).Err? ==>
              r == Err(GetLr(disk, HyperparamsFile, optim).error)
    ensures (optim == AdaBeliefName || optim in known) && GetLr(disk, HyperparamsFile, optim).Ok? ==> r.Ok?
  {
    if optim == AdaBeliefName then
      match GetLr(disk, HyperparamsFile, optim)
      case Err(e) => Err(e)
      case Ok(lr) => Ok(AdaBelief(lr))
    else if optim !in known then
      Err(AttributeError(optim))
    else
      match GetLr(disk, HyperparamsFile, optim)
      case Err(e) => Err(e)
      case Ok(lr) => Ok(Generic(optim, lr))
  }

  /** A configuration whose `"lr"` table sets `optim` to `rate`, everything else as in `config`. */
  function WithRate(config: Config, optim: string, rate: Rate): (c: Config)
    ensures RateKey in c && optim in c[RateKey] && c[RateKey][optim] == rate
  {
    var table := if RateKey in config then config[RateKey] else map[];
    config[RateKey := table[optim := rate]]
  }

  /** The configured rate is the rate the optimizer is built with, on either branch. */
  lemma ConfiguredRateRoundTrip(optim: string, disk: Disk, known: set<string>, config: Config, rate: Rate)
    requires optim == AdaBeliefName || optim in known
    ensures var r := ConfigureOptimizers(optim, disk[HyperparamsFile := Literal(WithRate(config, optim, rate))], known);
            r.Ok? && r.value.lr == rate
            && r.value == (if optim == AdaBeliefName then AdaBelief(rate) else Generic(optim, rate))
  {
  }

  /** A name absent from a readable configuration fails with the key error for that name,
      and no optimizer is built. */
  lemma MissingRateFails(optim: string, disk: Disk, known: set<string>)
    requires optim == AdaBeliefName || optim in known
    requires Readable(disk, HyperparamsFile) && RateKey in disk[HyperparamsFile].config
    requires optim !in disk[HyperparamsFile].config[RateKey]
    ensures ConfigureOptimizers(optim, disk, known) == Err(KeyError(optim))
  {
  }

  /** An unknown class name fails the same way whatever the configuration holds, even when the
      configuration file is missing: the configuration is never read. */
  lemma UnknownClassIgnoresConfig(optim: string, disk: Disk, disk': Disk, known: set<string>)
    requires optim != AdaBeliefName && optim !in known
    ensures ConfigureOptimizers(optim, disk, known) == ConfigureOptimizers(optim, disk', known)
  {
  }

  /** The case-sensitive special case: a name that is `"Adabelief"` only up to letter case is
      treated as a generic class name. */
  lemma AdaBeliefCaseSensitive(disk: Disk, known: set<string>)
    requires "AdaBelief" !in known
    ensures ConfigureOptimizers("AdaBelief", disk, known) == Err(AttributeError("AdaBelief"))
  {
  }
}
