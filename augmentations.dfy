/**
 * The configurable, percentage-gated augmentations: how each one is built from its section of
 * the configuration, the table of registered keys, the gate that decides whether an
 * augmentation is applied, the configuration each one reports back, and the processes whose
 * logic is integer and index arithmetic (the rest is floating point or OpenCV and is not here).
 */
module Augmentations {
  import opened Common
  import ImageOps

  /** A configuration literal: an integer, a list, or another literal (a float, a string),
      which is carried through unchanged. */
  datatype Value = Int(i: int) | List(items: seq<Value>) | Other(text: string)

  /** One augmentation's section of the configuration: parameter name to value. */
  type Params = map<string, Value>

  /** The whole configuration: augmentation name to its section. */
  type Config = map<string, Params>

  /** What building an augmentation can raise. */
  datatype ConfigError =
    | UnknownAugmentation(key: string)  // the key is not registered
    | KeyError(key: string)             // a section or a parameter is missing
    | NotAnInteger(key: string)         // the percentage of a gated augmentation is not an integer

  /** The augmentation classes, each with the parameters its constructor stores. */
  datatype Kind =
    | HorizontalFlip
    | VerticalFlip
    | GaussNoise(mean: Value, variance: Value, interval: Value)
    | SNPNoise(sVsP: Value, amount: Value)
    | Blur(ksize: Value)
    | Resize(size: Value)
    | CentralCrop(size: Value)
    | RandomCrop(size: Value)
    | RandomRotate(interval: Value)
    | RandomBrightness(interval: Value)
    | RandomContrast(interval: Value)
    | Normalize
    | ToPyTorch

  /** A constructed augmentation: the name its class passed to the base constructor, its
      percentage, and its class with the stored parameters. */
  datatype Augmentation = Augmentation(name: string, percentage: int, kind: Kind)

  /** The name each class's constructor passes to the base constructor. */
  function KeyOf(k: Kind): string
  {
    match k
    case HorizontalFlip => "hflip"
    case VerticalFlip => "vflip"
    case GaussNoise(_, _, _) => "gauss_noise"
    case SNPNoise(_, _) => "snp_noise"
    case Blur(_) => "blur"
    case Resize(_) => "resize"
    case CentralCrop(_) => "ccrop"
    case RandomCrop(_) => "rcrop"
    case RandomRotate(_) => "rrotate"
    case RandomBrightness(_) => "rbrightness"
    case RandomContrast(_) => "rcontrast"
    case Normalize => "normalize"
    case ToPyTorch => "to_pytorch"
  }

  /** The classes that overwrite their percentage with 100 after the base constructor. */
  const FixedKeys: set<string> := {"resize", "normalize", "to_pytorch"}

  /** The parameter names each registered class reads from its section, besides "percentage". */
  function ParamKeys(key: string): set<string>
  {
    match key
    case "gauss_noise" => {"mean", "var", "interval"}
    case "snp_noise" => {"s_vs_p", "amount"}
    case "blur" => {"ksize"}
    case "resize" => {"size"}
    case "ccrop" => {"size"}
    case "rcrop" => {"size"}
    case "rrotate" => {"interval"}
    case "rbrightness" => {"interval"}
    case "rcontrast" => {"interval"}
    case _ => {}
  }

  /** What a well-built augmentation looks like: its name is its class's key, and a class
      with a fixed percentage has percentage 100. */
  predicate WellFormed(a: Augmentation)
  {
    a.name == KeyOf(a.kind) && (a.name in FixedKeys ==> a.percentage == 100)
  }

  // ---------------------------------------------------------------------------------------
  // Construction
  // ---------------------------------------------------------------------------------------

  /** config[name][key], raising KeyError for a missing section or parameter. */
  function Param(config: Config, name: string, key: string): (r: Result<Value, ConfigError>)
  {
    if name !in config then Err(KeyError(name))
    else if key !in config[name] then Err(KeyError(key))
    else Ok(config[name][key])
  }

  /** The base constructor's read of config[name]["percentage"], as an integer. */
  function Percentage(config: Config, name: string): (r: Result<int, ConfigError>)
  {
    var v :- Param(config, name, "percentage");
    if v.Int? then Ok(v.i) else Err(NotAnInteger("percentage"))
  }

  function NewHorizontalFlip(config: Config): Result<Augmentation, ConfigError>
  {
    var p :- Percentage(config, "hflip");
    Ok(Augmentation("hflip", p, HorizontalFlip))
  }

  function NewVerticalFlip(config: Config): Result<Augmentation, ConfigError>
  {
    var p :- Percentage(config, "vflip");
    Ok(Augmentation("vflip", p, VerticalFlip))
  }

  function NewGaussNoise(config: Config): Result<Augmentation, ConfigError>
  {
    var p :- Percentage(config, "gauss_noise");
    var mean :- Param(config, "gauss_noise", "mean");
    var variance :- Param(config, "gauss_noise", "var");
    var interval :- Param(config, "gauss_noise", "interval");
    Ok(Augmentation("gauss_noise", p, GaussNoise(mean, variance, interval)))
  }

  function NewSNPNoise(config: Config): Result<Augmentation, ConfigError>
  {
    var p :- Percentage(config, "snp_noise");
    var sVsP :- Param(config, "snp_noise", "s_vs_p");
    var amount :- Param(config, "snp_noise", "amount");
    Ok(Augmentation("snp_noise", p, SNPNoise(sVsP, amount)))
  }

  function NewBlur(config: Config): Result<Augmentation, ConfigError>
  {
    var p :- Percentage(config, "blur");
    var ksize :- Param(config, "blur", "ksize");
    Ok(Augmentation("blur", p, Blur(ksize)))
  }

  /** The base constructor reads the percentage, which is then overwritten with 100. */
  function NewResize(config: Config): Result<Augmentation, ConfigError>
  {
    var _ :- Param(config, "resize", "percentage");
    var size :- Param(config, "resize", "size");
    Ok(Augmentation("resize", 100, Resize(size)))
  }

  function NewCentralCrop(config: Config): Result<Augmentation, ConfigError>
  {
    var p :- Percentage(config, "ccrop");
    var size :- Param(config, "ccrop", "size");
    Ok(Augmentation("ccrop", p, CentralCrop(size)))
  }

  function NewRandomCrop(config: Config): Result<Augmentation, ConfigError>
  {
    var p :- Percentage(config, "rcrop");
    var size :- Param(config, "rcrop", "size");
    Ok(Augmentation("rcrop", p, RandomCrop(size)))
  }

  function NewRandomRotate(config: Config): Result<Augmentation, ConfigError>
  {
    var p :- Percentage(config, "rrotate");
    var interval :- Param(config, "rrotate", "interval");
    Ok(Augmentation("rrotate", p, RandomRotate(interval)))
  }

  function NewRandomBrightness(config: Config): Result<Augmentation, ConfigError>
  {
    var p :- Percentage(config, "rbrightness");
    var interval :- Param(config, "rbrightness", "interval");
    Ok(Augmentation("rbrightness", p, RandomBrightness(interval)))
  }

  function NewRandomContrast(config: Config): Result<Augmentation, ConfigError>
  {
    var p :- Percentage(config, "rcontrast");
    var interval :- Param(config, "rcontrast", "interval");
    Ok(Augmentation("rcontrast", p, RandomContrast(interval)))
  }

  function NewNormalize(config: Config): Result<Augmentation, ConfigError>
  {
    var _ :- Param(config, "normalize", "percentage");
    Ok(Augmentation("normalize", 100, Normalize))
  }

  function NewToPyTorch(config: Config): Result<Augmentation, ConfigError>
  {
    var _ :- Param(config, "to_pytorch", "percentage");
    Ok(Augmentation("to_pytorch", 100, ToPyTorch))
  }

  /** The table of registered keys and the class each one constructs. */
  const Registry: map<string, Config -> Result<Augmentation, ConfigError>> := map[
    "hflip" := NewHorizontalFlip,
    "vflip" := NewVerticalFlip,
    "gauss_noise" := NewGaussNoise,
    "snp_noise" := NewSNPNoise,
    "blur" := NewBlur,
    "resize" := NewResize,
    "ccrop" := NewCentralCrop,
    "rcrop" := NewRandomCrop,
    "rrotate" := NewRandomRotate,
    "to_pytorch" := NewToPyTorch,
    "normalize" := NewNormalize,
    "rbrightness" := NewRandomBrightness,
    "rcontrast" := NewRandomContrast
  ]

  /** Looks `key` up in the table and constructs that class from `config`. */
  function Instantiate(key: string, config: Config): Result<Augmentation, ConfigError>
  {
    if key in Registry then Registry[key](config) else Err(UnknownAugmentation(key))
  }

  // ---------------------------------------------------------------------------------------
  // Reporting the configuration back
  // ---------------------------------------------------------------------------------------

  /** Each class's own parameters, as its _get_config returns them. */
  function OwnConfig(k: Kind): (r: Params)
    ensures "percentage" !in r
    ensures r.Keys == ParamKeys(KeyOf(k))
  {
    match k
    case HorizontalFlip => map[]
    case VerticalFlip => map[]
    case GaussNoise(mean, variance, interval) => map["mean" := mean, "var" := variance, "interval" := interval]
    case SNPNoise(sVsP, amount) => map["s_vs_p" := sVsP, "amount" := amount]
    case Blur(ksize) => map["ksize" := ksize]
    case Resize(size) => map["size" := size]
    case CentralCrop(size) => map["size" := size]
    case RandomCrop(size) => map["size" := size]
    case RandomRotate(interval) => map["interval" := interval]
    case RandomBrightness(interval) => map["interval" := interval]
    case RandomContrast(interval) => map["interval" := interval]
    case Normalize => map[]
    case ToPyTorch => map[]
  }

  /** {name: {"percentage": p} updated with the class's own parameters}. */
  function GetConfig(a: Augmentation): Config
  {
    map[a.name := map["percentage" := Int(a.percentage)] + OwnConfig(a.kind)]
  }

  // ---------------------------------------------------------------------------------------
  // Lemmas: the table, construction and the configuration round trip
  // ---------------------------------------------------------------------------------------

  /** Every registered key constructs a well-formed augmentation whose name is that key. */
  lemma RegisteredNames(key: string, config: Config)
    requires key in Registry
    ensures Registry[key](config).Ok? ==>
      Registry[key](config).value.name == key && WellFormed(Registry[key](config).value)
  {
  }

  /** A registered key with no section in the configuration raises KeyError for that key;
      an unregistered key is rejected before any section is read. */
  lemma MissingSectionFails(key: string, config: Config)
    requires key !in config
    ensures Instantiate(key, config) ==
      if key in Registry then Err(KeyError(key)) else Err(UnknownAugmentation(key))
  {
  }

  /** Construction succeeds exactly when the section, its percentage and every parameter of
      the class are present, and (for a gated class) the percentage is an integer. */
  lemma ConstructionSucceeds(key: string, config: Config)
    requires key in Registry
    ensures Registry[key](config).Ok? <==>
      key in config && "percentage" in config[key] &&
      ParamKeys(key) <= config[key].Keys &&
      (key in FixedKeys || config[key]["percentage"].Int?)
  {
  }

  /**
   * What get_config reports of a constructed augmentation: one section, named by the key,
   * holding "percentage" and the class's parameters with the values read from the
   * configuration; the percentage is the configured one, or 100 for a fixed class.
   */
  lemma ConfigReflectsConstruction(key: string, config: Config, a: Augmentation)
    requires key in Registry && Registry[key](config) == Ok(a)
    ensures key in config && "percentage" in config[key] && ParamKeys(key) <= config[key].Keys
    ensures GetConfig(a).Keys == {key}
    ensures GetConfig(a)[key].Keys == {"percentage"} + ParamKeys(key)
    ensures forall q :: q in ParamKeys(key) ==> GetConfig(a)[key][q] == config[key][q]
    ensures GetConfig(a)[key]["percentage"] ==
      if key in FixedKeys then Int(100) else config[key]["percentage"]
  {
    ConstructionSucceeds(key, config);
    RegisteredNames(key, config);
    assert a.name == key;
    assert GetConfig(a)[key] == map["percentage" := Int(a.percentage)] + OwnConfig(a.kind);
    if key in FixedKeys {
      assert a.percentage == 100;
    } else {
      assert Percentage(config, key) == Ok(a.percentage);
    }
  }

  /** Building the same class from what get_config reports gives back the same augmentation. */
  lemma ConfigRoundTrip(a: Augmentation)
    requires WellFormed(a)
    ensures a.name in Registry && Registry[a.name](GetConfig(a)) == Ok(a)
  {
  }

  // ---------------------------------------------------------------------------------------
  // The gate
  // ---------------------------------------------------------------------------------------

  /** Whether a draw in [1, 100] lets the augmentation run. */
  predicate Applies(percentage: int, draw: int)
  {
    draw <= percentage
  }

  /**
   * __call__: applies `process` when the draw r = randint(1, 100) satisfies r <= percentage,
   * and otherwise returns `data` itself. An exception raised by `process` is its Err result.
   */
  function Call<T, E>(a: Augmentation, draw: int, process: T -> Result<T, E>, data: T): Result<T, E>
    requires 1 <= draw <= 100
  {
    if Applies(a.percentage, draw) then process(data) else Ok(data)
  }

  /** The gate processes exactly when the draw is at most the percentage. */
  lemma CallSpec<T, E>(a: Augmentation, draw: int, process: T -> Result<T, E>, data: T)
    requires 1 <= draw <= 100
    ensures draw <= a.percentage ==> Call(a, draw, process, data) == process(data)
    ensures a.percentage < draw ==> Call(a, draw, process, data) == Ok(data)
    ensures a.percentage >= 100 ==> Call(a, draw, process, data) == process(data)
    ensures a.percentage <= 0 ==> Call(a, draw, process, data) == Ok(data)
  {
  }

  /** Resize, Normalize and ToPyTorch are applied on every draw whatever their configuration. */
  lemma FixedAlwaysApplied<T, E>(key: string, config: Config, draw: int, process: T -> Result<T, E>, data: T)
    requires key in FixedKeys && key in Registry && Registry[key](config).Ok?
    requires 1 <= draw <= 100
    ensures Registry[key](config).value.percentage == 100
    ensures Call(Registry[key](config).value, draw, process, data) == process(data)
  {
  }

  /** The draws in [1, n] that let an augmentation with `percentage` run. */
  function ApplyingDraws(percentage: int, n: nat): set<int>
  {
    set r | 1 <= r <= n && Applies(percentage, r)
  }

  /**
   * Of the 100 equally likely draws, exactly min(max(percentage, 0), 100) apply the
   * augmentation: the application probability is percentage/100, clamped to [0, 1].
   */
  lemma {:induction false} ApplyingDrawsCount(percentage: int, n: nat)
    ensures |ApplyingDraws(percentage, n)| == Min(if percentage < 0 then 0 else percentage, n)
  {
    if n > 0 {
      ApplyingDrawsCount(percentage, n - 1);
      if Applies(percentage, n) {
        assert ApplyingDraws(percentage, n) == ApplyingDraws(percentage, n - 1) + {n};
      } else {
        assert ApplyingDraws(percentage, n) == ApplyingDraws(percentage, n - 1);
      }
    } else {
      assert ApplyingDraws(percentage, n) == {};
    }
  }

  // ---------------------------------------------------------------------------------------
  // Processes with integer semantics
  // ---------------------------------------------------------------------------------------

  function ProcessHorizontalFlip<P>(img: ImageOps.Image<P>): Result<ImageOps.Image<P>, ImageOps.ProcessError>
  {
    Ok(ImageOps.HorizontalFlip(img))
  }

  function ProcessVerticalFlip<P>(img: ImageOps.Image<P>): Result<ImageOps.Image<P>, ImageOps.ProcessError>
  {
    Ok(ImageOps.VerticalFlip(img))
  }

  /** The crops' parsing of `size` into (width, height): a two-element list gives its two
      elements, anything else gives (size, size). */
  function CropSize(size: Value): (Value, Value)
  {
    if size.List? && |size.items| == 2 then (size.items[0], size.items[1]) else (size, size)
  }

  /** CentralCrop.process; a width or height that is not an integer raises TypeError in the
      offset arithmetic or the slicing. */
  function ProcessCentralCrop<P>(size: Value, img: ImageOps.Image<P>): Result<ImageOps.Image<P>, ImageOps.ProcessError>
  {
    var (width, height) := CropSize(size);
    if width.Int? && height.Int? then Ok(ImageOps.CentralCrop(img, width.i, height.i))
    else Err(ImageOps.TypeError)
  }

  /** RandomCrop.process with the two offset draws supplied in randint's ranges. */
  function ProcessRandomCrop<P>(size: Value, drawX: int, drawY: int, img: ImageOps.Image<P>): Result<ImageOps.Image<P>, ImageOps.ProcessError>
    requires CropSize(size).0.Int? && img.width > CropSize(size).0.i ==> 0 <= drawX <= img.width - CropSize(size).0.i
    requires CropSize(size).1.Int? && img.Height() > CropSize(size).1.i ==> 0 <= drawY <= img.Height() - CropSize(size).1.i
  {
    var (width, height) := CropSize(size);
    if width.Int? && height.Int? then Ok(ImageOps.RandomCrop(img, width.i, height.i, drawX, drawY))
    else Err(ImageOps.TypeError)
  }

  /**
   * A scalar size s crops an s x s window; a list [width, height] crops a window `height`
   * rows by `width` columns; each at the offsets ImageOps proves, when the window fits.
   */
  lemma CentralCropProcessSpec<P>(size: Value, img: ImageOps.Image<P>)
    requires img.Wf()
    ensures size.Int? && 0 <= size.i <= Min(img.width, img.Height()) ==>
      ProcessCentralCrop(size, img).Ok? &&
      ProcessCentralCrop(size, img).value.width == size.i &&
      ProcessCentralCrop(size, img).value.Height() == size.i
    ensures (size.List? && |size.items| == 2 && size.items[0].Int? && size.items[1].Int? &&
             0 <= size.items[0].i <= img.width && 0 <= size.items[1].i <= img.Height()) ==>
      ProcessCentralCrop(size, img).Ok? &&
      ProcessCentralCrop(size, img).value.width == size.items[0].i &&
      ProcessCentralCrop(size, img).value.Height() == size.items[1].i
    ensures size.Other? ==> ProcessCentralCrop(size, img) == Err(ImageOps.TypeError)
    ensures size.List? && |size.items| != 2 ==> ProcessCentralCrop(size, img) == Err(ImageOps.TypeError)
  {
    if size.Int? && 0 <= size.i <= Min(img.width, img.Height()) {
      ImageOps.CentralCropFits(img, size.i, size.i);
    }
    if size.List? && |size.items| == 2 && size.items[0].Int? && size.items[1].Int? &&
      0 <= size.items[0].i <= img.width && 0 <= size.items[1].i <= img.Height() {
      ImageOps.CentralCropFits(img, size.items[0].i, size.items[1].i);
    }
  }

  /** A scalar size s >= 0 gives a window of min(s, h) rows by min(s, w) columns, a list
      [width, height] of non-negative integers one of min(height, h) by min(width, w). */
  lemma RandomCropProcessSpec<P>(size: Value, drawX: int, drawY: int, img: ImageOps.Image<P>)
    requires img.Wf()
    requires CropSize(size).0.Int? && img.width > CropSize(size).0.i ==> 0 <= drawX <= img.width - CropSize(size).0.i
    requires CropSize(size).1.Int? && img.Height() > CropSize(size).1.i ==> 0 <= drawY <= img.Height() - CropSize(size).1.i
    ensures size.Int? && size.i >= 0 ==>
      ProcessRandomCrop(size, drawX, drawY, img).Ok? &&
      ProcessRandomCrop(size, drawX, drawY, img).value.width == Min(size.i, img.width) &&
      ProcessRandomCrop(size, drawX, drawY, img).value.Height() == Min(size.i, img.Height())
    ensures (size.List? && |size.items| == 2 && size.items[0].Int? && size.items[1].Int? &&
             size.items[0].i >= 0 && size.items[1].i >= 0) ==>
      ProcessRandomCrop(size, drawX, drawY, img).Ok? &&
      ProcessRandomCrop(size, drawX, drawY, img).value.width == Min(size.items[0].i, img.width) &&
      ProcessRandomCrop(size, drawX, drawY, img).value.Height() == Min(size.items[1].i, img.Height())
  {
    var (width, height) := CropSize(size);
    if width.Int? && height.Int? && width.i >= 0 && height.i >= 0 {
      ImageOps.RandomCropWindow(img, width.i, height.i, drawX, drawY);
    }
  }

  /**
   * self.process for the classes whose process draws nothing: the flips and the central
   * crop with the size it stored. None for the classes whose process draws or is not modelled.
   */
  function DeterministicProcess<P>(k: Kind): Option<ImageOps.Image<P> -> Result<ImageOps.Image<P>, ImageOps.ProcessError>>
  {
    match k
    case HorizontalFlip => Some(ProcessHorizontalFlip)
    case VerticalFlip => Some(ProcessVerticalFlip)
    case CentralCrop(size) => Some(img => ProcessCentralCrop(size, img))
    case _ => None
  }

  /**
   * Calling an augmentation built under "hflip", "vflip" or "ccrop": when the draw lets it
   * run, the image is flipped horizontally, flipped vertically, or centre-cropped to the
   * configured size; otherwise it comes back unchanged.
   */
  lemma CallDispatches<P>(key: string, config: Config, draw: int, img: ImageOps.Image<P>)
    requires key in {"hflip", "vflip", "ccrop"} && Instantiate(key, config).Ok?
    requires 1 <= draw <= 100
    ensures var a := Instantiate(key, config).value;
      DeterministicProcess<P>(a.kind).Some? &&
      Call(a, draw, DeterministicProcess<P>(a.kind).value, img) ==
        if a.percentage < draw then Ok(img)
        else if key == "hflip" then Ok(ImageOps.HorizontalFlip(img))
        else if key == "vflip" then Ok(ImageOps.VerticalFlip(img))
        else ProcessCentralCrop(config["ccrop"]["size"], img)
  {
  }

  /** The (width, height) Resize.process hands to the resize: a two-element list is taken as
      it is; a scalar goes through resize_by_min_edge. */
  function ResizeTarget(size: Value, h: nat, w: nat): Result<(int, int), ImageOps.ProcessError>
  {
    if size.List? && |size.items| == 2 then
      if size.items[0].Int? && size.items[1].Int? then Ok((size.items[0].i, size.items[1].i))
      else Err(ImageOps.TypeError)
    else if size.Int? then ImageOps.MinEdgeTarget(h, w, size.i)
    else Err(ImageOps.TypeError)
  }

  /** A list [width, height] gives exactly those dimensions; a scalar s makes the shorter
      edge s and scales the longer one by floor division. */
  lemma ResizeTargetSpec(size: Value, h: nat, w: nat)
    ensures size.List? && |size.items| == 2 && size.items[0].Int? && size.items[1].Int? ==>
      ResizeTarget(size, h, w) == Ok((size.items[0].i, size.items[1].i))
    ensures size.Int? ==> (ResizeTarget(size, h, w).Ok? <==> h > 0 && w > 0)
    ensures size.Int? && h > 0 && w > 0 ==>
      var (tw, th) := ResizeTarget(size, h, w).value;
      if h <= w then th == size.i && tw * h <= size.i * w < (tw + 1) * h
      else tw == size.i && th * w <= size.i * h < (th + 1) * w
  {
    if size.Int? {
      ImageOps.MinEdgeTargetSpec(h, w, size.i);
    }
  }

  /** randint(interval[0], interval[1])'s bounds: the interval must be a list of at least two
      integers with the first not above the second. */
  function IntervalBounds(interval: Value): Result<(int, int), ImageOps.ProcessError>
  {
    if !interval.List? then Err(ImageOps.TypeError)
    else if |interval.items| < 2 then Err(ImageOps.IndexError)
    else if !interval.items[0].Int? || !interval.items[1].Int? then Err(ImageOps.TypeError)
    else if interval.items[0].i > interval.items[1].i then Err(ImageOps.ValueError)
    else Ok((interval.items[0].i, interval.items[1].i))
  }

  /** RandomBrightness.process with the brightness draw supplied in the interval. */
  function ProcessRandomBrightness(interval: Value, draw: int, img: ImageOps.Image<seq<ImageOps.Channel>>)
    : (r: Result<ImageOps.Image<seq<int>>, ImageOps.ProcessError>)
    requires IntervalBounds(interval).Ok? ==>
      IntervalBounds(interval).value.0 <= draw <= IntervalBounds(interval).value.1
    ensures r.Ok? <==> IntervalBounds(interval).Ok?
    ensures r.Ok? ==> r.value == ImageOps.BrightenImage(img, draw)
    ensures r.Ok? ==> r.value.width == img.width && r.value.Height() == img.Height()
    ensures r.Ok? ==> forall i, j, c :: 0 <= i < r.value.Height() && 0 <= j < |r.value.rows[i]| && 0 <= c < |r.value.rows[i][j]| ==>
      r.value.rows[i][j][c] <= 255
  {
    var _ :- IntervalBounds(interval);
    Ok(ImageOps.BrightenImage(img, draw))
  }
}
