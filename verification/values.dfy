/** Values held in the configuration dictionaries (`entry.data`, `entry.options`, form input)
    and the Python operations the code applies to them. */
module Values {
  import opened Wrappers
  import Decimal

  /** A dictionary value: `None`, a bool, an int or a str. */
  datatype Value = VNone | VBool(b: bool) | VInt(i: int) | VStr(s: string)

  /** The dictionary keys the code reads or writes. Keys it never looks at play no part. */
  datatype Key =
    | SourceType | SnapshotUrl | BaseUrl | Camera | CameraName | Protocol | Host | Port
    | ScanInterval | EnableImageEntity
    | EnableCropping | TopLeftX | TopLeftY | BottomRightX | BottomRightY
    | EnableBrightnessAdjustment | MinBrightness | MaxBrightness
    | EnableColorAdjustment | MinColorR | MinColorG | MinColorB | MaxColorR | MaxColorG | MaxColorB
  {
    /** The key as spelled in the dictionaries. */
    function Name(): string {
      match this
      case SourceType => "source_type"
      case SnapshotUrl => "snapshot_url"
      case BaseUrl => "base_url"
      case Camera => "camera"
      case CameraName => "camera_name"
      case Protocol => "protocol"
      case Host => "host"
      case Port => "port"
      case ScanInterval => "scan_interval"
      case EnableImageEntity => "enable_image_entity"
      case EnableCropping => "enable_cropping"
      case TopLeftX => "top_left_x"
      case TopLeftY => "top_left_y"
      case BottomRightX => "bottom_right_x"
      case BottomRightY => "bottom_right_y"
      case EnableBrightnessAdjustment => "enable_brightness_adjustment"
      case MinBrightness => "min_brightness"
      case MaxBrightness => "max_brightness"
      case EnableColorAdjustment => "enable_color_adjustment"
      case MinColorR => "min_color_r"
      case MinColorG => "min_color_g"
      case MinColorB => "min_color_b"
      case MaxColorR => "max_color_r"
      case MaxColorG => "max_color_g"
      case MaxColorB => "max_color_b"
    }

    /** One of the four crop corner coordinates. */
    predicate IsCrop() {
      TopLeftX? || TopLeftY? || BottomRightX? || BottomRightY?
    }

    /** One of the two bounds of the brightness range. */
    predicate IsBrightnessBound() {
      MinBrightness? || MaxBrightness?
    }

    /** One of the six bounds of the colour ranges. */
    predicate IsColorBound() {
      MinColorR? || MinColorG? || MinColorB? || MaxColorR? || MaxColorG? || MaxColorB?
    }

    /** One of the three enable flags of the image-processing form. */
    predicate IsEnableFlag() {
      EnableCropping? || EnableBrightnessAdjustment? || EnableColorAdjustment?
    }

    /** A field of the Frigate connection form. */
    predicate IsFrigateField() {
      Protocol? || Host? || Port? || CameraName?
    }
  }

  type Dict = map<Key, Value>

  /** An error raised while turning a configuration dictionary into settings. */
  datatype ConfigError =
    | MissingKey(key: Key)     // `d[key]` raised KeyError
    | NotAnInteger(key: Key)   // a numeric setting holds something that is not an int

  /** All four crop coordinates are keys of `d`. */
  predicate HasCrop(d: Dict) {
    TopLeftX in d && TopLeftY in d && BottomRightX in d && BottomRightY in d
  }

  /** `d.get(key, default)`. */
  function Get(d: Dict, key: Key, default: Value): (v: Value)
    ensures key in d ==> v == d[key]
    ensures key !in d ==> v == default
  {
    if key in d then d[key] else default
  }

  /** Python truthiness, as used by `if d.get(flag, False):`. */
  predicate Truthy(v: Value) {
    match v
    case VNone => false
    case VBool(b) => b
    case VInt(i) => i != 0
    case VStr(s) => s != ""
  }

  /** The integer a value stands for in arithmetic (`bool` is a subclass of `int`). */
  function AsInt(v: Value): (r: Option<int>)
    ensures r.Some? <==> v.VInt? || v.VBool?
    ensures v.VInt? ==> r == Some(v.i)
  {
    match v
    case VInt(i) => Some(i)
    case VBool(b) => Some(if b then 1 else 0)
    case _ => None
  }

  /** `d.get("enable_cropping", False)` is truthy. */
  predicate CroppingOn(d: Dict) {
    Truthy(Get(d, EnableCropping, VBool(false)))
  }

  /** `d.get("enable_brightness_adjustment", False)` is truthy. */
  predicate BrightnessOn(d: Dict) {
    Truthy(Get(d, EnableBrightnessAdjustment, VBool(false)))
  }

  /** `d.get("enable_color_adjustment", False)` is truthy. */
  predicate ColorOn(d: Dict) {
    Truthy(Get(d, EnableColorAdjustment, VBool(false)))
  }

  /** `key in d and d[key] is not None`. */
  predicate Present(d: Dict, key: Key) {
    key in d && d[key] != VNone
  }

  /** `f"{v}"`, that is `str(v)`. */
  function Str(v: Value): (s: string)
    ensures v.VStr? ==> s == v.s
  {
    match v
    case VNone => "None"
    case VBool(b) => if b then "True" else "False"
    case VInt(i) => Decimal.IntToString(i)
    case VStr(s) => s
  }
}
