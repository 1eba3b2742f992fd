/** The current analyser: the coordinator of `hass_indoor_sun`, which merges the config entry
    into settings, builds the frame URL and turns one fetched frame into a reading. */
module Coordinator {
  import opened Wrappers
  import opened Values
  import opened Frames
  import opened Numeric
  import opened Analysis
  import opened Polling

  /** A linear calibration range `(min, max)`. */
  datatype Calibration = Calibration(lo: int, hi: int)

  /** The settings the coordinator reads once, when it is created. */
  datatype Config = Config(
    sourceType: Value,
    snapshotUrl: Value,
    baseUrl: Value,
    camera: Value,
    scanInterval: int,
    enableImageEntity: bool,
    crop: Option<Rect>,
    brightnessEnabled: bool,
    brightness: Calibration,
    colorEnabled: bool,
    red: Calibration,
    green: Calibration,
    blue: Calibration)

  /** `{**entry.data, **entry.options}`. */
  function Merge(data: Dict, options: Dict): (m: Dict)
    ensures m.Keys == data.Keys + options.Keys
    ensures forall k | k in options :: m[k] == options[k]
    ensures forall k | k in data && k !in options :: m[k] == data[k]
  {
    data + options
  }

  /** A numeric setting is absent or holds an integer. */
  predicate IntLike(m: Dict, key: Key) {
    key !in m || AsInt(m[key]).Some?
  }

  /** The settings the coordinator computes with are integers: the interval, the crop
      coordinates when all four are given, and the bounds of each enabled calibration (the
      bounds of a disabled calibration are never used). */
  predicate NumericSettingsValid(m: Dict) {
    && IntLike(m, ScanInterval)
    && (HasCrop(m) ==>
          IntLike(m, TopLeftX) && IntLike(m, TopLeftY)
          && IntLike(m, BottomRightX) && IntLike(m, BottomRightY))
    && (BrightnessOn(m) ==> IntLike(m, MinBrightness) && IntLike(m, MaxBrightness))
    && (ColorOn(m) ==>
          && IntLike(m, MinColorR) && IntLike(m, MinColorG) && IntLike(m, MinColorB)
          && IntLike(m, MaxColorR) && IntLike(m, MaxColorG) && IntLike(m, MaxColorB))
  }

  /** `v` is what `m.get(key, default)` holds as an integer; a bound that is not an integer
      (possible only when its calibration is off) is read as the default. */
  predicate ReadsBound(m: Dict, key: Key, default: int, v: int) {
    if IntLike(m, key) then AsInt(Get(m, key, VInt(default))) == Some(v) else v == default
  }

  /** `cfg` holds what the merged entry `m` says, with the coordinator's defaults for absent
      keys: source "frigate", interval 60, image entity off, no crop unless all four
      coordinates are given, adjustments off, brightness range 0..100, colour ranges 0..255. */
  predicate Describes(m: Dict, cfg: Config) {
    && cfg.sourceType == Get(m, SourceType, VStr("frigate"))
    && cfg.snapshotUrl == Get(m, SnapshotUrl, VNone)
    && BaseUrl in m && cfg.baseUrl == m[BaseUrl]
    && Camera in m && cfg.camera == m[Camera]
    && AsInt(Get(m, ScanInterval, VInt(60))) == Some(cfg.scanInterval)
    && cfg.enableImageEntity == Truthy(Get(m, EnableImageEntity, VBool(false)))
    && (cfg.crop.Some? <==> HasCrop(m))
    && (cfg.crop.Some? ==>
          && AsInt(m[TopLeftX]) == Some(cfg.crop.value.x0)
          && AsInt(m[TopLeftY]) == Some(cfg.crop.value.y0)
          && AsInt(m[BottomRightX]) == Some(cfg.crop.value.x1)
          && AsInt(m[BottomRightY]) == Some(cfg.crop.value.y1))
    && cfg.brightnessEnabled == BrightnessOn(m)
    && ReadsBound(m, MinBrightness, 0, cfg.brightness.lo)
    && ReadsBound(m, MaxBrightness, 100, cfg.brightness.hi)
    && cfg.colorEnabled == ColorOn(m)
    && ReadsBound(m, MinColorR, 0, cfg.red.lo)
    && ReadsBound(m, MinColorG, 0, cfg.green.lo)
    && ReadsBound(m, MinColorB, 0, cfg.blue.lo)
    && ReadsBound(m, MaxColorR, 255, cfg.red.hi)
    && ReadsBound(m, MaxColorG, 255, cfg.green.hi)
    && ReadsBound(m, MaxColorB, 255, cfg.blue.hi)
  }

  /** `m.get(key, default)` read as an integer. */
  function IntSetting(m: Dict, key: Key, default: int): (r: Result<int, ConfigError>)
    ensures r.Ok? <==> IntLike(m, key)
    ensures r.Ok? ==> AsInt(Get(m, key, VInt(default))) == Some(r.value)
    ensures r.Err? ==> r.error == NotAnInteger(key)
  {
    if key !in m then Ok(default)
    else match AsInt(m[key])
      case Some(i) => Ok(i)
      case None => Err(NotAnInteger(key))
  }

  /** A calibration bound: it must be an integer only when its calibration is enabled, since
      only then does the program compute with it. */
  function BoundSetting(m: Dict, key: Key, default: int, enabled: bool): (r: Result<int, ConfigError>)
    ensures r.Ok? <==> (enabled ==> IntLike(m, key))
    ensures r.Ok? ==> ReadsBound(m, key, default, r.value)
    ensures r.Err? ==> r.error == NotAnInteger(key)
  {
    if enabled || IntLike(m, key) then IntSetting(m, key, default) else Ok(default)
  }

  function CropSetting(m: Dict): (r: Result<Option<Rect>, ConfigError>)
    ensures r.Ok? <==> (HasCrop(m) ==>
      IntLike(m, TopLeftX) && IntLike(m, TopLeftY) && IntLike(m, BottomRightX) && IntLike(m, BottomRightY))
    ensures r.Ok? ==> (r.value.Some? <==> HasCrop(m))
    ensures r.Ok? && r.value.Some? ==>
      && AsInt(m[TopLeftX]) == Some(r.value.value.x0)
      && AsInt(m[TopLeftY]) == Some(r.value.value.y0)
      && AsInt(m[BottomRightX]) == Some(r.value.value.x1)
      && AsInt(m[BottomRightY]) == Some(r.value.value.y1)
  {
    if HasCrop(m) then
      var x0 :- IntSetting(m, TopLeftX, 0);
      var y0 :- IntSetting(m, TopLeftY, 0);
      var x1 :- IntSetting(m, BottomRightX, 0);
      var y1 :- IntSetting(m, BottomRightY, 0);
      Ok(Some(Rect(x0, y0, x1, y1)))
    else Ok(None)
  }

  /** `IndoorSunCoordinator.__init__`: merge the entry (options win) and read the settings.
      Fails with KeyError when `base_url` or `camera` is missing. */
  function FromEntry(data: Dict, options: Dict): (r: Result<Config, ConfigError>)
    ensures var m := Merge(data, options);
      r.Ok? <==> BaseUrl in m && Camera in m && NumericSettingsValid(m)
    ensures BaseUrl !in Merge(data, options) ==> r == Err(MissingKey(BaseUrl))
    ensures BaseUrl in Merge(data, options) && Camera !in Merge(data, options) ==> r == Err(MissingKey(Camera))
    ensures r.Ok? ==> Describes(Merge(data, options), r.value)
  {
    var m := Merge(data, options);
    if BaseUrl !in m then Err(MissingKey(BaseUrl))
    else if Camera !in m then Err(MissingKey(Camera))
    else
      var interval :- IntSetting(m, ScanInterval, 60);
      var crop :- CropSetting(m);
      var minB :- BoundSetting(m, MinBrightness, 0, BrightnessOn(m));
      var maxB :- BoundSetting(m, MaxBrightness, 100, BrightnessOn(m));
      var minR :- BoundSetting(m, MinColorR, 0, ColorOn(m));
      var minG :- BoundSetting(m, MinColorG, 0, ColorOn(m));
      var minBl :- BoundSetting(m, MinColorB, 0, ColorOn(m));
      var maxR :- BoundSetting(m, MaxColorR, 255, ColorOn(m));
      var maxG :- BoundSetting(m, MaxColorG, 255, ColorOn(m));
      var maxBl :- BoundSetting(m, MaxColorB, 255, ColorOn(m));
      Ok(Config(
        Get(m, SourceType, VStr("frigate")),
        Get(m, SnapshotUrl, VNone),
        m[BaseUrl],
        m[Camera],
        interval,
        Truthy(Get(m, EnableImageEntity, VBool(false))),
        crop,
        BrightnessOn(m),
        Calibration(minB, maxB),
        ColorOn(m),
        Calibration(minR, maxR),
        Calibration(minG, maxG),
        Calibration(minBl, maxBl)))
  }

  predicate IsFrigate(cfg: Config) {
    cfg.sourceType == VStr("frigate")
  }

  /** The URL polled each cycle: Frigate's latest-frame API, or the snapshot URL itself. */
  function FetchUrl(cfg: Config): string {
    if IsFrigate(cfg) then Str(cfg.baseUrl) + "/api/" + Str(cfg.camera) + "/latest.jpg"
    else Str(cfg.baseUrl)
  }

  /** The region the statistics are taken over has at least one pixel. */
  predicate RegionOk(cfg: Config, f: Frame) {
    match cfg.crop
    case None => 0 < f.width && 0 < Height(f)
    case Some(box) => Inside(box, f)
  }

  /** The (possibly cropped) image. */
  function Region(cfg: Config, f: Frame): (g: Frame)
    requires RegionOk(cfg, f)
    ensures 0 < g.width && 0 < Height(g)
  {
    match cfg.crop
    case None => f
    case Some(box) => Crop(f, box)
  }

  function RegionPixels(cfg: Config, f: Frame): (ps: seq<Pixel>)
    requires RegionOk(cfg, f)
    ensures 0 < |ps|
  {
    var g := Region(cfg, f);
    PixelCount(g.rows, g.width);
    Pixels(g.rows)
  }

  /** The result dictionary of one cycle. `imageData` stands for the `image_data` key: the
      region that is JPEG-encoded and base64-encoded for the image entity. */
  datatype Reading = Reading(
    brightness: real,
    r: int,
    g: int,
    b: int,
    rgbString: string,
    sourceType: Value,
    cropped: bool,
    brightnessAdjusted: bool,
    colorAdjusted: bool,
    imageData: Option<Frame>)

  /** One output channel: `round(avg)` or, with colour calibration, `round(scale(avg, min, max))`. */
  function ChannelOut(v: real, enabled: bool, cal: Calibration): (n: int)
    ensures 0.0 <= v <= 255.0 ==> 0 <= n <= 255
    ensures !enabled ==> v - 0.5 <= n as real <= v + 0.5
    ensures enabled ==> n == Scale(v, cal.lo, cal.hi)
  {
    var adjusted: real := if enabled then Scale(v, cal.lo, cal.hi) as real else v;
    assert enabled ==> RoundHalfEven(adjusted) == Scale(v, cal.lo, cal.hi) by {
      if enabled {
        RoundOfInteger(Scale(v, cal.lo, cal.hi));
      }
    }
    assert 0.0 <= v <= 255.0 ==> 0 <= RoundHalfEven(adjusted) <= 255 by {
      if 0.0 <= v <= 255.0 {
        if enabled {
          ScaleInGamut(v, cal.lo, cal.hi);
        }
        RoundBetween(adjusted, 0, 255);
      }
    }
    RoundHalfEven(adjusted)
  }

  /** `_process_image` on an already decoded frame. */
  function Analyse(cfg: Config, f: Frame): (a: Reading)
    requires RegionOk(cfg, f)
    ensures 0.0 <= a.brightness <= 100.0
    ensures 0 <= a.r <= 255 && 0 <= a.g <= 255 && 0 <= a.b <= 255
    ensures a.rgbString == RgbLabel(a.r, a.g, a.b)
    ensures Analysis.ParseRgbLabel(a.rgbString) == Some((a.r, a.g, a.b))
    ensures a.sourceType == cfg.sourceType
    ensures a.cropped <==> cfg.crop.Some?
    ensures a.brightnessAdjusted == cfg.brightnessEnabled
    ensures a.colorAdjusted == cfg.colorEnabled
    ensures a.imageData.Some? <==> cfg.enableImageEntity
    ensures a.imageData.Some? ==> a.imageData.value == Region(cfg, f)
    ensures var m := MeanColour(RegionPixels(cfg, f));
      var p := AdjustBrightness(BrightnessPercent(m), cfg.brightnessEnabled, cfg.brightness.lo, cfg.brightness.hi);
      p - 0.005 <= a.brightness <= p + 0.005
    ensures var m := MeanColour(RegionPixels(cfg, f));
      !cfg.colorEnabled ==>
        && m.r - 0.5 <= a.r as real <= m.r + 0.5
        && m.g - 0.5 <= a.g as real <= m.g + 0.5
        && m.b - 0.5 <= a.b as real <= m.b + 0.5
    ensures var m := MeanColour(RegionPixels(cfg, f));
      cfg.colorEnabled ==>
        && a.r == Scale(m.r, cfg.red.lo, cfg.red.hi)
        && a.g == Scale(m.g, cfg.green.lo, cfg.green.hi)
        && a.b == Scale(m.b, cfg.blue.lo, cfg.blue.hi)
  {
    var region := Region(cfg, f);
    var m := MeanColour(RegionPixels(cfg, f));
    var p := AdjustBrightness(BrightnessPercent(m), cfg.brightnessEnabled, cfg.brightness.lo, cfg.brightness.hi);
    var r := ChannelOut(m.r, cfg.colorEnabled, cfg.red);
    var g := ChannelOut(m.g, cfg.colorEnabled, cfg.green);
    var b := ChannelOut(m.b, cfg.colorEnabled, cfg.blue);
    RoundTo2Percent(p);
    RgbLabelRoundTrip(r, g, b);
    Reading(
      RoundTo2(p), r, g, b, RgbLabel(r, g, b), cfg.sourceType,
      cfg.crop.Some?, cfg.brightnessEnabled, cfg.colorEnabled,
      if cfg.enableImageEntity then Some(region) else None)
  }

  /** What one cycle leaves behind: `image_url` is set before the request is made. */
  datatype PollOutcome = PollOutcome(imageUrl: string, result: Result<Reading, PollError>)

  /** `_fetch_and_process_frame`: pick the URL, check the reply, analyse the frame. */
  function Poll(cfg: Config, reply: Reply): (o: PollOutcome)
    ensures o.imageUrl == FetchUrl(cfg)
    ensures reply.TransportFailure? ==> o.result == Err(Transport)
    ensures reply.Reply? && reply.status != 200 ==> o.result == Err(HttpStatus(reply.status))
    ensures o.result.Ok? <==>
      reply.Reply? && reply.status == 200 && reply.frame.Some? && RegionOk(cfg, reply.frame.value)
    ensures o.result.Ok? ==> o.result.value == Analyse(cfg, reply.frame.value)
  {
    var result :=
      match reply
      case TransportFailure => Err(Transport)
      case Reply(status, frame) =>
        if status != 200 then Err(HttpStatus(status))
        else match frame
          case None => Err(Undecodable)
          case Some(f) =>
            if RegionOk(cfg, f) then Ok(Analyse(cfg, f))
            else match cfg.crop
              case None => Err(EmptyRegion)
              case Some(box) =>
                if box.x1 <= box.x0 || box.y1 <= box.y0 then Err(EmptyRegion) else Err(CropOutsideFrame);
    PollOutcome(FetchUrl(cfg), result)
  }

  /** A solid-colour frame, analysed without calibration, reports that colour and its luma. */
  lemma SolidFrameReading(cfg: Config, f: Frame, c: Pixel)
    requires RegionOk(cfg, f) && Solid(f, c)
    requires !cfg.brightnessEnabled && !cfg.colorEnabled
    ensures var a := Analyse(cfg, f);
      && a.r == c.r && a.g == c.g && a.b == c.b
      && a.brightness == RoundTo2(BrightnessPercent(Means(c.r as real, c.g as real, c.b as real)))
  {
    var g := Region(cfg, f);
    if cfg.crop.Some? {
      CropOfSolid(f, c, cfg.crop.value);
    }
    SolidFramePixels(g, c);
    UniformMeanColour(RegionPixels(cfg, f), c);
    RoundOfInteger(c.r);
    RoundOfInteger(c.g);
    RoundOfInteger(c.b);
  }

  /** Cropping a solid-colour frame does not change any measured value. */
  lemma CropInvariantOnSolid(cfg: Config, f: Frame, c: Pixel)
    requires cfg.crop.Some? && Inside(cfg.crop.value, f) && Solid(f, c)
    ensures RegionOk(cfg.(crop := None), f)
    ensures var a, a' := Analyse(cfg, f), Analyse(cfg.(crop := None), f);
      a.brightness == a'.brightness && a.r == a'.r && a.g == a'.g && a.b == a'.b && a.rgbString == a'.rgbString
  {
    var full := cfg.(crop := None);
    CropOfSolid(f, c, cfg.crop.value);
    SolidFramePixels(Region(cfg, f), c);
    SolidFramePixels(f, c);
    UniformMeanColour(RegionPixels(cfg, f), c);
    UniformMeanColour(RegionPixels(full, f), c);
  }

  /** Brightness is taken from the uncalibrated means: switching colour calibration on or
      off never changes it. */
  lemma ColourCalibrationKeepsBrightness(cfg: Config, f: Frame, on: bool)
    requires RegionOk(cfg, f)
    ensures Analyse(cfg.(colorEnabled := on), f).brightness == Analyse(cfg, f).brightness
  {
  }
}
