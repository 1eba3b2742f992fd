/** The older analyser of `indoor_sun`: Frigate only, no crop, no calibration, and a result
    with just the brightness and colour keys. */
module Legacy {
  import opened Wrappers
  import opened Values
  import opened Frames
  import opened Numeric
  import opened Analysis
  import opened Polling
  import Coordinator

  /** The settings read from `entry.data` (options are not consulted). */
  datatype Config = Config(baseUrl: Value, camera: Value, scanInterval: int)

  /** `IndoorSunCoordinator.__init__`: KeyError when `base_url` or `camera` is missing. */
  function FromEntry(data: Dict): (r: Result<Config, ConfigError>)
    ensures r.Ok? <==> BaseUrl in data && Camera in data && Coordinator.IntLike(data, ScanInterval)
    ensures BaseUrl !in data ==> r == Err(MissingKey(BaseUrl))
    ensures BaseUrl in data && Camera !in data ==> r == Err(MissingKey(Camera))
    ensures r.Ok? ==> r.value.baseUrl == data[BaseUrl] && r.value.camera == data[Camera]
    ensures r.Ok? ==> AsInt(Get(data, ScanInterval, VInt(60))) == Some(r.value.scanInterval)
  {
    if BaseUrl !in data then Err(MissingKey(BaseUrl))
    else if Camera !in data then Err(MissingKey(Camera))
    else
      var interval :- Coordinator.IntSetting(data, ScanInterval, 60);
      Ok(Config(data[BaseUrl], data[Camera], interval))
  }

  /** Always Frigate's latest-frame API. */
  function FetchUrl(cfg: Config): string {
    Str(cfg.baseUrl) + "/api/" + Str(cfg.camera) + "/latest.jpg"
  }

  /** The result dictionary: exactly `brightness`, `r`, `g`, `b` and `rgb_string`. */
  datatype Reading = Reading(brightness: real, r: int, g: int, b: int, rgbString: string)

  /** `_process_image`: mean colour and BT.709 brightness over the whole frame. */
  function Analyse(f: Frame): (a: Reading)
    requires 0 < f.width && 0 < Height(f)
    ensures 0.0 <= a.brightness <= 100.0
    ensures 0 <= a.r <= 255 && 0 <= a.g <= 255 && 0 <= a.b <= 255
    ensures a.rgbString == RgbLabel(a.r, a.g, a.b)
    ensures ParseRgbLabel(a.rgbString) == Some((a.r, a.g, a.b))
    ensures var m := MeanColour(Pixels(f.rows));
      && BrightnessPercent(m) - 0.005 <= a.brightness <= BrightnessPercent(m) + 0.005
      && m.r - 0.5 <= a.r as real <= m.r + 0.5
      && m.g - 0.5 <= a.g as real <= m.g + 0.5
      && m.b - 0.5 <= a.b as real <= m.b + 0.5
  {
    PixelCount(f.rows, f.width);
    var m := MeanColour(Pixels(f.rows));
    var p := BrightnessPercent(m);
    var r, g, b := RoundHalfEven(m.r), RoundHalfEven(m.g), RoundHalfEven(m.b);
    RoundBetween(m.r, 0, 255);
    RoundBetween(m.g, 0, 255);
    RoundBetween(m.b, 0, 255);
    RoundTo2Percent(p);
    RgbLabelRoundTrip(r, g, b);
    Reading(RoundTo2(p), r, g, b, RgbLabel(r, g, b))
  }

  /** `_fetch_and_process_frame`: a non-200 status fails the cycle before any decoding. */
  function Poll(cfg: Config, reply: Reply): (o: Result<Reading, PollError>)
    ensures reply.TransportFailure? ==> o == Err(Transport)
    ensures reply.Reply? && reply.status != 200 ==> o == Err(HttpStatus(reply.status))
    ensures o.Ok? <==>
      reply.Reply? && reply.status == 200 && reply.frame.Some?
      && 0 < reply.frame.value.width && 0 < Height(reply.frame.value)
    ensures o.Ok? ==> o.value == Analyse(reply.frame.value)
  {
    match reply
    case TransportFailure => Err(Transport)
    case Reply(status, frame) =>
      if status != 200 then Err(HttpStatus(status))
      else match frame
        case None => Err(Undecodable)
        case Some(f) => if 0 < f.width && 0 < Height(f) then Ok(Analyse(f)) else Err(EmptyRegion)
  }

  /** A solid-colour frame yields exactly its colour. */
  lemma SolidFrameReading(f: Frame, c: Pixel)
    requires 0 < f.width && 0 < Height(f) && Solid(f, c)
    ensures var a := Analyse(f);
      a.r == c.r && a.g == c.g && a.b == c.b && a.rgbString == RgbLabel(c.r, c.g, c.b)
  {
    PixelCount(f.rows, f.width);
    SolidFramePixels(f, c);
    UniformMeanColour(Pixels(f.rows), c);
    RoundOfInteger(c.r);
    RoundOfInteger(c.g);
    RoundOfInteger(c.b);
  }

  /** The current analyser with crop and both calibrations off gives the legacy reading on
      the keys they share. */
  lemma CurrentAnalyserExtendsLegacy(cfg: Coordinator.Config, f: Frame)
    requires cfg.crop.None? && !cfg.brightnessEnabled && !cfg.colorEnabled
    requires 0 < f.width && 0 < Height(f)
    ensures Coordinator.RegionOk(cfg, f)
    ensures var a, l := Coordinator.Analyse(cfg, f), Analyse(f);
      a.brightness == l.brightness && a.r == l.r && a.g == l.g && a.b == l.b && a.rgbString == l.rgbString
      && !a.cropped && !a.brightnessAdjusted && !a.colorAdjusted
  {
  }

  /** A legacy entry polls the same URL as a current Frigate entry with the same base URL and camera. */
  lemma SameUrlAsCurrentFrigate(cfg: Config, current: Coordinator.Config)
    requires Coordinator.IsFrigate(current) && current.baseUrl == cfg.baseUrl && current.camera == cfg.camera
    ensures FetchUrl(cfg) == Coordinator.FetchUrl(current)
  {
  }

  /** Polling: a legacy entry and a current Frigate entry with the same base URL and camera,
      no crop and both calibrations off fetch the same URL, fail on the same replies with the
      same errors, and on success agree on every key the legacy result has. */
  lemma PollAgreesWithCurrent(cfg: Config, current: Coordinator.Config, reply: Reply)
    requires Coordinator.IsFrigate(current) && current.baseUrl == cfg.baseUrl && current.camera == cfg.camera
    requires current.crop.None? && !current.brightnessEnabled && !current.colorEnabled
    ensures var o, l := Coordinator.Poll(current, reply), Poll(cfg, reply);
      && o.imageUrl == FetchUrl(cfg)
      && (o.result.Ok? <==> l.Ok?)
      && (l.Err? ==> o.result == Err(l.error))
      && (l.Ok? ==>
            && o.result.value.brightness == l.value.brightness
            && o.result.value.r == l.value.r && o.result.value.g == l.value.g && o.result.value.b == l.value.b
            && o.result.value.rgbString == l.value.rgbString)
  {
    SameUrlAsCurrentFrigate(cfg, current);
    if reply.Reply? && reply.status == 200 && reply.frame.Some? {
      var f := reply.frame.value;
      if 0 < f.width && 0 < Height(f) {
        CurrentAnalyserExtendsLegacy(current, f);
      }
    }
  }
}
