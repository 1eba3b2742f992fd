/** The setup wizard and the options form of `hass_indoor_sun`, with the form I/O stripped
    away: each step is a function from the wizard's accumulated `config_data` and the
    submitted form to the next `config_data`, an error key, or the entry to create. */
module ConfigFlow {
  import opened Wrappers
  import opened Values
  import Text
  import Decimal

  /** The `errors[...]` values the forms can show. */
  datatype ErrorKey =
    | UrlInvalidProtocol
    | CropCoordinatesIncomplete
    | CropCoordinatesInvalid
    | BrightnessRangeInvalid
    | ColorRangeInvalid
  {
    function Name(): string {
      match this
      case UrlInvalidProtocol => "url_invalid_protocol"
      case CropCoordinatesIncomplete => "crop_coordinates_incomplete"
      case CropCoordinatesInvalid => "crop_coordinates_invalid"
      case BrightnessRangeInvalid => "brightness_range_invalid"
      case ColorRangeInvalid => "color_range_invalid"
    }
  }

  /** Keys every created entry carries. */
  predicate IsEntryKey(k: Key) {
    k.SourceType? || k.BaseUrl? || k.Camera? || k.ScanInterval? || k.EnableImageEntity?
  }

  /** All four fields of the Frigate form are keys of `d`. */
  predicate HasFrigateFields(d: Dict) {
    Protocol in d && Host in d && Port in d && CameraName in d
  }

  predicate HasBrightnessBounds(d: Dict) {
    MinBrightness in d && MaxBrightness in d
  }

  predicate HasColorBounds(d: Dict) {
    MinColorR in d && MinColorG in d && MinColorB in d
    && MaxColorR in d && MaxColorG in d && MaxColorB in d
  }

  // ---------------------------------------------------------------- source steps

  /** `config_data` after a connection step, and the URL the connection test will fetch. */
  datatype Connection = Connection(config: Dict, testUrl: string)

  /** `config_data.update(user_input)` followed by setting `base_url` and `camera`. */
  function Record(cd: Dict, input: Dict, base: string, camera: Value): (m: Dict)
    ensures BaseUrl in m && Camera in m && m[BaseUrl] == VStr(base) && m[Camera] == camera
  {
    (cd + input)[BaseUrl := VStr(base)][Camera := camera]
  }

  /** After `Record`, a key is present when it was in `config_data` or the form or is one of
      the two keys set; `base_url` and `camera` hold the new values, every other key the
      form's value if the form had it and the old one otherwise. */
  lemma RecordKey(cd: Dict, input: Dict, base: string, camera: Value, k: Key)
    ensures k in Record(cd, input, base, camera) <==> k in cd || k in input || k == BaseUrl || k == Camera
    ensures k == BaseUrl ==> Record(cd, input, base, camera)[k] == VStr(base)
    ensures k == Camera ==> Record(cd, input, base, camera)[k] == camera
    ensures k in input && k != BaseUrl && k != Camera ==> Record(cd, input, base, camera)[k] == input[k]
    ensures k in cd && k !in input && k != BaseUrl && k != Camera ==> Record(cd, input, base, camera)[k] == cd[k]
  {
  }

  /** The port used when the Frigate form leaves it out: 443 for https, otherwise 5000. */
  function DefaultPort(protocol: Value): int {
    if protocol == VStr("https") then 443 else 5000
  }

  /** The port the Frigate form ends up with: the submitted one, or the protocol's default
      when it is missing or None. */
  function FormPort(input: Dict): (v: Value)
    requires Protocol in input
    ensures Present(input, Port) ==> v == input[Port]
    ensures !Present(input, Port) ==> v == VInt(DefaultPort(input[Protocol]))
  {
    if Port !in input || input[Port] == VNone then VInt(DefaultPort(input[Protocol])) else input[Port]
  }

  /** `f"{protocol}://{host}:{port}"`. */
  function FrigateBaseUrl(protocol: Value, host: Value, port: Value): string {
    Str(protocol) + "://" + Str(host) + ":" + Str(port)
  }

  /** Frigate's latest-frame endpoint for a camera under a base URL. */
  function LatestFrameUrl(base: string, camera: Value): string {
    base + "/api/" + Str(camera) + "/latest.jpg"
  }

  /** `async_step_frigate` on a submitted form: the port filled in, the form recorded, and
      the connection test aimed at the camera's latest frame. */
  function FrigateStep(cd: Dict, input: Dict): (c: Connection)
    requires Protocol in input && Host in input && CameraName in input
    ensures Port in c.config && BaseUrl in c.config && Camera in c.config
    ensures c.config[Port] == FormPort(input)
    ensures c.config[BaseUrl] == VStr(FrigateBaseUrl(input[Protocol], input[Host], FormPort(input)))
    ensures c.config[Camera] == input[CameraName]
    ensures c.testUrl == LatestFrameUrl(FrigateBaseUrl(input[Protocol], input[Host], FormPort(input)), input[CameraName])
  {
    var base := FrigateBaseUrl(input[Protocol], input[Host], FormPort(input));
    Connection(Record(cd, input[Port := FormPort(input)], base, input[CameraName]), LatestFrameUrl(base, input[CameraName]))
  }

  /** The Frigate step keeps every submitted field and everything already in `config_data`;
      it adds only `port`, `base_url` and `camera`. */
  lemma FrigateStepKey(cd: Dict, input: Dict, k: Key)
    requires Protocol in input && Host in input && CameraName in input
    ensures k in FrigateStep(cd, input).config <==> k in cd || k in input || k == Port || k == BaseUrl || k == Camera
    ensures k in input && k != Port && k != BaseUrl && k != Camera ==> FrigateStep(cd, input).config[k] == input[k]
    ensures k in cd && k !in input && k != Port && k != BaseUrl && k != Camera
      ==> FrigateStep(cd, input).config[k] == cd[k]
  {
    var base := FrigateBaseUrl(input[Protocol], input[Host], FormPort(input));
    RecordKey(cd, input[Port := FormPort(input)], base, input[CameraName], k);
  }

  /** Splits `scheme://host:port` back into its parts. */
  function ParseBaseUrl(s: string): Option<(string, string, int)> {
    var parts := Text.SplitOn(s, ':');
    if |parts| == 3 && Text.StartsWith(parts[1], "//") then
      match Decimal.ParseInt(parts[2])
      case Some(port) => Some((parts[0], parts[1][2..], port))
      case None => None
    else None
  }

  /** The base URL keeps protocol, host and port recoverable, as long as neither the protocol
      nor the host contains a colon. */
  lemma BaseUrlRoundTrip(protocol: string, host: string, port: int)
    requires ':' !in protocol && ':' !in host
    ensures ParseBaseUrl(FrigateBaseUrl(VStr(protocol), VStr(host), VInt(port))) == Some((protocol, host, port))
  {
    var digits := Decimal.IntToString(port);
    assert ':' !in digits;
    var tail := "//" + host + [':'] + digits;
    assert FrigateBaseUrl(VStr(protocol), VStr(host), VInt(port)) == protocol + [':'] + tail;
    Text.SplitOnFirstSeparator(protocol, ':', tail);
    assert ':' !in "//" + host;
    Text.SplitOnFirstSeparator("//" + host, ':', digits);
    Text.SplitOnNoSeparator(digits, ':');
    assert ("//" + host)[2..] == host;
    Decimal.IntToStringRoundTrip(port);
  }

  /** The snapshot URL is accepted with either of these schemes. */
  predicate HttpUrl(url: string) {
    Text.StartsWith(url, "http://") || Text.StartsWith(url, "https://")
  }

  /** `async_step_snapshot` on a submitted form: the URL is stripped of surrounding whitespace
      and must be an http or https URL; the connection test then fetches it. */
  function SnapshotStep(cd: Dict, input: Dict): (r: Result<Connection, ErrorKey>)
    requires SnapshotUrl in input && input[SnapshotUrl].VStr?
    ensures var url := Text.Strip(input[SnapshotUrl].s);
      && (r.Ok? <==> HttpUrl(url))
      && (r.Err? ==> r.error == UrlInvalidProtocol)
      && (r.Ok? ==>
            && r.value.testUrl == url
            && BaseUrl in r.value.config && Camera in r.value.config
            && r.value.config[BaseUrl] == VStr(url)
            && r.value.config[Camera] == VStr("snapshot"))
  {
    var url := Text.Strip(input[SnapshotUrl].s);
    if !HttpUrl(url) then Err(UrlInvalidProtocol)
    else Ok(Connection(Record(cd, input, url, VStr("snapshot")), url))
  }

  /** An accepted snapshot form is recorded as submitted (the unstripped URL included) on
      top of `config_data`; only `base_url` and `camera` are added. */
  lemma SnapshotStepKey(cd: Dict, input: Dict, k: Key)
    requires SnapshotUrl in input && input[SnapshotUrl].VStr?
    requires SnapshotStep(cd, input).Ok?
    ensures k in SnapshotStep(cd, input).value.config <==> k in cd || k in input || k == BaseUrl || k == Camera
    ensures k in input && k != BaseUrl && k != Camera ==> SnapshotStep(cd, input).value.config[k] == input[k]
    ensures k in cd && k !in input && k != BaseUrl && k != Camera ==> SnapshotStep(cd, input).value.config[k] == cd[k]
  {
    RecordKey(cd, input, Text.Strip(input[SnapshotUrl].s), VStr("snapshot"), k);
  }

  // ---------------------------------------------------------------- image processing

  predicate CropShape(input: Dict) {
    forall k | k in input && k.IsCrop() :: input[k].VInt? || input[k] == VNone
  }

  /** All four coordinates are given and none is None. */
  predicate CropComplete(input: Dict) {
    Present(input, TopLeftX) && Present(input, TopLeftY)
    && Present(input, BottomRightX) && Present(input, BottomRightY)
  }

  /** The top-left corner lies strictly above and left of the bottom-right corner. */
  predicate CropOrdered(input: Dict)
    requires CropShape(input) && CropComplete(input)
  {
    input[TopLeftX].i < input[BottomRightX].i && input[TopLeftY].i < input[BottomRightY].i
  }

  /** The crop check shared by both forms: incomplete coordinates win over unordered ones. */
  function CropError(input: Dict): (e: Option<ErrorKey>)
    requires CropShape(input)
    ensures e.None? <==> CropComplete(input) && CropOrdered(input)
    ensures e == Some(CropCoordinatesIncomplete) <==> !CropComplete(input)
    ensures e == Some(CropCoordinatesInvalid) <==> CropComplete(input) && !CropOrdered(input)
  {
    if !CropComplete(input) then Some(CropCoordinatesIncomplete)
    else if input[TopLeftX].i >= input[BottomRightX].i || input[TopLeftY].i >= input[BottomRightY].i
    then Some(CropCoordinatesInvalid)
    else None
  }

  predicate IntIn(input: Dict, key: Key) {
    key in input && input[key].VInt?
  }

  /** What the image-processing schema hands the step: only its own keys, crop coordinates
      as ints (or None) when given, and the three flags and the range bounds always present
      (the schema gives them defaults). */
  predicate ImageProcessingInput(input: Dict) {
    && (forall k | k in input :: k.IsCrop() || k.IsBrightnessBound() || k.IsColorBound() || k.IsEnableFlag())
    && CropShape(input)
    && EnableCropping in input && input[EnableCropping].VBool?
    && EnableBrightnessAdjustment in input && input[EnableBrightnessAdjustment].VBool?
    && EnableColorAdjustment in input && input[EnableColorAdjustment].VBool?
    && IntIn(input, MinBrightness) && IntIn(input, MaxBrightness)
    && IntIn(input, MinColorR) && IntIn(input, MinColorG) && IntIn(input, MinColorB)
    && IntIn(input, MaxColorR) && IntIn(input, MaxColorG) && IntIn(input, MaxColorB)
  }

  /** `min >= max` for a pair of integer keys. */
  predicate RangeBad(input: Dict, lo: Key, hi: Key)
    requires IntIn(input, lo) && IntIn(input, hi)
  {
    input[lo].i >= input[hi].i
  }

  predicate ColorRangesBad(input: Dict)
    requires ImageProcessingInput(input)
  {
    RangeBad(input, MinColorR, MaxColorR)
    || RangeBad(input, MinColorG, MaxColorG)
    || RangeBad(input, MinColorB, MaxColorB)
  }

  /** The image-processing step's checks, run crop, brightness, colour; each failing check
      overwrites `errors["base"]`, so the last failing one is reported. */
  function ImageProcessingErrors(input: Dict): (e: Option<ErrorKey>)
    requires ImageProcessingInput(input)
    ensures e.None? <==>
      && (CroppingOn(input) ==> CropComplete(input) && CropOrdered(input))
      && (BrightnessOn(input) ==> !RangeBad(input, MinBrightness, MaxBrightness))
      && (ColorOn(input) ==> !ColorRangesBad(input))
    ensures e == Some(ColorRangeInvalid) <==> ColorOn(input) && ColorRangesBad(input)
    ensures e == Some(BrightnessRangeInvalid) <==>
      && BrightnessOn(input) && RangeBad(input, MinBrightness, MaxBrightness)
      && !(ColorOn(input) && ColorRangesBad(input))
    ensures e == Some(CropCoordinatesIncomplete) <==>
      && CroppingOn(input) && !CropComplete(input)
      && !(BrightnessOn(input) && RangeBad(input, MinBrightness, MaxBrightness))
      && !(ColorOn(input) && ColorRangesBad(input))
    ensures e == Some(CropCoordinatesInvalid) <==>
      && CroppingOn(input) && CropComplete(input) && !CropOrdered(input)
      && !(BrightnessOn(input) && RangeBad(input, MinBrightness, MaxBrightness))
      && !(ColorOn(input) && ColorRangesBad(input))
  {
    var afterCrop := if CroppingOn(input) then CropError(input) else None;
    var afterBrightness :=
      if BrightnessOn(input) && input[MinBrightness].i >= input[MaxBrightness].i
      then Some(BrightnessRangeInvalid) else afterCrop;
    if ColorOn(input)
       && (input[MinColorR].i >= input[MaxColorR].i
           || input[MinColorG].i >= input[MaxColorG].i
           || input[MinColorB].i >= input[MaxColorB].i)
    then Some(ColorRangeInvalid) else afterBrightness
  }

  /** `async_step_image_processing` on a submitted form: either the error to show, or the
      final `config_data` from which the entry is created. */
  function ImageProcessingStep(cd: Dict, input: Dict): (r: Result<Dict, ErrorKey>)
    requires ImageProcessingInput(input)
    ensures r.Err? <==> ImageProcessingErrors(input).Some?
    ensures r.Err? ==> r.error == ImageProcessingErrors(input).value
    ensures r.Ok? ==> r.value == cd + input
  {
    match ImageProcessingErrors(input)
    case Some(e) => Err(e)
    case None => Ok(cd + input)
  }

  // ---------------------------------------------------------------- the created entry

  /** What `_prepare_final_config` and `_get_entry_title` read from `config_data`. */
  predicate FinalConfigReady(cd: Dict) {
    && SourceType in cd && BaseUrl in cd && Camera in cd
    && (CroppingOn(cd) ==> HasCrop(cd))
    && (BrightnessOn(cd) ==> HasBrightnessBounds(cd))
    && (ColorOn(cd) ==> HasColorBounds(cd))
    && (cd[SourceType] == VStr("frigate") ==> HasFrigateFields(cd))
    && (cd[SourceType] != VStr("frigate") ==> SnapshotUrl in cd)
  }

  /** The keys of the option groups `_prepare_final_config` copies from `cd`: each enabled
      group, then the Frigate fields or the snapshot URL. */
  predicate InGroups(cd: Dict, k: Key)
    requires SourceType in cd
  {
    || (CroppingOn(cd) && k.IsCrop())
    || (BrightnessOn(cd) && k.IsBrightnessBound())
    || (ColorOn(cd) && k.IsColorBound())
    || (if cd[SourceType] == VStr("frigate") then k.IsFrigateField() else k == SnapshotUrl)
  }

  /** The keys of the entry `_prepare_final_config` builds from `cd`. */
  predicate InFinal(cd: Dict, k: Key)
    requires SourceType in cd
  {
    IsEntryKey(k) || InGroups(cd, k)
  }

  /** The five entries every created entry has, with the defaults 60 and False. */
  function EntryBasics(cd: Dict): Dict
    requires SourceType in cd && BaseUrl in cd && Camera in cd
  {
    map[
      SourceType := cd[SourceType],
      BaseUrl := cd[BaseUrl],
      Camera := cd[Camera],
      ScanInterval := Get(cd, ScanInterval, VInt(60)),
      EnableImageEntity := Get(cd, EnableImageEntity, VBool(false))]
  }

  /** The `config.update(...)` calls: crop, brightness and colour groups when enabled, then
      the Frigate connection or the snapshot URL, each value copied from `cd`. The groups are
      disjoint, so the successive updates amount to restricting `cd` to their keys. */
  function CopiedGroups(cd: Dict): Dict
    requires SourceType in cd
  {
    map k | k in cd && InGroups(cd, k) :: cd[k]
  }

  /** `_prepare_final_config`. */
  function PrepareFinalConfig(cd: Dict): Dict
    requires FinalConfigReady(cd)
  {
    EntryBasics(cd) + CopiedGroups(cd)
  }

  lemma EntryBasicsKey(cd: Dict, k: Key)
    requires SourceType in cd && BaseUrl in cd && Camera in cd
    ensures k in EntryBasics(cd) <==> IsEntryKey(k)
  {
  }

  lemma CropKeyPresent(cd: Dict, k: Key)
    requires HasCrop(cd) && k.IsCrop()
    ensures k in cd
  {
  }

  lemma BoundKeyPresent(cd: Dict, k: Key)
    requires (k.IsBrightnessBound() && HasBrightnessBounds(cd)) || (k.IsColorBound() && HasColorBounds(cd))
    ensures k in cd
  {
  }

  lemma FrigateKeyPresent(cd: Dict, k: Key)
    requires HasFrigateFields(cd) && k.IsFrigateField()
    ensures k in cd
  {
  }

  /** Every key a ready `config_data` is asked for is there. */
  lemma GroupKeyPresent(cd: Dict, k: Key)
    requires FinalConfigReady(cd) && InGroups(cd, k)
    ensures k in cd
  {
    if CroppingOn(cd) && k.IsCrop() {
      CropKeyPresent(cd, k);
    } else if (BrightnessOn(cd) && k.IsBrightnessBound()) || (ColorOn(cd) && k.IsColorBound()) {
      BoundKeyPresent(cd, k);
    } else if cd[SourceType] == VStr("frigate") {
      FrigateKeyPresent(cd, k);
    }
  }

  lemma CopiedGroupsKey(cd: Dict, k: Key)
    requires FinalConfigReady(cd)
    ensures k in CopiedGroups(cd) <==> InGroups(cd, k)
  {
    if InGroups(cd, k) {
      GroupKeyPresent(cd, k);
    }
  }

  /** The created entry has the five basic keys and exactly the keys of the groups whose
      enable flag is set (and of the chosen source); nothing else. */
  lemma PrepareFinalConfigKey(cd: Dict, k: Key)
    requires FinalConfigReady(cd)
    ensures k in PrepareFinalConfig(cd) <==> InFinal(cd, k)
  {
    EntryBasicsKey(cd, k);
    CopiedGroupsKey(cd, k);
  }

  lemma EntryBasicsValue(cd: Dict, k: Key)
    requires SourceType in cd && BaseUrl in cd && Camera in cd && IsEntryKey(k)
    ensures k in EntryBasics(cd)
    ensures k == ScanInterval ==> EntryBasics(cd)[k] == Get(cd, ScanInterval, VInt(60))
    ensures k == EnableImageEntity ==> EntryBasics(cd)[k] == Get(cd, EnableImageEntity, VBool(false))
    ensures k != ScanInterval && k != EnableImageEntity ==> EntryBasics(cd)[k] == cd[k]
  {
  }

  /** Every value of the created entry is copied from `config_data`, except that a missing
      interval or image flag gets its default, 60 or False. */
  lemma PrepareFinalConfigValue(cd: Dict, k: Key)
    requires FinalConfigReady(cd) && k in PrepareFinalConfig(cd)
    ensures k == ScanInterval ==> PrepareFinalConfig(cd)[k] == Get(cd, ScanInterval, VInt(60))
    ensures k == EnableImageEntity ==> PrepareFinalConfig(cd)[k] == Get(cd, EnableImageEntity, VBool(false))
    ensures k != ScanInterval && k != EnableImageEntity ==> k in cd && PrepareFinalConfig(cd)[k] == cd[k]
  {
    BasicsOrCopiedValue(cd, k);
  }

  lemma BasicsOrCopiedValue(cd: Dict, k: Key)
    requires SourceType in cd && BaseUrl in cd && Camera in cd && k in EntryBasics(cd) + CopiedGroups(cd)
    ensures k == ScanInterval ==> (EntryBasics(cd) + CopiedGroups(cd))[k] == Get(cd, ScanInterval, VInt(60))
    ensures k == EnableImageEntity ==> (EntryBasics(cd) + CopiedGroups(cd))[k] == Get(cd, EnableImageEntity, VBool(false))
    ensures k != ScanInterval && k != EnableImageEntity ==> k in cd && (EntryBasics(cd) + CopiedGroups(cd))[k] == cd[k]
  {
    if k in CopiedGroups(cd) {
      assert !IsEntryKey(k);
    } else {
      EntryBasicsKey(cd, k);
      EntryBasicsValue(cd, k);
    }
  }

  lemma FlagNotCopied(cd: Dict, k: Key)
    requires SourceType in cd && BaseUrl in cd && Camera in cd && k.IsEnableFlag()
    ensures k !in EntryBasics(cd) + CopiedGroups(cd)
  {
    EntryBasicsKey(cd, k);
  }

  /** A flag that is not a key of `d` is off. */
  lemma AbsentFlagsOff(d: Dict)
    requires EnableBrightnessAdjustment !in d && EnableColorAdjustment !in d
    ensures !BrightnessOn(d) && !ColorOn(d)
  {
  }

  /** As written, no enable flag reaches the created entry, so an entry made by the wizard
      never has the brightness or the colour calibration switched on. */
  lemma PrepareFinalConfigDropsFlags(cd: Dict)
    requires FinalConfigReady(cd)
    ensures EnableCropping !in PrepareFinalConfig(cd)
    ensures !BrightnessOn(PrepareFinalConfig(cd)) && !ColorOn(PrepareFinalConfig(cd))
  {
    var c := PrepareFinalConfig(cd);
    assert c == EntryBasics(cd) + CopiedGroups(cd);
    FlagNotCopied(cd, EnableCropping);
    FlagNotCopied(cd, EnableBrightnessAdjustment);
    FlagNotCopied(cd, EnableColorAdjustment);
    AbsentFlagsOff(c);
  }

  /** The adjustment flags the corrected configuration keeps. */
  predicate InFlags(cd: Dict, k: Key) {
    (BrightnessOn(cd) && k == EnableBrightnessAdjustment) || (ColorOn(cd) && k == EnableColorAdjustment)
  }

  /** `_prepare_final_config` as evidently intended: additionally keeps the two adjustment
      flags, which the coordinator needs to switch the calibrations on. */
  function PrepareFinalConfigCorrected(cd: Dict): Dict
    requires FinalConfigReady(cd)
  {
    PrepareFinalConfig(cd) + map k | k in cd && InFlags(cd, k) :: cd[k]
  }

  /** The corrected entry has the keys of the as-written one plus the flags that are on;
      it agrees with the as-written entry on every key of that one. */
  lemma CorrectedKey(cd: Dict, k: Key)
    requires FinalConfigReady(cd)
    ensures k in PrepareFinalConfigCorrected(cd) <==> InFinal(cd, k) || InFlags(cd, k)
    ensures k in PrepareFinalConfig(cd) ==> PrepareFinalConfigCorrected(cd)[k] == PrepareFinalConfig(cd)[k]
  {
    PrepareFinalConfigKey(cd, k);
  }

  /** The corrected entry switches each calibration on exactly when the wizard did. */
  lemma CorrectedKeepsFlags(cd: Dict)
    requires FinalConfigReady(cd)
    ensures BrightnessOn(PrepareFinalConfigCorrected(cd)) == BrightnessOn(cd)
    ensures ColorOn(PrepareFinalConfigCorrected(cd)) == ColorOn(cd)
  {
    var c := PrepareFinalConfigCorrected(cd);
    var flags := map k | k in cd && InFlags(cd, k) :: cd[k];
    assert c == (EntryBasics(cd) + CopiedGroups(cd)) + flags;
    FlagNotCopied(cd, EnableBrightnessAdjustment);
    FlagNotCopied(cd, EnableColorAdjustment);
    if BrightnessOn(cd) {
      assert EnableBrightnessAdjustment in flags;
    } else {
      assert EnableBrightnessAdjustment !in c;
    }
    if ColorOn(cd) {
      assert EnableColorAdjustment in flags;
    } else {
      assert EnableColorAdjustment !in c;
    }
  }

  /** `_get_entry_title`. */
  function EntryTitle(cd: Dict): (t: string)
    requires SourceType in cd
    requires cd[SourceType] == VStr("frigate") ==> CameraName in cd
  {
    if cd[SourceType] == VStr("frigate") then "Indoor Sun - " + Str(cd[CameraName])
    else "Indoor Sun - Snapshot"
  }

  /** Every title starts with "Indoor Sun - ", and two Frigate entries share a title only when
      their camera names print alike. */
  lemma EntryTitleNamesCamera(cd: Dict, cd': Dict)
    requires SourceType in cd && (cd[SourceType] == VStr("frigate") ==> CameraName in cd)
    requires SourceType in cd' && (cd'[SourceType] == VStr("frigate") ==> CameraName in cd')
    ensures Text.StartsWith(EntryTitle(cd), "Indoor Sun - ")
    ensures (cd[SourceType] == VStr("frigate") && cd'[SourceType] == VStr("frigate")
             && EntryTitle(cd) == EntryTitle(cd')) ==> Str(cd[CameraName]) == Str(cd'[CameraName])
  {
    var p := "Indoor Sun - ";
    if cd[SourceType] == VStr("frigate") && cd'[SourceType] == VStr("frigate") && EntryTitle(cd) == EntryTitle(cd') {
      assert Str(cd[CameraName]) == EntryTitle(cd)[|p|..];
      assert Str(cd'[CameraName]) == EntryTitle(cd')[|p|..];
    }
  }

  /** A config entry as created: a title and its data. */
  datatype Entry = Entry(title: string, data: Dict)

  function CreateEntry(cd: Dict): Entry
    requires FinalConfigReady(cd)
  {
    Entry(EntryTitle(cd), PrepareFinalConfig(cd))
  }

  function CreateEntryCorrected(cd: Dict): Entry
    requires FinalConfigReady(cd)
  {
    Entry(EntryTitle(cd), PrepareFinalConfigCorrected(cd))
  }

  // ---------------------------------------------------------------- the whole wizard

  /** The source form: one of the two source kinds. */
  predicate UserInput(user: Dict) {
    && SourceType in user && (forall k | k in user :: k == SourceType)
    && (user[SourceType] == VStr("frigate") || user[SourceType] == VStr("snapshot"))
  }

  /** The Frigate form: protocol, host and camera name as strings, and the port an int; the
      form's schema fills in a default port, so the port is always there. */
  predicate FrigateInput(conn: Dict) {
    && (forall k | k in conn :: k.IsFrigateField())
    && Protocol in conn && Host in conn && CameraName in conn && Port in conn
    && conn[Protocol].VStr? && conn[Host].VStr? && conn[CameraName].VStr? && conn[Port].VInt?
  }

  predicate SnapshotInput(conn: Dict) {
    SnapshotUrl in conn && (forall k | k in conn :: k == SnapshotUrl) && conn[SnapshotUrl].VStr?
  }

  /** The settings form: an integer interval and the image-entity flag, both always there
      since the schema gives both a default. */
  predicate SettingsInput(settings: Dict) {
    && (forall k | k in settings :: k == ScanInterval || k == EnableImageEntity)
    && ScanInterval in settings && settings[ScanInterval].VInt?
    && EnableImageEntity in settings && settings[EnableImageEntity].VBool?
  }

  predicate WizardInputs(user: Dict, conn: Dict, settings: Dict, image: Dict) {
    && UserInput(user)
    && (user[SourceType] == VStr("frigate") ==> FrigateInput(conn))
    && (user[SourceType] != VStr("frigate") ==> SnapshotInput(conn))
    && SettingsInput(settings)
    && ImageProcessingInput(image)
  }

  /** The URL the entry's coordinator will poll, read from `config_data`: Frigate's
      latest-frame API for the camera, or the snapshot URL itself. */
  function EntryUrl(cd: Dict): string
    requires SourceType in cd && BaseUrl in cd && Camera in cd
  {
    if cd[SourceType] == VStr("frigate") then LatestFrameUrl(Str(cd[BaseUrl]), cd[Camera]) else Str(cd[BaseUrl])
  }

  /** What a passed connection step leaves behind: `config_data` with the source type, the
      entry's `base_url` and `camera`, the source's own form keys and none of the enable flags,
      and a connection test of the very URL the entry will poll. */
  predicate Connected(user: Dict, c: Connection)
    requires UserInput(user)
  {
    var cd := c.config;
    && SourceType in cd && cd[SourceType] == user[SourceType]
    && BaseUrl in cd && Camera in cd
    && (user[SourceType] == VStr("frigate") ==> HasFrigateFields(cd))
    && (user[SourceType] != VStr("frigate") ==> SnapshotUrl in cd)
    && EnableCropping !in cd && EnableBrightnessAdjustment !in cd && EnableColorAdjustment !in cd
    && c.testUrl == EntryUrl(cd)
  }

  lemma FrigateConnects(user: Dict, conn: Dict)
    requires UserInput(user) && user[SourceType] == VStr("frigate") && FrigateInput(conn)
    ensures Connected(user, FrigateStep(user, conn))
  {
    FrigateStepKey(user, conn, SourceType);
    FrigateStepKey(user, conn, Protocol);
    FrigateStepKey(user, conn, Host);
    FrigateStepKey(user, conn, CameraName);
    FrigateStepKey(user, conn, EnableCropping);
    FrigateStepKey(user, conn, EnableBrightnessAdjustment);
    FrigateStepKey(user, conn, EnableColorAdjustment);
  }

  lemma SnapshotConnects(user: Dict, conn: Dict)
    requires UserInput(user) && user[SourceType] != VStr("frigate") && SnapshotInput(conn)
    requires SnapshotStep(user, conn).Ok?
    ensures Connected(user, SnapshotStep(user, conn).value)
  {
    SnapshotStepKey(user, conn, SourceType);
    SnapshotStepKey(user, conn, SnapshotUrl);
    SnapshotStepKey(user, conn, EnableCropping);
    SnapshotStepKey(user, conn, EnableBrightnessAdjustment);
    SnapshotStepKey(user, conn, EnableColorAdjustment);
  }

  /** The source form followed by the matching connection form. */
  function Connect(user: Dict, conn: Dict): (r: Result<Connection, ErrorKey>)
    requires UserInput(user)
    requires user[SourceType] == VStr("frigate") ==> FrigateInput(conn)
    requires user[SourceType] != VStr("frigate") ==> SnapshotInput(conn)
    ensures r.Ok? ==> Connected(user, r.value)
    ensures r.Err? <==> user[SourceType] != VStr("frigate") && !HttpUrl(Text.Strip(conn[SnapshotUrl].s))
  {
    if user[SourceType] == VStr("frigate") then
      FrigateConnects(user, conn);
      Ok(FrigateStep(user, conn))
    else
      var r := SnapshotStep(user, conn);
      if r.Ok? then SnapshotConnects(user, conn); r else r
  }

  /** The enable flags of the final `config_data` are those of the image-processing form. */
  lemma FlagsFromImage(cd: Dict, settings: Dict, image: Dict)
    requires EnableCropping !in cd && EnableBrightnessAdjustment !in cd && EnableColorAdjustment !in cd
    requires SettingsInput(settings)
    ensures CroppingOn(cd + settings + image) == CroppingOn(image)
    ensures BrightnessOn(cd + settings + image) == BrightnessOn(image)
    ensures ColorOn(cd + settings + image) == ColorOn(image)
  {
    assert EnableCropping !in settings && EnableBrightnessAdjustment !in settings
      && EnableColorAdjustment !in settings;
  }

  /** Neither later form touches the source type, `base_url` or `camera`. */
  lemma KeptAfterImage(cd: Dict, settings: Dict, image: Dict)
    requires SourceType in cd && BaseUrl in cd && Camera in cd
    requires SettingsInput(settings) && ImageProcessingInput(image)
    ensures var final := cd + settings + image;
      && SourceType in final && BaseUrl in final && Camera in final
      && final[SourceType] == cd[SourceType] && final[BaseUrl] == cd[BaseUrl] && final[Camera] == cd[Camera]
  {
    assert SourceType !in settings && SourceType !in image;
    assert BaseUrl !in settings && BaseUrl !in image;
    assert Camera !in settings && Camera !in image;
  }

  /** Settings and an accepted image-processing form on top of a connected `config_data`
      give everything `_prepare_final_config` reads, and keep the URL the test fetched. */
  lemma ReadyAfterImage(user: Dict, c: Connection, settings: Dict, image: Dict)
    requires UserInput(user) && Connected(user, c)
    requires SettingsInput(settings) && ImageProcessingInput(image)
    requires ImageProcessingErrors(image).None?
    ensures FinalConfigReady(c.config + settings + image)
    ensures (c.config + settings + image)[SourceType] == user[SourceType]
    ensures c.testUrl == EntryUrl(c.config + settings + image)
  {
    FlagsFromImage(c.config, settings, image);
    KeptAfterImage(c.config, settings, image);
  }

  /** The wizard's outcome: the final `config_data` and the URL its connection test fetched. */
  datatype Setup = Setup(config: Dict, testUrl: string)

  /** One run through the wizard: source, connection, (connection test passed or skipped),
      settings, image processing. It fails only on a snapshot URL that is not http(s) or on
      an image-processing error; a finished run has everything the entry needs, and its
      connection test fetched the URL the entry will poll. */
  function Wizard(user: Dict, conn: Dict, settings: Dict, image: Dict): (r: Result<Setup, ErrorKey>)
    requires WizardInputs(user, conn, settings, image)
    ensures r.Err? <==>
      (user[SourceType] != VStr("frigate") && !HttpUrl(Text.Strip(conn[SnapshotUrl].s)))
      || ImageProcessingErrors(image).Some?
    ensures r.Ok? ==> FinalConfigReady(r.value.config)
    ensures r.Ok? ==> r.value.config[SourceType] == user[SourceType]
    ensures r.Ok? ==> r.value.testUrl == EntryUrl(r.value.config)
  {
    var connected :- Connect(user, conn);
    var final :- ImageProcessingStep(connected.config + settings, image);
    ReadyAfterImage(user, connected, settings, image);
    Ok(Setup(final, connected.testUrl))
  }

  // ---------------------------------------------------------------- options form

  /** What the options schema hands the step. The interval, the image-entity flag and the
      four crop coordinates are always there, since each field has a default; a coordinate is
      an int, or None (the default when the entry has no crop). The brightness bounds and the
      colour bounds are offered only as whole groups, as ints. */
  predicate OptionsInput(input: Dict) {
    && (forall k | k in input ::
          k.IsCrop() || k.IsBrightnessBound() || k.IsColorBound() || k == ScanInterval || k == EnableImageEntity)
    && ScanInterval in input && input[ScanInterval].VInt?
    && EnableImageEntity in input && input[EnableImageEntity].VBool?
    && TopLeftX in input && TopLeftY in input && BottomRightX in input && BottomRightY in input
    && CropShape(input)
    && (forall k | k in input && (k.IsBrightnessBound() || k.IsColorBound()) :: input[k].VInt?)
    && (MinBrightness in input <==> MaxBrightness in input)
    && (MinColorR in input <==> MinColorG in input) && (MinColorR in input <==> MinColorB in input)
    && (MinColorR in input <==> MaxColorR in input) && (MinColorR in input <==> MaxColorG in input)
    && (MinColorR in input <==> MaxColorB in input)
  }

  /** The options form's defaults, read from the entry's current settings `cur`: the interval,
      the image-entity flag and the four crop coordinates (None when absent); the brightness
      bounds when `cur` has either, and the colour bounds when `cur` has either red bound. */
  function OptionsDefaults(cur: Dict): (d: Dict)
    ensures forall k: Key | k.IsCrop() :: k in d && d[k] == Get(cur, k, VNone)
    ensures ScanInterval in d && EnableImageEntity in d
  {
    map[
      ScanInterval := Get(cur, ScanInterval, VInt(60)),
      EnableImageEntity := Get(cur, EnableImageEntity, VBool(false)),
      TopLeftX := Get(cur, TopLeftX, VNone), TopLeftY := Get(cur, TopLeftY, VNone),
      BottomRightX := Get(cur, BottomRightX, VNone), BottomRightY := Get(cur, BottomRightY, VNone)]
    + (if MinBrightness in cur || MaxBrightness in cur then
         map[MinBrightness := Get(cur, MinBrightness, VInt(0)), MaxBrightness := Get(cur, MaxBrightness, VInt(100))]
       else map[])
    + (if MinColorR in cur || MaxColorR in cur then
         map[
           MinColorR := Get(cur, MinColorR, VInt(0)), MinColorG := Get(cur, MinColorG, VInt(0)),
           MinColorB := Get(cur, MinColorB, VInt(0)), MaxColorR := Get(cur, MaxColorR, VInt(255)),
           MaxColorG := Get(cur, MaxColorG, VInt(255)), MaxColorB := Get(cur, MaxColorB, VInt(255))]
       else map[])
  }

  /** The dict the step receives: the submitted fields, and the default of every field left
      out. */
  function OptionsForm(cur: Dict, submitted: Dict): (input: Dict)
    ensures forall k | k in submitted :: k in input && input[k] == submitted[k]
    ensures forall k: Key | k.IsCrop() && k !in submitted :: k in input && input[k] == Get(cur, k, VNone)
  {
    OptionsDefaults(cur) + submitted
  }

  predicate AnyCropKey(input: Dict) {
    TopLeftX in input || TopLeftY in input || BottomRightX in input || BottomRightY in input
  }

  /** Both keys of a range are given and `min >= max`. */
  predicate PairBad(input: Dict, lo: Key, hi: Key) {
    lo in input && hi in input && input[lo].VInt? && input[hi].VInt? && input[lo].i >= input[hi].i
  }

  predicate OptionsColorBad(input: Dict) {
    PairBad(input, MinColorR, MaxColorR)
    || PairBad(input, MinColorG, MaxColorG)
    || PairBad(input, MinColorB, MaxColorB)
  }

  /** The options form's checks, run brightness, colour, crop; the last failing one is reported.
      The crop check runs as soon as any coordinate key is submitted. */
  function OptionsErrors(input: Dict): (e: Option<ErrorKey>)
    requires OptionsInput(input)
    ensures e.None? <==>
      && !PairBad(input, MinBrightness, MaxBrightness)
      && !OptionsColorBad(input)
      && (AnyCropKey(input) ==> CropComplete(input) && CropOrdered(input))
    ensures e == Some(CropCoordinatesIncomplete) <==> AnyCropKey(input) && !CropComplete(input)
    ensures e == Some(CropCoordinatesInvalid) <==>
      AnyCropKey(input) && CropComplete(input) && !CropOrdered(input)
    ensures e == Some(ColorRangeInvalid) <==>
      (!AnyCropKey(input) || (CropComplete(input) && CropOrdered(input))) && OptionsColorBad(input)
    ensures e == Some(BrightnessRangeInvalid) <==>
      PairBad(input, MinBrightness, MaxBrightness) && !OptionsColorBad(input)
      && (!AnyCropKey(input) || (CropComplete(input) && CropOrdered(input)))
  {
    var afterBrightness :=
      if MinBrightness in input && MaxBrightness in input && input[MinBrightness].i >= input[MaxBrightness].i
      then Some(BrightnessRangeInvalid) else None;
    var afterColor := if OptionsColorBad(input) then Some(ColorRangeInvalid) else afterBrightness;
    if AnyCropKey(input) && CropError(input).Some? then CropError(input) else afterColor
  }

  /** `IndoorSunOptionsFlow.async_step_init` on a submitted form: the new options, or the error. */
  function OptionsStep(input: Dict): (r: Result<Dict, ErrorKey>)
    requires OptionsInput(input)
    ensures r.Ok? <==> OptionsErrors(input).None?
    ensures r.Ok? ==> r.value == input
    ensures r.Err? ==> r.error == OptionsErrors(input).value
  {
    match OptionsErrors(input)
    case Some(e) => Err(e)
    case None => Ok(input)
  }

  /** As written, the options of an entry without a crop cannot be saved unless all four
      corners are filled in: the schema hands an empty corner over as None, and the crop
      check runs whenever a corner key is present, which it always is. */
  lemma UncroppedEntryOptionsRejected(input: Dict)
    requires OptionsInput(input) && input[TopLeftX] == VNone
    ensures OptionsStep(input) == Err(CropCoordinatesIncomplete)
  {
    assert !CropComplete(input);
  }

  /** An entry the wizard creates without cropping has no crop coordinate. */
  lemma UncroppedEntryHasNoCorner(cd: Dict)
    requires FinalConfigReady(cd) && !CroppingOn(cd)
    ensures forall k: Key | k.IsCrop() :: k !in CreateEntry(cd).data
  {
    forall k: Key | k.IsCrop() ensures k !in CreateEntry(cd).data {
      PrepareFinalConfigKey(cd, k);
    }
  }

  /** Every entry the wizard creates without cropping is such an entry: whatever else is
      submitted, leaving the top-left x empty gets the options rejected. */
  lemma WizardEntryOptionsRejected(cd: Dict, submitted: Dict)
    requires FinalConfigReady(cd) && !CroppingOn(cd)
    requires TopLeftX !in submitted
    ensures var input := OptionsForm(CreateEntry(cd).data, submitted);
      && input[TopLeftX] == VNone
      && (OptionsInput(input) ==> OptionsStep(input) == Err(CropCoordinatesIncomplete))
  {
    UncroppedEntryHasNoCorner(cd);
    var input := OptionsForm(CreateEntry(cd).data, submitted);
    if OptionsInput(input) {
      UncroppedEntryOptionsRejected(input);
    }
  }

  /** Some corner is given a value (not None). */
  predicate AnyCornerGiven(input: Dict) {
    Present(input, TopLeftX) || Present(input, TopLeftY) || Present(input, BottomRightX) || Present(input, BottomRightY)
  }

  /** The options checks as evidently intended: the crop check runs only when some corner is
      given a value, so that empty corners mean "no crop". */
  function OptionsErrorsCorrected(input: Dict): (e: Option<ErrorKey>)
    requires OptionsInput(input)
    ensures e.None? <==>
      && !PairBad(input, MinBrightness, MaxBrightness)
      && !OptionsColorBad(input)
      && (AnyCornerGiven(input) ==> CropComplete(input) && CropOrdered(input))
    ensures e == Some(CropCoordinatesIncomplete) <==> AnyCornerGiven(input) && !CropComplete(input)
    ensures e == Some(CropCoordinatesInvalid) <==>
      AnyCornerGiven(input) && CropComplete(input) && !CropOrdered(input)
    ensures AnyCornerGiven(input) ==> e == OptionsErrors(input)
    ensures !AnyCornerGiven(input) && OptionsColorBad(input) ==> e == Some(ColorRangeInvalid)
    ensures !AnyCornerGiven(input) && !OptionsColorBad(input) && PairBad(input, MinBrightness, MaxBrightness) ==>
      e == Some(BrightnessRangeInvalid)
  {
    var afterBrightness :=
      if MinBrightness in input && MaxBrightness in input && input[MinBrightness].i >= input[MaxBrightness].i
      then Some(BrightnessRangeInvalid) else None;
    var afterColor := if OptionsColorBad(input) then Some(ColorRangeInvalid) else afterBrightness;
    if AnyCornerGiven(input) && CropError(input).Some? then CropError(input) else afterColor
  }

  /** The options to save, with the empty corners left out, so that the coordinator does not
      see a crop made of None values. */
  function GivenOptions(input: Dict): (o: Dict)
    ensures forall k :: k in o <==> k in input && (k.IsCrop() ==> input[k] != VNone)
    ensures forall k | k in o :: o[k] == input[k]
  {
    map k | k in input && (k.IsCrop() ==> input[k] != VNone) :: input[k]
  }

  /** The options step as evidently intended. */
  function OptionsStepCorrected(input: Dict): (r: Result<Dict, ErrorKey>)
    requires OptionsInput(input)
    ensures r.Ok? <==> OptionsErrorsCorrected(input).None?
    ensures r.Ok? ==> r.value == GivenOptions(input)
    ensures r.Err? ==> r.error == OptionsErrorsCorrected(input).value
  {
    match OptionsErrorsCorrected(input)
    case Some(e) => Err(e)
    case None => Ok(GivenOptions(input))
  }

  /** With the corrected step, the options of an entry without a crop can be saved with the
      corners left empty (when the ranges are valid), and the entry stays uncropped. */
  lemma CorrectedOptionsKeepUncropped(cur: Dict, input: Dict)
    requires OptionsInput(input)
    requires forall k: Key | k.IsCrop() :: k !in cur && input[k] == VNone
    requires !PairBad(input, MinBrightness, MaxBrightness) && !OptionsColorBad(input)
    ensures var r := OptionsStepCorrected(input);
      && r.Ok?
      && !HasCrop(r.value)
      && !HasCrop(cur + r.value)
  {
    assert !AnyCornerGiven(input);
  }

  /** So every entry the wizard creates without cropping keeps working after its options are
      saved. */
  lemma CorrectedWizardOptionsKeepUncropped(cd: Dict, submitted: Dict)
    requires FinalConfigReady(cd) && !CroppingOn(cd)
    requires forall k | k in submitted :: !k.IsCrop()
    ensures var input := OptionsForm(CreateEntry(cd).data, submitted);
      OptionsInput(input) && !PairBad(input, MinBrightness, MaxBrightness) && !OptionsColorBad(input) ==>
        var r := OptionsStepCorrected(input);
        && r.Ok?
        && !HasCrop(CreateEntry(cd).data + r.value)
  {
    UncroppedEntryHasNoCorner(cd);
    var input := OptionsForm(CreateEntry(cd).data, submitted);
    if OptionsInput(input) && !PairBad(input, MinBrightness, MaxBrightness) && !OptionsColorBad(input) {
      CorrectedOptionsKeepUncropped(CreateEntry(cd).data, input);
    }
  }
}
