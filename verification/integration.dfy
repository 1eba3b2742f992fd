/** How the setup wizard and the coordinator fit together: the entry the wizard creates is
    loaded by `IndoorSunCoordinator.__init__`, which then polls the URL the wizard's
    connection test fetched, crops to the rectangle the wizard validated, and (as written)
    never switches a calibration on. */
module Integration {
  import opened Wrappers
  import opened Values
  import opened ConfigFlow
  import Coordinator
  import Text

  /** The numeric settings a finished `config_data` hands on are integers. */
  predicate NumbersTyped(cd: Dict) {
    && (ScanInterval in cd ==> cd[ScanInterval].VInt?)
    && (CroppingOn(cd) ==> IntIn(cd, TopLeftX) && IntIn(cd, TopLeftY) && IntIn(cd, BottomRightX) && IntIn(cd, BottomRightY))
    && (BrightnessOn(cd) ==> IntIn(cd, MinBrightness) && IntIn(cd, MaxBrightness))
    && (ColorOn(cd) ==>
          IntIn(cd, MinColorR) && IntIn(cd, MinColorG) && IntIn(cd, MinColorB)
          && IntIn(cd, MaxColorR) && IntIn(cd, MaxColorG) && IntIn(cd, MaxColorB))
  }

  /** `extra` sets none of the keys the coordinator reads apart from the two adjustment flags. */
  predicate OnlyFlags(extra: Dict) {
    && SourceType !in extra && SnapshotUrl !in extra && BaseUrl !in extra && Camera !in extra
    && ScanInterval !in extra && EnableImageEntity !in extra
    && TopLeftX !in extra && TopLeftY !in extra && BottomRightX !in extra && BottomRightY !in extra
    && MinBrightness !in extra && MaxBrightness !in extra
    && MinColorR !in extra && MinColorG !in extra && MinColorB !in extra
    && MaxColorR !in extra && MaxColorG !in extra && MaxColorB !in extra
  }

  /** The created entry's data, with `extra` on top. */
  function Loaded(cd: Dict, extra: Dict): Dict
    requires SourceType in cd && BaseUrl in cd && Camera in cd
  {
    EntryBasics(cd) + CopiedGroups(cd) + extra
  }

  /** Group key `k` reaches `c` as `_prepare_final_config` copies it: present exactly when
      `cd` has it and its group is copied, and then with `cd`'s value. */
  predicate Carries(cd: Dict, c: Dict, k: Key)
    requires SourceType in cd
  {
    && (k in c <==> k in cd && InGroups(cd, k))
    && (k in c ==> c[k] == cd[k])
  }

  /** The basic keys of `c` hold `cd`'s values, the interval defaulting to 60. */
  predicate CarriesBasics(cd: Dict, c: Dict)
    requires SourceType in cd && BaseUrl in cd && Camera in cd
  {
    && SourceType in c && BaseUrl in c && Camera in c && ScanInterval in c
    && c[SourceType] == cd[SourceType] && c[BaseUrl] == cd[BaseUrl] && c[Camera] == cd[Camera]
    && c[ScanInterval] == Get(cd, ScanInterval, VInt(60))
  }

  predicate CarriesCrop(cd: Dict, c: Dict)
    requires SourceType in cd
  {
    Carries(cd, c, TopLeftX) && Carries(cd, c, TopLeftY) && Carries(cd, c, BottomRightX) && Carries(cd, c, BottomRightY)
  }

  predicate CarriesBrightness(cd: Dict, c: Dict)
    requires SourceType in cd
  {
    Carries(cd, c, MinBrightness) && Carries(cd, c, MaxBrightness)
  }

  predicate CarriesColor(cd: Dict, c: Dict)
    requires SourceType in cd
  {
    && Carries(cd, c, MinColorR) && Carries(cd, c, MinColorG) && Carries(cd, c, MinColorB)
    && Carries(cd, c, MaxColorR) && Carries(cd, c, MaxColorG) && Carries(cd, c, MaxColorB)
  }

  lemma LoadedGroupKey(cd: Dict, extra: Dict, k: Key)
    requires SourceType in cd && BaseUrl in cd && Camera in cd && !IsEntryKey(k) && k !in extra
    ensures Carries(cd, Loaded(cd, extra), k)
  {
    EntryBasicsKey(cd, k);
  }

  lemma LoadedBasics(cd: Dict, extra: Dict)
    requires SourceType in cd && BaseUrl in cd && Camera in cd
    requires SourceType !in extra && BaseUrl !in extra && Camera !in extra && ScanInterval !in extra
    ensures CarriesBasics(cd, Loaded(cd, extra))
  {
    EntryBasicsValue(cd, SourceType);
    EntryBasicsValue(cd, BaseUrl);
    EntryBasicsValue(cd, Camera);
    EntryBasicsValue(cd, ScanInterval);
  }

  lemma LoadedCrop(cd: Dict, extra: Dict)
    requires SourceType in cd && BaseUrl in cd && Camera in cd && OnlyFlags(extra)
    ensures CarriesCrop(cd, Loaded(cd, extra))
  {
    LoadedGroupKey(cd, extra, TopLeftX);
    LoadedGroupKey(cd, extra, TopLeftY);
    LoadedGroupKey(cd, extra, BottomRightX);
    LoadedGroupKey(cd, extra, BottomRightY);
  }

  lemma LoadedBrightness(cd: Dict, extra: Dict)
    requires SourceType in cd && BaseUrl in cd && Camera in cd && OnlyFlags(extra)
    ensures CarriesBrightness(cd, Loaded(cd, extra))
  {
    LoadedGroupKey(cd, extra, MinBrightness);
    LoadedGroupKey(cd, extra, MaxBrightness);
  }

  lemma LoadedColor(cd: Dict, extra: Dict)
    requires SourceType in cd && BaseUrl in cd && Camera in cd && OnlyFlags(extra)
    ensures CarriesColor(cd, Loaded(cd, extra))
  {
    LoadedGroupKey(cd, extra, MinColorR);
    LoadedGroupKey(cd, extra, MinColorG);
    LoadedGroupKey(cd, extra, MinColorB);
    LoadedGroupKey(cd, extra, MaxColorR);
    LoadedGroupKey(cd, extra, MaxColorG);
    LoadedGroupKey(cd, extra, MaxColorB);
  }

  /** The crop keys reach `c` together, exactly when cropping was enabled. */
  lemma CropCarried(cd: Dict, c: Dict)
    requires SourceType in cd && CarriesCrop(cd, c)
    requires CroppingOn(cd) ==> IntIn(cd, TopLeftX) && IntIn(cd, TopLeftY) && IntIn(cd, BottomRightX) && IntIn(cd, BottomRightY)
    ensures HasCrop(c) <==> CroppingOn(cd)
    ensures HasCrop(c) ==>
      && c[TopLeftX].VInt? && c[TopLeftY].VInt? && c[BottomRightX].VInt? && c[BottomRightY].VInt?
      && c[TopLeftX] == cd[TopLeftX] && c[TopLeftY] == cd[TopLeftY]
      && c[BottomRightX] == cd[BottomRightX] && c[BottomRightY] == cd[BottomRightY]
  {
  }

  /** A carried range bound is an integer when its group's bounds are. */
  lemma BoundCarried(cd: Dict, c: Dict, k: Key)
    requires SourceType in cd && Carries(cd, c, k) && (k.IsBrightnessBound() || k.IsColorBound())
    requires k.IsBrightnessBound() && BrightnessOn(cd) ==> IntIn(cd, k)
    requires k.IsColorBound() && ColorOn(cd) ==> IntIn(cd, k)
    ensures Coordinator.IntLike(c, k)
  {
  }

  lemma ColorCarried(cd: Dict, c: Dict)
    requires SourceType in cd && CarriesColor(cd, c)
    requires ColorOn(cd) ==>
      IntIn(cd, MinColorR) && IntIn(cd, MinColorG) && IntIn(cd, MinColorB)
      && IntIn(cd, MaxColorR) && IntIn(cd, MaxColorG) && IntIn(cd, MaxColorB)
    ensures && Coordinator.IntLike(c, MinColorR) && Coordinator.IntLike(c, MinColorG) && Coordinator.IntLike(c, MinColorB)
            && Coordinator.IntLike(c, MaxColorR) && Coordinator.IntLike(c, MaxColorG) && Coordinator.IntLike(c, MaxColorB)
  {
    BoundCarried(cd, c, MinColorR);
    BoundCarried(cd, c, MinColorG);
    BoundCarried(cd, c, MinColorB);
    BoundCarried(cd, c, MaxColorR);
    BoundCarried(cd, c, MaxColorG);
    BoundCarried(cd, c, MaxColorB);
  }

  /** Data carried from a `config_data` with integer settings has integer settings. */
  lemma NumbersCarried(cd: Dict, c: Dict)
    requires SourceType in cd && BaseUrl in cd && Camera in cd && NumbersTyped(cd)
    requires CarriesBasics(cd, c) && CarriesCrop(cd, c) && CarriesBrightness(cd, c) && CarriesColor(cd, c)
    ensures Coordinator.NumericSettingsValid(c)
  {
    BoundCarried(cd, c, MinBrightness);
    BoundCarried(cd, c, MaxBrightness);
    ColorCarried(cd, c);
  }

  /** The coordinator accepts data with both required keys and integer settings. */
  lemma Accepted(c: Dict)
    requires BaseUrl in c && Camera in c && Coordinator.NumericSettingsValid(c)
    ensures Coordinator.FromEntry(c, map[]).Ok?
    ensures Coordinator.Describes(c, Coordinator.FromEntry(c, map[]).value)
  {
    assert Coordinator.Merge(c, map[]) == c;
  }

  /** The settings the coordinator reads from carried data: the source type, the URL
      `config_data` names, and the crop rectangle exactly when cropping was enabled. */
  lemma SettingsCarried(cd: Dict, c: Dict, cfg: Coordinator.Config)
    requires SourceType in cd && BaseUrl in cd && Camera in cd
    requires CarriesBasics(cd, c) && CarriesCrop(cd, c)
    requires CroppingOn(cd) ==> IntIn(cd, TopLeftX) && IntIn(cd, TopLeftY) && IntIn(cd, BottomRightX) && IntIn(cd, BottomRightY)
    requires Coordinator.Describes(c, cfg)
    ensures cfg.sourceType == cd[SourceType]
    ensures Coordinator.FetchUrl(cfg) == EntryUrl(cd)
    ensures cfg.crop.Some? <==> CroppingOn(cd)
    ensures cfg.crop.Some? ==>
      && VInt(cfg.crop.value.x0) == cd[TopLeftX] && VInt(cfg.crop.value.y0) == cd[TopLeftY]
      && VInt(cfg.crop.value.x1) == cd[BottomRightX] && VInt(cfg.crop.value.y1) == cd[BottomRightY]
  {
    CropCarried(cd, c);
  }

  /** The calibrations the coordinator reads from carried data: switched on as the data's
      flags say, with the wizard's brightness range when brightness was enabled. */
  lemma CalibrationCarried(cd: Dict, c: Dict, cfg: Coordinator.Config)
    requires SourceType in cd && CarriesBrightness(cd, c)
    requires BrightnessOn(cd) ==> IntIn(cd, MinBrightness) && IntIn(cd, MaxBrightness)
    requires Coordinator.Describes(c, cfg)
    ensures cfg.brightnessEnabled == BrightnessOn(c) && cfg.colorEnabled == ColorOn(c)
    ensures BrightnessOn(cd) ==>
      VInt(cfg.brightness.lo) == cd[MinBrightness] && VInt(cfg.brightness.hi) == cd[MaxBrightness]
  {
  }

  /** The coordinator accepts the created entry's data (with `extra` on top), polls the URL
      `config_data` names, crops to the wizard's rectangle exactly when cropping was enabled,
      and switches the calibrations on as the data's flags say. */
  lemma LoadedConfig(cd: Dict, extra: Dict)
    requires FinalConfigReady(cd) && NumbersTyped(cd) && OnlyFlags(extra)
    ensures var r := Coordinator.FromEntry(Loaded(cd, extra), map[]);
      && r.Ok?
      && r.value.sourceType == cd[SourceType]
      && Coordinator.FetchUrl(r.value) == EntryUrl(cd)
      && (r.value.crop.Some? <==> CroppingOn(cd))
      && (r.value.crop.Some? ==>
            && VInt(r.value.crop.value.x0) == cd[TopLeftX] && VInt(r.value.crop.value.y0) == cd[TopLeftY]
            && VInt(r.value.crop.value.x1) == cd[BottomRightX] && VInt(r.value.crop.value.y1) == cd[BottomRightY])
      && r.value.brightnessEnabled == BrightnessOn(Loaded(cd, extra))
      && r.value.colorEnabled == ColorOn(Loaded(cd, extra))
      && (BrightnessOn(cd) ==>
            VInt(r.value.brightness.lo) == cd[MinBrightness] && VInt(r.value.brightness.hi) == cd[MaxBrightness])
  {
    var c := Loaded(cd, extra);
    LoadedBasics(cd, extra);
    LoadedCrop(cd, extra);
    LoadedBrightness(cd, extra);
    LoadedColor(cd, extra);
    NumbersCarried(cd, c);
    Accepted(c);
    var cfg := Coordinator.FromEntry(c, map[]).value;
    SettingsCarried(cd, c, cfg);
    CalibrationCarried(cd, c, cfg);
  }

  /** The entry as created loads, polls the URL `config_data` names, crops exactly when
      cropping was enabled, and has both calibrations off whatever the wizard chose. */
  lemma CreatedEntryLoads(cd: Dict)
    requires FinalConfigReady(cd) && NumbersTyped(cd)
    ensures var r := Coordinator.FromEntry(CreateEntry(cd).data, map[]);
      && r.Ok?
      && Coordinator.FetchUrl(r.value) == EntryUrl(cd)
      && (r.value.crop.Some? <==> CroppingOn(cd))
      && (r.value.crop.Some? ==>
            && VInt(r.value.crop.value.x0) == cd[TopLeftX] && VInt(r.value.crop.value.y0) == cd[TopLeftY]
            && VInt(r.value.crop.value.x1) == cd[BottomRightX] && VInt(r.value.crop.value.y1) == cd[BottomRightY])
      && !r.value.brightnessEnabled && !r.value.colorEnabled
  {
    assert CreateEntry(cd).data == Loaded(cd, map[]);
    LoadedConfig(cd, map[]);
    PrepareFinalConfigDropsFlags(cd);
  }

  /** The flags the corrected entry adds touch no other setting. */
  lemma FlagsOnlyFlags(cd: Dict)
    ensures OnlyFlags(map k | k in cd && InFlags(cd, k) :: cd[k])
  {
  }

  /** The corrected entry loads like the created one, and switches each calibration on
      exactly when the wizard did, with the range the wizard validated. */
  lemma CorrectedEntryLoads(cd: Dict)
    requires FinalConfigReady(cd) && NumbersTyped(cd)
    ensures var r := Coordinator.FromEntry(CreateEntryCorrected(cd).data, map[]);
      && r.Ok?
      && Coordinator.FetchUrl(r.value) == EntryUrl(cd)
      && (r.value.crop.Some? <==> CroppingOn(cd))
      && r.value.brightnessEnabled == BrightnessOn(cd)
      && r.value.colorEnabled == ColorOn(cd)
      && (BrightnessOn(cd) ==>
            VInt(r.value.brightness.lo) == cd[MinBrightness] && VInt(r.value.brightness.hi) == cd[MaxBrightness])
  {
    var flags := map k | k in cd && InFlags(cd, k) :: cd[k];
    FlagsOnlyFlags(cd);
    assert CreateEntryCorrected(cd).data == Loaded(cd, flags);
    LoadedConfig(cd, flags);
    CorrectedKeepsFlags(cd);
  }

  // ---------------------------------------------------------------- the wizard end to end

  /** Neither connection step sets the interval. */
  lemma ConnectLeavesInterval(user: Dict, conn: Dict)
    requires UserInput(user)
    requires user[SourceType] == VStr("frigate") ==> FrigateInput(conn)
    requires user[SourceType] != VStr("frigate") ==> SnapshotInput(conn)
    requires Connect(user, conn).Ok?
    ensures ScanInterval !in Connect(user, conn).value.config
  {
    assert ScanInterval !in user && ScanInterval !in conn;
    if user[SourceType] == VStr("frigate") {
      FrigateStepKey(user, conn, ScanInterval);
    } else {
      SnapshotStepKey(user, conn, ScanInterval);
    }
  }

  /** An accepted image-processing form: integer crop corners in order when cropping is
      enabled, a non-empty brightness range when brightness is enabled. */
  lemma ImageValidated(image: Dict)
    requires ImageProcessingInput(image) && ImageProcessingErrors(image).None?
    ensures CroppingOn(image) ==>
      && IntIn(image, TopLeftX) && IntIn(image, TopLeftY) && IntIn(image, BottomRightX) && IntIn(image, BottomRightY)
      && image[TopLeftX].i < image[BottomRightX].i && image[TopLeftY].i < image[BottomRightY].i
    ensures BrightnessOn(image) ==> image[MinBrightness].i < image[MaxBrightness].i
  {
  }

  /** The interval of the final `config_data` comes from the settings form. */
  lemma IntervalFromSettings(cd: Dict, settings: Dict, image: Dict)
    requires ScanInterval !in cd && ScanInterval !in image && SettingsInput(settings)
    ensures ScanInterval in cd + settings + image ==> (cd + settings + image)[ScanInterval].VInt?
  {
  }

  /** The final `config_data` has the settings form's interval (an integer, if given) and the
      image form's flags. */
  lemma SettingsAndFlags(cd: Dict, settings: Dict, image: Dict)
    requires EnableCropping !in cd && EnableBrightnessAdjustment !in cd && EnableColorAdjustment !in cd
    requires ScanInterval !in cd
    requires SettingsInput(settings) && ImageProcessingInput(image)
    ensures var final := cd + settings + image;
      && (ScanInterval in final ==> final[ScanInterval].VInt?)
      && CroppingOn(final) == CroppingOn(image)
      && BrightnessOn(final) == BrightnessOn(image)
      && ColorOn(final) == ColorOn(image)
  {
    FlagsFromImage(cd, settings, image);
    assert ScanInterval !in image;
    IntervalFromSettings(cd, settings, image);
  }

  /** What the image-processing form contributes to the final `config_data`: its flags,
      and, for each enabled group, its values, which passed validation. */
  lemma ImageDecides(cd: Dict, settings: Dict, image: Dict)
    requires EnableCropping !in cd && EnableBrightnessAdjustment !in cd && EnableColorAdjustment !in cd
    requires ScanInterval !in cd
    requires SettingsInput(settings) && ImageProcessingInput(image) && ImageProcessingErrors(image).None?
    ensures var final := cd + settings + image;
      && NumbersTyped(final)
      && CroppingOn(final) == CroppingOn(image)
      && BrightnessOn(final) == BrightnessOn(image)
      && ColorOn(final) == ColorOn(image)
      && (CroppingOn(image) ==>
            && final[TopLeftX] == image[TopLeftX] && final[TopLeftY] == image[TopLeftY]
            && final[BottomRightX] == image[BottomRightX] && final[BottomRightY] == image[BottomRightY]
            && image[TopLeftX].i < image[BottomRightX].i && image[TopLeftY].i < image[BottomRightY].i)
      && (BrightnessOn(image) ==>
            && final[MinBrightness] == image[MinBrightness] && final[MaxBrightness] == image[MaxBrightness]
            && image[MinBrightness].i < image[MaxBrightness].i)
  {
    SettingsAndFlags(cd, settings, image);
    ImageValidated(image);
  }

  /** The final `config_data` of a finished wizard run, and what it is made of. */
  lemma WizardFinal(user: Dict, conn: Dict, settings: Dict, image: Dict)
    requires WizardInputs(user, conn, settings, image) && Wizard(user, conn, settings, image).Ok?
    ensures Connect(user, conn).Ok?
    ensures var c := Connect(user, conn).value;
      && Wizard(user, conn, settings, image).value.config == c.config + settings + image
      && EnableCropping !in c.config && EnableBrightnessAdjustment !in c.config
      && EnableColorAdjustment !in c.config && ScanInterval !in c.config
      && ImageProcessingErrors(image).None?
  {
    ConnectLeavesInterval(user, conn);
  }

  /** The entry a finished wizard run creates loads; its coordinator polls exactly the URL the
      connection test fetched and crops to the rectangle the wizard validated when cropping
      was enabled; and both calibrations are off, whatever the wizard chose. */
  lemma WizardEntryPollsTestedUrl(user: Dict, conn: Dict, settings: Dict, image: Dict)
    requires WizardInputs(user, conn, settings, image) && Wizard(user, conn, settings, image).Ok?
    ensures var s := Wizard(user, conn, settings, image).value;
      var r := Coordinator.FromEntry(CreateEntry(s.config).data, map[]);
      && r.Ok?
      && Coordinator.FetchUrl(r.value) == s.testUrl
      && (r.value.crop.Some? <==> CroppingOn(image))
      && (r.value.crop.Some? ==>
            r.value.crop.value.x0 < r.value.crop.value.x1 && r.value.crop.value.y0 < r.value.crop.value.y1)
      && !r.value.brightnessEnabled && !r.value.colorEnabled
  {
    WizardFinal(user, conn, settings, image);
    var c := Connect(user, conn).value;
    ImageDecides(c.config, settings, image);
    CreatedEntryLoads(Wizard(user, conn, settings, image).value.config);
  }

  /** With the corrected `_prepare_final_config` the entry keeps the wizard's calibration
      choices: each is on exactly when the form enabled it, and an enabled brightness
      calibration uses the form's range, which the form guarantees is non-empty. */
  lemma CorrectedWizardKeepsCalibration(user: Dict, conn: Dict, settings: Dict, image: Dict)
    requires WizardInputs(user, conn, settings, image) && Wizard(user, conn, settings, image).Ok?
    ensures var s := Wizard(user, conn, settings, image).value;
      var r := Coordinator.FromEntry(CreateEntryCorrected(s.config).data, map[]);
      && r.Ok?
      && Coordinator.FetchUrl(r.value) == s.testUrl
      && r.value.brightnessEnabled == BrightnessOn(image)
      && r.value.colorEnabled == ColorOn(image)
      && (r.value.brightnessEnabled ==>
            && VInt(r.value.brightness.lo) == image[MinBrightness]
            && VInt(r.value.brightness.hi) == image[MaxBrightness]
            && r.value.brightness.lo < r.value.brightness.hi)
  {
    WizardFinal(user, conn, settings, image);
    var c := Connect(user, conn).value;
    ImageDecides(c.config, settings, image);
    CorrectedEntryLoads(Wizard(user, conn, settings, image).value.config);
  }

  /** The image-processing form of the example run: brightness calibration enabled with the
      range 20..80, colour ranges left at their defaults, no cropping. */
  function CalibratedImage(): Dict {
    map[
      EnableCropping := VBool(false), EnableColorAdjustment := VBool(false),
      EnableBrightnessAdjustment := VBool(true), MinBrightness := VInt(20), MaxBrightness := VInt(80),
      MinColorR := VInt(0), MinColorG := VInt(0), MinColorB := VInt(0),
      MaxColorR := VInt(255), MaxColorG := VInt(255), MaxColorB := VInt(255)]
  }

  /** The example form sets only image-processing keys, and no crop corner. */
  lemma CalibratedImageKeys()
    ensures forall k | k in CalibratedImage() :: k.IsBrightnessBound() || k.IsColorBound() || k.IsEnableFlag()
    ensures CropShape(CalibratedImage())
  {
  }

  /** The example form has every range bound as an integer, with the brightness range 20..80. */
  lemma CalibratedImageBounds()
    ensures IntIn(CalibratedImage(), MinBrightness) && IntIn(CalibratedImage(), MaxBrightness)
    ensures IntIn(CalibratedImage(), MinColorR) && IntIn(CalibratedImage(), MinColorG) && IntIn(CalibratedImage(), MinColorB)
    ensures IntIn(CalibratedImage(), MaxColorR) && IntIn(CalibratedImage(), MaxColorG) && IntIn(CalibratedImage(), MaxColorB)
    ensures CalibratedImage()[MinBrightness] == VInt(20) && CalibratedImage()[MaxBrightness] == VInt(80)
  {
  }

  /** The example form sets all three flags, enabling only the brightness calibration. */
  lemma CalibratedImageFlags()
    ensures var image := CalibratedImage();
      && EnableCropping in image && EnableBrightnessAdjustment in image && EnableColorAdjustment in image
      && image[EnableCropping] == VBool(false) && image[EnableBrightnessAdjustment] == VBool(true)
      && image[EnableColorAdjustment] == VBool(false)
    ensures BrightnessOn(CalibratedImage()) && !CroppingOn(CalibratedImage()) && !ColorOn(CalibratedImage())
  {
  }

  /** The example form has the image-processing form's shape, with the range 20..80. */
  lemma CalibratedImageShape()
    ensures ImageProcessingInput(CalibratedImage())
    ensures CalibratedImage()[MinBrightness] == VInt(20) && CalibratedImage()[MaxBrightness] == VInt(80)
  {
    CalibratedImageKeys();
    CalibratedImageBounds();
    CalibratedImageFlags();
  }

  /** A form with only a non-empty brightness range enabled passes validation. */
  lemma BrightnessOnlyAccepted(image: Dict)
    requires ImageProcessingInput(image) && !CroppingOn(image) && !ColorOn(image)
    requires image[MinBrightness].i < image[MaxBrightness].i
    ensures ImageProcessingErrors(image).None?
  {
  }

  /** The example form passes validation with brightness enabled. */
  lemma CalibratedImageAccepted()
    ensures ImageProcessingInput(CalibratedImage())
    ensures BrightnessOn(CalibratedImage()) && !CroppingOn(CalibratedImage()) && !ColorOn(CalibratedImage())
    ensures ImageProcessingErrors(CalibratedImage()).None?
  {
    CalibratedImageShape();
    CalibratedImageFlags();
    BrightnessOnlyAccepted(CalibratedImage());
  }

  /** The example run's inputs: a snapshot camera at "http://c", default settings. */
  function ExampleUser(): Dict {
    map[SourceType := VStr("snapshot")]
  }

  function ExampleConnection(): Dict {
    map[SnapshotUrl := VStr("http://c")]
  }

  /** The settings form left at its defaults. */
  function ExampleSettings(): Dict {
    map[ScanInterval := VInt(60), EnableImageEntity := VBool(false)]
  }

  lemma ExampleSettingsAccepted(settings: Dict)
    requires settings == ExampleSettings()
    ensures SettingsInput(settings)
  {
  }

  /** A run whose snapshot URL is http(s) and whose image form passes validation finishes. */
  lemma SnapshotRunFinishes(user: Dict, conn: Dict, settings: Dict, image: Dict)
    requires WizardInputs(user, conn, settings, image) && user[SourceType] != VStr("frigate")
    requires HttpUrl(Text.Strip(conn[SnapshotUrl].s)) && ImageProcessingErrors(image).None?
    ensures Wizard(user, conn, settings, image).Ok?
  {
  }

  /** The example's source and connection forms are well-formed, and its URL is http. */
  lemma ExampleConnectionAccepted(user: Dict, conn: Dict)
    requires user == ExampleUser() && conn == ExampleConnection()
    ensures UserInput(user) && user[SourceType] != VStr("frigate") && SnapshotInput(conn)
    ensures HttpUrl(Text.Strip(conn[SnapshotUrl].s))
  {
    Text.StripTrimmed("http://c");
  }

  /** The example run passes every step of the wizard. */
  lemma ExampleRunFinishes(user: Dict, conn: Dict, settings: Dict, image: Dict)
    requires user == ExampleUser() && conn == ExampleConnection()
    requires settings == ExampleSettings() && image == CalibratedImage()
    ensures WizardInputs(user, conn, settings, image)
    ensures Wizard(user, conn, settings, image).Ok?
  {
    ExampleConnectionAccepted(user, conn);
    CalibratedImageAccepted();
    ExampleSettingsAccepted(settings);
    SnapshotRunFinishes(user, conn, settings, image);
  }

  /** A concrete run that shows the dropped flag: a snapshot camera at "http://c" whose
      brightness calibration is enabled with range 20..80 in the wizard, yet the created
      entry's coordinator runs with the brightness calibration off. */
  lemma DroppedCalibrationExample(user: Dict, conn: Dict, settings: Dict, image: Dict)
    requires user == ExampleUser() && conn == ExampleConnection()
    requires settings == ExampleSettings() && image == CalibratedImage()
    ensures WizardInputs(user, conn, settings, image)
    ensures var r := Wizard(user, conn, settings, image);
      && r.Ok?
      && BrightnessOn(image)
      && var e := Coordinator.FromEntry(CreateEntry(r.value.config).data, map[]);
         e.Ok? && !e.value.brightnessEnabled
  {
    ExampleRunFinishes(user, conn, settings, image);
    CalibratedImageAccepted();
    WizardEntryPollsTestedUrl(user, conn, settings, image);
  }

  /** The same run with the corrected `_prepare_final_config` calibrates brightness over
      20..80. */
  lemma CorrectedCalibrationExample(user: Dict, conn: Dict, settings: Dict, image: Dict)
    requires user == ExampleUser() && conn == ExampleConnection()
    requires settings == ExampleSettings() && image == CalibratedImage()
    ensures WizardInputs(user, conn, settings, image)
    ensures var r := Wizard(user, conn, settings, image);
      && r.Ok?
      && var e := Coordinator.FromEntry(CreateEntryCorrected(r.value.config).data, map[]);
         e.Ok? && e.value.brightnessEnabled && e.value.brightness == Coordinator.Calibration(20, 80)
  {
    ExampleRunFinishes(user, conn, settings, image);
    CalibratedImageAccepted();
    CalibratedImageShape();
    CorrectedWizardKeepsCalibration(user, conn, settings, image);
  }
}
