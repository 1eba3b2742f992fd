# Indoor Sun, modelled in Dafny

A Home Assistant integration called Indoor Sun turns a camera frame into an "indoor sun"
reading. The frame comes either from a Frigate NVR (`<base_url>/api/<camera>/latest.jpg`) or
from a plain snapshot URL. From it the integration computes:

- the mean red, green and blue of the frame, or of a cropped rectangle of it;
- the BT.709 relative luminance of that mean, as a percentage;
- optional linear calibrations of the brightness and of each colour channel.

A setup wizard builds the config entry, and an options form can later override its settings.
The integration has two parts. The current `hass_indoor_sun` is the coordinator plus the
config flow. The older `indoor_sun` is a Frigate-only poller with no cropping or calibration.

This project models those parts as pure Dafny functions:

| file | module | what it holds |
|---|---|---|
| `wrappers.dfy` | `Wrappers` | `Option` and `Result` |
| `values.dfy` | `Values` | config dicts as `map<Key, Value>`; `Key` lists every config key the integration reads or writes; `Value` is None, bool, int or str |
| `decimal.dfy`, `text.dfy` | `Decimal`, `Text` | `str(int)` and its parser; `str.strip`, `startswith`, `split` |
| `numeric.dfy` | `Numeric` | Python's `int()` on a float (truncation), `round()` (half to even), `round(x, 2)`, clamping |
| `frames.dfy` | `Frames` | decoded RGB frames, PIL's `crop`, per-channel sums and means |
| `analysis.dfy` | `Analysis` | the BT.709 luma, the brightness and colour calibrations, the `"r, g, b"` label |
| `polling.dfy` | `Polling` | one HTTP reply and the ways a poll fails |
| `coordinator.dfy` | `Coordinator` | `IndoorSunCoordinator`: loading settings from the entry, choosing the URL, checking the status, `_process_image` |
| `legacy.dfy` | `Legacy` | the `indoor_sun` coordinator |
| `config_flow.dfy` | `ConfigFlow` | the wizard steps, their validators, `_prepare_final_config`, `_get_entry_title`, the options form |
| `integration.dfy` | `Integration` | what the coordinator loads from an entry the wizard created |

Python floats are modelled as exact `real`s. Python's `int()` and `round()` are written out
explicitly, because Dafny's operators differ from them.

## Model

Source paths are relative to the repository root.

| member | source | states |
|---|---|---|
| Coordinator.Merge | custom_components/hass_indoor_sun/__init__.py:98 | options override entry data: the merged keys are the union, an option's value wins, and other keys keep the entry's value |
| Coordinator.CropSetting | custom_components/hass_indoor_sun/__init__.py:107-122 | a crop rectangle exists exactly when all four coordinate keys are present, and its corners are those four values; a present coordinate that is not an integer is an error |
| Coordinator.FromEntry | custom_components/hass_indoor_sun/__init__.py:98-140 | loading fails with a missing `base_url` first and then a missing `camera`; otherwise it succeeds exactly when the interval, the crop coordinates (when all four are present) and the bounds of each enabled calibration are integers; a loaded config describes the merged dict, with defaults frigate, 60, False, 0..100 and 0..255, and switches each calibration on exactly when its flag is truthy |
| Coordinator.BoundSetting | custom_components/hass_indoor_sun/__init__.py:124-140 | a calibration bound is read as given or defaulted; it must be an integer only when its calibration is enabled, and a bound of a disabled calibration that is not an integer is ignored, since the source never uses it |
| Coordinator.Poll | custom_components/hass_indoor_sun/__init__.py:184-213 | `image_url` is the Frigate latest-frame URL or the snapshot URL, whatever the outcome; a transport failure or a status other than 200 is an error carrying that status; a poll succeeds exactly when the reply is 200, decodes, and gives a non-empty region; its reading is the analysis of that frame |
| Coordinator.ChannelOut | custom_components/hass_indoor_sun/__init__.py:276-295 | a channel reported in 0..255 for an in-gamut mean; uncalibrated, it is within 0.5 of the mean; calibrated, it is the scaled mean |
| Coordinator.Analyse | custom_components/hass_indoor_sun/__init__.py:228-318 | the brightness is in 0..100 and within 0.005 of the (calibrated) BT.709 percentage of the region's mean; channels are in 0..255 and track the means; the label is exactly `"r, g, b"` of the reported channels and parses back to them; the flags report crop and calibrations; image data is present exactly when the image entity is enabled |
| Coordinator.SolidFrameReading | custom_components/hass_indoor_sun/__init__.py:249-296 | an uncalibrated solid-colour frame reads exactly that colour, and its brightness is the luma percentage of that colour rounded to two places |
| Coordinator.CropInvariantOnSolid | custom_components/hass_indoor_sun/__init__.py:235-260 | on a solid frame, cropping to any inside rectangle changes neither brightness nor colour |
| Coordinator.ColourCalibrationKeepsBrightness | custom_components/hass_indoor_sun/__init__.py:259-289 | switching colour calibration on or off never changes the brightness, which is computed from the uncalibrated means |
| Frames.Crop | custom_components/hass_indoor_sun/__init__.py:239-241 | a crop has the rectangle's size, and each pixel is the frame's pixel at the offset position |
| Frames.PixelCount | custom_components/hass_indoor_sun/__init__.py:249-250 | a `width`×`height` frame has `width * height` pixels |
| Frames.Mean | custom_components/hass_indoor_sun/__init__.py:251-257 | every channel mean lies in 0..255 |
| Frames.UniformMean | custom_components/hass_indoor_sun/__init__.py:251-257 | the mean of one repeated pixel is that pixel's channel |
| Frames.CropOfSolid | custom_components/hass_indoor_sun/__init__.py:239-241 | a crop of a solid frame is solid in the same colour |
| Analysis.MeanColour | custom_components/hass_indoor_sun/__init__.py:249-257 | the three means are in gamut |
| Analysis.BrightnessPercent | custom_components/hass_indoor_sun/__init__.py:259-260 | the BT.709 percentage is in 0..100 for an in-gamut colour and equals `level / 255 * 100` for a grey |
| Analysis.AdjustBrightness | custom_components/hass_indoor_sun/__init__.py:262-273 | disabled, or with an empty or inverted span, the percentage is left alone; enabled with a positive span, the result is clamped to 0..100 |
| Analysis.AdjustBrightnessCalibrates | custom_components/hass_indoor_sun/__init__.py:264-272 | the minimum maps to 0 and the maximum to 100; anything at or below the minimum reads 0, at or above the maximum reads 100; in between the map is linear |
| Analysis.AdjustBrightnessMonotone | custom_components/hass_indoor_sun/__init__.py:264-272 | the brightness calibration preserves order |
| Analysis.AdjustBrightnessNeutral | custom_components/hass_indoor_sun/__init__.py:264-272 | calibrating over the default range 0..100 changes nothing |
| Analysis.Scale | custom_components/hass_indoor_sun/__init__.py:278-284 | with distinct bounds the scaled channel is in 0..255; with equal bounds it is the truncated mean |
| Analysis.ScaleInGamut | custom_components/hass_indoor_sun/__init__.py:278-284 | an in-gamut mean scales into 0..255 whatever the bounds |
| Analysis.ScaleMonotone | custom_components/hass_indoor_sun/__init__.py:278-284 | the colour calibration preserves order |
| Analysis.ScaleCalibrates | custom_components/hass_indoor_sun/__init__.py:278-284 | at or below the minimum a channel reads 0, at or above the maximum it reads 255 |
| Analysis.ScaleLinear | custom_components/hass_indoor_sun/__init__.py:278-284 | between the bounds a channel is the stretched value `(v - lo) / (hi - lo) * 255` with its fraction dropped |
| Analysis.ScaleNeutral | custom_components/hass_indoor_sun/__init__.py:278-284 | calibrating over the default range 0..255 only truncates |
| Analysis.RgbLabelRoundTrip | custom_components/hass_indoor_sun/__init__.py:296 | the `"r, g, b"` string splits back into the three channels |
| Numeric.Trunc | custom_components/hass_indoor_sun/__init__.py:281-283 | `int()` of a float truncates toward zero |
| Numeric.RoundHalfEven | custom_components/hass_indoor_sun/__init__.py:293-295 | `round()` is within 0.5, and a tie goes to the even integer |
| Numeric.RoundBetween | custom_components/hass_indoor_sun/__init__.py:293-295 | rounding a value between two integers stays between them |
| Numeric.RoundTo2 | custom_components/hass_indoor_sun/__init__.py:292 | `round(x, 2)` is within 0.005 of `x` |
| Numeric.RoundTo2Percent | custom_components/hass_indoor_sun/__init__.py:292 | a percentage rounded to two places is still in 0..100 |
| Decimal.IntToStringRoundTrip | custom_components/hass_indoor_sun/__init__.py:296 | `str()` of an integer parses back to that integer |
| ConfigFlow.FormPort | custom_components/hass_indoor_sun/config_flow.py:141-142 | a given port is kept; a missing one becomes 443 for https and 5000 otherwise |
| ConfigFlow.FrigateStep | custom_components/hass_indoor_sun/config_flow.py:140-156 | the step records the port, `base_url` as `protocol://host:port`, the camera from `camera_name`, and tests that camera's latest-frame URL |
| ConfigFlow.FrigateStepKey | custom_components/hass_indoor_sun/config_flow.py:148-150 | every submitted field and every earlier value stays, except the three keys the step sets |
| ConfigFlow.BaseUrlRoundTrip | custom_components/hass_indoor_sun/config_flow.py:144-146 | protocol, host and port can be read back from the base URL |
| ConfigFlow.SnapshotStep | custom_components/hass_indoor_sun/config_flow.py:195-206 | the stripped URL is accepted exactly when it starts with `http://` or `https://`; then `base_url` is the stripped URL, the camera is "snapshot", and the test fetches that URL |
| ConfigFlow.SnapshotStepKey | custom_components/hass_indoor_sun/config_flow.py:201-203 | an accepted snapshot form is recorded as submitted, keeping earlier values |
| Text.StripCutsSpace | custom_components/hass_indoor_sun/config_flow.py:196 | `strip()` removes exactly the surrounding whitespace |
| ConfigFlow.CropError | custom_components/hass_indoor_sun/config_flow.py:311-327 | incomplete coordinates are reported as incomplete; complete but unordered ones as invalid; otherwise no error |
| ConfigFlow.ImageProcessingErrors | custom_components/hass_indoor_sun/config_flow.py:310-342 | the form passes exactly when every enabled group is valid; `color_range_invalid` exactly when colour is enabled with a bad range; `brightness_range_invalid` exactly when brightness is enabled with a bad range and colour is not at fault; `crop_coordinates_incomplete` exactly when cropping is enabled with a missing or None corner and neither range is at fault; `crop_coordinates_invalid` exactly when cropping is enabled with four unordered corners and neither range is at fault |
| ConfigFlow.ImageProcessingStep | custom_components/hass_indoor_sun/config_flow.py:310-350 | the step fails with the reported error or adds the form to `config_data` |
| ConfigFlow.PrepareFinalConfigKey | custom_components/hass_indoor_sun/config_flow.py:358-414 | the entry has the five basic keys, plus exactly the keys of the crop, brightness and colour groups that were enabled |
| ConfigFlow.PrepareFinalConfigValue | custom_components/hass_indoor_sun/config_flow.py:358-414 | each entry value is copied from `config_data`, except that a missing interval becomes 60 and a missing image-entity flag becomes False |
| ConfigFlow.PrepareFinalConfigDropsFlags | custom_components/hass_indoor_sun/config_flow.py:358-414 | as written, no enable flag reaches the entry, so neither calibration is switched on there |
| ConfigFlow.CorrectedKey | custom_components/hass_indoor_sun/config_flow.py:358-414 | the corrected entry has the as-written keys with the same values, plus the enabled adjustment flags |
| ConfigFlow.CorrectedKeepsFlags | custom_components/hass_indoor_sun/config_flow.py:382-397 | the corrected entry switches each calibration on exactly when the wizard did |
| ConfigFlow.EntryTitleNamesCamera | custom_components/hass_indoor_sun/config_flow.py:416-425 | every title starts with "Indoor Sun - "; two Frigate entries share a title only when they name the same camera |
| ConfigFlow.Connect | custom_components/hass_indoor_sun/config_flow.py:100-206 | the source form followed by its connection form fails only for a snapshot URL that is not http(s); on success it keeps the source type and records `base_url` and the camera, and its test URL is the URL the entry will poll |
| ConfigFlow.ReadyAfterImage | custom_components/hass_indoor_sun/config_flow.py:344-350 | after the settings and image-processing forms, `config_data` has everything the entry builder reads, and the same source and URL |
| ConfigFlow.Wizard | custom_components/hass_indoor_sun/config_flow.py:100-350 | a whole run fails only on a rejected snapshot URL or a rejected image-processing form; otherwise it creates an entry from ready `config_data` with the chosen source, whose test URL is the URL its coordinator will poll |
| ConfigFlow.OptionsErrors | custom_components/hass_indoor_sun/config_flow.py:456-495 | the options pass exactly when each given range is ordered and any crop is complete and ordered; a crop error is reported over a colour error, which is reported over a brightness error |
| ConfigFlow.OptionsStep | custom_components/hass_indoor_sun/config_flow.py:456-498 | accepted options are stored as submitted; otherwise the reported error is shown |
| ConfigFlow.OptionsDefaults | custom_components/hass_indoor_sun/config_flow.py:500-557 | the form always fills the interval, the image-entity flag and all four crop coordinates, a coordinate the entry lacks becoming None |
| ConfigFlow.OptionsForm | custom_components/hass_indoor_sun/config_flow.py:500-557 | the dict the options step receives keeps every submitted field and fills each crop coordinate left out with the entry's value or None |
| ConfigFlow.UncroppedEntryOptionsRejected | custom_components/hass_indoor_sun/config_flow.py:471-495 | as written, options whose top-left x is None are always rejected as `crop_coordinates_incomplete`, whatever the other fields hold |
| ConfigFlow.WizardEntryOptionsRejected | custom_components/hass_indoor_sun/config_flow.py:471-495 | as written, for every entry the wizard creates with cropping off, the form hands over a None top-left x when that field is left empty, so the options are rejected |
| ConfigFlow.OptionsErrorsCorrected | custom_components/hass_indoor_sun/config_flow.py:471-495 | with the crop check run only when some corner has a value: incomplete or unordered corners are reported exactly then, and then the errors are those of the as-written check; with no corner given, a bad colour range is reported over a bad brightness range |
| ConfigFlow.OptionsStepCorrected | custom_components/hass_indoor_sun/config_flow.py:456-498 | the corrected step accepts exactly when the corrected check finds nothing, and stores the options without their empty corners |
| ConfigFlow.CorrectedOptionsKeepUncropped | custom_components/hass_indoor_sun/config_flow.py:471-495 | with the corrected step, options with valid ranges and four None corners are accepted for an entry without a crop, and the saved options and the merged settings have no crop |
| ConfigFlow.CorrectedWizardOptionsKeepUncropped | custom_components/hass_indoor_sun/config_flow.py:471-495 | with the corrected step, for every entry the wizard creates with cropping off, options with valid ranges that leave the corners empty are accepted and the entry stays uncropped |
| Integration.LoadedConfig | custom_components/hass_indoor_sun/__init__.py:98-140 | a config entry built from ready `config_data`, with any extra flags, loads; it polls the URL the wizard chose, crops exactly when cropping was on, and uses the entry's crop and brightness values |
| Integration.CreatedEntryLoads | custom_components/hass_indoor_sun/config_flow.py:344-414 | the entry the wizard creates loads and polls the tested URL with the chosen crop, but with both calibrations off |
| Integration.CorrectedEntryLoads | custom_components/hass_indoor_sun/config_flow.py:358-414 | the corrected entry loads with each calibration on exactly when the wizard enabled it, using the wizard's brightness bounds |
| Integration.WizardEntryPollsTestedUrl | custom_components/hass_indoor_sun/__init__.py:184-188 | after any successful wizard run, the coordinator polls the URL the connection test fetched, crops exactly when cropping was on with an ordered rectangle, and has both calibrations off |
| Integration.CorrectedWizardKeepsCalibration | custom_components/hass_indoor_sun/config_flow.py:329-331 | with the corrected entry builder, a wizard run's calibrations are on exactly as the image form set them, with the form's ordered bounds |
| Integration.DroppedCalibrationExample | custom_components/hass_indoor_sun/config_flow.py:382-389 | a concrete snapshot run with brightness calibration 20..80 enabled passes the wizard, yet its coordinator loads with brightness calibration off |
| Integration.CorrectedCalibrationExample | custom_components/hass_indoor_sun/config_flow.py:382-389 | with the corrected builder the same run loads brightness calibration 20..80 |
| Legacy.FromEntry | custom_components/indoor_sun/__init__.py:49-51 | the legacy coordinator loads exactly when `base_url` and `camera` are present and the interval is an integer, defaulting to 60; a missing `base_url` is reported first, then a missing `camera` |
| Legacy.Poll | custom_components/indoor_sun/__init__.py:68-114 | a transport failure or a non-200 status is an error; a poll succeeds exactly when the reply is 200 and decodes to a non-empty frame; its reading is the analysis of the whole frame |
| Legacy.Analyse | custom_components/indoor_sun/__init__.py:86-114 | the brightness is in 0..100 and within 0.005 of the BT.709 percentage; channels are in 0..255 and within 0.5 of the means; the label is exactly `"r, g, b"` of the channels and parses back |
| Legacy.SolidFrameReading | custom_components/indoor_sun/__init__.py:92-114 | a solid-colour frame reads exactly its colour |
| Legacy.CurrentAnalyserExtendsLegacy | custom_components/indoor_sun/__init__.py:92-114 | with no crop and no calibration, the current analyser reports the legacy brightness, channels and label |
| Legacy.SameUrlAsCurrentFrigate | custom_components/indoor_sun/__init__.py:71 | the legacy coordinator polls the same URL as a current Frigate entry with the same base URL and camera |
| Legacy.PollAgreesWithCurrent | custom_components/indoor_sun/__init__.py:68-114 | a legacy poll and a current Frigate poll with the same base URL and camera, no crop and no calibration fetch the same URL, fail on the same replies with the same errors, and on success agree on brightness, channels and label |

## Left out

- HTTP, sessions and timeouts are left out. A poll takes the reply (status and decoded frame, or a transport failure) as a parameter.
- The wizard's connection test (`async_step_test_connection`, config_flow.py:214-272) and its "continue anyway" choice are left out. `ConfigFlow.Wizard` treats the test as passed or skipped, because either way the wizard proceeds to the settings form.
- Scheduling, update intervals and caching in `DataUpdateCoordinator` are left out, as are entities, device info, logging and translations. None of them affects the values computed.
- JPEG decoding, the RGB conversion, JPEG re-encoding at quality 85 and base64 are left out. The frame arrives decoded, and the image data carries the analysed region itself.
- The voluptuous schemas are stated as input predicates: `UserInput`, `FrigateInput`, `SnapshotInput`, `SettingsInput`, `ImageProcessingInput` and `OptionsInput`. They fix key types and say which keys a schema default always fills: the Frigate port, the interval and image-entity flag of the settings form, the three enable flags of the image form, and the interval, image-entity flag and four crop coordinates of the options form, whose bound groups come whole or not at all. `ConfigFlow.OptionsDefaults` states the options form's default values. Numeric ranges such as 0..100 and 5..3600 are not encoded, because no validator or computation depends on them.
- Config keys outside `Values.Key` are not modelled, since the integration never reads them.
- The unused `_apply_color_adjustment` and `_apply_brightness_adjustment` helpers of the coordinator (`custom_components/hass_indoor_sun/__init__.py:327-357`) are left out, because nothing calls them.
- Floating point is modelled as exact reals. A computed float can differ from CPython's in the last bit, and where a result is then truncated or rounded to an integer that difference can become a whole unit.
- Analysis.Scale: a calibrated channel can be one above the program's value when the exact scaled value is an integer, because CPython's float quotient can fall just below it before `int()` truncates. For example, red values 5, 5 and 6 with range 5..6 give 85 here and 84 in CPython.
- Coordinator.Analyse: inherits the `Analysis.Scale` difference for calibrated channels; likewise, a `round()` or `round(x, 2)` that meets an exact tie here may round the other way on the float CPython computes.
- Coordinator.Analyse: states the brightness only to within 0.005 and an uncalibrated channel only to within 0.5, rather than as the exact float result of `round`.
- Coordinator.Poll: a crop rectangle that reaches outside the frame fails with `CropOutsideFrame`. PIL would instead pad with black pixels; the padding is not modelled.
- Coordinator.FromEntry: a non-integer interval, crop coordinate (a string, or a None in a hand-edited entry; the options step as written rejects a None corner) or bound of an enabled calibration fails at load with `NotAnInteger`. The source fails the interval when the coordinator is created, but a bad crop coordinate or enabled bound only on each poll that uses it. Bounds of a disabled calibration are never read, in the source or here.
- Coordinator.FetchUrl: takes the string form of `base_url` (`Values.Str`), where the source uses the value as it is; they differ only for a non-string `base_url`, which the wizard never stores, since both connection forms record it as a string. It has no contract of its own. `Coordinator.Poll`, `Legacy.SameUrlAsCurrentFrigate` and the `Integration` lemmas state what it returns.
- The `Integration` lemmas are about the first load of an entry, before any options have been saved (options are empty).
- The colour check of the image-processing form stops at the first bad channel. It is modelled as "some channel is bad", which gives the same error.
- The legacy coordinator reads only `entry.data`, as its source does; its options are not merged.

## Findings

| source | as written | input that shows it | evidently intended | confidence | as-written member | corrected member |
|---|---|---|---|---|---|---|
| custom_components/hass_indoor_sun/config_flow.py:358-414 | `_prepare_final_config` copies the brightness and colour bounds when their flags are set. It never copies `enable_brightness_adjustment` or `enable_color_adjustment`. The coordinator reads both flags with the default False, so a calibration chosen in the wizard never takes effect. The options form has no field for them either | source "snapshot", snapshot URL `http://c`, image form with `enable_brightness_adjustment` True, `min_brightness` 20 and `max_brightness` 80 | the entry keeps the enable flags, so the coordinator calibrates as configured | high; not executed | Integration.DroppedCalibrationExample | Integration.CorrectedCalibrationExample |
| custom_components/hass_indoor_sun/config_flow.py:471-495 | The options form fills each crop coordinate the entry lacks with None (lines 509-520), so every coordinate key is always in the submitted dict. The crop check runs whenever any coordinate key is present, and then rejects a None corner. So an entry without a crop cannot save its options unless all four corners are filled in | an entry created with cropping off, options submitted leaving every corner empty | the crop check runs only when some corner has a value, and empty corners are not saved, so the entry stays uncropped | medium; not executed | ConfigFlow.WizardEntryOptionsRejected | ConfigFlow.CorrectedWizardOptionsKeepUncropped |
