# Heart-rate and SpO2 measurement core, modelled in Dafny

This project models the computational core of an Android health app. The app
estimates pulse rate and blood-oxygen saturation from the front camera by
remote photoplethysmography (rPPG). It also validates the login, register and
edit-profile forms, classifies a reading, groups the measurement history by
day and computes body-health figures (BMI, ideal weight, daily calories).

The estimator exists in two copies, and both are modelled:

- **The split pipeline.**
  - `FrameAnalyzer` finds the face (Haar cascade, three strategies, re-scan once a second).
  - It picks skin pixels by the RSVR rule: a 5-tap median-smoothed saturation histogram, its first maximum, a window of 20 % around it, and the mask.
  - `RppgLogic` keeps a fixed-capacity FIFO of RGB means, four parallel lists.
  - From that FIFO it computes the CHROM pulse signal, the band-limited spectral peak and an SpO2 ratio estimate.
  - `RppgProcessor` is the measurement session: streaming and done flags, a readiness gate, the 15-second clock latch, the accumulated readings and their means.
- **The monolithic `Heartbeat` class.**
  - Same session shape, but a forehead band instead of skin selection.
  - Signal lists that are never evicted.
  - Readings drawn at random from fixed ranges.

Modules, one per source concern:

- Supporting modules:
  - `Wrappers`: Option and Result.
  - `KotlinNumbers`: Int range, `Double.toInt`, Int wrap-around, `coerceIn`.
  - `KotlinText`: `trim`, `lowercase`, `toIntOrNull`.
  - `Averages`: sum, mean and their bounds.
  - `Peaks`: the first-maximum search of a spectrum or histogram, an in-place loop over an array.
- The rPPG pipeline:
  - `FaceDetection`: frames, rectangles, the detector as a parameter, strategy choice and scale-back.
  - `SkinRegion`: sorting, the upper median, histogram smoothing, the RSVR threshold window, the mask.
  - `FrameAnalysis`: the `FrameAnalyzer` class.
  - `RppgSignal`: the signal functions and the `RppgLogic` class.
  - `RppgSession`: the `RppgProcessor` class.
  - `HeartbeatSession`: the forehead band and the `Heartbeat` class.
- The rest of the app:
  - `Measurements`: condition labels and colours.
  - `Users`: the profile record and enum parsing.
  - `BodyHealth`: BMI, ideal weight, calories, the BMI bands and card colours.
  - `AuthValidation`: the email, register and login validators.
  - `EditProfile`: the edit-form validator.
  - `HealthHistory`: sorting and grouping of the history.

How the model is built:

- **Classes.** Classes whose fields the source updates in place are Dafny classes. Their lists are `seq` fields, and each method states the whole new state.
- **Specification state.** `RppgLogic` carries a ghost `pushed` history. Its buffer is proved to be the last `requiredSamples` samples pushed, in order.
- **Doubles** are `real`, with two exceptions:
  - `Double.toInt` is written out: it truncates toward zero and saturates to the Int range.
  - Where its argument is an Int times a fixed fraction (the forehead band corners, `v / 0.5` when a half-size face is scaled back), the conversion is computed with integer division rounding toward zero. A lemma proves it equal to `Double.toInt` of the real value.
  - Int counters wrap modulo 2^32.
- **Numerics and external calls** are parameters of the operations that use them:
  - the clock (`now`) and the random draws;
  - OpenCV (detector, HSV saturation, masked mean);
  - the square root and the DFT bin power;
  - the email pattern and `toDoubleOrNull`;
  - the day of a timestamp and the date string.

Behaviour of the code worth noting; the model follows the code:

- **Strategy-2 face hits are never adopted.** In detectFace the copy into a released matrix's array throws. The exception is caught and the face state stays as it was.
- **The two session classes check different things.** `Heartbeat.rppg` does not check `measurementDone`. `RppgProcessor.computeVitals` does.
- **The two forms trim differently.** The edit-profile form does not trim its fields; only the email is trimmed, inside `isEmailValid`. The register form trims every field.

## Model

| member | source | states |
|---|---|---|
| KotlinNumbers.Trunc | ui/rppg/RppgLogic/FrameAnalyzer.kt:254 | truncation toward zero: for x ≥ 0 the result is the largest integer ≤ x, for x < 0 the smallest integer ≥ x |
| KotlinNumbers.DoubleToInt | ui/rppg/RppgLogic/FrameAnalyzer.kt:254 | `Double.toInt` always lies in the Int range and equals the truncation whenever x is inside that range |
| KotlinNumbers.SaturateInt | ui/rppg/RppgLogic/FrameAnalyzer.kt:254 | the saturation step of `Double.toInt`: the result is in the Int range and equals the input when the input already is |
| KotlinNumbers.NonNegativeRatioFloor | ui/rppg/CamUtility/HeartbeatWebViewScreen.kt:633-636 | for a ≥ 0 and d > 0 the floor of the real quotient a / d is the integer quotient |
| KotlinNumbers.TruncOfRatio | ui/rppg/CamUtility/HeartbeatWebViewScreen.kt:633-636 | truncating the real quotient of two integers toward zero equals integer division rounding toward zero, for either sign of the dividend |
| KotlinNumbers.DoubleToIntOfRatio | ui/rppg/CamUtility/HeartbeatWebViewScreen.kt:633-636 | `Double.toInt` of an integer quotient equals the saturated truncating integer division |
| KotlinNumbers.TruncMonotone | ui/rppg/RppgLogic/FrameAnalyzer.kt:254 | truncation is monotone |
| KotlinNumbers.DoubleToIntMonotone | ui/rppg/CamUtility/HeartbeatWebViewScreen.kt:633-636 | saturating truncation is monotone, so ordered corner coordinates stay ordered |
| KotlinNumbers.LongToInt | ui/rppg/RppgLogic/FrameAnalyzer.kt:56 | an Int increment wraps: the result is in the Int range, congruent modulo 2^32, and unchanged when already in range |
| KotlinNumbers.CoerceIn | ui/rppg/RppgLogic/Rppg_Logic.kt:248 | `coerceIn` lands in [lo, hi] and is the identity inside it |
| KotlinText.TrimStart | ui/Auth/Auth_ViewModel.kt:29-36 | the result is a suffix whose first char is not whitespace, and only whitespace was removed |
| KotlinText.TrimEnd | ui/Auth/Auth_ViewModel.kt:29-36 | the result is a prefix whose last char is not whitespace, and only whitespace was removed |
| KotlinText.Trim | ui/Auth/Auth_ViewModel.kt:29-36 | the trimmed string is no longer and is empty or begins and ends with a non-whitespace char |
| KotlinText.TrimOfTrimmed | ui/Auth/Auth_ViewModel.kt:29-36 | a string with no surrounding whitespace is its own trim |
| KotlinText.TrimIdempotent | ui/Auth/Auth_ViewModel.kt:18-22 | trimming twice is trimming once |
| KotlinText.TrimStartSkipsWhitespace | ui/Auth/Auth_ViewModel.kt:20 | leading whitespace does not change `trimStart` |
| KotlinText.TrimEndSkipsWhitespace | ui/Auth/Auth_ViewModel.kt:20 | trailing whitespace does not change `trimEnd` |
| KotlinText.TrimStartOfSuffixed | ui/Auth/Auth_ViewModel.kt:20 | a suffix survives `trimStart` unless the whole prefix was blank |
| KotlinText.TrimIgnoresSurroundingWhitespace | ui/Auth/Auth_ViewModel.kt:18-22 | whitespace on either side never changes `trim` |
| KotlinText.TrimOfSpacePrefixed | ui/Auth/Auth_ViewModel.kt:32 | a leading space is removed by `trim` from an otherwise trimmed string |
| KotlinText.TrimOfBlank | ui/Auth/Auth_ViewModel.kt:53 | a blank string trims to empty |
| KotlinText.Lower | data/model/User.kt:22 | `lowercase` preserves length and maps every char independently |
| KotlinText.LowerIdempotent | data/model/Measurement.kt:27 | lowercasing twice is lowercasing once |
| KotlinText.ParseInt | ui/Auth/Auth_ViewModel.kt:41-43 | `toIntOrNull` accepts only Int-range values and never a string with surrounding whitespace |
| KotlinText.ParsePositiveDigits | ui/Auth/Auth_ViewModel.kt:41-43 | a decimal numeral in the Int range, with or without `+`, parses to its value |
| KotlinText.ParseIntRejectsBlank | ui/Auth/Auth_ViewModel.kt:41-43 | a blank string does not parse |
| Averages.MeanOrZero | ui/rppg/RppgLogic/RppgProcessor.kt:168-178 | the mean of an empty list is reported as 0 |
| Averages.SumAppend | ui/rppg/RppgLogic/RppgProcessor.kt:168-178 | the sum of a concatenation is the sum of the sums |
| Averages.SumBounds | ui/rppg/RppgLogic/RppgProcessor.kt:168-178 | a sum of n values in [lo, hi] lies in [n·lo, n·hi] |
| Averages.MeanWithin | ui/rppg/RppgLogic/RppgProcessor.kt:168-178 | the mean of values in [lo, hi] lies in [lo, hi] |
| Averages.SumShifted | ui/rppg/RppgLogic/Rppg_Logic.kt:126-129 | subtracting c from every value lowers the sum by n·c |
| Averages.MeanShifted | ui/rppg/RppgLogic/Rppg_Logic.kt:126-129 | subtracting c from every value lowers the mean by c |
| Averages.SumScaled | ui/rppg/RppgLogic/Rppg_Logic.kt:156-164 | dividing every value by d divides the sum by d |
| Averages.MeanOfConstant | ui/rppg/RppgLogic/Rppg_Logic.kt:146-151 | the mean of a constant list is that constant |
| Averages.AveragingExample | ui/rppg/RppgLogic/RppgProcessor.kt:168-178 | two concrete means: 70, 72, 74 average to 72 and 96, 97, 98 to 97 |
| Peaks.FirstPositivePeak | ui/rppg/RppgLogic/Rppg_Logic.kt:204-211 | the argmax loop over bins lo..hi returns, when some bin is positive, a positive maximum strictly larger than every earlier bin; otherwise `lo` |
| Peaks.PeakUnique | ui/rppg/RppgLogic/Rppg_Logic.kt:204-211 | that index is unique |
| Peaks.PeakOfNonNegativeIsFirstArgmax | ui/rppg/RppgLogic/FrameAnalyzer.kt:244-251 | over non-negative values the result is a maximum, and every earlier index holds a strictly smaller value |
| FaceDetection.ReadyAfterLoad | ui/rppg/RppgLogic/FrameAnalyzer.kt:35-49 | a loaded cascade makes the classifier ready, an empty one not ready, and a load error leaves readiness as it was |
| FaceDetection.ScaleBackDoubles | ui/rppg/RppgLogic/FrameAnalyzer.kt:170-181 | a hit on the half-size image is stored with x, y, width and height doubled |
| FaceDetection.UnscaleIsToInt | ui/rppg/RppgLogic/FrameAnalyzer.kt:175-178 | the integer form of a coordinate scaled back equals `(v / 0.5).toInt()` exactly |
| FaceDetection.ChooseFace | ui/rppg/RppgLogic/FrameAnalyzer.kt:113-184 | nothing changes without a classifier; a first-strategy hit is scaled back; a second-strategy hit changes nothing; a full-size hit is stored as is; the face is lost exactly when all three strategies come back empty |
| FaceDetection.DetectOn | ui/rppg/RppgLogic/FrameAnalyzer.kt:113-184 | the three detector calls feed ChooseFace, whose contract and the lemmas SecondStrategyNeverAdopted and FoundFaceOrigin state the outcome |
| FaceDetection.SecondStrategyNeverAdopted | ui/rppg/RppgLogic/FrameAnalyzer.kt:140 | a hit from the second strategy alone never becomes the face |
| FaceDetection.FoundFaceOrigin | ui/rppg/RppgLogic/FrameAnalyzer.kt:113-181 | every adopted face is the scaled-back first-strategy hit or the full-size hit, and needs a ready classifier |
| SkinRegion.InsertSorted | ui/rppg/RppgLogic/FrameAnalyzer.kt:240 | insertion into a sorted list keeps it sorted and adds exactly the element |
| SkinRegion.ConsSorted | ui/rppg/RppgLogic/FrameAnalyzer.kt:240 | a value no larger than the head of an ascending list extends it |
| SkinRegion.SortAsc | ui/rppg/RppgLogic/FrameAnalyzer.kt:240 | `sorted()` is ascending and a permutation of its input |
| SkinRegion.CountBelow | ui/rppg/RppgLogic/FrameAnalyzer.kt:240 | the number of values below v is at most the length |
| SkinRegion.CountAtMost | ui/rppg/RppgLogic/FrameAnalyzer.kt:240 | the number of values at most v is at most the length |
| SkinRegion.CountBelowInsert | ui/rppg/RppgLogic/FrameAnalyzer.kt:240 | insertion raises the count below v by one exactly when the new value is below v |
| SkinRegion.CountAtMostInsert | ui/rppg/RppgLogic/FrameAnalyzer.kt:240 | insertion raises the count at most v by one exactly when the new value is at most v |
| SkinRegion.CountSort | ui/rppg/RppgLogic/FrameAnalyzer.kt:240 | sorting preserves both counts |
| SkinRegion.CountBelowOfLarger | ui/rppg/RppgLogic/FrameAnalyzer.kt:240 | nothing lies below a value that bounds a list from below |
| SkinRegion.SortedOrderStatistic | ui/rppg/RppgLogic/FrameAnalyzer.kt:240 | the k-th element of a sorted list is its k-th order statistic |
| SkinRegion.CountsOrdered | ui/rppg/RppgLogic/FrameAnalyzer.kt:240 | for v1 < v2, the values at most v1 are no more than those below v2 |
| SkinRegion.OrderStatisticUnique | ui/rppg/RppgLogic/FrameAnalyzer.kt:240 | a list has one k-th order statistic |
| SkinRegion.OrderStatisticIsElement | ui/rppg/RppgLogic/FrameAnalyzer.kt:240 | the order statistic is an element of the list |
| SkinRegion.UpperMedianRank | ui/rppg/RppgLogic/FrameAnalyzer.kt:240 | `sorted()[size / 2]` is the (size / 2)-th order statistic of the window and one of its values |
| SkinRegion.HistWindow | ui/rppg/RppgLogic/FrameAnalyzer.kt:234-239 | the clamped window around bin i has 3 to 5 entries |
| SkinRegion.SmoothHistogram | ui/rppg/RppgLogic/FrameAnalyzer.kt:232-241 | the smoothing loop fills 256 bins, each the upper median of its clamped window |
| SkinRegion.SmoothedNonNegative | ui/rppg/RppgLogic/FrameAnalyzer.kt:232-241 | smoothing a non-negative histogram gives non-negative bins |
| SkinRegion.MedianRemovesSpike | ui/rppg/RppgLogic/FrameAnalyzer.kt:232-241 | an isolated spike between four empty bins is smoothed to 0 |
| SkinRegion.Histogram | ui/rppg/RppgLogic/FrameAnalyzer.kt:220-229 | `calcHist` with 256 bins counts the pixels of each saturation value |
| SkinRegion.ThresholdWindow | ui/rppg/RppgLogic/FrameAnalyzer.kt:254-256 | the RSVR window satisfies 0 ≤ lower ≤ histmax ≤ upper ≤ 255 |
| SkinRegion.ThresholdWindowShape | ui/rppg/RppgLogic/FrameAnalyzer.kt:254-256 | `(0.2 * histmax).toInt()` is histmax / 5, which gives the window bounds; its width is at most that range |
| SkinRegion.SkinMask | ui/rppg/RppgLogic/FrameAnalyzer.kt:261-269 | the mask has the plane's shape and a pixel is set iff its saturation is in [lower, upper] |
| SkinRegion.BuildMask | ui/rppg/RppgLogic/FrameAnalyzer.kt:261-269 | the nested mask loop builds exactly that mask |
| FrameAnalysis.NeedsScan | ui/rppg/RppgLogic/FrameAnalyzer.kt:71-75 | detection runs iff the face is invalid or at least 1000 ms passed since the last scan |
| FrameAnalysis.AfterDetection | ui/rppg/RppgLogic/FrameAnalyzer.kt:182-187 | a hit sets a valid face, a miss only clears validity, and a skipped detection changes nothing |
| FrameAnalysis.AnalyzerStep | ui/rppg/RppgLogic/FrameAnalyzer.kt:55-93 | one processFrame call as a relation between the old state, the new state and the returned colour; FrameAnalyzer.ProcessFrame and RppgProcessor.ProcessFrame are both stated by it |
| FrameAnalysis.Crop | ui/rppg/RppgLogic/FrameAnalyzer.kt:210 | `submat` is the face rectangle's pixels at their offsets |
| FrameAnalysis.SaturationPlane | ui/rppg/RppgLogic/FrameAnalyzer.kt:212-217 | the saturation channel has the region's shape, pixel by pixel |
| FrameAnalysis.Smoothed | ui/rppg/RppgLogic/FrameAnalyzer.kt:232-241 | the smoothed histogram has 256 bins |
| FrameAnalysis.HistmaxIsMostFrequent | ui/rppg/RppgLogic/FrameAnalyzer.kt:244-251 | the histmax bin holds the largest smoothed count, strictly larger than every earlier bin |
| FrameAnalysis.SkinMean | ui/rppg/RppgLogic/FrameAnalyzer.kt:209-283 | the mean colour of the face pixels whose saturation lies in the RSVR window around histmax |
| FrameAnalysis.FrameAnalyzer.constructor | ui/rppg/RppgLogic/FrameAnalyzer.kt:27-33 | the analyzer starts with no classifier, an invalid empty face, and zero counters |
| FrameAnalysis.FrameAnalyzer.Initialize | ui/rppg/RppgLogic/FrameAnalyzer.kt:35-49 | only classifier readiness changes, as the cascade load decides |
| FrameAnalysis.FrameAnalyzer.DetectFace | ui/rppg/RppgLogic/FrameAnalyzer.kt:98-192 | face and validity follow the strategy choice; nothing else changes |
| FrameAnalysis.FrameAnalyzer.ExtractSkinPixels | ui/rppg/RppgLogic/FrameAnalyzer.kt:198-289 | an out-of-bounds face invalidates the face and yields nothing; an empty face yields nothing; otherwise the result is the skin mean |
| FrameAnalysis.FrameAnalyzer.ProcessFrame | ui/rppg/RppgLogic/FrameAnalyzer.kt:55-93 | the frame counter wraps; no frame changes nothing; a scan happens and stamps the time iff needed; a sample is produced only for a valid face, and it is the skin mean |
| FrameAnalysis.FrameAnalyzer.InvalidateFace | ui/rppg/RppgLogic/FrameAnalyzer.kt:291-294 | only `faceValid` is cleared |
| RppgSignal.LastN | ui/rppg/RppgLogic/Rppg_Logic.kt:30-40 | the window is the last min(size, n) samples |
| RppgSignal.LastNSnoc | ui/rppg/RppgLogic/Rppg_Logic.kt:30-40 | pushing onto a history appends to its window, evicting the oldest when full |
| RppgSignal.StandardDeviation | ui/rppg/RppgLogic/Rppg_Logic.kt:119-124 | the standard deviation of an empty array is 0 |
| RppgSignal.ChromX | ui/rppg/RppgLogic/Rppg_Logic.kt:70-72 | X = 3R − 2G has one entry per sample |
| RppgSignal.ChromY | ui/rppg/RppgLogic/Rppg_Logic.kt:73-75 | Y = 1.5R + G − 1.5B has one entry per sample |
| RppgSignal.ChromAlpha | ui/rppg/RppgLogic/Rppg_Logic.kt:76-78 | alpha · std(Y) = std(X) when std(Y) > 0, and alpha is 1 otherwise |
| RppgSignal.ChromPulse | ui/rppg/RppgLogic/Rppg_Logic.kt:70-79 | the CHROM pulse has one entry per sample |
| RppgSignal.Detrend | ui/rppg/RppgLogic/Rppg_Logic.kt:126-129 | detrending preserves length |
| RppgSignal.DetrendRemovesDc | ui/rppg/RppgLogic/Rppg_Logic.kt:126-129 | a detrended signal sums to 0 |
| RppgSignal.LowWindow | ui/rppg/RppgLogic/Rppg_Logic.kt:143 | the moving-average window is at least 1 |
| RppgSignal.BandpassFilter | ui/rppg/RppgLogic/Rppg_Logic.kt:134-154 | the filter preserves length |
| RppgSignal.WindowHoldsCentre | ui/rppg/RppgLogic/Rppg_Logic.kt:146-151 | every sample's averaging window is a non-empty in-bounds slice containing the sample |
| RppgSignal.BandpassRemovesConstant | ui/rppg/RppgLogic/Rppg_Logic.kt:134-154 | a constant signal filters to all zeros |
| RppgSignal.BandpassIgnoresOffset | ui/rppg/RppgLogic/Rppg_Logic.kt:134-154 | a constant offset does not change the filtered signal |
| RppgSignal.Normalize | ui/rppg/RppgLogic/Rppg_Logic.kt:156-164 | normalising preserves length and returns the input unchanged when the std is not positive |
| RppgSignal.NormalizeCentres | ui/rppg/RppgLogic/Rppg_Logic.kt:156-164 | a normalised signal with positive std sums to 0 |
| RppgSignal.PulseWaveform | ui/rppg/RppgLogic/Rppg_Logic.kt:82-88 | the detrended, filtered, normalised pulse has one entry per sample |
| RppgSignal.Spectrum | ui/rppg/RppgLogic/Rppg_Logic.kt:181-191 | the power spectrum has n/2 bins, each the bin power at k |
| RppgSignal.BpmToBinMonotone | ui/rppg/RppgLogic/Rppg_Logic.kt:194-197 | a higher BPM never maps to a lower bin |
| RppgSignal.BinRange | ui/rppg/RppgLogic/Rppg_Logic.kt:194-197 | the bin range lies in [0, n/2 − 1] |
| RppgSignal.BinRangeOrdersBounds | ui/rppg/RppgLogic/Rppg_Logic.kt:194-202 | a non-empty bin range needs minBpm ≤ maxBpm |
| RppgSignal.ComputeBpmFromPsd | ui/rppg/RppgLogic/Rppg_Logic.kt:169-225 | 0 for an empty bin range, otherwise the first maximal bin's frequency clamped to [minBpm, maxBpm] |
| RppgSignal.DefaultBinRange | ui/rppg/RppgLogic/Rppg_Logic.kt:194-197 | at 30 fps over 240 samples, 40..200 BPM is bins 5..26 |
| RppgSignal.DefaultBpmGrid | ui/rppg/RppgLogic/Rppg_Logic.kt:214-219 | at those settings every BPM is 40 or a multiple of 7.5 from bin 6 to 26 |
| RppgSignal.EstimateSpO2 | ui/rppg/RppgLogic/Rppg_Logic.kt:231-257 | the estimate is always in [90, 100] and 97 when a channel is empty |
| RppgSignal.SpO2OfEqualRatios | ui/rppg/RppgLogic/Rppg_Logic.kt:239-248 | equal AC/DC ratios on red and blue give 90 |
| RppgSignal.SpO2Curve | ui/rppg/RppgLogic/Rppg_Logic.kt:246-248 | with both channels pulsing, `EstimateSpO2` reads 100 at a red-to-blue ratio ≤ 0.4, 90 at ≥ 0.8, and 110 − 25·ratio between |
| RppgSignal.SpO2FallsWithRedRatio | ui/rppg/RppgLogic/Rppg_Logic.kt:246-248 | against the same blue channel, a higher red AC/DC ratio never gives a higher `EstimateSpO2` |
| RppgSignal.RppgLogic.Window | ui/rppg/RppgLogic/Rppg_Logic.kt:19-22 | the four lists read together as one sample per index |
| RppgSignal.RppgLogic.constructor | ui/rppg/RppgLogic/Rppg_Logic.kt:12-24 | empty buffers and `requiredSamples = targetFps · windowSizeSeconds` |
| RppgSignal.RppgLogic.AddSignalSample | ui/rppg/RppgLogic/Rppg_Logic.kt:29-44 | the lists stay equal in length, the size becomes min(old + 1, required), and the buffer is the last `required` samples pushed, the new one last |
| RppgSignal.RppgLogic.HasEnoughSamples | ui/rppg/RppgLogic/Rppg_Logic.kt:49 | ready iff at least `requiredSamples` samples were pushed |
| RppgSignal.RppgLogic.ComputeHeartRate | ui/rppg/RppgLogic/Rppg_Logic.kt:55-104 | (0, 0) before the buffer is full, otherwise the peak BPM and SpO2 estimate of the pulse waveform; BPM is 0 or in range, SpO2 0 or in [90, 100] |
| RppgSignal.RppgLogic.Reset | ui/rppg/RppgLogic/Rppg_Logic.kt:109-115 | all four buffers are empty |
| RppgSignal.RppgLogic.CurrentBufferSize | ui/rppg/RppgLogic/Rppg_Logic.kt:259 | the size is between 0 and `requiredSamples` |
| RppgSession.FinalReading | ui/rppg/RppgLogic/RppgProcessor.kt:166-178 | the means, 0 for an empty list |
| RppgSession.FinalReadingWithin | ui/rppg/RppgLogic/RppgProcessor.kt:166-178 | readings within [40, 200] and [90, 100] average within those ranges |
| RppgSession.AllWithinAppend | ui/rppg/RppgLogic/RppgProcessor.kt:130-131 | appending an in-range reading keeps every reading in range |
| RppgSession.RppgProcessor.constructor | ui/rppg/RppgLogic/RppgProcessor.kt:24-30 | a stopped session with empty buffers, no start time and no classifier |
| RppgSession.RppgProcessor.Init | ui/rppg/RppgLogic/RppgProcessor.kt:35-50 | streaming and not done; the analyzer's state changes only in readiness, which follows the load; accumulators, start time and window unchanged |
| RppgSession.RppgProcessor.ProcessFrame | ui/rppg/RppgLogic/RppgProcessor.kt:55-82 | nothing changes unless streaming and not done; otherwise the analyzer takes exactly its AnalyzerStep with the returned colour, and a sample with the current time is pushed exactly when that colour exists |
| RppgSession.RppgProcessor.ComputeVitals | ui/rppg/RppgLogic/RppgProcessor.kt:105-155 | a done session or a short buffer changes nothing; a tick without an update changes nothing and, on a full window, happens only when the spectrum gives rate 0; a positive rate is the spectral peak, is appended to both lists and latches the start once; completion fires iff 15000 ms have elapsed, reporting the means and stopping, with an empty window and history and the analyzer's state changed only in its face flag, now false |
| RppgSession.RppgProcessor.FinishMeasurement | ui/rppg/RppgLogic/RppgProcessor.kt:160-191 | reports the means and leaves the session done and stopped, with an empty window and history; the analyzer's state changes only in its face flag, now false; accumulators and start time kept |
| RppgSession.RppgProcessor.Stop | ui/rppg/RppgLogic/RppgProcessor.kt:193-212 | not streaming, done, empty window and history; the analyzer's state changes only in its face flag, now false (so a second stop changes nothing); accumulators and start time kept |
| RppgSession.RppgProcessor.Restart | ui/rppg/RppgLogic/RppgProcessor.kt:214-235 | empty accumulators, window and history, no start time, and after init streaming and not done; the analyzer's state changes only in its face flag (false) and readiness (following the load) |
| RppgSession.RppgProcessor.TestRandomResult | ui/rppg/RppgLogic/RppgProcessor.kt:240-257 | reports the drawn reading and leaves the state `stop` leaves: not streaming, done, empty window, invalid face; the analyzer's state changed only in its face flag; accumulators and start time untouched |
| RppgSession.RppgProcessor.IsFaceDetected | ui/rppg/RppgLogic/RppgProcessor.kt:259 | whether the analyzer tracks a face; its value after each frame is fixed by AnalyzerStep |
| RppgSession.RppgProcessor.CurrentProgress | ui/rppg/RppgLogic/RppgProcessor.kt:261-268 | progress out of 15000 ms: 0 before the start, otherwise the elapsed time |
| HeartbeatSession.MaskBand | ui/rppg/CamUtility/HeartbeatWebViewScreen.kt:633-636 | makeMask's four corners; MaskBandIsToInt proves them the `Double.toInt` values over exact reals (the end column can differ by one pixel in binary, see "## Left out") and MaskBandInsideFace proves them ordered and inside the face |
| HeartbeatSession.MaskBandIsToInt | ui/rppg/CamUtility/HeartbeatWebViewScreen.kt:633-636 | the band corners computed over integers equal `(x + 0.3w).toInt()`, `(y + 0.1h).toInt()`, `(x + 0.7w).toInt()` and `(y + 0.25h).toInt()` |
| HeartbeatSession.FractionCorner | ui/rppg/CamUtility/HeartbeatWebViewScreen.kt:633-636 | `(x + num / den · w).toInt()` equals the saturated truncating division of den · x + num · w by den |
| HeartbeatSession.IntToDoubleToInt | ui/rppg/CamUtility/HeartbeatWebViewScreen.kt:633-636 | an Int converted to Double and back is unchanged |
| HeartbeatSession.MaskBandInsideFace | ui/rppg/CamUtility/HeartbeatWebViewScreen.kt:633-636 | the forehead band is ordered and lies inside the face |
| HeartbeatSession.BandMask | ui/rppg/CamUtility/HeartbeatWebViewScreen.kt:626-650 | the mask has the frame's shape: one row per image row and one entry per column |
| HeartbeatSession.ForeheadMask | ui/rppg/CamUtility/HeartbeatWebViewScreen.kt:626-650 | for a face of non-negative size within the Int range, a pixel is set exactly when it lies between the band's corners (inclusive), and every set pixel lies inside the face |
| HeartbeatSession.Heartbeat.constructor | ui/rppg/CamUtility/HeartbeatWebViewScreen.kt:320-344 | a stopped session with empty lists and zero counters |
| HeartbeatSession.Heartbeat.Init | ui/rppg/CamUtility/HeartbeatWebViewScreen.kt:346-383 | readiness follows the load, and streaming starts only after a successful load; every other field, the face, scan time, frame count and the three lists included, unchanged |
| HeartbeatSession.Heartbeat.InvalidateFace | ui/rppg/CamUtility/HeartbeatWebViewScreen.kt:652-664 | the three signal lists are empty and the face invalid; nothing else changes |
| HeartbeatSession.Heartbeat.DetectFace | ui/rppg/CamUtility/HeartbeatWebViewScreen.kt:495-624 | face and validity follow the strategy choice; a lost face also empties the signal lists |
| HeartbeatSession.Heartbeat.ProcessFrame | ui/rppg/CamUtility/HeartbeatWebViewScreen.kt:415-493 | without streaming or a frame only the counter moves; otherwise a scan iff needed, and with a valid face one entry is appended to each list |
| HeartbeatSession.Heartbeat.ScanStep | ui/rppg/CamUtility/HeartbeatWebViewScreen.kt:450-461 | the scan time moves to now exactly when NeedsScan holds; the face and the signal lists follow that detection pass, and nothing moves without one |
| HeartbeatSession.Heartbeat.AppendSample | ui/rppg/CamUtility/HeartbeatWebViewScreen.kt:463-478 | the band mean and the time are appended to the lists of a tracked face, the invariant is kept, and nothing else changes |
| HeartbeatSession.Heartbeat.RequiredSize | ui/rppg/CamUtility/HeartbeatWebViewScreen.kt:684 | `targetFps * windowSize` in Int arithmetic: in the Int range, and the true product whenever that fits |
| HeartbeatSession.Heartbeat.Rppg | ui/rppg/CamUtility/HeartbeatWebViewScreen.kt:682-733 | a short signal changes nothing; otherwise the drawn reading is appended and the start latched once; completion fires iff 15000 ms elapsed, with means in [60, 100] and [95, 99], and stops; without completion the signal lists, flags and streaming stay; in every case the face, readiness, scan time and frame count are untouched |
| HeartbeatSession.Heartbeat.FinishMeasurement | ui/rppg/CamUtility/HeartbeatWebViewScreen.kt:735-755 | reports the means and stops with an empty signal; face, readiness, scan time, frame count, accumulators and start time untouched |
| HeartbeatSession.Heartbeat.Stop | ui/rppg/CamUtility/HeartbeatWebViewScreen.kt:757-773 | not streaming, done, invalid face, empty signal; face, readiness, scan time, frame count, accumulators and start time untouched, so a second stop changes nothing |
| HeartbeatSession.Heartbeat.Restart | ui/rppg/CamUtility/HeartbeatWebViewScreen.kt:775-797 | empty accumulators, no start time, invalid face, empty signal, frame count 0, then init's readiness and streaming; the face rectangle and scan time untouched |
| HeartbeatSession.Heartbeat.TestRandomResult | ui/rppg/CamUtility/HeartbeatWebViewScreen.kt:799-816 | reports the drawn reading and leaves the state `stop` leaves: not streaming, done, invalid face, empty signal; face, readiness, scan time, frame count, accumulators and start time untouched |
| Measurements.DefaultMeasurement | data/model/Measurement.kt:6-12 | zero readings, empty strings, the current time |
| Measurements.DetermineCondition | data/model/Measurement.kt:14-21 | one of five labels, each iff the stated range condition, including both Unknown edge cases |
| Measurements.NormalReadingsAreGood | data/model/Measurement.kt:18-19 | 60..100 BPM with SpO2 ≥ 93 is Good, or Very Good exactly above 95 |
| Measurements.ConditionColor | data/model/Measurement.kt:26-33 | one of five colours, and not grey iff the lowercased label is one of the four known ones |
| Measurements.ColorIgnoresCase | data/model/Measurement.kt:27 | labels equal up to case get equal colours |
| Measurements.ColorOfLowered | data/model/Measurement.kt:27 | lowercasing a label does not change its colour |
| Measurements.ConditionColorsDistinct | data/model/Measurement.kt:14-33 | two classified readings share a colour iff they share a label, and the grey one is Unknown |
| Measurements.LabelColor | data/model/Measurement.kt:27-32 | each of the five labels gets its own colour constant |
| Users.DefaultUser | data/model/User.kt:3-12 | every default: empty strings, zeros, Male, Light |
| Users.GenderFromString | data/model/User.kt:21-27 | Ok iff the lowercased string is male or female, naming the same constant; otherwise the error message |
| Users.SkinToneFromString | data/model/User.kt:29-36 | Ok iff the lowercased string is light, medium or dark; otherwise the error message |
| Users.LowerNames | data/model/User.kt:14-19 | the lowercase forms of the constant names |
| Users.GenderRoundTrip | data/model/User.kt:14-27 | parsing a gender's name, or its lowercase form, gives that gender back |
| Users.SkinToneRoundTrip | data/model/User.kt:17-36 | parsing a skin tone's name, or its lowercase form, gives it back |
| Users.ParsingIgnoresCase | data/model/User.kt:21-36 | spellings equal up to case parse alike |
| BodyHealth.DefaultActivity | ui/BodyHealthCalculator/BodyHealthScreen.kt:297-303 | the activity level defaults to 1.2 |
| BodyHealth.CalculateBmi | ui/BodyHealthCalculator/BodyHealthCalculator.kt:10-13 | undefined iff the height is 0; BMI times height² in metres is the weight; positive for positive weight |
| BodyHealth.IdealWeight | ui/BodyHealthCalculator/BodyHealthCalculator.kt:15-21 | the 50 / 45.5 kg base at 152 cm plus 0.9 kg per cm; IdealWeightGenderGap and IdealWeightIncreasing state its properties |
| BodyHealth.IdealWeightGenderGap | ui/BodyHealthCalculator/BodyHealthCalculator.kt:15-21 | the male ideal weight is 4.5 kg above any other gender's |
| BodyHealth.IdealWeightIncreasing | ui/BodyHealthCalculator/BodyHealthCalculator.kt:15-21 | ideal weight rises by 0.9 kg per cm, strictly |
| BodyHealth.Bmr | ui/BodyHealthCalculator/BodyHealthCalculator.kt:23-29 | the Mifflin-St Jeor BMR, +5 for "male" in any case and -161 otherwise; CaloriesGenderGap and CaloriesIncreaseWithWeight state its properties |
| BodyHealth.DailyCalories | ui/BodyHealthCalculator/BodyHealthCalculator.kt:23-30 | the BMR times the activity level; CaloriesGenderGap and CaloriesIncreaseWithWeight state its properties |
| BodyHealth.CaloriesGenderGap | ui/BodyHealthCalculator/BodyHealthCalculator.kt:23-30 | the male BMR is 166 above the other, and the calories 166 times the activity level |
| BodyHealth.CaloriesIncreaseWithWeight | ui/BodyHealthCalculator/BodyHealthCalculator.kt:23-30 | calories rise by 10 kcal per kg times the activity level |
| BodyHealth.BmiEmoji | ui/BodyHealthCalculator/BodyHealthScreen.kt:272-279 | each of the four bands iff its BMI interval, so the bands cover the reals without overlap |
| BodyHealth.CardColor | ui/BodyHealthCalculator/BodyHealthScreen.kt:282-294 | the BMI card gets a band colour, ideal weight blue, calories magenta, anything else grey |
| BodyHealth.BmiCardMatchesEmoji | ui/BodyHealthCalculator/BodyHealthScreen.kt:272-292 | the BMI card is yellow, green, orange or red exactly in the label's band |
| BodyHealth.BmiBandsAgree | ui/BodyHealthCalculator/BodyHealthScreen.kt:272-292 | two BMIs share a label iff they share a card colour |
| BodyHealth.BmiBandMonotone | ui/BodyHealthCalculator/BodyHealthScreen.kt:272-279 | a larger BMI never falls in a lighter band |
| AuthValidation.IsEmailValid | ui/Auth/Auth_ViewModel.kt:18-22 | the email pattern on the trimmed address; EmailIgnoresPadding states that padding never matters |
| AuthValidation.EmailIgnoresPadding | ui/Auth/Auth_ViewModel.kt:18-22 | surrounding whitespace never changes email validity |
| AuthValidation.IsRegisterInputValid | ui/Auth/Auth_ViewModel.kt:26-46 | undefined (index error) iff fewer than eight fields |
| AuthValidation.IsLoginInputValid | ui/Auth/Auth_ViewModel.kt:50-54 | a valid address and a password that is not blank; BlankPasswordRejected and RegisteredCredentialsLogIn state its properties |
| AuthValidation.RegisterDependsOnTrimmedFields | ui/Auth/Auth_ViewModel.kt:29-36 | only the trimmed first eight fields decide the verdict |
| AuthValidation.RegisteredNumbersPositive | ui/Auth/Auth_ViewModel.kt:38-45 | an accepted registration has positive age and height and a positive weight |
| AuthValidation.BlankPasswordRejected | ui/Auth/Auth_ViewModel.kt:31-53 | a blank password fails registration and login |
| AuthValidation.RegisteredCredentialsLogIn | ui/Auth/Auth_ViewModel.kt:26-54 | an accepted registration's email and password pass the login check |
| EditProfile.IsUpdateProfileInputValid | ui/EditProfil/EditProfil_ViewModel.kt:61-96 | accepted only when every field is valid and something changed; any invalid field rejects |
| EditProfile.Unchanged | ui/EditProfil/EditProfil_ViewModel.kt:88-93 | the original fields with any password are not a change |
| EditProfile.PasswordAloneIsNoChange | ui/EditProfil/EditProfil_ViewModel.kt:88-95 | changing only the password is never accepted |
| EditProfile.PasswordOnlyNeedsContent | ui/EditProfil/EditProfil_ViewModel.kt:77-85 | any two non-empty passwords give the same verdict |
| EditProfile.NumbersMustParse | ui/EditProfil/EditProfil_ViewModel.kt:77-85 | an unparsable or non-positive age, height or weight rejects |
| EditProfile.PaddedAgeAcceptedOnlyAtRegistration | ui/EditProfil/EditProfil_ViewModel.kt:79 | a space-padded positive age is positive after the register form's trim but rejected by the edit form |
| EditProfile.PaddedNotInt | ui/EditProfil/EditProfil_ViewModel.kt:79 | a space-padded numeral is not a positive Int to `toIntOrNull` |
| EditProfile.BlankPasswordAcceptedOnEdit | ui/EditProfil/EditProfil_ViewModel.kt:77-85 | a blank password passes the edit form though login refuses it |
| HealthHistory.ConsDescending | ui/HealthHistory/HealthHistory_ViewModel.kt:15 | a measurement no older than the head of a newest-first list extends it |
| HealthHistory.InsertDescending | ui/HealthHistory/HealthHistory_ViewModel.kt:15 | insertion adds one element |
| HealthHistory.InsertDescendingSorted | ui/HealthHistory/HealthHistory_ViewModel.kt:15 | insertion keeps a newest-first list newest first, adds exactly the element, and puts it in front of every strictly older one |
| HealthHistory.SortByDescendingTime | ui/HealthHistory/HealthHistory_ViewModel.kt:15 | `sortedByDescending` is newest first and a permutation |
| HealthHistory.GroupKey | ui/HealthHistory/HealthHistory_ViewModel.kt:20-25 | Today, Yesterday, Last week after today − 7, else the date string |
| HealthHistory.GroupKeyLabels | ui/HealthHistory/HealthHistory_ViewModel.kt:20-25 | with ISO date strings each label holds iff its day condition, and future days are Last week |
| HealthHistory.KeysOf | ui/HealthHistory/HealthHistory_ViewModel.kt:16-25 | one key per measurement, from its day |
| HealthHistory.Dedup | ui/HealthHistory/HealthHistory_ViewModel.kt:13 | the map's keys are distinct and are exactly the keys seen |
| HealthHistory.GroupKeys | ui/HealthHistory/HealthHistory_ViewModel.kt:13 | one key per group |
| HealthHistory.Pick | ui/HealthHistory/HealthHistory_ViewModel.kt:27 | a key's group holds only measurements already visited |
| HealthHistory.Add | ui/HealthHistory/HealthHistory_ViewModel.kt:27 | `getOrPut(key).add` adds a group only for a new key |
| HealthHistory.AddKeys | ui/HealthHistory/HealthHistory_ViewModel.kt:27 | a new key is appended to the key order, an existing one keeps it |
| HealthHistory.AddFlatten | ui/HealthHistory/HealthHistory_ViewModel.kt:27 | the groups together gain exactly the added measurement |
| HealthHistory.AddContents | ui/HealthHistory/HealthHistory_ViewModel.kt:27 | the measurement goes to the end of its key's group, and other groups are untouched |
| HealthHistory.PickAbsent | ui/HealthHistory/HealthHistory_ViewModel.kt:27 | an unseen key has no members |
| HealthHistory.PickHolds | ui/HealthHistory/HealthHistory_ViewModel.kt:27 | every visited measurement is in its key's group |
| HealthHistory.PickDescending | ui/HealthHistory/HealthHistory_ViewModel.kt:15-27 | a group taken from a newest-first list is newest first |
| HealthHistory.AddStep | ui/HealthHistory/HealthHistory_ViewModel.kt:15-27 | one loop iteration keeps the grouping invariant |
| HealthHistory.AddStepFlatten | ui/HealthHistory/HealthHistory_ViewModel.kt:27 | the iteration keeps the groups a permutation of the visited prefix |
| HealthHistory.AddStepKeys | ui/HealthHistory/HealthHistory_ViewModel.kt:27 | the iteration keeps keys in first-seen order |
| HealthHistory.AddStepContents | ui/HealthHistory/HealthHistory_ViewModel.kt:27 | the iteration keeps each group equal to its key's visited members |
| HealthHistory.GroupsOfWhole | ui/HealthHistory/HealthHistory_ViewModel.kt:15-28 | after the last iteration the groups are non-empty, newest first, keyed in first-seen order and together a permutation of the input |
| HealthHistory.GroupMeasurementsByDate | ui/HealthHistory/HealthHistory_ViewModel.kt:11-31 | keys distinct and in order of each key's newest member; each group non-empty, newest first, exactly its key's members; the groups together a permutation of the input |
| HealthHistory.EveryMeasurementInItsGroup | ui/HealthHistory/HealthHistory_ViewModel.kt:15-28 | every measurement lies in the group of its own key |

## Left out

- Floating point. Doubles are exact reals. The model does not capture three things:
  - rounding, NaN and infinity;
  - the `toFloat` narrowing of the reported readings;
  - the one-pixel differences truncation can show in the band's end column, because `0.7 * w` is rounded in binary: with x = 0 and w = 90 the double is just under 63 and truncates to 62, where `MaskBand` gives 63.
- Foreign numerics are function parameters, with no properties assumed:
  - the Hamming window and the DFT with its `cos`/`sin`;
  - `sqrt`;
  - the real-to-int truncation of bin indices.
- OpenCV is a function parameter: the detector and cascades, `cvtColor`/`equalizeHist`/`resize`, the HSV saturation of a pixel and the masked `Core.mean`.
- OpenCV matrices are not modelled as mutable objects: the mask is a value, and `release` calls are left out.
- Camera frames and their conversion are not modelled. `ImageProxy` to Bitmap to Mat conversion is foreign and is part of the frame parameter.
- Cascade-file loading is only its outcome: the load result is a parameter of init.
- The clock, the random draws, the day of a timestamp, the date string and the local time zone are parameters of the calls that use them.
- HealthHistory.GroupKeyLabels: requires that no date string equals one of the three labels, as an ISO date never does. The date formatter itself is a parameter.
- Timers, coroutines and the race between frames and ticks are left out, because they are concurrency.
  - A tick is a method call with its own `now`.
  - `Heartbeat.restart` starting a second timer is not captured.
- Exception handlers that log and carry on are left out: the try/catch of processFrame, computeVitals and computeHeartRate. The one exception the model needs, the strategy-2 copy, is a `Keep` outcome.
- Logging, Compose UI, navigation, Firebase and the repositories are I/O.
- `Patterns.EMAIL_ADDRESS` and `String.toDoubleOrNull` are parameters.
- Kotlin's Unicode `lowercase`, `trim` and digit rules are modelled for ASCII letters, ASCII digits and the common whitespace characters only.
- HealthHistory.SortByDescendingTime: does not state stability of the sort, although the insertion used is stable.
- HealthHistory.Add: its own contract gives only the new length; keys, contents and multiset are its three lemmas.
- Measurements.ConditionColor: colours are the ARGB integers of the source's `Color` literals, not an enumeration.
- RppgSession.RppgProcessor.CurrentProgress: the elapsed time is stated only when the Long-to-Int cast does not wrap.
- Int overflow of `face.x + face.width` in the bounds check is left out. Faces come from the detector inside the frame, and the band lemma requires the sum to fit.
- The accessors `getFaceRect`, `isFaceValid` and `getCurrentBufferSize` are modelled as plain field reads (CurrentBufferSize has a row).
- The "frequency recovery" of a known sinusoid is not stated, because it is a claim about floating-point signal processing.
