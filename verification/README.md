# Sound level meter and microphone calibration: decision logic

This project models, in Dafny, the decision logic of PyGMI's sound level meter (SLM) calibration procedures, its microphone calibration bookkeeping, and two instrument drivers:

- **Tolerance rules.** The class rule shared by the linearity, level-range and time-weighting rows (1, 2, or 666 for out of tolerance). The frequency-weighting corrections and tolerance limits of IEC 61672-1:2002 Table 2, with the 0.21 dB uncertainty pushed away from zero. The tone-burst limits (IEC 61672-3 clause 16) and the peak C limits (clause 17). The BS 7580 Part 1 time-weighting pass/fail table.
- **Procedure step rules.**
  - The linearity target levels, the attenuator seed sent between linearity rows, and the level-range passes.
  - The overload search: 0.5 dB steps down until the first "y", 0.1 dB steps until the second "y", then a one-time +1.0 dB correction. Its RMS-accuracy variant is modelled too.
  - Each of these is a fold over the operator's answers and readings, which are input sequences.
- **GDS EL100 attenuator.** The `set` encoder ("%05.2f", then one ASCII band per digit) and the `get` decoder ("ddDD" read as dd.DD dB).
- **Microphone calibration.** The attenuator uncertainty and error lookups by leading digit, the environment range checks, the stability check, the loop that balances the insert voltage, and the uncertainty budget.
- **Keithley 2001 multimeter.** The numeric token of a reading line, the empty-reply default, and the shape of a channel scan.

Conventions:

- dB values are `real`, so every table constant is exact.
- Attenuator settings are integer hundredths of a dB, 0 to 9999 on the scale.
- Python's `abs`, `int()` on a float and `round(x, n)` are written out in `Decimal`. `round` rounds halves away from zero, as in Python 2.
- A Python exception is an `Err` of a `Result`: a KeyError, a ValueError from `int()`, an IndexError, or a division by zero. A missing `return` (None) is `None` of an `Option`.
- `float()` on instrument text is a parameter of the Keithley functions. Python's float arithmetic is not modelled (see below).

Modules follow the source files:

- `Tolerance`, `FrequencyWeighting`, `Bursts`, `Linearity`, `Overload` and `TimeWeighting` cover `SoundLevelMetersCalibration.py`.
- `Microphone` covers `MicrophoneConfiguration.py`.
- `El100` and `Keithley2001` cover the drivers.
- `Decimal` and `Wrappers` are shared support.

`Overload.Search` follows the code. It lowers the attenuation by the current step on every answer other than "y" and adds 1.0 dB at the second "y". The comment at SoundLevelMetersCalibration.py:532 says "go back 0.5".

## Model

| member | source | states |
|---|---|---|
| Decimal.Trunc | PyGMI_files/Measurements_programs/SoundLevelMetersCalibration.py:302-305 | int() of a level drops the fraction toward zero: the result has the input's sign and lies within 1 of it in magnitude |
| Decimal.RoundHalfAway | PyGMI_files/Measurements_programs/SoundLevelMetersCalibration.py:256 | Python 2 rounding to an integer: within 0.5 of the input, same sign, and an exact half goes to the larger magnitude |
| Decimal.Round | PyGMI_files/Measurements_programs/SoundLevelMetersCalibration.py:256 | round(x, n) has at most n decimals, is within half a unit of the n-th decimal of x, keeps the sign of x, and an exact half goes to the larger magnitude, as in Python 2 |
| Tolerance.LinearityGrade | PyGMI_files/Measurements_programs/SoundLevelMetersCalibration.py:13-24 | class 1 iff \|d\|+u ≤ 1.1, class 2 iff 1.1 < \|d\|+u ≤ 1.4, 666 iff \|d\|+u > 1.4 |
| Tolerance.LinearityGradeMonotone | PyGMI_files/Measurements_programs/SoundLevelMetersCalibration.py:13-24 | the class depends only on \|d\| and never improves as \|d\| grows |
| Tolerance.LinearityGradeExamples | PyGMI_files/Measurements_programs/SoundLevelMetersCalibration.py:13-24 | with the fixed 0.2 dB uncertainty, deviations 0 and 0.9 are class 1, 1.0 is class 2, 1.3 and -5 are out of tolerance |
| Tolerance.Correction | PyGMI_files/Measurements_programs/SoundLevelMetersCalibration.py:213-225 | the weighting table answers exactly at the eleven standard frequencies (elsewhere KeyError), and the Z correction is 0 at every one |
| Tolerance.LimitsAt | PyGMI_files/Measurements_programs/SoundLevelMetersCalibration.py:226-238 | the limits table answers exactly at the eleven standard frequencies; at each, the class-1 interval lies inside the class-2 interval and both contain [-1.1, 1.1] |
| Tolerance.TablesCoverStandardFrequencies | PyGMI_files/Measurements_programs/SoundLevelMetersCalibration.py:213-238 | the weighting table and the limits table list the same frequencies |
| Tolerance.ElevenStandardFrequencies | PyGMI_files/Measurements_programs/SoundLevelMetersCalibration.py:213-238 | there are eleven frequencies, from 31.5 Hz to 16 kHz, strictly increasing |
| Tolerance.PushAway | PyGMI_files/Measurements_programs/SoundLevelMetersCalibration.py:257-260 | the adjusted deviation is 0.21 dB further from zero and keeps the sign; a zero deviation becomes +0.21 |
| Tolerance.FrequencyGrade | PyGMI_files/Measurements_programs/SoundLevelMetersCalibration.py:261-266 | class 1 iff inside the class-1 bounds; class 2 iff outside them but inside the class-2 bounds; 666 iff outside both (bounds inclusive) |
| Tolerance.FrequencyGradeMonotone | PyGMI_files/Measurements_programs/SoundLevelMetersCalibration.py:257-266 | on either side of zero, a larger raw deviation never gets a better class |
| Tolerance.Class1WithinClass2 | PyGMI_files/Measurements_programs/SoundLevelMetersCalibration.py:226-238 | a deviation inside the class-1 bounds is inside the class-2 bounds too |
| FrequencyWeighting.MeasureRow | PyGMI_files/Measurements_programs/SoundLevelMetersCalibration.py:253-268 | a row exists iff the case correction, the windshield correction and the table entry exist, with an unlisted frequency raising at the table. The row carries the frequency, the reference attenuation, the reading and both corrections. The expected level is max - 45 plus the table correction. The overall response is reading + case + windshield. The deviation is the rounded raw deviation pushed 0.21 dB from zero, and the class follows the frequency's limits |
| FrequencyWeighting.SweepRows | PyGMI_files/Measurements_programs/SoundLevelMetersCalibration.py:250-271 | one weighting's sweep succeeds iff every configured frequency can be looked up, and then yields exactly one row per frequency, in configuration order |
| FrequencyWeighting.UnlistedFrequencyAborts | PyGMI_files/Measurements_programs/SoundLevelMetersCalibration.py:244-255 | a configured frequency outside the table aborts the whole procedure |
| FrequencyWeighting.OnTargetIsClass1 | PyGMI_files/Measurements_programs/SoundLevelMetersCalibration.py:255-266 | a reading exactly on the expected level with zero corrections gives the deviation +0.21 dB and class 1, for every listed frequency and weighting |
| FrequencyWeighting.Sweep | PyGMI_files/Measurements_programs/SoundLevelMetersCalibration.py:250-271 | one weighting's sweep, when it succeeds, has one row per configured frequency |
| FrequencyWeighting.FrequencyWeightings | PyGMI_files/Measurements_programs/SoundLevelMetersCalibration.py:240-271 | the procedure succeeds iff every configured frequency has both corrections and a table entry, and then yields the A, C and Z sweeps in that order |
| Bursts.Average3 | PyGMI_files/Measurements_programs/SoundLevelMetersCalibration.py:756 | the average of the three readings lies between their minimum and maximum |
| Bursts.BurstTable | PyGMI_files/Measurements_programs/SoundLevelMetersCalibration.py:731-741 | every burst's tolerance interval contains 0. The slow setting has the fast setting's first two bursts only. The lower tolerance widens as the burst shortens |
| Bursts.BurstGrade | PyGMI_files/Measurements_programs/SoundLevelMetersCalibration.py:759-762 | class 1 iff min_tolerance ≤ deviation ≤ max_tolerance (inclusive), otherwise class 2 |
| Bursts.MeasureBurst | PyGMI_files/Measurements_programs/SoundLevelMetersCalibration.py:745-765 | expected = upper - 3 + offset; deviation = average - expected; class 1 iff the deviation is inside the inclusive tolerance interval |
| Bursts.ToneburstSetting | PyGMI_files/Measurements_programs/SoundLevelMetersCalibration.py:744-766 | one row per burst of the setting, in table order, each measured from its own three readings |
| Bursts.BurstOnTargetIsClass1 | PyGMI_files/Measurements_programs/SoundLevelMetersCalibration.py:746-762 | three readings exactly on the expected level are class 1 for every burst of every setting |
| Bursts.PeakGrade | PyGMI_files/Measurements_programs/SoundLevelMetersCalibration.py:621-624 | class 1 iff \|deviation\| < 1.4 for the 8 kHz cycle and < 2.4 for the half cycles (strict), otherwise class 2 |
| Bursts.MeasurePeak | PyGMI_files/Measurements_programs/SoundLevelMetersCalibration.py:587-627 | expected = upper - 8 + offset; deviation = average - expected; class 1 iff the deviation is strictly inside the band |
| Bursts.PeakC | PyGMI_files/Measurements_programs/SoundLevelMetersCalibration.py:646-674 | three rows in order: one 8 kHz cycle (offset 3.4), then the positive and the negative 500 Hz half cycle (offset 2.4) |
| Bursts.PeakBoundaryIsClass2 | PyGMI_files/Measurements_programs/SoundLevelMetersCalibration.py:621-624 | a deviation of exactly ±1.4 dB is class 2 for the 8 kHz cycle. A deviation of exactly 0.8 dB is class 1 for the long tone burst |
| Bursts.PeakBandsNested | PyGMI_files/Measurements_programs/SoundLevelMetersCalibration.py:621-624 | class 1 for the 8 kHz cycle implies class 1 for a half cycle; the two half cycles grade alike |
| Linearity.RangeUp | PyGMI_files/Measurements_programs/SoundLevelMetersCalibration.py:302-303 | Python's range(start, stop, step): the i-th value is start + i·step, every value is below stop, and the next one would not be |
| Linearity.RangeDown | PyGMI_files/Measurements_programs/SoundLevelMetersCalibration.py:304 | Python's range(start, stop, -step): the i-th value is start - i·step, every value is above stop, and the next one would not be |
| Linearity.UpperTargets | PyGMI_files/Measurements_programs/SoundLevelMetersCalibration.py:302-303 | no upper target exceeds int(max) |
| Linearity.LowerTargets | PyGMI_files/Measurements_programs/SoundLevelMetersCalibration.py:304-305 | every lower target lies above int(min) + 5 and at most at the 94 dB reference |
| Linearity.UpperTargetsShape | PyGMI_files/Measurements_programs/SoundLevelMetersCalibration.py:302-303 | the upper targets rise strictly. They are exactly the 5 dB grid from 94 below int(max) - 4, together with every level from int(max) - 4 to int(max) |
| Linearity.LowerTargetsShape | PyGMI_files/Measurements_programs/SoundLevelMetersCalibration.py:304-305 | the lower targets fall strictly. They are exactly the 5 dB grid from 94 down to, but excluding, int(min) + 5; the 1 dB tail is always empty |
| Linearity.UpperTargetsExample | PyGMI_files/Measurements_programs/SoundLevelMetersCalibration.py:302-303 | a top of range of 140 dB gives 94, 99, …, 134, then 136 to 140 |
| Linearity.LowerTargetsExample | PyGMI_files/Measurements_programs/SoundLevelMetersCalibration.py:304-305 | a bottom of range of 25 dB gives 94, 89, …, 34 |
| Linearity.Seed | PyGMI_files/Measurements_programs/SoundLevelMetersCalibration.py:332-357 | upward, the seed is 5 dB lower (above 5 dB) or 1 dB lower (above 1 dB). Downward, it is 5 dB higher (below 95 dB) or 1 dB higher (below 99 dB). Otherwise nothing is sent |
| Linearity.SeedOnScale | PyGMI_files/Measurements_programs/SoundLevelMetersCalibration.py:332-357 | a seed taken from a reading on the scale stays on the scale, above 0 and at most 99.99 dB |
| Linearity.ReadAttenuator | PyGMI_files/Measurements_programs/SoundLevelMetersCalibration.py:319 | the read succeeds exactly when the attenuator reply decodes, with the decoded value |
| Linearity.SendAttenuator | PyGMI_files/Measurements_programs/SoundLevelMetersCalibration.py:334 | the command written for a value on the scale decodes back to that value |
| Linearity.Step | PyGMI_files/Measurements_programs/SoundLevelMetersCalibration.py:317-337 | one target: a zero reading records nothing. Otherwise one row is recorded for the target with deviation 0 and class 1, and exactly the seed's command is sent, when there is a seed |
| Linearity.SweepSucceeds | PyGMI_files/Measurements_programs/SoundLevelMetersCalibration.py:317-357 | a sweep succeeds iff every attenuator reply is readable |
| Linearity.Sweep | PyGMI_files/Measurements_programs/SoundLevelMetersCalibration.py:317-357 | a sweep that succeeds records at most one row per target |
| Linearity.Sweeps | PyGMI_files/Measurements_programs/SoundLevelMetersCalibration.py:317-357 | the upper and lower sweeps together succeed iff every attenuator reply of both is readable, with at most one row per target |
| Linearity.StepRows | PyGMI_files/Measurements_programs/SoundLevelMetersCalibration.py:321-329 | a step records at most one row, exactly one unless the reading is zero, for its own target and with class 1 |
| Linearity.SweepRows | PyGMI_files/Measurements_programs/SoundLevelMetersCalibration.py:317-357 | every recorded row has deviation 0, class 1 and one of the sweep's targets. With no zero reading there is one row per target, in target order |
| Linearity.SweepsAllClass1 | PyGMI_files/Measurements_programs/SoundLevelMetersCalibration.py:323-350 | whatever the readings, every row of the upper and lower sweeps has deviation 0 and class 1 |
| Linearity.ReferenceIsFirstSet | PyGMI_files/Measurements_programs/SoundLevelMetersCalibration.py:382-383 | a set reference never changes. An unset one becomes the first nonzero reading, and stays unset while the readings are zero |
| Linearity.RangePass | PyGMI_files/Measurements_programs/SoundLevelMetersCalibration.py:378-392 | one row per level range, in order. Each row's expected value is the reference after its reading, its deviation is expected minus reading, and its class follows the linearity rule |
| Linearity.LevelRanges | PyGMI_files/Measurements_programs/SoundLevelMetersCalibration.py:374-427 | with at most one level range nothing happens. Otherwise it succeeds iff the attenuator reading decodes. Each pass has one row per further range, carrying that range and its reading, 0.2 dB uncertainty, deviation = expected - reading and the linearity class of the deviation. The first pass's expected value is the first nonzero reading so far; the second pass keeps the reference the first pass fixed |
| Linearity.SecondPassKeepsReference | PyGMI_files/Measurements_programs/SoundLevelMetersCalibration.py:411-416 | once the first pass's first reading is nonzero, it is the expected value of every second-pass row |
| Overload.Command | PyGMI_files/Measurements_programs/SoundLevelMetersCalibration.py:546 | for a value on the scale, `set` succeeds with this command, and it decodes back to the value |
| Overload.SetOnScale | PyGMI_files/Instruments/EL100.py:23-37 | below the top of the scale, `set` accepts exactly the non-negative values; a negative one fails at int('-') |
| Overload.Commands | PyGMI_files/Measurements_programs/SoundLevelMetersCalibration.py:546 | one command per value sent, each decoding to its value |
| Overload.Reports | PyGMI_files/Measurements_programs/SoundLevelMetersCalibration.py:525-526 | one report per answer, set iff the answer lower-cased is "y" |
| Overload.FineSearch | PyGMI_files/Measurements_programs/SoundLevelMetersCalibration.py:526-546 | when found, the last answer consumed is a report and the attenuation is at most start + 1.0 dB. When still running, it consumed every answer, sent one value per answer and stayed at or below the start. A fault means a negative value |
| Overload.Search | PyGMI_files/Measurements_programs/SoundLevelMetersCalibration.py:521-546 | the search consumes at least one answer when there are any. When found, the last answer consumed is a report and the attenuation is at most start + 1.0 dB. When still running, every answer was consumed and one value was sent per answer. A fault means a negative value |
| Overload.FineSentOnScale | PyGMI_files/Measurements_programs/SoundLevelMetersCalibration.py:545-546 | every value the fine phase sends is between 0 and where the phase started |
| Overload.SentOnScale | PyGMI_files/Measurements_programs/SoundLevelMetersCalibration.py:545-546 | every value the search sends is between 0 and the starting attenuation |
| Overload.FinePhase | PyGMI_files/Measurements_programs/SoundLevelMetersCalibration.py:526-546 | k answers without a report and then a report end the fine phase at start - 0.1k dB + 1.0 dB after k + 1 answers, having sent each 0.1 dB step |
| Overload.CoarsePhase | PyGMI_files/Measurements_programs/SoundLevelMetersCalibration.py:526-546 | k answers without a report and then a report send each 0.5 dB step, re-send the last value, and continue in the fine phase from start - 0.5k dB on the later answers |
| Overload.SearchClosedForm | PyGMI_files/Measurements_programs/SoundLevelMetersCalibration.py:521-546 | with the first report after n1 answers and the second after n2 more, the search records start - 0.5·n1 - 0.1·n2 + 1.0 dB after n1 + n2 + 2 answers. The values sent are the coarse staircase, its last value again, then the fine staircase. Later answers are never read |
| Overload.SearchExample | PyGMI_files/Measurements_programs/SoundLevelMetersCalibration.py:521-546 | from 10.00 dB the answers n, n, y, n, y record 9.90 dB, having sent 9.50, 9.00, 9.00 and 8.90 dB |
| Overload.NegativeValueFaults | PyGMI_files/Measurements_programs/SoundLevelMetersCalibration.py:545-546 | a coarse step below zero stops the search at the `set` of the negative value |
| Overload.OverloadGrade | PyGMI_files/Measurements_programs/SoundLevelMetersCalibration.py:540 | class 1 iff -1.8 ≤ diff ≤ 1.8, otherwise class 2 |
| Overload.MakeRow | PyGMI_files/Measurements_programs/SoundLevelMetersCalibration.py:537-542 | diff = overload reading - initial level, uncertainty 0.2, class 1 iff the diff is within ±1.8 dB |
| Overload.Measure | PyGMI_files/Measurements_programs/SoundLevelMetersCalibration.py:521-546 | a measurement exists iff the search finds the overload. Running out of answers and a rejected `set` are distinct failures. The row records the found attenuation, and the commands sent decode to the search's values |
| Overload.OverloadIndication | PyGMI_files/Measurements_programs/SoundLevelMetersCalibration.py:517-559 | both half-cycle measurements search from the same initial attenuation against upper - 1 dB. The procedure succeeds iff both find the overload |
| Overload.RmsAccuracy | PyGMI_files/Measurements_programs/SoundLevelMetersCalibration.py:1040-1097 | succeeds iff the search finds the overload. The three rows all record the found attenuation against 119 dB. The attenuation after the 1 dB and 3 dB reductions is 4 dB below the found one |
| TimeWeighting.PassFail | PyGMI_files/Measurements_programs/SoundLevelMetersCalibration.py:865-901 | a verdict exists iff the label is F or S with meter type 0 to 3, or I1 or I2 with type 0 to 2 |
| TimeWeighting.PassFailMatchesTable | PyGMI_files/Measurements_programs/SoundLevelMetersCalibration.py:865-901 | for every detector the nested branches agree with the table: subtract the detector's expected response, then test the type's inclusive band. Any other label gets no verdict |
| TimeWeighting.BandsWiden | PyGMI_files/Measurements_programs/SoundLevelMetersCalibration.py:868-901 | every band contains the expected response itself, and a band never narrows from one meter type to a higher one |
| TimeWeighting.PassFailWidens | PyGMI_files/Measurements_programs/SoundLevelMetersCalibration.py:868-901 | a burst that passes for a meter type passes for every higher type the table has a row for |
| TimeWeighting.Judge | PyGMI_files/Measurements_programs/SoundLevelMetersCalibration.py:865-901 | the table in band form: a verdict exists for meter types 0 to 3 of the fast and slow detectors and 0 to 2 of the impulse ones, and a pass never lies more than 3 dB from the expected response |
| TimeWeighting.TimeWeightingAsWritten | PyGMI_files/Measurements_programs/SoundLevelMetersCalibration.py:904-982 | the target is max - 4. Fast and 100 Hz impulse are judged on their own averages and rows. Slow is judged on the fast row. The 2 kHz impulse reports the slow average and judges it on the impulse row |
| TimeWeighting.Assess | PyGMI_files/Measurements_programs/SoundLevelMetersCalibration.py:925-926 | one test reports the average of its three readings and the table's verdict for that average |
| TimeWeighting.TimeWeighting | PyGMI_files/Measurements_programs/SoundLevelMetersCalibration.py:904-982 | every detector's own average is judged against its own row of the table |
| TimeWeighting.OnResponsePasses | PyGMI_files/Measurements_programs/SoundLevelMetersCalibration.py:865-901 | readings exactly on every expected burst response pass every test, for meter types 0 to 2 |
| TimeWeighting.AsWrittenDiffersOnlyThere | PyGMI_files/Measurements_programs/SoundLevelMetersCalibration.py:948-980 | the procedure as written and as intended agree except on the slow and the 2 kHz impulse outcomes |
| TimeWeighting.AsWrittenIgnoresImpulse2000 | PyGMI_files/Measurements_programs/SoundLevelMetersCalibration.py:960-979 | as written, the 2 kHz impulse outcome does not depend on the 2 kHz impulse readings |
| TimeWeighting.SlowJudgedAsFast | PyGMI_files/Measurements_programs/SoundLevelMetersCalibration.py:948-949 | a type 1 meter whose slow bursts read the expected 100.1 dB fails the slow test as written and passes it as intended |
| TimeWeighting.ImpulseJudgedOnSlowAverage | PyGMI_files/Measurements_programs/SoundLevelMetersCalibration.py:978-980 | the same meter's 2 kHz impulse bursts reading the expected 104.8 dB fail as written and pass as intended |
| El100.Format | PyGMI_files/Instruments/EL100.py:23-24 | "%05.2f" of h/100 is at least 5 characters, starts with '-' iff h is negative, and otherwise has all digits before the point three from the end |
| El100.FormatInRange | PyGMI_files/Instruments/EL100.py:23-24 | from 0 to 9999 hundredths, "%05.2f" is exactly tens, units, '.', tenths, hundredths |
| El100.DigitAt | PyGMI_files/Instruments/EL100.py:34-52 | int() of a position succeeds iff the position exists and holds a digit, with that digit's value |
| El100.BandChar | PyGMI_files/Instruments/EL100.py:36-51 | the character for a digit lies in its position's band of ten codes |
| El100.Encode | PyGMI_files/Instruments/EL100.py:27-52 | encoding succeeds iff positions 0, 1, 3 and 4 exist and are digits. The command is four characters, each in its position's band (64, 80, 96, 112 onward) |
| El100.EncodeIgnoresPoint | PyGMI_files/Instruments/EL100.py:27-30 | whatever character is at index 2, the command is the same |
| El100.EncodeReadsFourPositions | PyGMI_files/Instruments/EL100.py:27-30 | two texts that agree at positions 0, 1, 3 and 4 give the same command |
| El100.SetRoundTrip | PyGMI_files/Instruments/EL100.py:18-52 | every value from 00.00 to 99.99 dB is accepted, and its command decodes back to it |
| El100.SetInjective | PyGMI_files/Instruments/EL100.py:18-52 | distinct values on the scale give distinct commands |
| El100.SetAccepts | PyGMI_files/Instruments/EL100.py:23-35 | `set` accepts a number iff it is 00.00 to 99.99 dB or at least 10000.00 dB. Negative values fail on the sign, and 100.00 to 9999.99 dB on the point |
| El100.Set | PyGMI_files/Instruments/EL100.py:18-52 | every command `set` produces is four characters and decodes to a value |
| El100.DecodeCommand | PyGMI_files/Instruments/EL100.py:34-52 | a command that decodes gives a value on the scale, 0 to 99.99 dB |
| El100.SetWrapsAboveRange | PyGMI_files/Instruments/EL100.py:23-30 | 10000.00 dB is sent as the command for 10.00 dB |
| El100.Get | PyGMI_files/Instruments/EL100.py:54-60 | a reply reads iff it is non-empty and its first four characters are digits, giving a value on the scale |
| El100.GetAttenuation | PyGMI_files/Instruments/EL100.py:62-65 | `get_attenuation` returns exactly what `get` returns |
| El100.GetFourDigits | PyGMI_files/Instruments/EL100.py:54-60 | a reply "abcd" of digits reads as 10a + b + c/10 + d/100 dB |
| El100.GetShortReply | PyGMI_files/Instruments/EL100.py:54-60 | a reply of three, two or one digits reads as ab.c, ab. or a. dB, since the slices of a short reply are shorter |
| El100.GetReadsFourCharacters | PyGMI_files/Instruments/EL100.py:58-59 | only the first four characters of the reply matter |
| El100.GetExample | PyGMI_files/Instruments/EL100.py:55-56 | the reply "2053" reads as 20.53 dB |
| El100.ReadingRoundTrip | PyGMI_files/Instruments/EL100.py:18-60 | the digits of `set`'s formatted text, point removed, read back through `get` as the value that was set |
| Keithley2001.FirstField | PyGMI_files/Instruments/Keithley2001.py:20 | split(",")[0] is the longest comma-free prefix of the line |
| Keithley2001.RemoveAll | PyGMI_files/Instruments/Keithley2001.py:20 | replace(pat, "") never lengthens the text or adds characters, and leaves text without the pattern's first character unchanged |
| Keithley2001.Token | PyGMI_files/Instruments/Keithley2001.py:17-20 | the converted token is comma-free and no longer than the line |
| Keithley2001.FirstFieldOfJoin | PyGMI_files/Instruments/Keithley2001.py:20 | the first field of "head,rest" is head when head has no comma |
| Keithley2001.RemoveAllPrefix | PyGMI_files/Instruments/Keithley2001.py:20 | a prefix without the pattern's first character passes through the removal unchanged |
| Keithley2001.RemoveAllOccurrence | PyGMI_files/Instruments/Keithley2001.py:20 | an occurrence of the pattern after a prefix free of its first character is dropped, and the removal continues after it |
| Keithley2001.TokenIgnoresLaterFields | PyGMI_files/Instruments/Keithley2001.py:17-20 | `parse_float` looks only at the text before the first comma |
| Keithley2001.TokenStripsUnit | PyGMI_files/Instruments/Keithley2001.py:20 | a value followed by "NVDC" or "NVAC" and further fields reads as the bare value |
| Keithley2001.SampleReading | PyGMI_files/Instruments/Keithley2001.py:130 | the documented line "-38.3204E-03NVDC,+73597.273513SECS,…" yields "-38.3204E-03" |
| Keithley2001.QueryVoltageToken | PyGMI_files/Instruments/Keithley2001.py:148-151 | the token `query_voltage` converts never contains a comma |
| Keithley2001.QueryVoltageKeepsDcSuffix | PyGMI_files/Instruments/Keithley2001.py:148-151 | `query_voltage` leaves a DC reading's "NVDC" in place, where `parse_float` strips it |
| Keithley2001.QueryVoltageStripsAcSuffix | PyGMI_files/Instruments/Keithley2001.py:148-151 | `query_voltage` does strip an AC reading's "NVAC" suffix |
| Keithley2001.QueryVoltage | PyGMI_files/Instruments/Keithley2001.py:148-151 | for a first field without a unit suffix, `query_voltage` converts the same text as `parse_float` |
| Keithley2001.ParseFloat | PyGMI_files/Instruments/Keithley2001.py:17-20 | `parse_float` converts the cleaned first field; a first field without a unit suffix is converted as it stands |
| Keithley2001.ReplyValue | PyGMI_files/Instruments/Keithley2001.py:170-175 | an empty reply reads 0.0; any other is converted like `parse_float` |
| Keithley2001.QueryVoltageCompliance | PyGMI_files/Instruments/Keithley2001.py:187-192 | an empty reply reads 0.0; any other converts the first field with both unit suffixes removed |
| Keithley2001.QueryCurrentSourceAmplitude | PyGMI_files/Instruments/Keithley2001.py:163-192 | the current-amplitude reply is read exactly as the voltage-compliance reply is: an empty reply gives 0.0 |
| Keithley2001.ScanChannel | PyGMI_files/Instruments/Keithley2001.py:68-73 | the scan succeeds iff every one of the first `times` replies converts. It then returns exactly max(times, 0) values in read order, each rounded to five decimals |
| Microphone.LeadingDigit | PyGMI_files/Measurements_programs/MicrophoneConfiguration.py:388-389 | int() of the first character of "%05.2f" fails exactly for negative values, at '-'. On the scale it is the tens digit |
| Microphone.UncertaintyForDigit | PyGMI_files/Measurements_programs/MicrophoneConfiguration.py:389-400 | digit d from 0 to 5 gives 0.01·(d + 1) dB; any other digit falls through to None |
| Microphone.ErrorForDigit | PyGMI_files/Measurements_programs/MicrophoneConfiguration.py:409-421 | the error is 0.004 dB for leading digit 0, 0.008 for 1 and 2, 0.009 for 3 to 5 and 0.010 for 6, so the least-significant-digit share of 0.004 is always included; digits 7 to 9 fall through to None |
| Microphone.ErrorMonotone | PyGMI_files/Measurements_programs/MicrophoneConfiguration.py:402-421 | where the error is defined it never falls as the leading digit rises |
| Microphone.ErrorWithinUncertainty | PyGMI_files/Measurements_programs/MicrophoneConfiguration.py:383-421 | wherever the uncertainty is defined, the error is too and is no larger |
| Microphone.AttenuatorUncertainty | PyGMI_files/Measurements_programs/MicrophoneConfiguration.py:383-400 | raises exactly for negative values. Below 60.00 dB it is 0.01 dB per tens digit plus 0.01; from 60.00 to 99.99 dB it is None |
| Microphone.AttenuatorError | PyGMI_files/Measurements_programs/MicrophoneConfiguration.py:402-421 | raises exactly for negative values. Below 70.00 dB it is the digit's table entry; from 70.00 to 99.99 dB it is None |
| Microphone.WarnsOutsidePreferredRange | PyGMI_files/Measurements_programs/MicrophoneConfiguration.py:261-283 | a check warns iff the value is outside its inclusive bounds, which are exactly the preferred ranges the warnings state (23±3 °C, 50±20 %, 1013±10, 200±2 V) |
| Microphone.Warnings | PyGMI_files/Measurements_programs/MicrophoneConfiguration.py:261-283 | a round of checks warns about exactly the out-of-range quantities, each once, temperature first |
| Microphone.Environment | PyGMI_files/Measurements_programs/MicrophoneConfiguration.py:122-136 | each reported field is midway between its initial and final readings. The final temperature and humidity are the initial ones, so those fields are unchanged |
| Microphone.FinalChecksRepeatInitial | PyGMI_files/Measurements_programs/MicrophoneConfiguration.py:122-131 | the final temperature and humidity checks warn exactly when the initial ones did |
| Microphone.Unstable | PyGMI_files/Measurements_programs/MicrophoneConfiguration.py:252-258 | fails on an empty list or a zero first reading. Otherwise the run aborts iff last/first < 0.7, stated without division for either sign of the first reading |
| Microphone.StabilityEndpoints | PyGMI_files/Measurements_programs/MicrophoneConfiguration.py:252-258 | only the first and the last reading decide the stability check |
| Microphone.Converge | PyGMI_files/Measurements_programs/MicrophoneConfiguration.py:174-188 | the balancing loop never raises the attenuation. It settles within the readings it has, stops when `set` rejects the attenuation it writes, or runs out with fewer than two good ones |
| Microphone.Balancing | PyGMI_files/Measurements_programs/MicrophoneConfiguration.py:171-188 | from 100 - sensitivity - 94, every pass writes the start less the errors of the bad readings so far. The loop settles at the reading that makes two good ones, or stops at the first write `set` rejects, with every earlier write accepted; when every write is accepted it settles iff two readings are good |
| Microphone.ConvergeClosedForm | PyGMI_files/Measurements_programs/MicrophoneConfiguration.py:174-188 | the same closed form from any attenuation and count: settled at the second good reading, stopped at the first rejected write, or out of readings with every write accepted |
| Microphone.NonConsecutiveGoodReadings | PyGMI_files/Measurements_programs/MicrophoneConfiguration.py:174-188 | for a -26.49 dB microphone, good, bad (0.3 dB), good settles after three readings at 32.19 dB: the good readings need not be adjacent |
| Microphone.SetAttenuation | PyGMI_files/Measurements_programs/MicrophoneConfiguration.py:175-176 | `set("%05.2f" % atten)` raises at the '-' for every negative attenuation, even one that rounds to zero. Otherwise it succeeds iff the value in hundredths is at most 99.99 dB (or at least 10000.00 dB), and on the scale the command decodes back to that value |
| Microphone.BalancingStaysOnScale | PyGMI_files/Measurements_programs/MicrophoneConfiguration.py:171-188 | when the start is on the scale and the fully corrected attenuation is not negative, no write is rejected, and the loop settles iff two readings are good |
| Microphone.AttenuationFalls | PyGMI_files/Measurements_programs/MicrophoneConfiguration.py:185-187 | the attenuation written at a later pass is never above an earlier one |
| Microphone.NegativeAttenuationRaises | PyGMI_files/Measurements_programs/MicrophoneConfiguration.py:171-186 | for a -26.49 dB microphone a 40 dB error takes the attenuation from 32.49 to -7.51 dB, and the next write raises before the good readings are taken |
| Microphone.VarianceSign | PyGMI_files/Measurements_programs/MicrophoneConfiguration.py:351-369 | the sum is never negative, vanishes for an all-zero budget, bounds each attenuator and voltmeter share from above, and ignores the level argument |
| Microphone.Variance | PyGMI_files/Measurements_programs/MicrophoneConfiguration.py:351-369 | the source's sum of (x/2)² and (x/√3)² terms equals (IVu² + Au² + Mu²)/4 plus the other nine squares over 3 |
| Microphone.CalculateUncertainties | PyGMI_files/Measurements_programs/MicrophoneConfiguration.py:298-349 | no measurements, a negative mean attenuation, and a mean of 60.00 dB or more on the scale all fail. Otherwise Au and Ae are the table entries at the mean attenuation, u_thd = 2·Au, u_total = 2·round(√variance, 3), and the fixed contributions are the source's constants |

## Left out

- GUI and operator I/O (Tk dialogs, menus, YAML loading), threading, the bus lock, `time.sleep`, and the polling wait on the Keithley. Operator answers and readings are input sequences.
- VISA I/O of every driver and `_tune_wgenerator`. Its (volt, atten) result is an input: the initial attenuation of the overload searches, for example.
- The Agilent 33250A driver, a command writer with no decision logic.
- The other procedures of the file:
  - `freq_time_weighting` classifies with the linearity rule (`Tolerance.LinearityGrade`).
  - `acoustic_test` passes when |average - corrected level| is within the configured tolerance.
  - `peak_response60651` passes when |diff| < 2.0 dB.
  - `time_averaging60651` uses ±0.5, ±1.0 or ±1.5 dB by meter type, then ±1.0 dB.

  These are dialog sequences around those comparisons and are not part of this model.
- The unfinished or display-only procedures: `pulse_range_sound_exposure_level_and_overload60651`, `self_generated_noise_test`, `microphone_est_maximum_error`, `coverage_factor`, and all report printing.
- Binary floating point. dB values are exact reals and attenuations exact hundredths. A sum such as 10.0 - 0.1 - 0.1 that is inexact in binary, and a "%05.2f" tie that binary rounding decides, are not modelled.
- log10, sqrt and `numpy.std`:
  - `voltmeter_uncertainty` and `voltmeter_error` (log10 of certificate values) are the inputs `ivu` and `ive`;
  - the square root is a parameter;
  - u_SPL, u_type_A and u_frequency are not computed.
- `voltmeter_uncertainty` and `voltmeter_error` compute the same expression from the same certificate values. The model takes both as the inputs `ivu` and `ive` and does not state that they are equal.
- `float()` on operator text and on Keithley replies. The Keithley functions take it as a parameter `toFloat`; readings are reals.
- The balancing loop (MicrophoneConfiguration.py:171-188): the measured errors are its inputs, since the voltmeter scan, log10 and the sleep are not modelled. The characters `set` writes are computed but not part of its result.
- Microphone.SetAttenuation: "%05.2f" rounds the binary value of the attenuation, so a value within a binary tie of a hundredth could round the other way; the model rounds the exact value half away from zero.
- El100.Get: float() also accepts a sign, surrounding blanks or an exponent in the text "dd.DD" (a reply "-105" reads -1.05, a reply "12e5" becomes "12.e5" and reads 1200000.0). The model reads only all-digit replies and reports anything else as an error.
- Microphone.VarianceSign: states that an all-zero budget gives zero, not the converse, which holds as well.
- Overload.Search: the source loops until the second "y" however long that takes. The model stops when the answers run out and reports that as pending.

## Findings

| source | as written | input that shows it | evidently intended | confidence | as-written member | corrected member |
|---|---|---|---|---|---|---|
| PyGMI_files/Measurements_programs/SoundLevelMetersCalibration.py:948-949 | the slow-burst average is judged with the label "F", that is against the fast row (offset 1.0 dB) | type 1 meter, top of range 100 dB, slow bursts reading the expected 96 + 4.1 = 100.1 dB: remainder 3.1 dB, FAIL | the slow burst judged with "S" (offset 4.1 dB): remainder 0, PASS | high; not executed | TimeWeighting.SlowJudgedAsFast | TimeWeighting.TimeWeighting |
| PyGMI_files/Measurements_programs/SoundLevelMetersCalibration.py:978-980 | the 2 kHz impulse verdict uses `res_avg`, which still holds the slow average; the 2 kHz readings are never averaged | the same meter with 2 kHz impulse bursts reading the expected 96 + 8.8 = 104.8 dB and slow bursts at 100.1 dB: the verdict is computed from 100.1 dB, FAIL | the 2 kHz impulse average judged with "I1": remainder 0, PASS | high; not executed | TimeWeighting.ImpulseJudgedOnSlowAverage | TimeWeighting.TimeWeighting |
