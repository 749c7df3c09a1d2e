# OndOcean RemoteID Maritime: validation engine, logger and sensor admission

A Dafny model of three components of the OndOcean maritime RemoteID firmware:

- the **data-validation engine** (`data_validation.cpp/.h`):
  - four first-failure-wins admission checks;
  - their global statistics record;
  - the verdict names;
  - three sanitisers that rewrite values in place;
- the **logger** (`ondocean_logger.cpp/.h`):
  - the level filter and the `LogStats` counters;
  - the assembly of one line in a fixed-capacity stack buffer, with its cursor / remaining-space discipline and the truncation marker;
  - the FATAL halt;
  - raw lines, the statistics reset, the level and MQTT settings, the uptime;
  - the hex dump and the JSON line;
- the **sensor admission policy** (`maritime_sensors.cpp`):
  - the environment threshold test;
  - `read_maritime_sensors`, which validates a fresh snapshot, recovers an out-of-range one by clamping it, and fails on any other verdict.

How the C is represented:

- **Floats.** A `float`/`double` is `Float = Num(real) | NaN | Inf(negative)`, and every C comparison is false on NaN. So a NaN reading passes every `x < lo || x > hi` test, while a NaN coordinate fails the `lo <= x && x <= hi` tests.
- **Counters.** Every `uint32_t` counter wraps explicitly modulo 2^32.
- **The clock.** `millis()` is a parameter `now`.
- **Global state.** The globals `validation_config`/`validation_stats` are the `Validation.Validator` class. `logger_config`/`log_stats`/`system_start_time`, together with the serial port, are the `Logger.Logger` class. Its observable state `Sinks()` holds:
  - the statistics;
  - the lines printed so far;
  - a flag for the FATAL halt.
- **The line buffer.** It is an `array<char>` of capacity `max_log_buffer`. Every `snprintf` into it is `LogLine.Put`, proved against `LogLine.Printed`. The whole assembly is proved equal to the sequence-level `LogLine.RenderedLine`.
- **Validators.** Each validator method is proved equal to a declarative list of checks (`ValidationChecks.SensorChecks` and the others). The order of verdicts is proved about those lists.

Modules:

- `CSupport`: C runtime values, wrapping `uint32_t`, IEEE comparisons, NUL-terminated strings, `%u` / `%X`;
- `LoggerTypes`, `LogLine`, `HexDump`, `Logger`, `LoggerProperties`: the logger;
- `ValidationTypes`, `ValidationChecks`, `Validation`, `Sanitizers`: the validation engine;
- `SensorData`, `MaritimeSensors`: the sensor record and the driver.

Some behaviours of the code are stated as lemmas rather than corrected:

- `LOG_EMERGENCY` is documented as "always logged", but it is an ordinary FATAL call and is silent when the minimum level is NONE (`LoggerProperties.EmergencyOutcome`). The model follows the code.
- `is_maritime_environment_safe` and `validate_maritime_environment` have no lower humidity bound, so a negative humidity is "safe" yet rejected by `validate_maritime_sensor_data`.
- The recovery in `read_maritime_sensors` clamps humidity to 100 while validation admits at most 95, so a read can succeed with a snapshot that validation rejects.
- Because `millis()` is read twice, a clock wrap between stamping and validating makes fresh data "from the future".

## Model

| member | source | states |
|---|---|---|
| CSupport.IncU32 | data_validation.h:85-94 | a `uint32_t` counter's `++`: one more below 2^32-1, 0 after 2^32-1 |
| CSupport.SubU32 | ondocean_logger.cpp:247-249 | `uint32_t` subtraction: the plain difference when no borrow, otherwise the difference plus 2^32 |
| CSupport.OutsideMeaning | data_validation.cpp:56-57 | the test `x < lo` or `x > hi` rejects exactly the finite values outside [lo, hi], never NaN, always an infinity |
| CSupport.WithinVersusOutside | data_validation.cpp:191-201 | the `lo <= x && x <= hi` form and the `<`/`>` form agree on everything but NaN, which the positive form rejects and the other admits |
| CSupport.NulIndex | ondocean_logger.cpp:168-171 | the first NUL of a buffer: no NUL before it, a NUL at it unless the buffer has none |
| CSupport.NulIndexAt | ondocean_logger.cpp:168-171 | a NUL with no NUL before it is the first NUL |
| CSupport.CString | ondocean_logger.cpp:168-171 | what `Serial.println` prints of a buffer is a NUL-free prefix of it |
| CSupport.CStringAt | ondocean_logger.cpp:168-171 | the printed text ends at the first NUL |
| CSupport.HexRoundTrip | ondocean_logger.cpp:276 | the `%X` digits read back in base 16 give the number printed |
| CSupport.DecimalRoundTrip | ondocean_logger.cpp:105 | the `%u` digits read back in base 10 give the number printed |
| CSupport.HexLength32 | ondocean_logger.cpp:276 | a 32-bit value prints in at most 8 hexadecimal digits |
| CSupport.DecimalLength32 | ondocean_logger.cpp:105 | a 32-bit value prints in at most 10 decimal digits |
| CSupport.ZeroPadded | ondocean_logger.cpp:105 | `%08u`: the digits padded to at least the width, without NUL |
| CSupport.ZeroPaddedValue | ondocean_logger.cpp:105 | zero padding does not change the value printed |
| LoggerTypes.ZeroStatsCounters | ondocean_logger.cpp:242-243 | the record after `memset` has every total, level and category counter at 0 |
| LoggerTypes.CounterSlots | ondocean_logger.h:53-61 | `logs_by_level` has a slot exactly for levels below NONE, `logs_by_category` exactly for categories below MAX |
| LoggerTypes.DefaultConfigValues | ondocean_logger.h:40-50 | defaults: INFO minimum; timestamps, categories, colours and serial on; MQTT and file/line off; 512-byte buffer |
| LoggerTypes.TablesWellFormed | ondocean_logger.cpp:14-36 | one colour and one level name per level (NONE included), one name per category; names 5 and 6 characters, colour codes 4-5, no NUL |
| LogLine.Stored | ondocean_logger.cpp:105-109 | snprintf stores at most `size - 1` characters, and all of them when the text fits |
| LogLine.PrintedShape | ondocean_logger.cpp:105-109 | snprintf keeps the bytes before the cursor, stores the stored part and a NUL, and leaves the rest of the buffer alone |
| LogLine.Put | ondocean_logger.cpp:105 | the `snprintf` on the `array<char>` buffer returns the full piece length and leaves the buffer as `Printed` says |
| LogLine.LevelPiece | ondocean_logger.cpp:122 | "[%s]" of a level name is 7 NUL-free characters |
| LogLine.CategoryPiece | ondocean_logger.cpp:130 | "[%s]" of a category name is 8 NUL-free characters |
| LogLine.TimestampPieceLength | ondocean_logger.cpp:104-105 | "[%08u] " takes 11 to 13 characters |
| LogLine.Advance | ondocean_logger.cpp:106-109 | a piece is kept only when it fits strictly, so the text before the cursor stays below the capacity |
| LogLine.LineArgsOk | ondocean_logger.cpp:82-130 | what a call needs for its line to be built without undefined behaviour: a buffer of at least one byte, a category inside the name table whenever names are printed, and a NUL-free message |
| LogLine.Prefix | ondocean_logger.cpp:102-142 | the prefix always leaves at least one byte of room and holds no NUL |
| LogLine.Append | ondocean_logger.cpp:105-109 | one prefix step on the buffer: the cursor stays inside it and advances by the piece exactly when the piece fits |
| LogLine.WriteLead | ondocean_logger.cpp:102-119 | the timestamp and colour steps leave the buffer holding `ColorStep(StampStep(..))` before the cursor |
| LogLine.WriteTags | ondocean_logger.cpp:121-142 | the level, category and separator steps, each kept only when it fits |
| LogLine.WritePrefix | ondocean_logger.cpp:98-142 | the buffer holds exactly `Prefix(..)` before the cursor, and the cursor stays inside the buffer |
| LogLine.PrefixEmptyOnlyInUnitBuffer | ondocean_logger.cpp:137-142 | the prefix is empty only in a one-byte buffer |
| LogLine.MarkerStart | ondocean_logger.cpp:156 | corrected marker position: inside the buffer, at most 20 bytes before the cursor, and equal to `cursor - 20` whenever that is in bounds |
| LogLine.MarkerUnderflowAsWritten | ondocean_logger.cpp:156 | as written: with a prefix of 8 bytes a dropped message puts the marker 12 bytes before the buffer |
| LogLine.MarkerOffsetAsWritten | ondocean_logger.cpp:156 | the buffer offset the as-written marker write starts at: the cursor minus 20, negative below 20 |
| LogLine.MessageFits | ondocean_logger.cpp:147-153 | the message is kept exactly when `vsnprintf`'s count is positive and below the space the prefix leaves |
| LogLine.LineAfter | ondocean_logger.cpp:144-166 | the text in the buffer after the message step: prefix, message and the stored part of the colour reset; or the prefix cut at the marker, then the stored marker |
| LogLine.RenderedLine | ondocean_logger.cpp:100-170 | the line `logger_log` hands to `Serial.println`; `AssembleLine` proves the buffer assembly equal to it |
| LogLine.TerminatedCString | ondocean_logger.cpp:170 | the printed line is the buffer up to its terminating NUL |
| LogLine.PrintedTerminated | ondocean_logger.cpp:105-109 | snprintf of a NUL-free piece behind NUL-free text leaves the text, the stored part and a NUL |
| LogLine.PrintedBehind | ondocean_logger.cpp:161 | snprintf behind the terminating NUL does not change the C string |
| LogLine.ResetKeeps | ondocean_logger.cpp:159-166 | the colour reset after the marker does not change the C string |
| LogLine.LineAfterKept | ondocean_logger.cpp:147-152 | when the message fits, the line is prefix, message and the stored part of the colour reset |
| LogLine.LineAfterDropped | ondocean_logger.cpp:153-157 | when the message is dropped, the line is the prefix cut at the marker, then the stored part of the marker |
| LogLine.MarkerTerminates | ondocean_logger.cpp:156 | the corrected marker write leaves the prefix before its start, the stored marker and a NUL |
| LogLine.EndKept | ondocean_logger.cpp:159-171 | after a kept message, the printed text is `LineAfter` of the prefix and message |
| LogLine.EndDropped | ondocean_logger.cpp:153-171 | after a dropped message, the printed text is the marker form of `LineAfter` |
| LogLine.MessageStored | ondocean_logger.cpp:147-152 | vsnprintf of a message that fits leaves prefix plus message, terminated |
| LogLine.MessageRefused | ondocean_logger.cpp:147-157 | vsnprintf of a message that does not fit leaves the prefix in front of the cursor |
| LogLine.WriteBody | ondocean_logger.cpp:144-166 | the message step reports a drop exactly when `0 < written < remaining` fails, and the printed text is `LineAfter` |
| LogLine.AssembleLine | ondocean_logger.cpp:97-171 | assembling in the stack buffer drops exactly when `MessageFits` fails and prints exactly `RenderedLine` |
| LogLine.LineAfterFits | ondocean_logger.cpp:144-171 | whatever the prefix and message, the line fits the buffer with its NUL and holds no NUL |
| LogLine.LineFitsBuffer | ondocean_logger.cpp:97-171 | every printed line is shorter than `max_log_buffer` and NUL-free |
| LogLine.DroppedAfterLongPrefix | ondocean_logger.cpp:153-157 | behind a prefix of at least 20 bytes, a dropped message gives the prefix less its last 20 bytes, then the whole marker |
| LogLine.DroppedLineEndsWithMarker | ondocean_logger.cpp:153-157 | the same for the line `logger_log` prints |
| LogLine.DefaultPrefix | ondocean_logger.cpp:102-142 | under the default configuration every piece fits and the prefix is at least 20 bytes, so the as-written marker offset is in bounds |
| HexDump.HexByte | ondocean_logger.cpp:280 | a byte shows as two NUL-free characters |
| HexDump.HexByteIsPadded | ondocean_logger.cpp:280 | those two characters are exactly `%02X` |
| HexDump.HexByteDecodes | ondocean_logger.cpp:280 | the two digits read back in base 16 give the byte |
| HexDump.AsciiChar | ondocean_logger.cpp:293 | the ASCII column character is printable (32..126) and never NUL |
| HexDump.AsciiColumnShows | ondocean_logger.cpp:291-294 | bytes 32..126 show as themselves, every other byte as '.' |
| HexDump.HexColumn | ondocean_logger.cpp:279-281 | the hex column is three characters per byte, NUL-free |
| HexDump.HexColumnGroup | ondocean_logger.cpp:279-281 | group k of the hex column is byte k's two digits and a space |
| HexDump.Spaces | ondocean_logger.cpp:284-286 | the padding is three spaces per missing byte |
| HexDump.HexOffset | ondocean_logger.cpp:276 | "%04X: " takes 6 to 10 characters for a 32-bit offset |
| HexDump.HexOffsetWidth | ondocean_logger.cpp:276 | a 32-bit offset has at most 8 hexadecimal digits |
| HexDump.BytesOnLine | ondocean_logger.cpp:279 | a line shows 1 to 16 bytes, none past the end of the data |
| HexDump.LineBytes | ondocean_logger.cpp:279 | the bytes of the line at `offset` are the data from `offset` on |
| HexDump.AsciiColumn | ondocean_logger.cpp:291-294 | one character per byte shown, NUL-free |
| HexDump.HexBody | ondocean_logger.cpp:278-294 | what follows the offset field: hex column, blank slots, a space and the ASCII column; `HexLineLayout` states its shape |
| HexDump.HexLine | ondocean_logger.cpp:275-295 | the text of the dump line at an offset; `FormatHexLine` proves the buffer equal to it |
| HexDump.HexLineLayout | ondocean_logger.cpp:273-295 | a line is offset, a 48-character hex column, a space and one ASCII character per byte; it fits the 80-byte `hex_line` |
| HexDump.HexBodyGroupAt | ondocean_logger.cpp:279-286 | slot k of the hex column shows byte k when it exists and blanks otherwise |
| HexDump.HexBodyAsciiAt | ondocean_logger.cpp:288-294 | after the hex column come a space and the ASCII character of each byte |
| HexDump.LineOffsetsFrom | ondocean_logger.cpp:274 | the outer loop only visits offsets inside the data |
| HexDump.LineOffsetsFromShape | ondocean_logger.cpp:274 | from `offset` there are ceil((length - offset) / 16) lines, 16 bytes apart |
| HexDump.HexLines | ondocean_logger.cpp:274-298 | one dump line per visited offset |
| HexDump.HexLinesShape | ondocean_logger.cpp:274-298 | a buffer dumps as ceil(length / 16) lines, line k being the line at offset 16k |
| HexDump.HexLinesCount | ondocean_logger.cpp:274 | the number of dump lines is ceil(length / 16) |
| HexDump.RowsLeft | ondocean_logger.cpp:274 | the loop runs again after k lines exactly when k is below the line count |
| HexDump.Sprintf | ondocean_logger.cpp:276 | unbounded `sprintf`: the text and a NUL at the pointer, nothing else changed |
| HexDump.PutHexBytes | ondocean_logger.cpp:279-281 | the first inner loop writes the hex column of the line's bytes |
| HexDump.PutPadding | ondocean_logger.cpp:284-286 | the padding loop completes the 48-character hex column |
| HexDump.PutAsciiColumn | ondocean_logger.cpp:288-294 | the separating space and the ASCII loop complete the line |
| HexDump.PutLineBody | ondocean_logger.cpp:279-294 | the three column loops together write the whole line after the offset field and leave the offset field alone |
| HexDump.FormatHexLine | ondocean_logger.cpp:275-295 | the line built in the 80-byte buffer is exactly `HexLine(data, offset)` |
| Logger.AcceptedEffect | ondocean_logger.cpp:85-190 | an accepted call on a running device: counted, its line printed when serial is on, halted when FATAL |
| Logger.Counted | ondocean_logger.cpp:85-95 | the statistics after an accepted call: total, level slot below NONE, category slot below MAX, dropped counter when not kept, last timestamp, level and category; the array shapes are kept |
| Logger.LogEffect | ondocean_logger.cpp:81-190 | `logger_log` as a function of the state: nothing when halted or below the level, otherwise counted, the rendered line printed when serial is on, the banner and the halt on FATAL; `AcceptedEffect` and LoggerProperties state its properties |
| Logger.LogAll | ondocean_logger.cpp:274-298 | a series of `logger_log` calls in order, each on the state the previous left; `SeriesCounts` and `SeriesPrints` state what it does |
| Logger.RenderedLines | ondocean_logger.cpp:297 | one rendered line per message of a series, in order |
| Logger.RawLine | ondocean_logger.cpp:194-196 | what `Serial.println` prints for a raw message: a NUL-free line, empty for a null pointer |
| Logger.RawEffect | ondocean_logger.cpp:193-198 | `logger_log_raw` as a function of the state; `RawOnlyTotal` and `HaltedStaysPut` state its properties |
| Logger.ResetEffect | ondocean_logger.cpp:242-245 | `logger_reset_stats` as a function of the state: zeroed statistics, then the INFO/SYSTEM notice; `ResetOutcome` states the result |
| Logger.LevelNotice | ondocean_logger.cpp:66 | "Log level set to %s" with the level's name, NUL-free |
| Logger.MqttNotice | ondocean_logger.cpp:74-76 | "MQTT logging %s (topic: %s)", NUL-free |
| Logger.HexDumpHeader | ondocean_logger.cpp:271 | "Hex dump: %s (%u bytes)", NUL-free |
| Logger.JsonNotice | ondocean_logger.cpp:307 | "JSON data: %s", NUL-free |
| Logger.HexDumpEffect | ondocean_logger.cpp:266-299 | `logger_log_hex_dump` as a function of the state: nothing below the level or for null data, else the DEBUG header then `LogAll` of the rows; `HexDumpIsSeries`, `HexDumpPrints` and `FatalDumpStopsAfterFirstRow` state its properties |
| Logger.JsonEffect | ondocean_logger.cpp:301-308 | `logger_log_json` as a function of the state: nothing below the level or for null, else one DEBUG line |
| Logger.InitConfig | ondocean_logger.cpp:48-54 | the six configuration fields `logger_init` sets, the others kept |
| Logger.InitEffect | ondocean_logger.cpp:45-60 | `logger_init` as a function of the state: reset with its notice, then the start-up line; `InitFromPowerOn` states the result |
| Logger.HexLinesNulFree | ondocean_logger.cpp:273-297 | every dump line is a NUL-free C string shorter than 80 |
| Logger.Logger.constructor | ondocean_logger.cpp:11-12 | power-on state: default configuration, zeroed statistics, nothing printed |
| Logger.Logger.Log | ondocean_logger.cpp:79-191 | `logger_log` changes the observable state exactly as `LogEffect` |
| Logger.Logger.CountCall | ondocean_logger.cpp:85-95 | the statistics update of an accepted call, nothing else changed |
| Logger.Logger.Halt | ondocean_logger.cpp:184-190 | the banner is printed and the device halts |
| Logger.Logger.Emergency | ondocean_logger.h:134-135 | `LOG_EMERGENCY` is a FATAL SYSTEM call with "[EMERGENCY] " in front |
| Logger.Logger.LogRaw | ondocean_logger.cpp:193-198 | `logger_log_raw` is `RawEffect`: a null message is an empty line, and it is still counted |
| Logger.Logger.ResetStats | ondocean_logger.cpp:242-245 | `logger_reset_stats` is `ResetEffect` |
| Logger.Logger.SetLevel | ondocean_logger.cpp:64-67 | the minimum level is set, then the INFO notice is logged under it |
| Logger.Logger.EnableMqtt | ondocean_logger.cpp:69-77 | the flag is set; a null topic keeps the old one; the INFO notice names the topic in force |
| Logger.Logger.Init | ondocean_logger.cpp:45-62 | the start time and the configuration are reset, then the reset line and the start-up line are logged; on a halted logger nothing changes |
| Logger.Logger.UptimeMs | ondocean_logger.cpp:247-249 | start time plus uptime is the clock modulo 2^32; it is the plain difference without a wrap |
| Logger.Logger.LogHexDump | ondocean_logger.cpp:266-299 | `logger_log_hex_dump` is `HexDumpEffect` |
| Logger.Logger.LogRows | ondocean_logger.cpp:274-298 | the dump loop logs every row of `HexLines(data)`, in order |
| Logger.Logger.LogHexLine | ondocean_logger.cpp:275-297 | one pass of the loop logs row k after rows 0..k-1 |
| Logger.Logger.LogJson | ondocean_logger.cpp:301-308 | `logger_log_json` is `JsonEffect`: nothing below the level or for null, else one DEBUG line |
| LoggerProperties.LevelsOrdered | ondocean_logger.h:13-21 | TRACE < DEBUG < INFO < WARN < ERROR < FATAL < NONE |
| LoggerProperties.ChangesIffAccepted | ondocean_logger.cpp:81-83 | a call changes nothing exactly when it is below the minimum level or the device has halted |
| LoggerProperties.AcceptedCounts | ondocean_logger.cpp:85-95 | an accepted call bumps the total and exactly its level and category slots (none for NONE/MAX), bumps `dropped_logs` exactly when the message did not fit, and records time, level and category |
| LoggerProperties.AcceptedPrints | ondocean_logger.cpp:168-190 | an accepted call prints its line when serial is on; a FATAL one then prints the banner and halts |
| LoggerProperties.EmptyMessageDropped | ondocean_logger.cpp:147-157 | an empty message is always counted as dropped |
| LoggerProperties.PrefixAtMost34 | ondocean_logger.cpp:102-142 | the prefix never exceeds 34 characters |
| LoggerProperties.ShortMessageKept | ondocean_logger.cpp:144-152 | a non-empty message with room for the longest prefix is kept |
| LoggerProperties.HaltedStaysPut | ondocean_logger.cpp:184-190 | after the halt no call, raw line or reset changes anything |
| LoggerProperties.HaltedSeries | ondocean_logger.cpp:184-190 | nor does any series of calls |
| LoggerProperties.FatalHalts | ondocean_logger.cpp:184-190 | an accepted FATAL call ends with the banner and the halt |
| LoggerProperties.EmergencyOutcome | ondocean_logger.h:134-135 | `LOG_EMERGENCY` is silent when the minimum level is NONE and otherwise halts the device |
| LoggerProperties.SeriesCounts | ondocean_logger.cpp:274-298 | a series of accepted non-FATAL calls adds its length to the total, modulo 2^32, and never halts |
| LoggerProperties.SeriesPrints | ondocean_logger.cpp:274-298 | with serial on, such a series prints one rendered line per message, in order |
| LoggerProperties.LogAllPrefixThenRest | ondocean_logger.cpp:274-298 | a series splits at any point into the calls before and the calls after |
| LoggerProperties.PrefixThenRestStep | ondocean_logger.cpp:274-298 | a split of all but the last call extends to the whole series |
| LoggerProperties.RawOnlyTotal | ondocean_logger.cpp:193-198 | a raw line ignores the level filter, bumps only the total, and prints the message (an empty line for null) when serial is on |
| LoggerProperties.ResetOutcome | ondocean_logger.cpp:242-245 | after a reset: all zero when INFO is filtered, otherwise total 1 with INFO and SYSTEM counts 1 |
| LoggerProperties.ResetNothingDropped | ondocean_logger.cpp:242-245 | with room for the longest prefix the reset line is not dropped |
| LoggerProperties.SetLevelAnnounced | ondocean_logger.cpp:64-67 | the level notice is silent exactly when the new minimum is above INFO |
| LoggerProperties.HexDumpSkipped | ondocean_logger.cpp:267-269 | a dump below the minimum level or of null data has no effect |
| LoggerProperties.HexDumpIsSeries | ondocean_logger.cpp:271-298 | an accepted dump is its DEBUG header followed by its rows at the caller's level |
| LoggerProperties.HeaderThenRowsCount | ondocean_logger.cpp:271-298 | header and rows add the row count, plus one when DEBUG passes the filter, to the total |
| LoggerProperties.DebugLineCounts | ondocean_logger.cpp:271 | the header adds one to the total exactly when DEBUG passes the filter |
| LoggerProperties.HexDumpPrints | ondocean_logger.cpp:266-299 | with serial on, a non-FATAL dump prints the header (when DEBUG passes) and then every row, in order |
| LoggerProperties.HeaderThenRowsPrints | ondocean_logger.cpp:271-298 | the same for any header and rows |
| LoggerProperties.DebugLinePrints | ondocean_logger.cpp:271 | the header is printed exactly when DEBUG passes the filter |
| LoggerProperties.FatalDumpStopsAfterFirstRow | ondocean_logger.cpp:266-299 | a FATAL dump halts after its first row; the later rows are never logged |
| LoggerProperties.InitFromPowerOn | ondocean_logger.cpp:45-62 | from power-on, init prints two lines and counts two INFO/SYSTEM calls |
| ValidationTypes.ResultToString | data_validation.cpp:27-32 | the table entry for codes 0..7, "UNKNOWN_ERROR" otherwise |
| ValidationTypes.ResultFromString | data_validation.cpp:16-25 | a name recognised by the inverse lookup is that verdict's table entry |
| ValidationTypes.ResultNamesRoundTrip | data_validation.cpp:16-32 | every declared verdict's name reads back to it; no other code's name reads back to a verdict |
| ValidationTypes.ResultNamesNulFree | data_validation.cpp:16-32 | every name is a C string without NUL |
| ValidationTypes.DefaultsOrdered | data_validation.h:29-49 | default ranges are non-empty; battery min < critical < max; altitude ceiling 120; sensor timeout 1000 ms |
| ValidationTypes.Tallied | data_validation.cpp:44-188 | one validation: the total bumped; a success bumps only the success count; a failure bumps the failure count and the group's counter and records the verdict and time |
| ValidationTypes.Rejected | data_validation.cpp:34-42 | the failure half: failure count, group counter, last error code and time |
| ValidationTypes.TallyKeepsBalance | data_validation.cpp:44-188 | every tally keeps `total == successful + failed` (mod 2^32) |
| ValidationChecks.FirstFailing | data_validation.cpp:44-188 | the first failing check: every check before it passes |
| ValidationChecks.FirstFailingAt | data_validation.cpp:44-188 | a failing check with passing checks before it is the first failing one |
| ValidationChecks.VerdictMeaning | data_validation.cpp:44-188 | a list of checks accepts exactly when every check passes, and otherwise reports the first failure's verdict |
| ValidationChecks.SensorChecks | data_validation.cpp:44-104 | null gives one NULL_POINTER check; otherwise five checks with failure verdicts and NUL-free contexts |
| ValidationChecks.AccelFault | data_validation.cpp:81-85 | the accelerometer test: NaN passes, an infinity fails, finite components fail when the squared magnitude is below 0.25 or above 400 |
| ValidationChecks.Stale | data_validation.cpp:92-95 | the freshness test: a timestamp after `now`, or an unsigned age above the timeout |
| ValidationChecks.GnssChecks | data_validation.cpp:106-143 | four checks with failure verdicts |
| ValidationChecks.IsValidLatitude | data_validation.cpp:191-193 | latitude `>=` the minimum and `<=` the maximum, so NaN is invalid (`NaNLatitudeRejected`) |
| ValidationChecks.IsValidLongitude | data_validation.cpp:195-197 | longitude inside the configured closed range |
| ValidationChecks.IsValidAltitudeMaritime | data_validation.cpp:199-201 | altitude between 0 and the configured ceiling |
| ValidationChecks.BatteryChecks | data_validation.cpp:145-165 | two checks with failure verdicts |
| ValidationChecks.CaseChecks | data_validation.cpp:167-188 | two checks with failure verdicts |
| ValidationChecks.SensorVerdictOrder | data_validation.cpp:44-104 | the exact verdict: null is NULL_POINTER; otherwise the first failing test decides: temperature or humidity OUT_OF_RANGE, pressure MARITIME_UNSAFE, accelerometer SENSOR_FAULT, staleness COMMUNICATION; OK exactly when all five pass |
| ValidationChecks.NaNReadingsAdmitted | data_validation.cpp:56-79 | NaN temperature, humidity and pressure pass validation |
| ValidationChecks.GnssVerdictOrder | data_validation.cpp:106-143 | the exact verdict: the first failing test decides: latitude or longitude OUT_OF_RANGE, altitude MARITIME_UNSAFE, accuracy above 10 m OUT_OF_RANGE; OK exactly when all four pass |
| ValidationChecks.NaNLatitudeRejected | data_validation.cpp:191-193 | a NaN latitude is OUT_OF_RANGE |
| ValidationChecks.BatteryVerdictOrder | data_validation.cpp:145-165 | out of range is OUT_OF_RANGE; in range but below critical is MARITIME_UNSAFE; OK exactly when neither |
| ValidationChecks.CriticalBandReachable | data_validation.h:43-45 | 3.1 V is in range but critical under the defaults |
| ValidationChecks.CaseVerdictOrder | data_validation.cpp:167-188 | tampering is SECURITY_BREACH before an open case, which is MARITIME_UNSAFE |
| ValidationChecks.SafeEnvironmentAgainstDefaults | data_validation.cpp:203-222 | a safe environment passes the default temperature test and the upper humidity test |
| ValidationChecks.IsMaritimeEnvironmentSafe | data_validation.cpp:203-222 | false for null; otherwise temperature not outside [-10, 50], humidity not above 90, pressure not below 980 |
| ValidationChecks.SafeButRejected | data_validation.cpp:203-222 | a humidity of -1 is safe yet rejected as OUT_OF_RANGE by sensor validation |
| Validation.ErrorMessage | data_validation.cpp:34-37 | "%s: %s": the context (or "Unknown"), ": ", then the verdict name |
| Validation.Reported | data_validation.cpp:34-42 | what a validation does to the logger: nothing when all checks pass, else one ERROR/VALIDATION line naming the first failing check |
| Validation.Validator.constructor | data_validation.cpp:11-13 | default thresholds and zeroed statistics |
| Validation.Validator.ResetStats | data_validation.cpp:271-273 | every statistic zeroed |
| Validation.Validator.UpdateStats | data_validation.cpp:275-285 | a tally with no group counter, keeping the balance invariant |
| Validation.Validator.LogValidationError | data_validation.cpp:34-42 | one ERROR line in the VALIDATION category, then the last error code and time |
| Validation.Validator.Conclude | data_validation.cpp:48-53 | the common tail of a validator: the tally and, on failure, the error line |
| Validation.Validator.ValidateSensorData | data_validation.cpp:44-104 | the verdict of `SensorChecks`, tallied under sensor errors, with the first failure logged |
| Validation.Validator.ValidateGnssPosition | data_validation.cpp:106-143 | the verdict of `GnssChecks`, tallied under position errors, with the first failure logged |
| Validation.Validator.ValidateBatteryStatus | data_validation.cpp:145-165 | the verdict of `BatteryChecks`, tallied with no group counter; `current` is not read |
| Validation.Validator.ValidateCaseIntegrity | data_validation.cpp:167-188 | the verdict of `CaseChecks`, tallied under security errors |
| Sanitizers.SanitizedReading | data_validation.cpp:254-268 | the reading left behind is always finite |
| Sanitizers.ReadingSanitized | data_validation.cpp:254-268 | the result lies in [min, max]; an in-range reading is kept; NaN/Inf becomes the midpoint; sanitising twice equals once |
| Sanitizers.SanitizeSensorReading | data_validation.cpp:254-268 | false and nothing written for null; false for NaN/Inf; true for any finite value, clamped or not |
| Sanitizers.ClampedLatitude | data_validation.cpp:243-245 | a non-NaN latitude ends in [-90, 90] and is kept when already there |
| Sanitizers.LongitudeTurns | data_validation.cpp:247-249 | a whole number of turns that moves a finite longitude into [-180, 180] |
| Sanitizers.WrappedLongitude | data_validation.cpp:247-249 | a finite longitude moved by whole turns; `LongitudeSanitized` states its range |
| Sanitizers.SanitizedLongitude | data_validation.cpp:247-249 | the longitude left behind: wrapped when finite, NaN untouched, an infinity replaced by 0.0; `LongitudeSanitized` and `FiniteLongitudeSettles` state its properties |
| Sanitizers.LongitudeLoopsAsWritten | data_validation.cpp:247-249 | the two `while` loops as written, with a fuel bound; `None` when they have not finished |
| Sanitizers.LongitudeSanitized | data_validation.cpp:247-249 | a non-NaN longitude ends in [-180, 180], is kept when already there, and moves by a multiple of 360 |
| Sanitizers.CoordinatesIdempotent | data_validation.cpp:240-252 | sanitising coordinates twice equals sanitising them once |
| Sanitizers.InfiniteLongitudeNeverSettles | data_validation.cpp:248-249 | as written, the loops never finish on an infinite longitude |
| Sanitizers.InfiniteSecondLoop | data_validation.cpp:249 | the second loop never finishes on +infinity |
| Sanitizers.FiniteLongitudeSettles | data_validation.cpp:248-249 | as written, the loops on a finite longitude finish, with the corrected result, after |turns| iterations |
| Sanitizers.FiniteSecondLoop | data_validation.cpp:249 | the second loop finishes on a finite longitude of at least -180 |
| Sanitizers.SanitizeCoordinates | data_validation.cpp:240-252 | false and nothing written when either pointer is null; otherwise the clamped latitude and the sanitised longitude |
| Sanitizers.SanitizedString | data_validation.cpp:224-238 | the buffer keeps its length |
| Sanitizers.StringSanitized | data_validation.cpp:224-238 | NUL at `max_len - 1`; the C string ends before it and is all printable; printable characters and everything from the first NUL on are kept |
| Sanitizers.StringIdempotent | data_validation.cpp:224-238 | sanitising a string twice equals sanitising it once |
| Sanitizers.SanitizeString | data_validation.cpp:224-238 | false for null; otherwise the buffer becomes `SanitizedString` of its old contents |
| SensorData.MaritimeSensorData.constructor | maritime_sensors.h:25-35 | a record holding the given reading |
| MaritimeSensors.ValidateMaritimeEnvironment | maritime_sensors.cpp:117-147 | false for null; otherwise temperature and pressure not outside the sensor thresholds, humidity not above 95, and no tampering; `EnvironmentOnFiniteReadings` spells it out |
| MaritimeSensors.EnvironmentOnFiniteReadings | maritime_sensors.cpp:117-147 | null is refused; finite readings pass exactly for temperature in [-20, 60], humidity at most 95, pressure in [950, 1050] and no tampering; NaN readings pass |
| MaritimeSensors.EnvironmentAgainstValidation | maritime_sensors.cpp:117-147 | an admitted, untampered snapshot passes the environment test; an environment-safe snapshot with non-negative humidity is neither OUT_OF_RANGE nor MARITIME_UNSAFE |
| MaritimeSensors.NoLowerHumidityBound | maritime_sensors.cpp:129-132 | a humidity of -50 passes the environment test |
| MaritimeSensors.Recovered | maritime_sensors.cpp:103-106 | recovery leaves temperature in [-20, 60], humidity in [0, 100] and pressure in [950, 1050], and the other fields as they were |
| MaritimeSensors.RecoveryCanKeepRejectedHumidity | maritime_sensors.cpp:103-106 | a 99 % humidity is rejected, survives recovery, and is still rejected |
| MaritimeSensors.SameTickNeverStale | maritime_sensors.cpp:94-97 | a snapshot stamped with the validation's clock reading is never stale |
| MaritimeSensors.ClockWrapFailsRead | maritime_sensors.cpp:94-97 | a timestamp of 2^32-1 validated at 0 fails as COMMUNICATION |
| MaritimeSensors.SensorDriver.constructor | maritime_sensors.cpp:14 | the sensors start uninitialised |
| MaritimeSensors.SensorDriver.Setup | maritime_sensors.cpp:51 | setup sets the initialised flag |
| MaritimeSensors.SensorDriver.ReadMaritimeSensors | maritime_sensors.cpp:56-115 | false with nothing changed before setup or for null; otherwise the record holds the stamped snapshot, recovered when OUT_OF_RANGE; true exactly for OK or OUT_OF_RANGE; stats and log as the validation does; the logger's configuration and start time never change |
| MaritimeSensors.SensorDriver.RecoverEnvironment | maritime_sensors.cpp:103-106 | the three `sanitize_sensor_reading` calls leave the record `Recovered` |

## Left out

- Floating point: values are exact reals with NaN and infinities. Rounding, `float`/`double` widths and `%.1f` rendering are not modelled.
- `validate_maritime_sensor_data` compares the squared acceleration magnitude with 0.25 and 400 instead of taking `sqrt` (`ValidationChecks.AccelFault`).
- Sanitizers.SanitizedLongitude: a finite longitude always settles after a whole number of turns. With `double` arithmetic, a longitude so large that adding 360 does not change it would loop as an infinity does; that case is not modelled.
- Sanitizers.SanitizeCoordinates: the two pointers are separate values, so a call with `lat == lon` (aliasing) is not captured.
- Sanitizers.SanitizeString: requires `1 <= max_len <= length of the buffer`, because the source writes `str[max_len - 1]` unconditionally. Characters are compared by code point, matching a signed `char` for characters above 126. Each character stands for one byte of the C buffer: a character that UTF-8 encodes in several bytes becomes one '?' here, where the device writes one '?' per byte.
- `millis()` is a parameter. `read_maritime_sensors` reads it twice: `readTime` for the stamp and `now` for the validation.
- Hardware:
  - the I2C, GPIO and ADC reads and the mock values in `read_maritime_sensors` are the `snapshot` input;
  - `setup_maritime_sensors` is modelled only by its flag, without its INFO/DEBUG log lines or the pin set-up.
- MaritimeSensors.SensorDriver.ReadMaritimeSensors: the `Serial.printf`/`println` lines on failure and after recovery are not modelled. Neither are the lines of `validate_maritime_environment`.
- Logger.Logger.Log:
  - The MQTT branch is not modelled; it builds a JSON text in a local buffer and never sends it.
  - The formatted message is given as the text `vsnprintf` would produce. Only its length and contents matter for the fit test.
- The FATAL halt (an endless `delay` loop) is a `halted` flag. The logger's own operations do nothing once it is set: `Log`, `LogRaw`, `ResetStats`, `SetLevel`, `EnableMqtt`, `Init`, `LogHexDump` and `LogJson`.
- Validation.Validator.ValidateSensorData, Validation.Validator.ValidateGnssPosition, Validation.Validator.ValidateBatteryStatus, Validation.Validator.ValidateCaseIntegrity and Validation.Validator.UpdateStats do not look at the halt flag. Called on a halted logger, they still update the validation statistics, while on the device no code runs after the halt. The logger's part of such a call is still nothing.
- MaritimeSensors.SensorDriver.ReadMaritimeSensors does not look at the halt flag either. On a halted logger it still writes the snapshot into the record and tallies the validation.
- Logger.Logger.Log: one `now` stands for both `millis()` reads of `logger_log` (ondocean_logger.cpp:93 and 104). The model therefore makes `last_log_timestamp` equal to the printed stamp, which the device does not guarantee.
- Validation.Validator.LogValidationError: `log_validation_error` reads `millis()` again (data_validation.cpp:41) after the validator's own read (data_validation.cpp:93) and after the logger's. The model uses one `now` for all of them, so `last_error_timestamp`, the logged stamp and the freshness test's clock are equal here.
- LogLine.LineArgsOk: when categories are printed, a call must pass a category below `LOG_CAT_MAX`. The source's own counter guard (ondocean_logger.cpp:90) admits `LOG_CAT_MAX`. It then reads `LOG_CATEGORY_NAMES[LOG_CAT_MAX]`, one past the 11-entry table (ondocean_logger.cpp:130), which is undefined behaviour. No call in the modelled code passes it, and that read is not modelled.
- Logger.HexDumpHeader: the label is a string, so a null `label` in `logger_log_hex_dump` (passed to `%s`, undefined in C) cannot be expressed.
- Logger.Logger.Init: `logger_log_system_info` (chip ID, flash, heap, CPU, WiFi) is not modelled.
- Output-only reports are not modelled:
  - `logger_print_stats`;
  - `log_performance_start`/`log_performance_end`;
  - `print_validation_stats` and its success-rate arithmetic;
  - `maritime_sensor_calibration` and the sensor diagnostics.
- Declared in `data_validation.h` with no body in `data_validation.cpp`, so they are not part of this model:
  - `validate_odid_data`;
  - `validate_communication_health`;
  - `validate_firmware_integrity`;
  - `validate_mqtt_connection`;
  - `is_position_over_water`.
- Logger.Logger.LogHexDump: requires the length to fit a 32-bit `size_t`, so the `i += 16` overflow near 2^32 is not modelled.
- LOG_EMERGENCY: the header comment promises "always logged". The code makes it an ordinary FATAL call, which is what is modelled.

## Findings

| source | as written | input that shows it | evidently intended | confidence | as-written member | corrected member |
|---|---|---|---|---|---|---|
| ondocean_logger.cpp:156 | a dropped message writes the marker with `snprintf(buffer_ptr - 20, 20, ...)` | timestamps, colours and categories off; an empty message: the prefix "[INFO ] " is 8 bytes, so the write starts 12 bytes before the buffer | the marker starts at most 20 bytes before the cursor but never before the buffer | not executed; high | LogLine.MarkerUnderflowAsWritten | LogLine.MarkerStart |
| data_validation.cpp:248-249 | `while (*lon < -180.0) *lon += 360.0; while (*lon > 180.0) *lon -= 360.0;` | `lon` = +infinity or -infinity: adding 360 leaves it infinite, so the loop never ends | the call returns with a longitude in [-180, 180] (the model maps an infinity to 0.0) | not executed; high | Sanitizers.InfiniteLongitudeNeverSettles | Sanitizers.SanitizeCoordinates |
