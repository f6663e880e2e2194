# chroma-forza, modelled in Dafny

chroma-forza lights up a Razer Chroma keyboard from Forza Horizon 4
telemetry. The game sends a fixed 324-byte datagram many times a second.
Each configured effect reads one property of that datagram (speed, engine
speed, driving line, race position) and draws a meter of keys. The driver
keeps the effects in altitude order and draws a fresh frame for every
datagram. A recording of datagrams can be replayed in place of the live
stream, at the pace of the timestamps it holds.

The model covers the sequential core of the program:

- `Wire`, `Datagram`: the datagram's byte layout. This is the little-endian
  words and bytes of the naturally aligned `Sled`, three unknown words, and
  the packed `Dash`. It also covers the exact-size decode, its inverse
  encode, and the field-by-field `Serialize` of `Dash`. `f32` fields are
  kept as raw 32-bit words.
- `Float32`: the real value of a finite IEEE 754 binary32 word, as the
  property layer reads the words.
- `Config`: the configuration schema and the two hand-written value
  parsers.
  - the `rrggbb` colour, as a function;
  - the grid-range language (`n`, `:`, `x:y`, `x->y`, `x<-y`), as a method
    that scans the characters one at a time, proved equal to a reference
    function.
- `Property`: the name registry, the initial stored maximum, and
  `RateProperty::query`. The query updates the stored maximum in place
  (an object field) and clamps the ratio to [0, 1]. `ScoreProperty::query`
  is also covered.
- `Frame`: the frame of one tick, as a map from keyboard cells to colours
  in which the last write wins.
- `Meter`: the meter effect.
  - the orientation chosen from the two grid ranges;
  - `update`, which stores the clamped level;
  - `tick`, whose nested loops write the bar for every base coordinate into
    the frame.
- `Position`: the numpad and number-row key tables.
- `Driver`: the driver.
  - the altitude-ordered insertion of `add_effect`;
  - `from_config`;
  - the loop of `run`: a fresh frame per datagram, `update` then `tick` on
    every instance in order, elapsed time since the previous tick, and
    stopping on end of stream, cancellation or a read error.
- `Stream`: the choice between replay and live reception, and the replay
  loop. The loop sets its anchor on the first record and schedules every
  later record at a deadline in wrapping 32-bit milliseconds from that
  anchor.

Panics become `Err` results that name the panic. Examples are `expect` on
a missing keyboard output, indexing with an unknown colour or property
name, `unwrap` of an absent stored maximum, and `u8` overflow in a debug
build.

Where the repository's documentation and its code disagree, the model
follows the code:

- In fill mode the boundary key is dimmed by the fractional part of the
  meter's height times the level (src/effects/meter.rs:117, 149). Without fill it is drawn at full colour
  (src/effects/meter.rs:147-157).
- A bare digit string is a one-cell grid range for every `u8`, with no
  keyboard-width check (src/config.rs:180-183).
- `u32::from_str_radix` accepts a leading `+`.
  - So the colour `+abcde` is accepted.
  - So is a grid side such as `3:+4`.

The tree is in the middle of a refactor, so the model follows the logic and
not the exact signatures:

- `from_config` calls `property::query_rate_property`, which does not exist.
  The model calls `query_property` and rejects a score property with
  `NotARate`.
- `from_config` calls `MeterEffect::new` with three arguments, but the
  function takes four. It also reads a `config::MeterEffect` type that is
  not defined. The model takes the keyboard and the fill flag from the
  configured `Output`.

## Model

| member | source | states |
|---|---|---|
| Wire.LeWord | forza/src/lib.rs:24-26 | any four bytes read as a little-endian word encode back to those bytes |
| Wire.LeWordOfWordBytes | forza/src/lib.rs:24-26 | a word written as four little-endian bytes reads back unchanged |
| Wire.LeU16OfU16Bytes | forza/src/datagram.rs:99 | a `u16` written as two little-endian bytes reads back unchanged |
| Wire.I32ToWordOfWord | forza/src/datagram.rs:23 | every 32-bit pattern is an `i32` and converts back to the same pattern |
| Wire.I8ToByteOfByte | forza/src/datagram.rs:106-108 | every byte is an `i8` and converts back to the same byte |
| Wire.BytesToWordsOfWordsToBytes | forza/src/lib.rs:24-26 | a run of words written as bytes reads back as the same words |
| Wire.WordsToBytesOfBytesToWords | forza/src/lib.rs:24-26 | a byte run of whole words read as words writes back as the same bytes |
| Wire.BytesToWordsAt | forza/src/lib.rs:24-26 | word k of a byte run is the little-endian word at bytes 4k..4k+4 |
| Datagram.VectorWords | forza/src/datagram.rs:5-9 | a `Vector<f32>` is x, y, z: 12 bytes |
| Datagram.QuadWords | forza/src/datagram.rs:13-18 | a `Quad<f32>` is front-left, front-right, rear-left, rear-right: 16 bytes |
| Datagram.SledWords | forza/src/datagram.rs:22-48 | `Sled` is 58 consecutive four-byte fields, 232 bytes |
| Datagram.SledOfSledWords | forza/src/datagram.rs:22-48 | reading a sled back from its 58 words gives the same sled |
| Datagram.DashBytes | forza/src/datagram.rs:83-109 | the packed `Dash` is 79 bytes: 17 words, a `u16` and nine single bytes |
| Datagram.DashBytesOfDashOfBytes | forza/src/datagram.rs:83-109 | every 79-byte run is a dash whose bytes are that run |
| Datagram.DashOfDashBytes | forza/src/datagram.rs:83-109 | a dash written as bytes reads back unchanged |
| Datagram.Encode | forza/src/datagram.rs:146-156 | a datagram is exactly 324 bytes |
| Datagram.Decode | forza/src/lib.rs:33 | a buffer is accepted if and only if it is exactly 324 bytes; otherwise a size mismatch naming both sizes |
| Datagram.SledPartOfDecode | forza/src/datagram.rs:146-147 | the decoded sled's bytes are bytes 0..232 of the buffer |
| Datagram.ExtraPartOfDecode | forza/src/datagram.rs:148-153 | the two unknown words are bytes 236..244 of the buffer |
| Datagram.DashPartOfDecode | forza/src/datagram.rs:154 | the decoded dash's bytes are bytes 244..323 of the buffer |
| Datagram.EncodeOfDecode | forza/src/lib.rs:24-26 | every 324-byte buffer decodes, and the datagram encodes back to that buffer |
| Datagram.DecodeOfEncode | forza/src/lib.rs:24-35 | an encoded datagram decodes back to itself |
| Datagram.SledFieldOffsets | forza/src/datagram.rs:23-27 | is_race_on, timestamp_ms, engine_max_rpm, engine_idle_rpm and current_engine_rpm sit at bytes 0, 4, 8, 12 and 16 |
| Datagram.DashFieldOffsets | forza/src/datagram.rs:83-109 | speed at byte 256, lap_number at 312, race_position at 314 (unsigned), normalized_driving_line at 321 and normalized_ai_brake_difference at 322 (signed) |
| Datagram.SerializeDash | forza/src/datagram.rs:111-141 | `Serialize for Dash` emits the 22 dash fields under their names, in declaration order |
| Datagram.SerializeDashRoundTrip | forza/src/datagram.rs:111-141 | the emitted fields carry the dash's values unchanged: they rebuild the same dash |
| Float32.Value | forza/src/datagram.rs:25-27 | the sign bit gives the sign of the value; non-finite words read as 0.0 |
| Config.ParseUnsigned | src/config.rs:40 | `from_str_radix` yields only values below the type's bound |
| Config.VisitColorStr | src/config.rs:35-45 | a string whose UTF-8 length is not 6 is an unexpected colour value; a 6-byte string that is not a base-16 `u32` is an invalid digit |
| Config.ColorRejectsNonHex | src/config.rs:40 | a 6-byte string with a character that is neither a hex digit nor a leading `+` is rejected |
| Config.ColorRoundTrip | src/config.rs:40-44 | red, green and blue are bits 23..16, 15..8 and 7..0: a colour written as `rrggbb` parses back to itself |
| Config.VisitI64 | src/config.rs:130-137 | an integer value is accepted if and only if 0 <= v < MAX_COLUMN, as the one-cell range v..=v; otherwise out of range |
| Config.VisitU64 | src/config.rs:139-146 | an unsigned value is accepted if and only if v < MAX_COLUMN, as the one-cell range v..=v; otherwise out of range |
| Config.NumericPrefix | src/config.rs:155 | `skip_while(is_numeric)` stops at the first non-digit, and every character before it is a digit |
| Config.VisitGridStr | src/config.rs:148-207 | scanning the characters one at a time with the visitor's early returns gives the reference reading `GridStr` |
| Config.GridSingle | src/config.rs:180-183 | a bare number is the one-cell range n..=n for every `u8`, with no MAX_COLUMN check; any other digit string is rejected |
| Config.GridColon | src/config.rs:186-194 | `x:y` is the range from min(x, y) to max(x, y), whichever side is larger; rejected when a side is not a `u8` |
| Config.GridRightArrow | src/config.rs:196 | `x->y` is the direction from x to y; rejected when a side is not a `u8` |
| Config.GridLeftArrow | src/config.rs:195 | `x<-y` is the direction from y to x, so the start is always the arrow's tail |
| Config.GridRejects | src/config.rs:163-187 | any other separator, `-` not followed by `>`, `<` not followed by `-`, and an empty left side are rejected |
| Property.InitialMax | src/property.rs:15-21 | the stored maximum starts as the configured maximum if given, else 0.0 when auto-raise is set, else absent |
| Property.QueryProperty | src/property.rs:12-31 | an unknown name fails; a known one builds a rate property (new object, the registry's query, initial maximum, auto-raise flag) or a score property, as the registry says |
| Property.Registry | src/property.rs:38-81 | the registry holds five names; only "position" is a score and only "speed" has no maximum of its own |
| Property.Clamp01 | src/property.rs:117 | the clamp lies in [0, 1]: it keeps a value inside, and gives 1 above and 0 below |
| Property.RatioBounds | src/property.rs:117 | the ratio lies in [0, 1]; for a positive maximum it is the exact quotient up to the maximum, 1 at or above it and 0 at or below zero |
| Property.RatioInside | src/property.rs:117 | strictly between zero and the maximum the ratio is the plain quotient |
| Property.Raise | src/property.rs:106-110 | with auto-raise the stored maximum becomes the current value when that is larger; it never decreases, and without auto-raise it never changes |
| Property.RaiseAllIsMax | src/property.rs:106-112 | after a run of auto-raising queries the stored maximum is the largest of the seed and every observed current |
| Property.RaiseAllMonotone | src/property.rs:106-112 | the stored maximum never falls below its seed, and without auto-raise it stays the seed |
| Property.RateOutcomeCases | src/property.rs:100-118 | a maximum from the registry takes precedence and leaves the stored maximum untouched; only a speed query reads the stored maximum, and it fails exactly when there is none; every ratio is in [0, 1] |
| Property.AutoRaiseSpeedExact | src/property.rs:104-117 | an auto-raising speed query stores max(stored, current) and reports a non-negative current exactly as its share of that maximum |
| Property.RpmBaselineRatio | src/property.rs:54-62 | "rpm-baseline" = (rpm - idle) / (max - idle) for an engine between idle and its limit |
| Property.RpmBaselineScenario | src/property.rs:54-62 | idle 1000, current 5000 and limit 8000 rpm, read from their `f32` words, give 4/7 |
| Property.DrivelineRatio | src/property.rs:63-73 | "driveline" = (line + 127) / 255 with a numerator in [-1, 254]; only line -128 clamps, to 0 |
| Property.Score | src/property.rs:74-79 | "position" is race_position - 1, in [-1, 254], with no further bounding |
| Property.RateProperty.constructor | src/property.rs:93-97 | the property holds its query, stored maximum and auto-raise flag |
| Property.RateProperty.Query | src/property.rs:100-118 | the result and the new stored maximum are those of `RateOutcome` for the stored maximum before the call; a failed query leaves it unchanged |
| Frame.ApplyKeys | src/state.rs:21-23 | writing adds exactly the written cells to the frame |
| Frame.ApplyConcat | src/state.rs:21-23 | writing two runs in turn is writing their concatenation |
| Frame.ApplyLastWriteWins | src/state.rs:21-23 | a cell shows the colour of the last write to it |
| Frame.ApplyUntouched | src/state.rs:21-23 | a cell no write touches keeps its colour |
| Frame.ChromaState.constructor | src/state.rs:15-19 | a new frame is empty |
| Frame.ChromaState.SetPosition | src/state.rs:21-23 | `set_position` sets the colour of one cell and changes no other |
| Meter.Resolve | src/effects/meter.rs:40-48 | `All` becomes the range over the whole keyboard dimension; any other range is kept |
| Meter.NewLayoutCases | src/effects/meter.rs:33-63 | a missing keyboard or colour fails; otherwise the layout succeeds if and only if exactly one resolved range is a direction, which becomes the meter, with the other as the base and the named colour and the fill flag |
| Meter.NewLayoutAll | src/effects/meter.rs:40-63 | a whole-keyboard column range is columns 0..=21 and gives a column base; a whole-keyboard row range is rows 0..=5 and gives a row base; both whole ranges panic |
| Meter.Height | src/effects/meter.rs:111-115 | the meter has between 1 and 256 keys |
| Meter.ExtentCoversSpan | src/effects/meter.rs:111-127 | height = high - low + 1; positions 0..height enumerate the span from its start to its end without repeats; position height is one past the end |
| Meter.Bases | src/effects/meter.rs:120 | `for base in base` visits start..=end in order, and nothing for a reversed range |
| Meter.NumFilled | src/effects/meter.rs:117-119 | the filled count is the shade rounded down, at most the height, and the whole height at 100% |
| Meter.Frac | src/effects/meter.rs:149 | the fractional part of the shade lies in [0, 1), and is 0 at 100% |
| Meter.ScaleChannel | src/effects/meter.rs:147-154 | a channel scaled by the fraction and truncated never brightens, and a lit channel is strictly dimmed |
| Meter.PatternShape | src/effects/meter.rs:129-160 | fill mode writes the filled positions at full colour, then the boundary position dimmed by the fraction; without fill only the boundary position, at full colour |
| Meter.PatternFitsMeter | src/effects/meter.rs:121-127 | with the boundary guarded by the meter's length, every position written lies inside the meter's span |
| Meter.TickWritesPanics | src/effects/meter.rs:100-119 | no level writes nothing; a meter whose higher end is 255 overflows computing its height; otherwise the tick succeeds |
| Meter.PlaceAllAt | src/effects/meter.rs:120-145 | the same pattern is written at every base: a row base writes (base, extent) and a column base writes (extent, base) |
| Meter.TickWritesInSpanAndDistinct | src/effects/meter.rs:120-160 | the tick writes only inside the meter and base spans and never writes a cell twice |
| Meter.TickWritesFull | src/effects/meter.rs:129-145 | at 100% in fill mode each base lights its whole meter at full colour and nothing past its end |
| Meter.AsWrittenFullMeterOverruns | src/effects/meter.rs:140-145 | as written, a full ascending meter 0->4 also writes row 5, outside the meter |
| Meter.AsWrittenDescendingUnderflows | src/effects/meter.rs:140-145 | as written, a full descending meter 5->0 computes position -1 and panics on `u8` underflow; the meter-length guard does not |
| Meter.AsWrittenLongMeterDropsBoundary | src/effects/meter.rs:141 | as written, a 30-key meter running from column 29 down to 0 at 85% lights columns 29 to 5 but never writes its half-lit boundary key, column 4, which is on the keyboard, because 25 is not below the keyboard width; the corrected tick writes column 4 as its 26th write |
| Meter.PatternDistinct | src/effects/meter.rs:129-160 | (corrected; see Findings) the pattern of one base never writes one meter coordinate twice |
| Meter.UpdateOutcome | src/effects/meter.rs:91-97 | no level exactly when no race is on, and then the stored maximum is untouched; during a race the update succeeds exactly when the property's query does, and its level lies in [0, 1] |
| Meter.UpdateKeepsMaximum | src/property.rs:102-112 | an update never lowers the stored maximum, never sets or clears it, and without auto-raise never changes it |
| Meter.MeterEffectInstance.constructor | src/effects/meter.rs:77-82 | a started instance is bound to its effect and holds no level |
| Meter.MeterEffectInstance.Update | src/effects/meter.rs:91-97 | with no race on the level is absent; otherwise it is the query's ratio clamped to [0, 1], and the property's stored maximum follows the query; a failed query is a panic |
| Meter.MeterEffectInstance.Tick | src/effects/meter.rs:99-162 | (corrected; see Findings) the frame after the tick is the frame before it with the tick's writes applied in order (none without a level), or unchanged on a panic |
| Meter.DrawBase | src/effects/meter.rs:129-160 | (corrected; see Findings) the body of the base loop applies exactly that base's copy of the pattern to the frame |
| Position.NumpadSlots | src/effects/position.rs:7-17 | the numpad table has 9 slots, and slot i is the numpad key for i + 1 |
| Position.NumrowSlots | src/effects/position.rs:19-30 | the number-row table has 10 slots: slot i is the row key for i + 1 for i < 9, and slot 9 is the 0 key |
| Position.NewPositionSlots | src/effects/position.rs:37-44 | the selector picks the 9-slot numpad or the 10-slot number-row table; slot i shows digit (i + 1) mod 10 and no key repeats; the call always succeeds |
| Position.GridCellsOnKeyboard | chroma/src/sys/key.rs:21-67 | every table key lies on the 6 x 22 keyboard grid, and distinct keys have distinct cells |
| Driver.BinarySearchByKey | src/driver.rs:38-40 | on sorted altitudes the search returns the index of some equal altitude, or the insertion point when there is none |
| Driver.FirstDifferent | src/driver.rs:43-49 | `skip_while` stops at the first altitude that differs from the new one: all before it are equal |
| Driver.SkipEqual | src/driver.rs:43-53 | the scan from the match passes exactly the run of equal altitudes |
| Driver.InsertIndexIsUpperBound | src/driver.rs:38-56 | the corrected index is the upper bound of the new altitude, whichever equal element the search returned |
| Driver.AsWrittenAgreesAtFront | src/driver.rs:38-56 | the index as written is correct when there is no match or the match is at index 0 |
| Driver.OnlyMatch | src/driver.rs:38-40 | in altitudes 0, 0, 0, 1, 2 the only result of searching for 1 is index 3 |
| Driver.AsWrittenBreaksOrder | src/driver.rs:43-51 | as written, inserting altitude 1 into 0, 0, 0, 1, 2 goes at index 1 and breaks the order |
| Driver.CorrectedKeepsOrder | src/driver.rs:43-51 | the corrected index for the same insertion is 4, and the order holds |
| Driver.InsertSorted | src/driver.rs:58 | inserting keeps the effects in altitude order, after every effect of the same or lower altitude and before every higher one |
| Driver.InsertStable | src/driver.rs:58 | for every altitude, the effects of that altitude keep their order and the new one comes last |
| Driver.LayeredSortedStable | src/driver.rs:17-35 | adding effects one at a time sorts them by altitude, keeps each exactly once, and keeps configuration order among equal altitudes |
| Driver.FirstFailing | src/driver.rs:20-32 | the first configuration entry that cannot become an effect, with every earlier one able to |
| Driver.Driver.constructor | src/driver.rs:18 | the driver starts with no effects |
| Driver.Driver.AddEffect | src/driver.rs:37-59 | (corrected; see Findings) the effects become the old ones with the new one inserted after its altitude's run, still in order |
| Driver.Driver.BuildEntry | src/driver.rs:21-30 | a predefined entry, an unknown or score property, or a failed layout is the matching error; otherwise an effect with the entry's altitude, layout, query, auto-raise flag and initial maximum, on a new property |
| Driver.Driver.BuildEffects | src/driver.rs:20-32 | the first failing entry's error, or one effect built from each entry in order, each with its own property |
| Driver.Driver.FromConfig | src/driver.rs:17-35 | (corrected; see Findings) the first failing entry's error, or a new valid driver whose effects are the built effects added one by one in configuration order |
| Driver.Driver.AddAll | src/driver.rs:20-32 | (corrected; see Findings) adding the built effects one by one to an empty driver leaves it valid, holding them layered in configuration order |
| Driver.Driver.Start | src/driver.rs:66 | one new instance per effect, in order, bound to that effect's meter, with no level |
| Driver.StagesStaged | src/driver.rs:81-84 | (corrected; see Findings) in every meter's stage the level lies in [0, 1] and is present exactly during a race, and the writes are those of the meter's tick at that level |
| Driver.PassAt | src/driver.rs:81-84 | every meter the pass reached stored exactly its own stage's level and maximum; every meter after a panic keeps its maximum |
| Driver.RunMetersAt | src/driver.rs:81-84 | every meter the inner loop reached stored the level and maximum of its own `update` (`Meter.UpdateOutcome`) from the maximum its property held before the tick; every meter after a panic keeps its maximum |
| Driver.PassStops | src/driver.rs:81-84 | once a meter panics, the meters after it change nothing: they keep their maxima and add no level and no write |
| Driver.PassLevels | src/driver.rs:81-84 | every level a pass stores lies in [0, 1] and is present exactly while the race is on |
| Driver.PassWrites | src/driver.rs:81-84 | (corrected; see Findings) a pass that does not panic writes every meter's tick, at the level its update stored, in list order |
| Driver.RunMetersDrawn | src/driver.rs:73-84 | (corrected; see Findings) a pass that does not panic draws, on an empty frame, every meter's writes in list order, at levels in [0, 1] present exactly while the datagram reports a race |
| Driver.Stopped | src/driver.rs:81-84 | a panic at meter k - 1 ends the pass: the maxima the properties store are those of the whole pass |
| Driver.Driver.TickMeter | src/driver.rs:82-83 | one meter's `update` then `tick`: the instance's level and its property's maximum are those of its stage, and the frame holds the extended pass's writes, or the panic that ends it |
| Driver.Driver.Step | src/driver.rs:82-83 | meter i's step extends the pass by meter i alone: it stores meter i's level and maximum and leaves every other meter as it was |
| Driver.Driver.TickEach | src/driver.rs:81-84 | the inner loop stops after k meters, at the end of the list or at the first panic; the levels, maxima and frame are those of the pass over those k meters, and the later meters are untouched |
| Driver.Driver.RunTick | src/driver.rs:73-86 | (corrected; see Findings) a new frame, then `update` and `tick` on every instance in order: the levels are those `RunMeters` computes from the maxima before the tick, each instance's `current` is its level (unchanged past a panic), the properties store the maxima the pass leaves, and the frame holds every meter's writes in list order; a panic names the pass that raised it |
| Driver.StreamStop | src/driver.rs:69-72 | the loop stops at the end of the stream, the first read error or the cancellation, whichever comes first |
| Driver.TickAt | src/driver.rs:75-80 | the tick of datagram k carries the clock at k; the first tick has no elapsed time and every later one the time since the previous tick |
| Driver.Ticks | src/driver.rs:68-85 | the ticks of the first n datagrams are the ticks of each, in order |
| Driver.Driver.ServeOne | src/driver.rs:73-86 | one pass of the loop: the tick from the previous time; the datagram's frame, levels and the maxima left behind are added to those drawn so far, or the panic is that of the pass from the maxima the earlier datagrams left |
| Driver.DrawnFromUpdates | src/driver.rs:81-84 | in a tick drawn without a panic, meter i's level and its property's new maximum are those of its own `update` (`Meter.UpdateOutcome`) from the maximum stored before the tick: no level without a race, otherwise the clamped ratio of `RateProperty::query` |
| Driver.AllDrawnAt | src/driver.rs:73-87 | frame k was drawn from datagram k by every meter without a panic, at the maxima `hist[k]` the earlier datagrams left, and left `hist[k + 1]` |
| Driver.DrawnAt | src/driver.rs:73-87 | frame k holds every meter's writes in list order, at levels in [0, 1] present exactly while datagram k reports a race |
| Driver.HistoryIsFold | src/driver.rs:68-88 | the maxima stored after k frames are the fold of k passes, one per datagram, from the initial maxima (`MaximaAfter`) |
| Driver.MaximaCarried | src/driver.rs:81-84 | over a run, an auto-raising speed meter holds its seed raised by every speed seen during a race; every other meter keeps the maximum it started with |
| Driver.Driver.Serve | src/driver.rs:68-90 | one tick and frame per datagram, never past the stop; each frame drawn at the maxima the earlier datagrams left (so their fold, by `HistoryIsFold`), and the properties end holding the maxima of the last pass; a panic names the pass that raised it; `Ok(())` only after a frame for every datagram up to the stop, every one sent; a failed send ends the loop with that error at the last frame, every earlier frame sent; a panic comes only after every frame before it was sent |
| Driver.Driver.Run | src/driver.rs:61-91 | `run`: start the instances, then serve the stream, with the same guarantees over the driver's effects, from the maxima their properties stored before the run |
| Stream.SelectMode | src/stream.rs:20-45 | a recording path selects replay; otherwise live reception on the given address or on 0.0.0.0:18733 |
| Stream.RecordOf | src/stream.rs:27-33 | a buffer the size of a datagram always decodes, to a datagram whose bytes are the buffer |
| Stream.Deadline | src/stream.rs:34-36 | a record is due at anchor + (ts - first_ts) mod 2^32; a timestamp k behind the first is due 2^32 - k ms after the anchor, never in the past |
| Stream.FirstUnfilled | src/stream.rs:29-32 | the first read that did not fill a datagram |
| Stream.ReplayRecording | src/stream.rs:23-42 | records are yielded in file order, each once, up to the first short read or error (an error is yielded as the last item); the first is yielded at once and sets the anchor, which never changes; each later one waits for its deadline from that anchor |

## Left out

- UDP reception (forza/src/lib.rs:17-41) is I/O: bind, `recv_from` and the unsafe transmute. Its exact-size assertion is the rule of `Datagram.Decode`.
- Replay I/O is left out: opening the file, `BufReader`, `read_exact` and `delay_until` with its timer. A read is a `ReadOutcome`. The end of the outcome sequence ends the stream as a short read does. Whether tokio reports end-of-file as an error is library behaviour that is not part of this model.
- Stream.ReplayRecording: the clock when the first record arrives is the `startNow` parameter. Waiting is the reported deadline, not a delay.
- Stream.ReplayRecording: a read outcome carries the record its filled buffer decodes to (`Stream.RecordOf`), not the buffer.
- Live mode is not modelled beyond the choice in `Stream.SelectMode`, because `forza::horizon4` is I/O.
- The `tokio::select!` race with cancellation is left out. Cancellation is the index `cancelAt` of the first item the loop does not take.
- `Instant::now()` is left out. It is a clock sequence in milliseconds, one entry per item, and it never decreases (as `Instant` does not).
- `state.apply()` and the Razer SDK calls behind it are left out. Their success per frame is the `applied` parameter.
- `Tick` is built and handed to `tick`, but the meter ignores it. The model reports the ticks instead.
- src/state.rs wraps the `KeyboardCustomKeyEffectBuilder` of the chroma crate, which is not part of this model. The frame is a map from grid cells to colours. `set_key` is not used by the core and is left out.
- src/main.rs is CLI parsing, TOML loading and `ctrl_c`. forza/examples/forza-recorder.rs is an output tool. chroma/src/sys/key.rs is an FFI constant table. All three are left out, except the key codes the position tables use.
- src/forza/datagram.rs is not compiled, and it repeats the layout of forza/src/datagram.rs.
- The serde deserializer machinery is left out. Only the visitor bodies and the schema's shape are modelled. Field defaults such as the colour "white" are not.
- `u8` arithmetic follows a debug build, in which an overflow panics. A release build wraps instead, and that is not modelled: for example, the as-written full descending meter 5->0 would write row 255 instead of panicking (`Meter.AsWrittenDescendingUnderflows`).
- Floating point is left out:
  - `f32` arithmetic is carried out on reals, with no rounding.
  - Non-finite telemetry words read as 0.0.
  - NaN and infinity in the ratio are modelled only for a zero maximum.
  - Property.Ratio: a -0.0 maximum is taken as +0.0. In `f32` a positive current over -0.0 gives -inf, which clamps to 0.0, while the model gives 1.0.
- Meter.NumFilled: `meter_height * pct` is the exact real product. Meter.ScaleChannel: the colour scaling is an exact real product truncated to an integer.
- `char::is_numeric` is restricted to ASCII digits (Config.IsNumeric). A non-ASCII numeric character could only end up inside a side, where the `u8` parse rejects it, so no accepted string changes.
- A predefined (position) entry in the configuration hits `todo!()`. It is the error `PredefinedEffect`. The position effect is modelled only as its tables, because nothing draws it.
- MAX_COLUMN = 22 and MAX_ROW = 6 come from the chroma crate, which is not part of this model. They are chosen to match the key codes of chroma/src/sys/key.rs, rows 0–5 and columns 0–0x15.
- Driver.Driver.BuildEffects builds every effect before any of them is added, but `from_config` adds each one as it is built. This is equivalent: `add_effect` cannot fail, and building never reads the driver.
- Driver.Driver.BuildEffects: the stored maximum and the freshness of each new property are stated per entry by `Driver.Driver.BuildEntry`. They are not restated for the whole list. The list states only that the properties are distinct objects.
- Driver.Driver.FromConfig: the same holds; it inherits the per-entry facts only through `Driver.Driver.BuildEntry`.
- Meter.MeterEffectInstance.Update: after a failed query (a panic in the source) it promises nothing about the instance.
- Driver.Driver.RunTick: after a panic it states nothing about the partly drawn frame.
- Driver.Driver.Serve: after a panic it states nothing about the panicking frame. Every frame before that one is still stated.
- Driver.Driver.Serve: it does not state the converse, that a run in which no tick panics and every frame is sent ends in `Ok(())`. The converse follows only from its three outcomes taken together.
- Driver.Driver.Serve: it does not restate each instance's `current` level after the loop. `Driver.Driver.RunTick` states those levels for every tick.
- Every box in `effects` owns its property, and every instance is its own object. The model makes both explicit: `Driver.OwnProperties` is part of the driver's `Valid`, and `Driver.Distinct` holds of the instances `Start` returns. `RunTick`, `ServeOne` and `Serve` require both, because distinct instances could otherwise share one property.

## Findings

| source | as written | input that shows it | evidently intended | confidence | as-written member | corrected member |
|---|---|---|---|---|---|---|
| src/driver.rs:43-51 | after a match at index i, `skip(i).enumerate()` counts from i, so the index past the run of equal altitudes is relative to i and is used as an absolute index | effects of altitudes 0, 0, 0, 1, 2 (configuration 0, 0, 0, 1, 2, 1); the search for 1 matches at 3 and the effect goes at index 1 | insertion just after the run of equal altitudes (index 4), which keeps the list sorted and stable | high, not executed | Driver.AsWrittenBreaksOrder | Driver.InsertIndexIsUpperBound |
| src/effects/meter.rs:141-144 | the boundary key is guarded by `num_filled < MAX_COLUMN`, not by the meter's length | a full (100%) ascending meter 0->4 also writes row 5 past its end; a full descending meter 5->0 panics on `u8` underflow; a descending 30-key meter 29->0 at 85% never lights its boundary key, column 4 | skip the boundary key when the meter is full ("in case we manage to hit 100%"), that is, guard by the meter's height | medium, not executed | Meter.AsWrittenFullMeterOverruns | Meter.TickWritesInSpanAndDistinct |

The corrected insertion index (`Driver.InsertIndex`) and the corrected
boundary guard (`Meter.TickWrites`) are the ones the rest of the model
uses. `Driver.InsertIndexAsWritten` and `Meter.TickWritesAsWritten` keep
the code as written for the lemmas above.
