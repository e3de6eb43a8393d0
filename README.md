# fluxrs flux engine, modelled in Dafny

fluxrs computes greenhouse-gas fluxes (CO2, CH4, N2O, H2O) from static-chamber
measurements. A chamber is closed over a plot for one *cycle*. The instrument
logs gas concentrations against time. The engine finds the lag between the
logged and the physical chamber events, chooses a calculation window inside
the closed period, fits linear, polynomial, exponential and robust models to
the concentrations in that window, and scales the fitted slope by chamber
geometry and meteorology into a flux. A review screen lets a person step
through the cycles, hide chambers, mark cycles valid or invalid and drag the
calculation windows.

This project models that sequential engine:

- Cycle timing (`cycletiming.dfy`): the lag-adjusted close and open times,
  the per-gas calculation ranges clamped into
  `[adjusted_close + deadband, adjusted_open]` with a minimum length, the
  lag and range setters, and drag and stick.
- Lags and windows (`peaks.dfy`, `windowsearch.dfy`, `cycle.dfy`): the
  open-lag peak search over the last quarter of the data, the peak search
  within five samples of a target time, the exhaustive best-Pearson window
  search, and the samples kept between the adjusted close and open times.
- Quality control (`errorcodes.dfy`, `validity.dfy`, `cycle.dfy`): the
  error bit mask, `add_error` and `remove_error`, and the manual validity
  override.
- Review (`navigator.dfy`, `cyclefilter.dfy`, `plottingui.dfy`): the cycle
  navigator, the chamber and validity filters, and the plot's clamp helpers.
- Fits and fluxes (`linregs.dfy`, `robregs.dfy`, `stats.dfy`,
  `linflux.dfy`, `polyflux.dfy`, `expflux.dfy`, `fluxfits.dfy`,
  `bestflux.dfy`, `flux.dfy`, `fluxunits.dfy`): ordinary and robust
  regression, the statistics the fits report, the error guards of every
  fit, the choice of model by AIC, and the ideal-gas flux formula with its
  unit conversions.
- Lookups and codecs (`meteo.dfy`, `heights.dfy`, `chambers.dfy`,
  `timedata.dfy`, `modes.dfy`, `gastypes.dfy`, `concentrationunits.dfy`,
  `keybinds.dfy`): the nearest meteo sample within 1800 s, the nearest
  earlier chamber height, chamber geometry, the chunking of time data, the
  Oulanka offset rule, and the enum codecs.

Helper modules: `wrappers.dfy` (Option and Result), `floats.dfy` (f64 as
`real` with explicit NaN and infinity tags where the code makes or tests
them, plus a `Libm` value that carries `sqrt`, `ln`, `exp`, the Student-t
CDF and the LU solve as parameters), `arith.dfy`, `sums.dfy`, `sorting.dfy`
(a stable sort, which is what `sort_by` is) and `text.dfy` (ASCII
lower-casing).

Rust's tie-breaks are kept. `max_by` keeps the last maximum. `min_by` and
`min_by_key` keep the first minimum. `None` orders before `Some`.

Parts of the code's mutable state are modelled as Dafny classes whose
methods state their whole new state: `CycleTiming`, `Cycle`, `ErrorMask`,
`Chamber`, the navigator's `Index` and `CycleNavigator`, `CycleFilter`,
the plot view's trace map, `KeyBindings` and the exponential fit that
`flux_from_vec` refits in place. Each loop over gases is specified by a function of the old
maps, and lemmas give its per-gas effect. The pure parts are functions with
lemmas.

Two behaviours of the fits and the window search, stated as the code has
them:

- A window with fewer than three points fails with `NotEnoughPoints`
  (`crates/fluxrs-core/src/flux/linflux.rs:121-126`).
- The best-Pearson window search returns a window whose `r` is maximal
  among the gap-free candidates
  (`crates/fluxrs-core/src/cycle/cycle.rs:2838-2870`). The candidates are
  reduced in parallel (`par_bridge` then `reduce_with`), in an order
  nothing fixes, so among equal `r` the one returned is not determined;
  the model promises only a maximal `r`.

Several quirks are modelled as written, because they are how the program
behaves:

- A perfect linear fit (zero residual sum) is rejected with `NonFiniteSE`
  (`LinFlux.PerfectFitRejected`).
- A polynomial fit of exactly three points always fails with
  `NonFiniteSigma` (`PolyFlux.FitsIffMorePointsThanParameters`).

## Model

| member | source | states |
|---|---|---|
| Text.AsciiLower | crates/fluxrs-core/src/mode.rs:25 | an upper-case ASCII letter becomes lower case and every other character is kept |
| Text.Lower | crates/fluxrs-core/src/mode.rs:25 | `to_ascii_lowercase` folds each character alone and keeps the length |
| Text.LowerIsLower | crates/fluxrs-core/src/mode.rs:25 | the folded string has no upper-case ASCII letter |
| Text.LowerNoUpper | crates/fluxrs-core/src/mode.rs:25 | a string without upper-case ASCII letters folds to itself |
| Text.LowerIdempotent | crates/fluxrs-core/src/mode.rs:25 | folding twice is folding once |
| Sorting.Sort | crates/fluxrs-core/src/stats/stats.rs:102 | `sort_by` keeps the number of elements |
| Sorting.SortPermutes | crates/fluxrs-core/src/stats/stats.rs:102 | `sort_by` permutes its input |
| Sorting.SortSorted | crates/fluxrs-core/src/stats/stats.rs:102 | under a total preorder the result is sorted |
| Sorting.SortAllTied | crates/fluxrs-core/src/stats/robreg.rs:135 | the sort is stable: when every pair compares equal the input order is kept |
| Sorting.CountSort | crates/fluxrs-core/src/stats/stats.rs:102 | sorting keeps how many elements satisfy any property |
| Sorting.PermutationKeepsDistinct | crates/fluxrs-gui/src/ui/validation_app/toggle_traces.rs:62-74 | a rearrangement of names without repeats (a set's names) has no repeats either |
| ConcentrationUnits.ToPpmFactor | src/concentrationunit.rs:10-15 | the factor is positive, and it is exactly 1 for ppm |
| ConcentrationUnits.PpbBelowPpm | src/concentrationunit.rs:10-15 | the ppb factor is smaller than the ppm factor |
| ConcentrationUnits.PpbToPpm | src/concentrationunit.rs:8-15 | a ppb reading times its factor is the reading divided by 1000; a ppm reading is unchanged |
| ConcentrationUnits.AsStr | src/concentrationunit.rs:18-23 | every label is three letters starting with "pp" |
| ConcentrationUnits.AsStrInjective | src/concentrationunit.rs:18-23 | the two units have distinct labels |
| Modes.DefaultMode | crates/fluxrs-core/src/mode.rs:34-38 | the default is the mode labelled "Best Pearson's R", stored as 2 |
| Modes.Parse | crates/fluxrs-core/src/mode.rs:21-31 | after ASCII lower-casing, "deadband" gives AfterDeadband and "pearsons" or "bestr" give BestPearsonsR (both directions); any other input is an error that carries "invalid mode: " and the folded text |
| Modes.ParseIgnoresCase | crates/fluxrs-core/src/mode.rs:24-25 | parsing a string and parsing its lower-cased form give the same result |
| Modes.AsInt | crates/fluxrs-core/src/mode.rs:41-46 | 1 for the mode labelled "After Deadband", 2 for the one labelled "Best Pearson's R" |
| Modes.FromInt | crates/fluxrs-core/src/mode.rs:47-53 | the result is present exactly for 1 and 2, and `as_int` maps it back to the input |
| Modes.IntRoundTrip | crates/fluxrs-core/src/mode.rs:41-53 | `from_int(as_int(m)) == Some(m)` for every mode |
| Modes.Label | crates/fluxrs-core/src/mode.rs:56-63 | the labels "After Deadband" and "Best Pearson's R"; `FromStr` rejects both, so the displayed text does not parse back |
| Modes.DebugLabel | crates/fluxrs-core/src/mode.rs:56-71 | `Debug` prints the same label as `Display` |
| Modes.LabelInjective | crates/fluxrs-core/src/mode.rs:56-63 | the two modes have distinct labels |
| GasTypes.DefaultGas | src/gastype.rs:14-18 | the default gas is the one displayed as "CO2" and stored as 0 |
| GasTypes.Name | src/gastype.rs:24-33 | the `Display` name has three characters, and its ASCII lower case is one of the four names `FromStr` accepts |
| GasTypes.Parse | src/gastype.rs:35-47 | the parse succeeds exactly for the four gas names in any ASCII case; a parsed gas's name folds to the folded input; any other input is an error carrying "Invalid gas: " and the folded text |
| GasTypes.ParseName | src/gastype.rs:24-47 | parsing the displayed name of a gas, in any ASCII case, gives that gas back |
| GasTypes.ColumnName | src/gastype.rs:49-56 | the column name is the `Display` text |
| GasTypes.AsInt | src/gastype.rs:57-64 | the integer is the gas's position in the order CO2, CH4, H2O, N2O, so at most 3 |
| GasTypes.FromInt | src/gastype.rs:65-73 | the result is present exactly for 0 to 3, and `as_int` maps it back to the input |
| GasTypes.IntRoundTrip | src/gastype.rs:57-73 | `from_int(as_int(g)) == Some(g)` for every gas |
| GasTypes.MolMass | src/gastype.rs:107-114 | every molar mass is positive |
| GasTypes.ConvFactor | src/gastype.rs:115-123 | the factor is 1 or 1000 |
| GasTypes.Unit | src/gastype.rs:124-131 | the unit is "ppm" or "ppb" |
| GasTypes.ConvFactorMatchesUnit | src/gastype.rs:115-131 | the factor is 1000 exactly when the unit is ppb, which is the case exactly for CH4 and N2O |
| GasTypes.ColumnFor | src/gastype.rs:75-98 | each `*_col` name is the lower-cased column name followed by that column's fixed suffix |
| GasTypes.ColumnForInjective | src/gastype.rs:75-98 | distinct (gas, column) pairs give distinct database column names |
| KeyBinds.ActionLabel | src/keybinds.rs:50-92 | every action's `Display` text is a phrase of at least ten characters starting with a capital letter |
| KeyBinds.KeyName | src/keybinds.rs:185 | a named key prints its variant's name, one to ten characters long; any other key prints its `Debug` name |
| KeyBinds.BindLabel | src/keybinds.rs:171-189 | the key's name comes last, after five characters for "Ctrl+", six for "Shift+" and four for "Alt+", and a Ctrl binding starts with "Ctrl+" |
| KeyBinds.Display | src/keybinds.rs:171-189 | the text is each set modifier in the order Ctrl, Shift, Alt, each followed by '+', then the key's name |
| KeyBinds.Unbound | src/keybinds.rs:127 | `retain` keeps exactly the actions that are not bound to the given binding, with their bindings unchanged |
| KeyBinds.DefaultBindings | src/keybinds.rs:100-124 | the default table: seventeen actions on unmodified keys, with SearchLag's later insert replacing plain L by Ctrl+L (stated by `KeyBindings.constructor`) |
| KeyBinds.KeyBindings.constructor | src/keybinds.rs:99-124 | the default table; SearchLag ends on Ctrl+L because the later insert replaces plain L |
| KeyBinds.KeyBindings.KeyFor | src/keybinds.rs:134-136 | present exactly for a bound action, and then its binding |
| KeyBinds.KeyBindings.Set | src/keybinds.rs:126-129 | the new table is the old one without the entries on the new key, plus the action on it; afterwards `key_for(action)` is the new key, no other action holds that key, and every other action keeps its old binding unless that binding was the new key |
| KeyBinds.KeyBindings.Remove | src/keybinds.rs:131-133 | the action loses its binding and every other action keeps its own |
| KeyBinds.SetKeepsInjective | src/keybinds.rs:126-129 | `set` keeps a table in which no two actions share a key binding |
| ErrorCodes.ToMask | src/errorcode.rs:22-43 | no code has the empty mask; which single bit each code has is stated by `ErrorCodes.Bit` and `ErrorCodes.ToMaskSingleBit` |
| ErrorCodes.ToMaskSingleBit | src/errorcode.rs:22-43 | every mask is a single bit among the low eight |
| ErrorCodes.ToMaskDisjoint | src/errorcode.rs:22-43 | two masks overlap exactly when the codes are the same, so `to_mask` is injective |
| ErrorCodes.Bit | src/errorcode.rs:22-29 | each code's mask is `1 << n` with n below 8 |
| ErrorCodes.MaskOrderBits | src/errorcode.rs:48-57 | the i-th code visited by `from_mask` has bit i |
| ErrorCodes.MaskMonotone | src/errorcode.rs:22-29 | a higher bit position is exactly a larger mask |
| ErrorCodes.SelectedMember | src/errorcode.rs:46-63 | a code is picked exactly when it is listed and its bit is set in the mask |
| ErrorCodes.FromMask | src/errorcode.rs:46-63 | the result holds exactly the codes whose bit is set in the mask, in the visiting order |
| ErrorCodes.SelectFrom | src/errorcode.rs:47-62 | the loop keeps, in order, the listed codes whose bit is set |
| ErrorCodes.SelectedAll | src/errorcode.rs:46-63 | `e` is in `from_mask(m)` exactly when `m & to_mask(e) != 0` |
| ErrorCodes.FromMaskOrdered | src/errorcode.rs:46-63 | `from_mask` lists its codes by strictly increasing mask |
| ErrorCodes.FromMaskOfOne | src/errorcode.rs:46-63 | `from_mask(to_mask(e)) == [e]` |
| ErrorCodes.Or | src/errorcode.rs:71-76 | `a \| b` holds both codes, and is the sum of two distinct single bits unless the codes are equal |
| ErrorCodes.OrExact | src/errorcode.rs:71-76 | a code is in `a \| b` exactly when it is a or b |
| ErrorCodes.WithCode | src/errorcode.rs:79-83 | `\|= code` sets the code's bit and clears no bit |
| ErrorCodes.WithCodeOthers | src/errorcode.rs:79-83 | `\|= code` leaves every other code as it was |
| ErrorCodes.Toggled | src/errorcode.rs:99-106 | after `toggle` the code is present exactly when it was absent before |
| ErrorCodes.ToggledOthers | src/errorcode.rs:99-106 | `toggle` leaves every other code as it was |
| ErrorCodes.ToggledIsXor | src/errorcode.rs:99-106 | clearing the bit when set and setting it otherwise is the exclusive-or of the mask with the code's bit |
| ErrorCodes.ToggleTwice | src/errorcode.rs:99-106 | toggling the same code twice gives back the mask |
| ErrorCodes.UnionHas | src/errorcode.rs:86-90 | a code is in the union of two masks exactly when it is in either |
| ErrorCodes.Message | src/errorcode.rs:110-124 | every code's message is a non-empty phrase starting with a capital letter; `MessageInjective` proves them distinct |
| ErrorCodes.MessageInjective | src/errorcode.rs:110-124 | no two codes share a display message |
| ErrorCodes.ErrorMask.FromU16 | src/errorcode.rs:93-95 | `from_u16` holds the given bits |
| ErrorCodes.ErrorMask.Contains | src/errorcode.rs:96-98 | `contains(c)` agrees with membership of c in `from_mask` of the bits |
| ErrorCodes.ErrorMask.Toggle | src/errorcode.rs:99-106 | the bits become the toggled mask, which flips only that code |
| ErrorCodes.ErrorMask.OrCode | src/errorcode.rs:79-83 | the bits gain the code's bit and lose none |
| ErrorCodes.ErrorMask.OrMask | src/errorcode.rs:86-90 | the bits become the union of the two masks |
| ErrorCodes.MaskOrderComplete | src/errorcode.rs:48-57 | `from_mask` visits every code |
| Meteo.SourceAsInt | crates/fluxrs-core/src/data_formats/meteodata.rs:42-48 | `from_int` maps each source's code back to that source |
| Meteo.SourceFromInt | crates/fluxrs-core/src/data_formats/meteodata.rs:50-57 | the result is present exactly for 0, 1 and 2 |
| Meteo.SourceIntRoundTrip | crates/fluxrs-core/src/data_formats/meteodata.rs:42-57 | `from_int(as_int(s)) == Some(s)` for every source |
| Meteo.DefaultPoint | crates/fluxrs-core/src/data_formats/meteodata.rs:132-136 | the default point has no value and no distance; its source is Default, not Missing, so `or_default` leaves it without a value |
| Meteo.OrDefault | crates/fluxrs-core/src/data_formats/meteodata.rs:120-130 | a Missing point becomes (the default, Default, no distance); any other point is returned unchanged |
| Meteo.OrDefaultHasValue | crates/fluxrs-core/src/data_formats/meteodata.rs:120-130 | after `or_default` a point that was missing or had a value has a value, and applying it again changes nothing |
| Meteo.NearestUnique | crates/fluxrs-core/src/data_formats/meteodata.rs:171-192 | at most one sample is the nearest candidate, because ties go to the first index |
| Meteo.Consider | crates/fluxrs-core/src/data_formats/meteodata.rs:170-192 | one step of the scan for one side keeps the running best as the first nearest candidate seen so far |
| Meteo.SkipFar | crates/fluxrs-core/src/data_formats/meteodata.rs:165-168 | a sample more than 1800 s from the target leaves the running best as it is |
| Meteo.PointOfFinal | crates/fluxrs-core/src/data_formats/meteodata.rs:195-227 | after the scan a side with no candidate reports (None, Missing, no distance); otherwise it reports the nearest sample's value and source with the signed distance `ts - target` |
| Meteo.GetNearest | crates/fluxrs-core/src/data_formats/meteodata.rs:152-231 | None exactly when neither temperature nor pressure has a sample with a value within 1800 s (so also for no samples); otherwise each side independently reports its nearest such sample, the first on ties, or a Missing point |
| Heights.Zipped | crates/fluxrs-core/src/data_formats/heightdata.rs:33 | the scan visits as many records as the shorter of the time and chamber columns holds |
| Heights.LatestUnique | crates/fluxrs-core/src/data_formats/heightdata.rs:33-41 | at most one record is the latest candidate, because ties go to the first index |
| Heights.OtherChambersIrrelevant | crates/fluxrs-core/src/data_formats/heightdata.rs:34 | two record sets that agree on the records of the chamber choose the same record |
| Heights.GetNearestPreviousHeight | crates/fluxrs-core/src/data_formats/heightdata.rs:25-44 | None exactly when the chamber has no record at or before the target; otherwise the height of the record of that chamber at or before the target with the smallest `target - datetime`, the first on ties |
| Chambers.ShapeTypeAsInt | crates/fluxrs-core/src/data_formats/chamberdata.rs:29-34 | 0 for the type `FromStr` gives for "box", 1 for the one it gives for "cylinder" |
| Chambers.ShapeTypeFromInt | crates/fluxrs-core/src/data_formats/chamberdata.rs:36-42 | the result is present exactly for 0 and 1, and `as_int` maps it back to the input |
| Chambers.ShapeTypeIntRoundTrip | crates/fluxrs-core/src/data_formats/chamberdata.rs:29-42 | `from_int(as_int(t)) == Some(t)` for both shape types |
| Chambers.ParseShapeType | crates/fluxrs-core/src/data_formats/chamberdata.rs:45-55 | the parse gives Box exactly for "box" and Cylinder exactly for "cylinder", after lower-casing; anything else fails |
| Chambers.ParseShapeTypeIgnoresCase | crates/fluxrs-core/src/data_formats/chamberdata.rs:49 | parsing a string and parsing its lower-cased form give the same result |
| Chambers.DefaultShape | crates/fluxrs-core/src/data_formats/chamberdata.rs:63-67 | the default shape is a box with a 1 m² footprint and a 1 m internal height |
| Chambers.VolumeM3 | crates/fluxrs-core/src/data_formats/chamberdata.rs:70-80 | the chamber volume above the snow, `π(d/2)²(h - snow)` or `w·l(h - snow)`, proved by `VolumeIsAreaTimesHeight` to be the area times `h - snow` |
| Chambers.AreaM2 | crates/fluxrs-core/src/data_formats/chamberdata.rs:82-90 | the footprint area, `π(d/2)²` or `w·l`, whose formula and sign `AreaFormula` states |
| Chambers.InternalHeight | crates/fluxrs-core/src/data_formats/chamberdata.rs:92-101 | the internal height is `max(height - snow, 0)`: never negative, at least `height - snow`, and one of the two |
| Chambers.VolumeIsAreaTimesHeight | crates/fluxrs-core/src/data_formats/chamberdata.rs:70-112 | the volume is the area times `height - snow`, and the adjusted volume is the area times the internal height |
| Chambers.AreaFormula | crates/fluxrs-core/src/data_formats/chamberdata.rs:82-90 | a cylinder's area is π(d/2)² and never negative; a box's is width times length, not negative for non-negative dimensions |
| Chambers.AdjustedVolume | crates/fluxrs-core/src/data_formats/chamberdata.rs:103-112 | the footprint area times the internal height, never negative for non-negative dimensions by `AdjustedVolumeBounds` |
| Chambers.AdjustedVolumeBounds | crates/fluxrs-core/src/data_formats/chamberdata.rs:103-112 | the adjusted volume is not negative for non-negative dimensions, equals the volume while the snow is below the top, and is 0 once the snow reaches it |
| Chambers.WithHeight | crates/fluxrs-core/src/data_formats/chamberdata.rs:121-126 | `set_height` changes the height and no other field, and keeps the shape kind |
| Chambers.WithSnowHeight | crates/fluxrs-core/src/data_formats/chamberdata.rs:128-133 | `set_snow_height` changes the snow height and no other field, and keeps the shape kind |
| Chambers.SettersCommute | crates/fluxrs-core/src/data_formats/chamberdata.rs:121-133 | the two setters commute, and setting the old height back restores the shape |
| Chambers.Chamber.Default | crates/fluxrs-core/src/data_formats/chamberdata.rs:172-176 | the default chamber is the 1 m default box with origin Default |
| Chambers.Chamber.FromShape | crates/fluxrs-core/src/data_formats/chamberdata.rs:167-170 | a chamber holds the given shape and origin |
| Chambers.Chamber.SetHeight | crates/fluxrs-core/src/data_formats/chamberdata.rs:207-209 | the chamber's shape becomes the shape with the new height |
| Chambers.Chamber.SetSnowHeight | crates/fluxrs-core/src/data_formats/chamberdata.rs:211-213 | the chamber's shape becomes the shape with the new snow height |
| TimeDatas.ChunkSize | crates/fluxrs-core/src/data_formats/timedata.rs:437 | the chunk size is `max(1, len / 100)` |
| TimeDatas.Chunk | crates/fluxrs-core/src/data_formats/timedata.rs:434-456 | the loop pushes exactly the chunks `(0..len).step_by(size)` cuts, each the rows from its start to `min(start + size, len)` of every column |
| TimeDatas.ChunkShape | crates/fluxrs-core/src/data_formats/timedata.rs:437-441 | there are no chunks exactly when there are no rows; every chunk but the last has the chunk size, and the last has between one row and that many |
| TimeDatas.Slice | crates/fluxrs-core/src/data_formats/timedata.rs:443-453 | rows `i..j` of all nine columns, the piece `chunk` pushes; `ChunkConcat` joins the pieces back into the table |
| TimeDatas.ChunkConcat | crates/fluxrs-core/src/data_formats/timedata.rs:434-456 | joining any column of the chunks gives back that column's first len rows, and for `start_time` the whole column |
| TimeDatas.Rows | crates/fluxrs-core/src/data_formats/timedata.rs:460-469 | the zip of the nine columns is as long as the shortest column |
| TimeDatas.Iter | crates/fluxrs-core/src/data_formats/timedata.rs:457-478 | item k holds row k of each of the nine columns (chamber, start, close, open, end, snow depth, id, instrument id, project id), and the tuple puts the instrument id before the project id |
| TimeDatas.ValidateLengthsAsWritten | crates/fluxrs-core/src/data_formats/timedata.rs:74-97 | as written the length test always returns true |
| TimeDatas.UnequalColumnsAccepted | crates/fluxrs-core/src/data_formats/timedata.rs:74-97 | columns of lengths 1 and 0 are not of equal length, yet the length test as written accepts them |
| TimeDatas.ValidateLengths | crates/fluxrs-core/src/data_formats/timedata.rs:74-97 | the corrected length test holds exactly when the six columns have equal lengths |
| TimeDatas.OulankaTimes | crates/fluxrs-core/src/data_formats/timedata.rs:203-204 | the cycle starts 60 s before the row's time; the chamber closes 60 s in, opens after the measurement time and the cycle ends 60 s after that |
| Flux.SlopePpmPerS | src/gaschannel.rs:18-20 | the slope is scaled by the unit's ppm factor, so a ppm slope is unchanged |
| Flux.Kelvin | crates/fluxrs-core/src/flux/flux.rs:117 | the temperature is 0 K exactly at -273.15 °C and positive exactly above it |
| Flux.FluxUmolCore | crates/fluxrs-core/src/flux/flux.rs:108-141 | the ideal-gas flux of a slope, proved linear in the slope with one fixed coefficient by `FluxIsLinear` and of the slope's sign by `FluxHasSlopeSign` |
| Flux.FluxIsLinear | crates/fluxrs-core/src/flux/flux.rs:108-141 | with a non-zero absolute temperature and area, the flux is the slope times one coefficient: the ppm factor · 1e-6 · 100 P / (8.314 (T + 273.15)) · adjusted volume / area · 1e6 |
| Flux.ZeroSlopeZeroFlux | crates/fluxrs-core/src/flux/flux.rs:108-141 | a zero slope gives a zero flux |
| Flux.FluxHasSlopeSign | crates/fluxrs-core/src/flux/flux.rs:108-141 | for a positive pressure, absolute temperature, area and adjusted volume the flux is finite and has the sign of the slope |
| Flux.ZeroAreaNotFinite | crates/fluxrs-core/src/flux/flux.rs:133-137 | a zero footprint area gives a non-finite flux |
| Flux.FluxUmol | crates/fluxrs-core/src/flux/flux.rs:144-158 | `flux_umol_m2_s` needs both meteo values present and is then the linear core formula on them |
| Flux.FluxMgS | crates/fluxrs-core/src/flux/flux.rs:160-180 | the mg/m²/s flux is finite exactly when the µmol flux is, and is then the µmol flux times `mol_mass · 1e-3` |
| Flux.FluxMgH | crates/fluxrs-core/src/flux/flux.rs:182-194 | the mg/m²/h flux is finite exactly when the per-second one is, and is then 3600 times it |
| Flux.MgFluxIsLinear | crates/fluxrs-core/src/flux/flux.rs:160-194 | under the same conditions both mg fluxes are fixed multiples of the slope |
| FluxUnits.DefaultUnit | crates/fluxrs-core/src/flux/fluxunit.rs:19-22 | the default unit is the one labelled "µmol/m2/s", whose suffix is "umol_m2_s" |
| FluxUnits.Label | crates/fluxrs-core/src/flux/fluxunit.rs:33-46 | every label is already ASCII lower case, the form `FromStr` compares the folded input against |
| FluxUnits.Parse | crates/fluxrs-core/src/flux/fluxunit.rs:48-65 | a parsed unit's label is the ASCII-folded input; any other input is an error carrying "Invalid unit: " and the folded text |
| FluxUnits.ParseLabel | crates/fluxrs-core/src/flux/fluxunit.rs:33-65 | parsing the displayed label gives back the unit, for each of the eight units |
| FluxUnits.All | crates/fluxrs-core/src/flux/fluxunit.rs:68-71 | `all()` lists eight distinct units |
| FluxUnits.AllComplete | crates/fluxrs-core/src/flux/fluxunit.rs:68-71 | every unit is in `all()` |
| FluxUnits.FromUmolM2S | crates/fluxrs-core/src/flux/fluxunit.rs:73-95 | the flux in the unit from the µmol/m²/s value, a positive multiple of it by `Factor`, the identity for µmol/m²/s by `BaseIsIdentity` |
| FluxUnits.Factor | crates/fluxrs-core/src/flux/fluxunit.rs:73-95 | `from_umol_m2_s` multiplies by a positive constant depending only on the unit and the gas |
| FluxUnits.BaseIsIdentity | crates/fluxrs-core/src/flux/fluxunit.rs:82 | µmol/m²/s leaves the value unchanged |
| FluxUnits.HourlyIs3600 | crates/fluxrs-core/src/flux/fluxunit.rs:76-93 | each per-hour unit is 3600 times its per-second counterpart |
| FluxUnits.GasOnlyForMg | crates/fluxrs-core/src/flux/fluxunit.rs:91-93 | only the mg units depend on the gas, and then only through its molar mass |
| FluxUnits.Suffix | crates/fluxrs-core/src/flux/fluxunit.rs:97-108 | each suffix is the unit's label with 'µ' written as 'u' and '/' as '_' |
| FluxUnits.SuffixInjective | crates/fluxrs-core/src/flux/fluxunit.rs:33-108 | distinct units have distinct suffixes and distinct labels |
| LinFlux.Predictions | crates/fluxrs-core/src/flux/linflux.rs:136 | the fitted values are the line evaluated at each normalised time |
| LinFlux.Normalize | crates/fluxrs-core/src/flux/linflux.rs:128-129 | the times are shifted so that the first is 0 |
| LinFlux.SpreadX | crates/fluxrs-core/src/flux/linflux.rs:144-145 | `ss_xx` is never negative |
| LinFlux.FromData | crates/fluxrs-core/src/flux/linflux.rs:110-193 | unequal lengths give LengthMismatch, checked before NotEnoughPoints for fewer than 3 samples; with enough samples DegenerateX is returned exactly when `ss_xx <= EPSILON`; a fit is only returned for equal lengths of at least 3 with spread |
| LinFlux.ModelOf | crates/fluxrs-core/src/flux/linflux.rs:134 | the model is `LinReg::train` on the normalised times, and it passes through the mean of those times and the mean of y |
| LinFlux.Fit | crates/fluxrs-core/src/flux/linflux.rs:134-192 | the only error after the spread guard is NonFiniteSE, returned exactly when the slope's standard error is not finite or not positive; a returned fit stores the range as given, sigma = sqrt(rss/(n-2)), the AIC with k = 2, R² of the fitted values (0 when undefined), adjusted R² with k = 1, the rmse of the fitted values (0 when undefined), the two-sided p-value `2(1 - tcdf(n - 2, \|slope / se\|))`, the flux of the slope and cv = rmse / mean(y) |
| LinFlux.Predict | crates/fluxrs-core/src/flux/linflux.rs:64-66 | `predict(x)` evaluates the model at `x - range_start` |
| LinFlux.PredictMatchesFit | crates/fluxrs-core/src/flux/linflux.rs:64-66 | when the range starts at the first sample, `predict` at a sample time gives that sample's fitted value |
| LinFlux.PerfectFitRejected | crates/fluxrs-core/src/flux/linflux.rs:151-161 | samples exactly on a line (with spread in time) give NonFiniteSE instead of a fit |
| LinFlux.ExactFitHasNoError | crates/fluxrs-core/src/flux/linflux.rs:151-156 | samples exactly on a line give a zero standard error of the slope |
| LinFlux.Rss | crates/fluxrs-core/src/flux/linflux.rs:134-138 | the residual sum of squares of the fitted line at the normalised times; zero on an exact line by `ExactFitHasNoResidual` |
| LinFlux.SlopeError | crates/fluxrs-core/src/flux/linflux.rs:151-156 | the slope's standard error `sqrt(rss / (n - 2)) / sqrt(ss_xx)`; `Fit` rejects exactly when it is not finite or not positive |
| LinFlux.ExactFitHasNoResidual | crates/fluxrs-core/src/flux/linflux.rs:134-138 | on an exact line the residual sum of squares is 0 |
| LinFlux.PositiveErrorHasResidual | crates/fluxrs-core/src/flux/linflux.rs:151-161 | a positive standard error of the slope needs a positive sigma and so a positive residual sum |
| LinFlux.FitQuality | crates/fluxrs-core/src/flux/linflux.rs:151-192 | a returned fit has a positive sigma, a finite AIC, R² of at most 1 and an adjusted R² no larger than R² |
| PolyFlux.Predictions | crates/fluxrs-core/src/flux/polyflux.rs:146 | the fitted values are the quadratic evaluated at each normalised time |
| PolyFlux.FromData | crates/fluxrs-core/src/flux/polyflux.rs:121-186 | unequal lengths give LengthMismatch, then fewer than 3 samples NotEnoughPoints; with enough samples StatError is returned exactly when the solver fails; a returned fit holds the solved model, x offset = first time, the range as given, sigma = sqrt(rss/(n-3)), the AIC with 3 parameters, R² (0 when undefined), adjusted R² with k = 2, cv = rmse / mean(y) and the flux of the derivative a1 + 2·a2·(start - x0) |
| PolyFlux.Predict | crates/fluxrs-core/src/flux/polyflux.rs:62-64 | `predict(x)` evaluates the quadratic at `x - x_offset` |
| PolyFlux.Slope | crates/fluxrs-core/src/flux/polyflux.rs:97-99 | `slope()` is the derivative of the quadratic at the first sample, a1 |
| PolyFlux.FitsIffMorePointsThanParameters | crates/fluxrs-core/src/flux/polyflux.rs:152-161 | once the solver succeeds, a fit is returned exactly when there are more than 3 samples; with exactly 3 the result is always NonFiniteSigma |
| PolyFlux.PredictMatchesFit | crates/fluxrs-core/src/flux/polyflux.rs:62-64 | `predict` at a sample time gives that sample's fitted value |
| PolyFlux.FluxAtRangeStart | crates/fluxrs-core/src/flux/polyflux.rs:163-169 | when the range starts at the first sample, the flux is that of `slope()` |
| PolyFlux.Calculate | crates/fluxrs-core/src/stats/polyreg.rs:17-19 | the quadratic `a0 + a1·x + a2·x²`, whose derivative at 0 is `a1` by `SlopeIsDerivative` |
| PolyFlux.SlopeAt | crates/fluxrs-core/src/flux/polyflux.rs:166-167 | `a1 + 2·a2·t`, the slope the fit reports at the range start: the central difference of the quadratic over [t - 1, t + 1] is exactly twice it |
| PolyFlux.SlopeIsDerivative | crates/fluxrs-core/src/flux/polyflux.rs:166-167 | a1 + 2·a2·t is the derivative of the quadratic at t: the quadratic moves by h times it plus a2·h² |
| PolyFlux.FitQuality | crates/fluxrs-core/src/flux/polyflux.rs:147-157 | a returned fit has R² of at most 1, an adjusted R² no larger, and a finite AIC exactly when its residual sum is positive |
| ExpFlux.LnAll | crates/fluxrs-core/src/flux/expflux.rs:160 | the logarithm of every sample |
| ExpFlux.ExpTrain | crates/fluxrs-core/src/stats/expreg.rs:38-50 | `ExpReg::train` gives a model exactly when the line through (x, ln y) is fitted |
| ExpFlux.ExpTrainRecovers | crates/fluxrs-core/src/stats/expreg.rs:38-50 | samples whose logarithms lie on a line (with spread in x) give b = that line's slope and a = exp of its intercept |
| ExpFlux.ExpPredictions | crates/fluxrs-core/src/flux/expflux.rs:141 | the fitted values are the exponential evaluated at each normalised time |
| ExpFlux.Slope | crates/fluxrs-core/src/flux/expflux.rs:83-87 | `slope()` is a·b, and NaN when the coefficients are NaN |
| ExpFlux.Intercept | crates/fluxrs-core/src/flux/expflux.rs:78-81 | `intercept()` is a, and NaN when the coefficients are NaN |
| ExpFlux.Predict | crates/fluxrs-core/src/flux/expflux.rs:49-52 | `predict(x)` is a·exp(b·(x - range_start)), and NaN when the coefficients are NaN |
| ExpFlux.ExpCalculate | crates/fluxrs-core/src/stats/expreg.rs:28-30 | the exponential `a·exp(b·x)`, which is `a` at 0 with initial slope `a·b` by `InitialValueAndSlope` |
| ExpFlux.Derivative | crates/fluxrs-core/src/stats/expreg.rs:31-34 | `a·b·exp(b·x)`, which is b times the model's value at x |
| ExpFlux.InitialValueAndSlope | crates/fluxrs-core/src/flux/expflux.rs:78-87 | where exp(0) = 1, `intercept()` and `slope()` are the model's value and derivative at the first sample |
| ExpFlux.FromData | crates/fluxrs-core/src/flux/expflux.rs:111-128 | the guards run in order: LengthMismatch for unequal lengths, NotEnoughPoints below 3, then NonPositiveY exactly when some sample is not positive; past them the result is the fit |
| ExpFlux.Fit | crates/fluxrs-core/src/flux/expflux.rs:130-217 | NonFiniteSigma exactly when the times have no spread, DegenerateX exactly when the spread is positive but at most EPSILON; a returned fit had a finite positive standard error of b, holds the exponential model, the channel, the range as given, the AIC and adjusted R² with 2 parameters, R² (0 when undefined) and the flux of f0 = a·b |
| ExpFlux.PerfectExponentialRejected | crates/fluxrs-core/src/flux/expflux.rs:178-183 | samples that are an exact exponential with spread in time give NonFiniteSE, like a perfect linear fit |
| ExpFlux.PredictMatchesFit | crates/fluxrs-core/src/flux/expflux.rs:49-52 | when the range starts at the first sample, `predict` at a sample time gives that sample's fitted value |
| ExpFlux.FitQuality | crates/fluxrs-core/src/flux/expflux.rs:151-153 | a returned fit has R² of at most 1 and an adjusted R² no larger |
| ExpFlux.FromVecGuardAsWritten | crates/fluxrs-core/src/flux/expflux.rs:260-268 | as written the guards reject exactly unequal lengths, fewer than 2 samples and non-positive samples, all as LengthMismatch |
| ExpFlux.FromVecGuardMislabels | crates/fluxrs-core/src/flux/expflux.rs:260-262 | a non-positive sample in two equal-length series, or a single sample, is reported as LengthMismatch; every rejection carries that variant |
| ExpFlux.FromVecGuard | crates/fluxrs-core/src/flux/expflux.rs:260-268 | the corrected guards report LengthMismatch exactly for unequal lengths, NotEnoughPoints exactly for fewer than 2 samples, NonPositiveY exactly for a non-positive sample, and accept the rest |
| ExpFlux.FromVecGuardsAgree | crates/fluxrs-core/src/flux/expflux.rs:260-268 | both versions accept the same series, and for equal lengths they always disagree on the reported cause |
| ExpFlux.ExponentialFluxCell.constructor | crates/fluxrs-core/src/flux/expflux.rs:219-247 | the cell holds the given fit |
| ExpFlux.ExponentialFluxCell.FluxFromVec | crates/fluxrs-core/src/flux/expflux.rs:251-277 | on an error nothing changes and the error is the guards' as written, which is LengthMismatch for every rejection (a short or non-positive input included); it succeeds exactly when the lengths agree, there are two points and every value is positive, and then only the model and the flux change, to `ExpReg::train` on the normalised times and the flux of a·b |
| ExpFlux.RefitFlux | crates/fluxrs-core/src/flux/expflux.rs:272-275 | the refitted flux is that of a·b, and NaN for NaN coefficients |
| LinRegs.Zero | crates/fluxrs-core/src/stats/linreg.rs:22-24 | the default model predicts 0 everywhere |
| LinRegs.CalculateLine | crates/fluxrs-core/src/stats/linreg.rs:25-27 | the prediction changes by the slope per unit of x and equals the intercept at 0 |
| LinRegs.Train | crates/fluxrs-core/src/stats/linreg.rs:32-55 | coefficients are finite exactly when there are samples and `ss_xx` is not 0; then slope times `ss_xx` is `ss_xy` |
| LinRegs.Residuals | crates/fluxrs-core/src/stats/linreg.rs:25-27 | one residual per sample, each the observed minus the predicted value |
| LinRegs.MeanOfConstant | crates/fluxrs-core/src/stats/linreg.rs:35 | the mean of samples all equal to c is c |
| LinRegs.TrainFitsIffNonConstant | crates/fluxrs-core/src/stats/linreg.rs:32-55 | a line is fitted if and only if there are samples and x is not constant |
| LinRegs.TrainPassesThroughMeans | crates/fluxrs-core/src/stats/linreg.rs:52 | the fitted line goes through (mean x, mean y) |
| LinRegs.ResidualsSumToZero | crates/fluxrs-core/src/stats/linreg.rs:50-52 | the residuals of the fitted line sum to 0 |
| LinRegs.MeanOfLine | crates/fluxrs-core/src/stats/linreg.rs:35-43 | for samples on a line, the mean of y is the line at the mean of x |
| LinRegs.CrossDevOnLine | crates/fluxrs-core/src/stats/linreg.rs:41-50 | for samples on a line, `ss_xy` is the slope times `ss_xx` |
| LinRegs.SlopeOnLine | crates/fluxrs-core/src/stats/linreg.rs:51 | for samples on a line with spread, `ss_xy / ss_xx` is the line's slope |
| LinRegs.TrainRecoversLine | crates/fluxrs-core/src/stats/linreg.rs:32-55 | samples on a line with non-constant x give back exactly that line |
| LinRegs.TrainOnLine | crates/fluxrs-core/src/stats/linreg.rs:32-55 | samples on a line with `ss_xx` not 0 give back exactly that line |
| LinRegs.LineThroughMeans | crates/fluxrs-core/src/stats/linreg.rs:51-52 | the slope and intercept formulas give back the line the samples lie on |
| LinRegs.TrainFitted | crates/fluxrs-core/src/stats/linreg.rs:35-54 | with samples and spread the fit is the slope `ss_xy / ss_xx` through the means |
| Stats.PearsonOfValues | crates/fluxrs-core/src/stats/stats.rs:51-68 | a returned value is never negative; exactly when None is returned is `Stats.PearsonOfValuesNoneIffFlat` |
| Stats.PearsonCorrelation | crates/fluxrs-core/src/stats/stats.rs:31-69 | a value is only returned for at least 5 points, equal lengths and finite samples; on such input the result is the correlation of the values; it is never negative |
| Stats.PearsonOfValuesNoneIffFlat | crates/fluxrs-core/src/stats/stats.rs:58-68 | the denominator is zero, and the result None, exactly when one of the series is constant |
| Stats.PearsonNoneIff | crates/fluxrs-core/src/stats/stats.rs:31-69 | None exactly for fewer than 5 points in either input, unequal lengths, a non-finite sample, or a constant series |
| Stats.PearsonOnLine | crates/fluxrs-core/src/stats/stats.rs:51-68 | samples on a line with non-zero slope and non-constant x give 1 whatever the slope's sign, because the absolute value is returned; a flat line gives None |
| Stats.PearsonOfReversed | crates/fluxrs-core/src/stats/stats.rs:177-184 | the test's series [1..5] against [5..1] gives 1, not -1 |
| Stats.PearsonSymmetric | crates/fluxrs-core/src/stats/stats.rs:31-69 | exchanging x and y gives the same result |
| Stats.PearsonOfSelf | crates/fluxrs-core/src/stats/stats.rs:31-69 | a series against itself gives a value if and only if it is not constant, and that value is 1 |
| Stats.FastPearson | crates/fluxrs-core/src/stats/stats.rs:1-30 | the one-pass loop computes the same result as `pearson_correlation` on finite inputs |
| Stats.WeightHuber | crates/fluxrs-core/src/stats/stats.rs:71-78 | the weight is 1 inside the threshold and k/\|r\| outside; the only non-finite case is a 0 residual with a negative threshold |
| Stats.WeightHuberBounds | crates/fluxrs-core/src/stats/stats.rs:71-78 | for a positive threshold the weight lies in (0, 1] and the weighted residual is min(\|r\|, k) |
| Stats.Rmse | crates/fluxrs-core/src/stats/stats.rs:112-120 | a value is returned if and only if the lengths agree and are not 0 |
| Stats.RmseOfPerfectFit | crates/fluxrs-core/src/stats/stats.rs:112-120 | predicting every sample exactly gives 0 |
| Stats.AicFromRss | crates/fluxrs-core/src/stats/stats.rs:122-127 | +infinity if and only if the residual sum is not positive or there are no samples; finite otherwise |
| Stats.AicParameterPenalty | crates/fluxrs-core/src/stats/stats.rs:126 | each extra parameter adds exactly 2 |
| Stats.R2FromPredictions | crates/fluxrs-core/src/stats/stats.rs:129-144 | a value is returned if and only if the lengths agree, there are at least 2 points and y is not constant |
| Stats.R2AtMostOne | crates/fluxrs-core/src/stats/stats.rs:136-143 | R² is at most 1, and equals 1 if and only if the prediction is exact |
| Stats.AdjustedR2 | crates/fluxrs-core/src/stats/stats.rs:145-150 | with n at most k + 1 the R² is returned unchanged |
| Stats.AdjustedR2AtMostR2 | crates/fluxrs-core/src/stats/stats.rs:145-150 | adjusting never raises an R² of at most 1, and leaves a perfect R² or a model without predictors alone |
| Stats.NumLeTotalPreorder | crates/fluxrs-core/src/stats/stats.rs:102 | once NaN is filtered out, `partial_cmp` orders the samples totally, so the sort cannot panic |
| Stats.NonNaN | crates/fluxrs-core/src/stats/stats.rs:95 | the filter never adds samples |
| Stats.NonNaNMembers | crates/fluxrs-core/src/stats/stats.rs:95 | exactly the samples that are not NaN are kept, and all of them when there is no NaN |
| Stats.Median | crates/fluxrs-core/src/stats/stats.rs:94-110 | NaN when no sample is left after dropping NaN |
| Stats.MedianSplits | crates/fluxrs-core/src/stats/stats.rs:94-110 | at most half of the non-NaN samples lie strictly below the median and at most half strictly above; an odd count gives one of the samples |
| Stats.MedianFinite | crates/fluxrs-core/src/stats/stats.rs:94-110 | finite samples, at least one, give a finite median |
| Stats.MedianOfConstant | crates/fluxrs-core/src/stats/stats.rs:104-109 | the median of equal samples is that sample |
| Stats.AbsDevs | crates/fluxrs-core/src/stats/stats.rs:83-85 | one deviation per residual, each its distance from the centre |
| Stats.MadOf | crates/fluxrs-core/src/stats/stats.rs:80-92 | the median absolute deviation from the median over 0.6745, floored at 1e-12; the in-place `Mad` is proved to compute it |
| Stats.Mad | crates/fluxrs-core/src/stats/stats.rs:80-92 | the in-place loop yields the median absolute deviation over 0.6745, raised to at least 10^-12 |
| Stats.MadAtLeastFloor | crates/fluxrs-core/src/stats/stats.rs:86-91 | a finite scale is never below 10^-12 |
| Stats.MadFinite | crates/fluxrs-core/src/stats/stats.rs:80-92 | finite residuals, at least one, give a finite scale |
| Stats.MadOfNaN | crates/fluxrs-core/src/stats/stats.rs:80-92 | with no residual that is not NaN the scale is NaN, which the clamp lets through |
| Stats.MadOfConstant | crates/fluxrs-core/src/stats/stats.rs:80-92 | residuals that all agree give the floor 10^-12 |
| RobRegs.New | crates/fluxrs-core/src/stats/robreg.rs:22-24 | the default model predicts 0 at every finite x |
| RobRegs.Calculate | crates/fluxrs-core/src/stats/robreg.rs:30-32 | finite coefficients give intercept + slope·x; a NaN coefficient gives NaN |
| RobRegs.Ols | crates/fluxrs-core/src/stats/robreg.rs:172-188 | a fit is returned if and only if there are samples and the spread of x is at least 10^-12 |
| RobRegs.OlsNormalEquations | crates/fluxrs-core/src/stats/robreg.rs:177-187 | the fitted slope times the spread of x is the cross deviation, and the line passes through the means |
| RobRegs.OlsOnLine | crates/fluxrs-core/src/stats/robreg.rs:172-188 | samples on a line give back that line unless x is empty or too nearly constant |
| RobRegs.Points | crates/fluxrs-core/src/stats/robreg.rs:119-127 | one point per sample carrying its x, its y and its absolute residual against the first fit |
| RobRegs.Xs | crates/fluxrs-core/src/stats/robreg.rs:147 | the x values of the kept points, in order |
| RobRegs.Ys | crates/fluxrs-core/src/stats/robreg.rs:148 | the y values of the kept points, in order |
| RobRegs.ResLeTotalPreorder | crates/fluxrs-core/src/stats/robreg.rs:135 | `total_cmp` on finite residuals orders the points totally |
| RobRegs.TrimCount | crates/fluxrs-core/src/stats/robreg.rs:137 | the count is the floor of n·trim_frac, and with trim_frac below 0.5 it leaves points between the two trimmed ends |
| RobRegs.TrimmedOls | crates/fluxrs-core/src/stats/robreg.rs:85-170 | a fit is only returned for equal lengths of at least 3, finite samples and a trim fraction in [0, 0.5) |
| RobRegs.TrimmedNeedsSpread | crates/fluxrs-core/src/stats/robreg.rs:108-113 | a fit implies finite x with spread at least 10^-12 |
| RobRegs.SecondPass | crates/fluxrs-core/src/stats/robreg.rs:137-169 | a second fit needs at least 2 points left after trimming |
| RobRegs.TrimmedKeepsMiddle | crates/fluxrs-core/src/stats/robreg.rs:135-144 | the kept points have residuals no smaller than those trimmed from the bottom and no larger than those trimmed from the top, and sorting permutes the points |
| RobRegs.TrimmedOlsOnLine | crates/fluxrs-core/src/stats/robreg.rs:85-170 | on a line the result is that line exactly unless the spread of all of x, or of the kept middle of x, is below 10^-12 |
| RobRegs.SortedOnLine | crates/fluxrs-core/src/stats/robreg.rs:135 | against the exact line the stable sort leaves the points in input order |
| RobRegs.ZeroResiduals | crates/fluxrs-core/src/stats/robreg.rs:119-127 | against the exact line every absolute residual is 0 |
| RobRegs.PointsSlice | crates/fluxrs-core/src/stats/robreg.rs:144-148 | a run of points carries the same run of x and y |
| RobRegs.SecondPassOnLine | crates/fluxrs-core/src/stats/robreg.rs:137-169 | on a line the second pass fits the middle of x, and fails when trimming leaves nothing |
| RobRegs.Residuals | crates/fluxrs-core/src/stats/robreg.rs:50-52 | one residual per sample, each y minus the current line |
| RobRegs.Weights | crates/fluxrs-core/src/stats/robreg.rs:55 | one Huber weight per residual, of the residual over the scale |
| RobRegs.UnitWeights | crates/fluxrs-core/src/stats/robreg.rs:57-72 | with every weight 1 the weighted sums are the unweighted ones |
| RobRegs.Reweight | crates/fluxrs-core/src/stats/robreg.rs:50-79 | a pass from NaN coefficients stays NaN |
| RobRegs.WeightedFit | crates/fluxrs-core/src/stats/robreg.rs:57-79 | a non-finite weight makes the coefficients NaN |
| RobRegs.WeightedFitUnit | crates/fluxrs-core/src/stats/robreg.rs:57-79 | with unit weights the weighted step is the plain least-squares fit |
| RobRegs.LoopFixed | crates/fluxrs-core/src/stats/robreg.rs:49-80 | coefficients a pass keeps are kept by any number of passes |
| RobRegs.LoopAbsorbed | crates/fluxrs-core/src/stats/robreg.rs:49-80 | once a pass reaches coefficients that the next pass leaves as they are, every further pass ends there too |
| RobRegs.Normalized | crates/fluxrs-core/src/stats/robreg.rs:43-44 | each x is shifted by the first |
| RobRegs.NormalizedFinite | crates/fluxrs-core/src/stats/robreg.rs:43-44 | shifting keeps exactly the finite inputs finite, and shifts their values |
| RobRegs.TrainOf | crates/fluxrs-core/src/stats/robreg.rs:35-83 | a model is only returned for equal lengths of at least 3 and finite samples |
| RobRegs.Train | crates/fluxrs-core/src/stats/robreg.rs:35-83 | the loop returns the model of the trimmed start and the passes |
| RobRegs.Refine | crates/fluxrs-core/src/stats/robreg.rs:49-80 | the loop runs up to max_iter passes and returns early when a pass fails |
| RobRegs.TrainNeedsThreePoints | crates/fluxrs-core/src/stats/robreg.rs:36-38 | unequal lengths or fewer than 3 samples give None (train's own guard allows 2, the trimmed fit then refuses) |
| RobRegs.TrainRejectsNonFinite | crates/fluxrs-core/src/stats/robreg.rs:99-101 | a non-finite sample gives None |
| RobRegs.ReweightOnLine | crates/fluxrs-core/src/stats/robreg.rs:50-79 | on an exact line with a threshold of at least 0 a pass keeps the line, or fails on too little spread |
| RobRegs.ZeroResidualsOnLine | crates/fluxrs-core/src/stats/robreg.rs:50-52 | against the exact line every residual is 0 |
| RobRegs.IterateOnLine | crates/fluxrs-core/src/stats/robreg.rs:49-80 | every pass keeps the exact line |
| RobRegs.IterateNaN | crates/fluxrs-core/src/stats/robreg.rs:49-80 | NaN coefficients stay NaN through every pass |
| RobRegs.TrainOnLine | crates/fluxrs-core/src/stats/robreg.rs:35-83 | samples on y = a + b·x with a successful start give slope b and intercept a + b·x[0], the line in shifted x |
| RobRegs.TrainOnShiftedLine | crates/fluxrs-core/src/stats/robreg.rs:47-82 | a start that already is the exact line of the shifted samples is returned unchanged |
| RobRegs.TrainNeedsStart | crates/fluxrs-core/src/stats/robreg.rs:47 | a failed trimmed start gives None |
| RobRegs.StartOnLine | crates/fluxrs-core/src/stats/robreg.rs:43-47 | for samples on a line the shifted samples lie on the shifted line, and the start is that line |
| RobRegs.TrainOfParts | crates/fluxrs-core/src/stats/robreg.rs:35-83 | train is the trimmed start followed by the passes |
| RobRegs.ReweightOnLineNegative | crates/fluxrs-core/src/stats/robreg.rs:55-79 | with a negative threshold a pass over an exact line gives NaN coefficients, not an error |
| RobRegs.IterateOnLineNegative | crates/fluxrs-core/src/stats/robreg.rs:49-80 | the NaN of the first pass survives all later passes |
| RobRegs.TrainOnLineNegativeThreshold | crates/fluxrs-core/src/stats/robreg.rs:35-83 | with a negative threshold an exact line ends in NaN coefficients |
| CycleTimings.Ordered | crates/fluxrs-core/src/cycle/cycletiming.rs:362-364 | the interval comes back ordered, with the same two ends and length \|end - start\| |
| CycleTimings.ClampRangeAsWritten | crates/fluxrs-core/src/cycle/cycletiming.rs:356-380 | `clamp_range` as written: ordered, a short interval lengthened with its start raised to `min_b` and its end kept, then shifted into `[min_b, max_b]`; the clamp every setter and drag uses |
| CycleTimings.ClampRange | crates/fluxrs-core/src/cycle/cycletiming.rs:365-368 | the corrected clamp: a short interval lengthened to `min_len` before the shift, so `ClampRangeFits` gives length `max(len, min_len)` inside the bounds |
| CycleTimings.ShortRangeAtLowerBoundStaysShort | crates/fluxrs-core/src/cycle/cycletiming.rs:356-380 | as written, (-3, 5) with bounds [0, 100] and minimum length 10 comes back as (0, 7), while the corrected rule gives length 10 |
| CycleTimings.ShortRangeFarBelowLowerBoundReverses | crates/fluxrs-core/src/cycle/cycletiming.rs:356-380 | as written, (-30, -25) with bounds [0, 100] and minimum length 10 comes back as (0, -20), end before start, while the corrected rule gives (0, 10) |
| CycleTimings.ClampRangesAgreeWhenLongEnough | crates/fluxrs-core/src/cycle/cycletiming.rs:356-380 | the written and the corrected clamp agree on every interval of at least the minimum length |
| CycleTimings.ClampRangeAgreesAboveLowerBound | crates/fluxrs-core/src/cycle/cycletiming.rs:356-380 | the written and the corrected clamp agree whenever the ordered interval does not start below the lower bound |
| CycleTimings.ClampRangeAsWrittenFitsAboveLowerBound | crates/fluxrs-core/src/cycle/cycletiming.rs:356-380 | when the minimum length and the interval fit the bounds and the interval does not start below the lower bound, the written clamp puts it inside with length max(length, minimum) |
| CycleTimings.ClampRangeKeepsLength | crates/fluxrs-core/src/cycle/cycletiming.rs:356-380 | under the written clamp an interval of at least the minimum length is only moved, and lands inside bounds it fits in |
| CycleTimings.ClampRangeFits | crates/fluxrs-core/src/cycle/cycletiming.rs:356-380 | when the minimum length and the interval fit the bounds, the result lies inside and is max(length, minimum) long |
| CycleTimings.DragKeepsLength | crates/fluxrs-core/src/cycle/cycletiming.rs:403-411 | under the written clamp a window of at least the minimum length moved by dx keeps its length and lands inside bounds it fits in |
| CycleTimings.ClampRangeLeavesInside | crates/fluxrs-core/src/cycle/cycletiming.rs:356-380 | the written clamp returns an ordered interval that lies inside the bounds and is long enough unchanged |
| CycleTimings.AdjustIntervalToBounds | crates/fluxrs-core/src/cycle/cycletiming.rs:458-539 | a target length at most EPSILON gives the empty interval at the lower bound; otherwise the result lies inside the range with exactly the target length (own length raised to min_range, at most the room) |
| CycleTimings.Widened | crates/fluxrs-core/src/cycle/cycletiming.rs:473-491 | a short window widened about its centre lies inside the range with the target length, or is empty at the lower bound |
| CycleTimings.Kept | crates/fluxrs-core/src/cycle/cycletiming.rs:493-538 | a long window keeps its clamped length and is shifted inside the range, or is empty at the lower bound |
| CycleTimings.AdjustIntervalKeepsFitting | crates/fluxrs-core/src/cycle/cycletiming.rs:458-539 | an interval inside the range and long enough is left alone |
| CycleTimings.AdjustIntervalIdempotent | crates/fluxrs-core/src/cycle/cycletiming.rs:458-539 | adjusting an adjusted interval changes nothing |
| CycleTimings.StuckWindowSpansBounds | crates/fluxrs-core/src/cycle/cycletiming.rs:540-553 | a window inside its bounds cannot move if and only if it spans them exactly and they are at most the minimum length apart |
| CycleTimings.Refit | crates/fluxrs-core/src/cycle/cycletiming.rs:236-246 | a `for key in gases` loop over the gas maps: one step per gas, in list order; `RefitAt` gives each listed gas's entry |
| CycleTimings.RefitAt | crates/fluxrs-core/src/cycle/cycletiming.rs:236-246 | a loop over distinct gases applies the step to each listed gas's entry as it was before, and leaves every other gas alone |
| CycleTimings.StartAllFromBound | crates/fluxrs-core/src/cycle/cycletiming.rs:236-246 | after `set_calc_start_all` each listed gas starts at the value, or at its lower bound when the value is below it, and its deadband and end are unchanged |
| CycleTimings.EndAllAsWrittenPassesOpen | crates/fluxrs-core/src/cycle/cycletiming.rs:257-267 | as written, an end of 50 with the open time at 10 and lower bound 0 is stored as 50, past the open time |
| CycleTimings.EndAllBeforeOpen | crates/fluxrs-core/src/cycle/cycletiming.rs:247-256 | with the corrected rule every listed gas ends at min(value, adjusted open) |
| CycleTimings.DeadbandShiftAll | crates/fluxrs-core/src/cycle/cycletiming.rs:328-342 | every listed gas's deadband moves by x but not below 0, and its window moves by exactly x so keeps its length |
| CycleTimings.StickSpan | crates/fluxrs-core/src/cycle/cycletiming.rs:389-395 | when the window length raised to the minimum fits the bounds, the window starts at the lower bound with that length |
| CycleTimings.StickAllFromBound | crates/fluxrs-core/src/cycle/cycletiming.rs:396-401 | after `stick_calc_to_range_start_for_all` each listed gas whose length fits starts at its lower bound and keeps that length |
| CycleTimings.AdjustSpan | crates/fluxrs-core/src/cycle/cycletiming.rs:435-456 | the gas's window (the whole range when absent) lies inside its bounds with the target length, or is empty at the lower bound |
| CycleTimings.AdjustAllSets | crates/fluxrs-core/src/cycle/cycletiming.rs:435-456 | `adjust_calc_range_all` stores each listed gas's adjusted window |
| CycleTimings.AdjustAllFits | crates/fluxrs-core/src/cycle/cycletiming.rs:435-456 | after `adjust_calc_range_all` each listed gas's window lies inside its bounds with the target length, or is empty at the lower bound |
| CycleTimings.DeadbandAdjustedBounds | crates/fluxrs-core/src/cycle/cycletiming.rs:560-615 | the window ends by the open time and is at least min_range long; it starts inside the bounds when the room suffices; otherwise the deadband shrinks by exactly the shortfall |
| CycleTimings.DeadbandAdjustAll | crates/fluxrs-core/src/cycle/cycletiming.rs:560-615 | the same bounds hold for every listed gas after `adjust_calc_range_all_deadband`, and a deadband that is not shrunk is kept |
| CycleTimings.EndLagIncremented | crates/fluxrs-core/src/cycle/cycletiming.rs:298-306 | the corrected increment either moves the lag by delta or leaves it |
| CycleTimings.EndLagIncrementAsWrittenDoubles | crates/fluxrs-core/src/cycle/cycletiming.rs:298-306 | as written, an increment of 1 moves the lag by 2, and a decrement can leave the adjusted open after the end |
| CycleTimings.EndLagIncrementKeepsOrder | crates/fluxrs-core/src/cycle/cycletiming.rs:298-306 | the corrected increment applies if and only if the end stays at or after the adjusted open (or delta is 0), and keeps that order when it held |
| CycleTimings.CycleTiming.NewFromFields | crates/fluxrs-core/src/cycle/cycletiming.rs:45-87 | the given timing, lags, measurement range, deadbands and minimum length, with no windows and no time axes |
| CycleTimings.CycleTiming.NewFromOffsets | crates/fluxrs-core/src/cycle/cycletiming.rs:88-103 | the given start, offsets and minimum length, every lag and range 0, no maps |
| CycleTimings.CycleTiming.New | crates/fluxrs-core/src/cycle/cycletiming.rs:105-128 | everything 0 and empty, starting seven days before now |
| CycleTimings.CycleTiming.AdjustedClose | crates/fluxrs-core/src/cycle/cycletiming.rs:186-191 | the close time moved by the open and close lags |
| CycleTimings.CycleTiming.AdjustedOpen | crates/fluxrs-core/src/cycle/cycletiming.rs:192-194 | the open time moved by the open lag |
| CycleTimings.CycleTiming.MeasurementStart | crates/fluxrs-core/src/cycle/cycletiming.rs:203-208 | the measurement starts at the adjusted close |
| CycleTimings.CycleTiming.MeasurementEnd | crates/fluxrs-core/src/cycle/cycletiming.rs:219-221 | the measurement ends at the adjusted open |
| CycleTimings.CycleTiming.BoundsFor | crates/fluxrs-core/src/cycle/cycletiming.rs:429-433 | a gas's bounds run from the adjusted close plus its deadband to the adjusted open |
| CycleTimings.CycleTiming.CalcAreaCanMove | crates/fluxrs-core/src/cycle/cycletiming.rs:540-553 | false if and only if the window touches both bounds and is at most the minimum length long |
| CycleTimings.CycleTiming.GetDtV | crates/fluxrs-core/src/cycle/cycletiming.rs:343-348 | the instrument's stored axis, or empty when there is none |
| CycleTimings.CycleTiming.SetDtV | crates/fluxrs-core/src/cycle/cycletiming.rs:210-212 | only the instrument's axis is replaced |
| CycleTimings.CycleTiming.SetDtVAll | crates/fluxrs-core/src/cycle/cycletiming.rs:213-215 | only the instrument axes are replaced |
| CycleTimings.CycleTiming.SetCalcDtV | crates/fluxrs-core/src/cycle/cycletiming.rs:216-218 | only the gas's calculation axis is replaced |
| CycleTimings.CycleTiming.SetMeasurementStart | crates/fluxrs-core/src/cycle/cycletiming.rs:350-352 | only the measurement start changes |
| CycleTimings.CycleTiming.SetMeasurementEnd | crates/fluxrs-core/src/cycle/cycletiming.rs:353-355 | only the measurement end changes |
| CycleTimings.CycleTiming.SetStartLag | crates/fluxrs-core/src/cycle/cycletiming.rs:269-276 | the new lag is kept if and only if the start stays at or before the adjusted close, so that order is preserved |
| CycleTimings.CycleTiming.SetCloseLag | crates/fluxrs-core/src/cycle/cycletiming.rs:278-280 | only the close lag changes |
| CycleTimings.CycleTiming.SetOpenLag | crates/fluxrs-core/src/cycle/cycletiming.rs:282-284 | only the open lag changes |
| CycleTimings.CycleTiming.SetEndLag | crates/fluxrs-core/src/cycle/cycletiming.rs:285-287 | only the end lag changes |
| CycleTimings.CycleTiming.IncrementStartLag | crates/fluxrs-core/src/cycle/cycletiming.rs:289-291 | the start lag grows by delta, nothing else changes |
| CycleTimings.CycleTiming.IncrementCloseLag | crates/fluxrs-core/src/cycle/cycletiming.rs:292-294 | the close lag grows by delta, nothing else changes |
| CycleTimings.CycleTiming.IncrementOpenLag | crates/fluxrs-core/src/cycle/cycletiming.rs:295-297 | the open lag grows by delta, nothing else changes |
| CycleTimings.CycleTiming.IncrementEndLagAsWritten | crates/fluxrs-core/src/cycle/cycletiming.rs:298-306 | the end lag as the written double addition leaves it |
| CycleTimings.CycleTiming.IncrementEndLag | crates/fluxrs-core/src/cycle/cycletiming.rs:298-306 | the corrected single increment, which keeps the end at or after the adjusted open when it was |
| CycleTimings.CycleTiming.SetEndLagS | crates/fluxrs-core/src/cycle/cycletiming.rs:312-318 | the new lag is kept if and only if the end stays at or after the adjusted open, so that order is preserved |
| CycleTimings.CycleTiming.SetEndLagOnly | crates/fluxrs-core/src/cycle/cycletiming.rs:308-310 | behaves as `set_end_lag_s` |
| CycleTimings.CycleTiming.SetCalcStart | crates/fluxrs-core/src/cycle/cycletiming.rs:227-235 | the start is stored raised to the gas's lower bound; a value at or above the bound is stored as it is |
| CycleTimings.CycleTiming.SetCalcEnd | crates/fluxrs-core/src/cycle/cycletiming.rs:247-256 | the end is stored lowered to the adjusted open; a value at or below it is stored as it is |
| CycleTimings.CycleTiming.SetDeadband | crates/fluxrs-core/src/cycle/cycletiming.rs:319-326 | the deadband is stored as max(deadband, 0) |
| CycleTimings.CycleTiming.SetCalcLengthStickyStart | crates/fluxrs-core/src/cycle/cycletiming.rs:382-387 | the gas's window becomes the written clamp of the new length from the lower bound; exactly that window when the length is at least the minimum and fits, and inside with length max(new length, minimum) whenever both fit |
| CycleTimings.CycleTiming.StickCalcToRangeStart | crates/fluxrs-core/src/cycle/cycletiming.rs:389-395 | the gas's window is moved to start at its lower bound |
| CycleTimings.CycleTiming.DragMain | crates/fluxrs-core/src/cycle/cycletiming.rs:403-411 | the window becomes the written clamp of the window moved by dx; a window of at least the minimum length that fits keeps its length and ends inside |
| CycleTimings.CycleTiming.DragLeftTo | crates/fluxrs-core/src/cycle/cycletiming.rs:413-419 | the window becomes the written clamp of the new start to the old end; one of at least the minimum length that fits lies inside with its length, and one that fits with the minimum and does not start below the lower bound lies inside with length max(len, minimum) |
| CycleTimings.CycleTiming.DragRightTo | crates/fluxrs-core/src/cycle/cycletiming.rs:421-427 | the window becomes the written clamp of the old start to the new end; one of at least the minimum length that fits lies inside with its length, and one that fits with the minimum and does not start below the lower bound lies inside with length max(len, minimum) |
| CycleTimings.CycleTiming.RaiseCalcEnd | crates/fluxrs-core/src/cycle/cycletiming.rs:258-266 | one pass of `set_calc_end_all` as written |
| CycleTimings.CycleTiming.ShiftDeadband | crates/fluxrs-core/src/cycle/cycletiming.rs:329-341 | one pass of `set_deadband_constant_calc` |
| CycleTimings.CycleTiming.AdjustCalcRange | crates/fluxrs-core/src/cycle/cycletiming.rs:436-455 | one pass of `adjust_calc_range_all` |
| CycleTimings.CycleTiming.SetCalcStartAll | crates/fluxrs-core/src/cycle/cycletiming.rs:236-246 | the loop gives the maps of running the start rule over the gases, whose effect `StartAllFromBound` states |
| CycleTimings.CycleTiming.SetCalcEndAllAsWritten | crates/fluxrs-core/src/cycle/cycletiming.rs:257-267 | the loop gives the maps of the as-written end rule over the gases |
| CycleTimings.CycleTiming.SetCalcEndAll | crates/fluxrs-core/src/cycle/cycletiming.rs:257-267 | the loop gives the maps of the corrected end rule, whose effect `EndAllBeforeOpen` states |
| CycleTimings.CycleTiming.SetDeadbandConstantCalc | crates/fluxrs-core/src/cycle/cycletiming.rs:328-342 | the loop gives the maps of the deadband shift over the gases, whose effect `DeadbandShiftAll` states |
| CycleTimings.CycleTiming.StickCalcToRangeStartForAll | crates/fluxrs-core/src/cycle/cycletiming.rs:396-401 | the loop gives the maps of sticking every gas, whose effect `StickAllFromBound` states |
| CycleTimings.CycleTiming.AdjustCalcRangeAll | crates/fluxrs-core/src/cycle/cycletiming.rs:435-456 | the loop gives the maps of adjusting every gas, whose effect `AdjustAllFits` states |
| CycleTimings.CycleTiming.AdjustCalcRangeDeadband | crates/fluxrs-core/src/cycle/cycletiming.rs:563-613 | one pass of `adjust_calc_range_all_deadband` |
| CycleTimings.CycleTiming.AdjustCalcRangeAllDeadband | crates/fluxrs-core/src/cycle/cycletiming.rs:560-615 | the loop gives the maps of the deadband adjustment over the gases, whose effect `DeadbandAdjustAll` states |
| Peaks.LastMaxIn | crates/fluxrs-core/src/cycle/cycle.rs:638-640 | the fold returns an index inside the searched range |
| Peaks.NotGtTransitive | crates/fluxrs-core/src/cycle/cycle.rs:638-640 | without NaN, "not greater" under `partial_cmp(..).unwrap_or(Equal)` is transitive |
| Peaks.LastMaxIsLastMaximum | crates/fluxrs-core/src/cycle/cycle.rs:638-640 | without NaN the fold returns a maximum of the range, and the last one: every later sample is smaller |
| Peaks.NaNHidesPeak | crates/fluxrs-core/src/cycle/cycle.rs:638-640 | a NaN between 5 and 3 makes the fold end on 3, not on the peak |
| Peaks.AsI64 | crates/fluxrs-core/src/cycle/cycle.rs:630 | `dt as i64` saturates at the i64 range and otherwise truncates toward zero |
| Peaks.DistanceKeys | crates/fluxrs-core/src/cycle/cycle.rs:630 | one key per time, each the absolute distance of the truncated time from the target |
| Peaks.FirstMinIn | crates/fluxrs-core/src/cycle/cycle.rs:627-631 | the fold returns an index among the keys searched |
| Peaks.FirstMinIsFirstMinimum | crates/fluxrs-core/src/cycle/cycle.rs:627-631 | `min_by_key` returns a smallest key, and the first one |
| Peaks.PeakRange | crates/fluxrs-core/src/cycle/cycle.rs:634-635 | the range runs from five below the nearest index (saturating at 0) to five above it, cut at the last gas sample |
| Peaks.PeakNearIndex | crates/fluxrs-core/src/cycle/cycle.rs:610-652 | an index is only returned for at least 120 gas samples and a non-empty time axis, and it indexes the gas series |
| Peaks.PeakNearIndexIsLocalMaximum | crates/fluxrs-core/src/cycle/cycle.rs:610-652 | the search starts from a nearest time, picks an index within five of it that is a maximum of the range without NaN, and finds none if and only if the nearest index lies more than five past the gas series |
| Peaks.OpenLagPeakIndex | crates/fluxrs-core/src/cycle/cycle.rs:654-669 | an index is returned if and only if there are at least 120 samples, and it lies in the last quarter |
| Peaks.LastMaxLastQuarter | crates/fluxrs-core/src/cycle/cycle.rs:663-668 | with at least 120 samples the fold over the last quarter returns an index in it |
| Peaks.OpenLagPeakIsLastMaximum | crates/fluxrs-core/src/cycle/cycle.rs:654-669 | without NaN in the last quarter the chosen sample is its last maximum |
| BestFlux.AllKindsComplete | crates/fluxrs-core/src/flux/fluxkind.rs:37-40 | `FluxKind::all` lists every kind |
| BestFlux.AicCandidates | crates/fluxrs-core/src/cycle/cycle.rs:1451-1454 | there are no candidates if and only if no listed kind has a fitted model with an AIC |
| BestFlux.FirstMinAic | crates/fluxrs-core/src/cycle/cycle.rs:1455 | the fold returns an index among the candidates searched |
| BestFlux.FirstMinAicIsFirstMinimum | crates/fluxrs-core/src/cycle/cycle.rs:1455 | without NaN the fold returns a smallest AIC, and the first one |
| BestFlux.BestFluxByAic | crates/fluxrs-core/src/cycle/cycle.rs:1448-1457 | the flux of the first model of least AIC, None when no model has an AIC, the unwrap's panic as an error when that model has no flux; `BestFluxByAicIsMinimum` states it |
| BestFlux.BestFluxByAicIsMinimum | crates/fluxrs-core/src/cycle/cycle.rs:1448-1457 | None if and only if no model of the gas has an AIC; otherwise, without NaN, the flux of the first model with the least AIC, or the unwrap panic when it has no flux |
| BestFlux.BestFluxByAicExample | crates/fluxrs-core/src/cycle/cycle.rs:3357-3373 | AICs 100, 80 and 90 with fluxes 10, 20 and 15 give 20 |
| WindowSearch.Stepped | crates/fluxrs-core/src/cycle/cycle.rs:2847-2848 | every value of a stepped range lies between its ends |
| WindowSearch.SteppedMember | crates/fluxrs-core/src/cycle/cycle.rs:2847-2851 | a value is in the stepped range if and only if it lies between the ends a whole number of steps above the start |
| WindowSearch.EnumeratedArithmetic | crates/fluxrs-core/src/cycle/cycle.rs:2847-2852 | a window is generated if and only if its size runs from min_window a whole number of steps up to the series length and its start is a multiple of the step with the window inside the series |
| WindowSearch.StartsOf | crates/fluxrs-core/src/cycle/cycle.rs:2851 | the pairs of one window size are exactly that size with each start |
| WindowSearch.WindowsOf | crates/fluxrs-core/src/cycle/cycle.rs:2849-2852 | the pairs are exactly the listed sizes with the stepped starts up to `max_len - win_size` |
| WindowSearch.Windows | crates/fluxrs-core/src/cycle/cycle.rs:2847-2852 | every generated window lies inside the series |
| WindowSearch.WindowsExactly | crates/fluxrs-core/src/cycle/cycle.rs:2847-2852 | a pair is generated if and only if it is an enumerated window |
| WindowSearch.BestScoreIn | crates/fluxrs-core/src/cycle/cycle.rs:2869 | the reduction returns an index among the candidates |
| WindowSearch.BestScoreIsMaximum | crates/fluxrs-core/src/cycle/cycle.rs:2869 | the reduction returns a candidate with the highest score |
| WindowSearch.ScoredMember | crates/fluxrs-core/src/cycle/cycle.rs:2854-2868 | every candidate is a generated, gap-free window with its correlation |
| WindowSearch.ScoredKeeps | crates/fluxrs-core/src/cycle/cycle.rs:2854-2868 | every generated gap-free window is a candidate with its correlation |
| WindowSearch.ScoredExactly | crates/fluxrs-core/src/cycle/cycle.rs:2838-2868 | the candidates are exactly the generated gap-free windows with their correlations |
| WindowSearch.BestWindowNoneIff | crates/fluxrs-core/src/cycle/cycle.rs:2838-2870 | None if and only if every generated window has a gap |
| WindowSearch.CandidateValid | crates/fluxrs-core/src/cycle/cycle.rs:2838-2868 | a candidate is a generated gap-free window at least min_window long inside the series, with its correlation |
| WindowSearch.BestWindowIsCandidate | crates/fluxrs-core/src/cycle/cycle.rs:2838-2870 | the window found is generated, at least min_window long, inside the series and gap-free, and the correlation reported is its own |
| WindowSearch.FindBestWindowForGasPar | crates/fluxrs-core/src/cycle/cycle.rs:2838-2870 | `(start, end, r)` of a stepped gap-free window of maximal `r`, None when none is gap-free; `BestWindowIsBest`, `BestWindowNoneIff` and `CandidateValid` state it |
| WindowSearch.BestWindowIsBest | crates/fluxrs-core/src/cycle/cycle.rs:2838-2870 | no generated gap-free window correlates better than the one found |
| Validities.Cleared | crates/fluxrs-core/src/cycle/cycle.rs:931-932 | the code's bit is cleared and no bit is added |
| Validities.ClearedOthers | crates/fluxrs-core/src/cycle/cycle.rs:931-932 | clearing one code keeps every other code as it was |
| Validities.WithError | crates/fluxrs-core/src/cycle/cycle.rs:925-930 | the code is set, no code is lost, the cycle is invalid, and the override fields are untouched |
| Validities.WithoutError | crates/fluxrs-core/src/cycle/cycle.rs:931-936 | the code is cleared, no other is touched, the cycle becomes valid when no code is left and keeps its validity otherwise |
| Validities.ToggledValidity | crates/fluxrs-core/src/cycle/cycle.rs:571-607 | an existing override is cleared, otherwise set to the opposite of validity; ManualInvalid follows a false override; a true override clears every code; other codes are kept; the adjusted flag is set exactly when something changed |
| Validities.ToggleMarksAdjusted | crates/fluxrs-core/src/cycle/cycle.rs:571-607 | every toggle marks the cycle as manually adjusted |
| Validities.ToggleTwiceRestoresValid | crates/fluxrs-core/src/cycle/cycle.rs:571-607 | toggling a valid cycle without ManualInvalid twice restores it |
| Validities.ToggleTwiceValidatesInvalid | crates/fluxrs-core/src/cycle/cycle.rs:571-607 | toggling an invalid cycle twice ends valid with no codes, because the true override in between cleared them |
| Cycles.Relaid | crates/fluxrs-core/src/cycle/cycle.rs:474-483 | `adjust_calc_range_all` then `stick_calc_to_range_start_for_all` over the cycle's gases, the window update every lag change makes |
| Cycles.RelaidStartsAtBound | crates/fluxrs-core/src/cycle/cycle.rs:474-483 | after a lag change each gas whose adjusted window, raised to the minimum length, fits its bounds starts at its lower bound with that length |
| Cycles.InWindow | crates/fluxrs-core/src/cycle/cycle.rs:1149-1155 | the indices kept are among those scanned |
| Cycles.InWindowExactly | crates/fluxrs-core/src/cycle/cycle.rs:1149-1155 | the kept indices increase strictly and are exactly those whose time lies in [adjusted close, adjusted open) |
| Cycles.TimesAt | crates/fluxrs-core/src/cycle/cycle.rs:1151 | one time per kept index, in order |
| Cycles.SamplesAt | crates/fluxrs-core/src/cycle/cycle.rs:1152-1153 | one value per kept index, NaN where the sample is missing |
| Cycles.OpenLagPeak | crates/fluxrs-core/src/cycle/cycle.rs:654-681 | a time is only found for a gas with at least 120 samples, and it is the time axis at the last-quarter peak |
| Cycles.PeakNear | crates/fluxrs-core/src/cycle/cycle.rs:610-652 | a time is only found when the near-peak index exists, and it is the time axis at that index |
| Cycles.Cycle.constructor | crates/fluxrs-core/src/cycle/cycle.rs:922-936 | a new cycle is valid, with no codes and no override, over the given data |
| Cycles.Cycle.HasError | crates/fluxrs-core/src/cycle/cycle.rs:922-924 | true if and only if the code is among the mask's codes |
| Cycles.Cycle.AddError | crates/fluxrs-core/src/cycle/cycle.rs:925-930 | the validity state afterwards is `WithError` of the one before |
| Cycles.Cycle.RemoveError | crates/fluxrs-core/src/cycle/cycle.rs:931-936 | the validity state afterwards is `WithoutError` of the one before |
| Cycles.Cycle.ToggleManualValid | crates/fluxrs-core/src/cycle/cycle.rs:571-607 | the validity state afterwards is `ToggledValidity` of the one before |
| Cycles.Cycle.GetMeasurementData | crates/fluxrs-core/src/cycle/cycle.rs:1135-1158 | nothing for a gas without samples; otherwise the times in [adjusted close, adjusted open) in order, with the gas's value at each |
| Cycles.Cycle.SetOpenLag | crates/fluxrs-core/src/cycle/cycle.rs:474-483 | the open lag is set and every gas's window is adjusted to the new bounds and moved to its lower bound |
| Cycles.Cycle.IncrementOpenLag | crates/fluxrs-core/src/cycle/cycle.rs:485-498 | applied, with the windows relaid, if and only if the adjusted open stays by the end and the adjusted close at or after the start; otherwise nothing changes |
| Cycles.Cycle.IncrementCloseLag | crates/fluxrs-core/src/cycle/cycle.rs:500-512 | applied, with the windows relaid, if and only if the adjusted close stays at or after the start; otherwise nothing changes |
| Cycles.Cycle.IncrementStartLag | crates/fluxrs-core/src/cycle/cycle.rs:387-389 | only the start lag grows by delta |
| Cycles.Cycle.IncrementEndLag | crates/fluxrs-core/src/cycle/cycle.rs:394-396 | the timing's end-lag increment as written: the end lag grows by delta, or by twice delta when the end stays at or after the adjusted open; nothing else changes |
| Cycles.Cycle.SearchOpenLag | crates/fluxrs-core/src/cycle/cycle.rs:654-681 | the found peak's time becomes the adjusted open time and the windows are relaid; with no peak nothing changes |
| Cycles.Cycle.GetPeakNearTimestamp | crates/fluxrs-core/src/cycle/cycle.rs:610-652 | the peak's time near the target becomes the adjusted open time and the windows are relaid; with no peak nothing changes |
| Navigator.IsValid | crates/fluxrs-core/src/cycle_navigator.rs:218-220 | valid by the thresholds with an empty error mask; a failed measurement, whose mask is not empty, is never valid |
| Navigator.TraceShown | crates/fluxrs-core/src/cycle_navigator.rs:222 | a chamber missing from the map is shown; otherwise its entry decides |
| Navigator.IsCycleVisible | crates/fluxrs-core/src/cycle_navigator.rs:190-227 | a visible cycle's chamber is shown, and with neither valid nor invalid cycles shown no cycle is visible |
| Navigator.VisibilityFlags | crates/fluxrs-core/src/cycle_navigator.rs:190-227 | a visible cycle's chamber is shown, a valid one needs show_valids, an invalid one show_invalids and a failed one show_bad; with every flag set exactly the shown chambers' cycles are visible |
| Navigator.FailedNeedsInvalidsAndBad | crates/fluxrs-core/src/cycle_navigator.rs:218-226 | a failed measurement is visible if and only if its chamber is shown and both invalid and bad cycles are shown |
| Navigator.NothingWithoutValidsOrInvalids | crates/fluxrs-core/src/cycle_navigator.rs:224-226 | with neither valid nor invalid cycles shown nothing is visible |
| Navigator.VisibleBelow | crates/fluxrs-core/src/cycle_navigator.rs:240-257 | the indices below n kept by the filter increase strictly and are exactly the visible cycles' |
| Navigator.ComputeVisibleIndexes | crates/fluxrs-core/src/cycle_navigator.rs:229-258 | the indices increase strictly, lie inside the list and are exactly those of the visible cycles |
| Navigator.Forward | crates/fluxrs-core/src/cycle_navigator.rs:102-109 | the position after `step_forward`, `(pos + 1) mod len`, unchanged on an empty list |
| Navigator.Back | crates/fluxrs-core/src/cycle_navigator.rs:112-119 | the position after `step_back`, `(pos + len - 1) mod len`, unchanged on an empty list; `BackUndoesForward` relates the two |
| Navigator.StepsWrap | crates/fluxrs-core/src/cycle_navigator.rs:102-119 | inside a non-empty list a step forward goes to the next position and wraps from the last to the first; a step back goes to the previous one and wraps from the first to the last |
| Navigator.BackUndoesForward | crates/fluxrs-core/src/cycle_navigator.rs:102-119 | a step back undoes a step forward and the other way round |
| Navigator.LowerBound | crates/fluxrs-core/src/cycle_navigator.rs:157 | the insertion point lies within the list |
| Navigator.LowerBoundSplits | crates/fluxrs-core/src/cycle_navigator.rs:157 | on sorted keys, everything before the insertion point is below the target and everything from it on is not |
| Navigator.ClosestPosition | crates/fluxrs-core/src/cycle_navigator.rs:150-187 | a position found lies inside the list |
| Navigator.ClosestIsNearest | crates/fluxrs-core/src/cycle_navigator.rs:150-187 | None if and only if nothing is visible; otherwise a position nearest in time, the earliest among equally near, and the exact match when there is one |
| Navigator.ClosestFindsExact | crates/fluxrs-core/src/cycle_navigator.rs:159-160 | on strictly increasing start times an exact match is found at its own position |
| Navigator.StartTimes | crates/fluxrs-core/src/cycle_navigator.rs:157 | one start time per visible index, in list order |
| Navigator.FirstPosition | crates/fluxrs-core/src/cycle_navigator.rs:123 | None if and only if the index is not visible; otherwise its first position |
| Navigator.Index.constructor | crates/fluxrs-core/src/cycle_navigator.rs:10-11 | a new index is 0 |
| Navigator.Index.Set | crates/fluxrs-core/src/cycle_navigator.rs:18-20 | the value becomes the one given |
| Navigator.Index.Increment | crates/fluxrs-core/src/cycle_navigator.rs:22-24 | the value grows by one |
| Navigator.Index.Decrement | crates/fluxrs-core/src/cycle_navigator.rs:26-28 | the value drops by one, saturating at 0 |
| Navigator.Index.Reset | crates/fluxrs-core/src/cycle_navigator.rs:30-32 | the value becomes 0 |
| Navigator.CycleNavigator.constructor | crates/fluxrs-core/src/cycle_navigator.rs:47-49 | no visible cycles and position 0 |
| Navigator.CycleNavigator.CurrentIndex | crates/fluxrs-core/src/cycle_navigator.rs:97-99 | a cycle index is returned if and only if the position is inside the list, and it is the one held there |
| Navigator.CycleNavigator.VisibleCount | crates/fluxrs-core/src/cycle_navigator.rs:129-131 | the number of visible cycles |
| Navigator.CycleNavigator.CurrentCycle | crates/fluxrs-core/src/cycle_navigator.rs:134-136 | the current cycle exactly when the current index lies inside the cycles |
| Navigator.CycleNavigator.StepForward | crates/fluxrs-core/src/cycle_navigator.rs:102-109 | the position moves forward cyclically and stays inside a non-empty list; an empty list changes nothing |
| Navigator.CycleNavigator.StepBack | crates/fluxrs-core/src/cycle_navigator.rs:112-119 | the position moves back cyclically and stays inside a non-empty list; an empty list changes nothing |
| Navigator.CycleNavigator.JumpToVisibleIndex | crates/fluxrs-core/src/cycle_navigator.rs:122-126 | a visible index becomes the current one, through its first position; otherwise nothing changes |
| Navigator.CycleNavigator.FindClosestVisibleCycle | crates/fluxrs-core/src/cycle_navigator.rs:150-187 | None if and only if nothing is visible; otherwise a position inside the list |
| Navigator.CycleNavigator.RecomputeVisibleIndexes | crates/fluxrs-core/src/cycle_navigator.rs:52-94 | the list is rebuilt from the filters; the position moves to the visible cycle nearest the previous current one, or to 0, and a non-empty list then has a current cycle |
| Navigator.RecomputeKeepsVisibleCurrent | crates/fluxrs-core/src/cycle_navigator.rs:52-94 | when start times increase and the current cycle stays visible, recomputing keeps it current |
| CycleFilters.VisibleNames | crates/fluxrs-gui/src/ui/validation_app/toggle_traces.rs:76-78 | exactly the chambers whose entry is true |
| CycleFilters.VisibleCount | crates/fluxrs-gui/src/ui/validation_app/toggle_traces.rs:76-78 | the number of chambers marked visible, 0 exactly when no entry is true |
| CycleFilters.ToggledTraces | crates/fluxrs-gui/src/ui/validation_app/toggle_traces.rs:91-101 | the map after `toggle_visibility`: unchanged when the target is the only visible trace, else the target flipped with absent meaning visible |
| CycleFilters.ToggleFlips | crates/fluxrs-gui/src/ui/validation_app/toggle_traces.rs:91-101 | the chamber's visibility is flipped (an absent chamber counting as visible) and every other chamber keeps its own, except that the last visible trace is left as it is |
| CycleFilters.ToggleKeepsOneVisible | crates/fluxrs-gui/src/ui/validation_app/toggle_traces.rs:91-101 | with at least one visible trace, a toggle leaves at least one |
| CycleFilters.ToggleExamples | crates/fluxrs-gui/src/ui/validation_app/toggle_traces.rs:222-260 | one of two visible traces is hidden, the only visible trace stays, and an unknown chamber is added as hidden |
| CycleFilters.StrLeTotal | crates/fluxrs-gui/src/ui/validation_app/toggle_traces.rs:71 | any two names are ordered one way or the other by `cmp` |
| CycleFilters.StrLeTransitive | crates/fluxrs-gui/src/ui/validation_app/toggle_traces.rs:71 | the string order is transitive |
| CycleFilters.NotLtIsLe | crates/fluxrs-gui/src/ui/validation_app/toggle_traces.rs:68 | on values that are not NaN, "not Greater" is `<=` |
| CycleFilters.TraceLePreorder | crates/fluxrs-gui/src/ui/validation_app/toggle_traces.rs:64-73 | without NaN the comparator is a total preorder, so the sort orders the names |
| CycleFilters.SortedTraces | crates/fluxrs-gui/src/ui/validation_app/toggle_traces.rs:61-75 | the listing is a permutation of the names in the order the set yields them |
| CycleFilters.SortedTracesOrder | crates/fluxrs-gui/src/ui/validation_app/toggle_traces.rs:61-75 | the listing holds exactly the given names, each once when they come without repeats, the numeric names first in increasing value, then the others in string order |
| CycleFilters.CycleFilter.constructor | crates/fluxrs-gui/src/ui/validation_app/toggle_traces.rs:17-25 | no chamber hidden, no chambers known, valid and invalid cycles shown and failed ones not |
| CycleFilters.CycleFilter.HideAllTraces | crates/fluxrs-gui/src/ui/validation_app/toggle_traces.rs:32-36 | every chamber in the map is hidden, none is added or removed, so none is visible |
| CycleFilters.CycleFilter.SetTraceVisible | crates/fluxrs-gui/src/ui/validation_app/toggle_traces.rs:37-39 | the chamber's visibility becomes the one given and every other chamber keeps its own |
| CycleFilters.CycleFilter.GetVisibleTrace | crates/fluxrs-gui/src/ui/validation_app/toggle_traces.rs:40-42 | true for a chamber not in the map, otherwise its entry |
| CycleFilters.CycleFilter.SetAllTraces | crates/fluxrs-gui/src/ui/validation_app/toggle_traces.rs:46-48 | only the set of chambers is replaced |
| CycleFilters.CycleFilter.SetVisibleTraces | crates/fluxrs-gui/src/ui/validation_app/toggle_traces.rs:49-51 | only the visibility map is replaced |
| CycleFilters.CycleFilter.ToggleVisibility | crates/fluxrs-gui/src/ui/validation_app/toggle_traces.rs:91-101 | the map becomes `ToggledTraces` of the old one, and a filter with a visible trace keeps one |
| CycleFilters.CycleFilter.GetSortedTraces | crates/fluxrs-gui/src/ui/validation_app/toggle_traces.rs:61-75 | given the set's names in its iteration order (no repeats), the listing holds exactly the known chambers, each once, as many as there are chambers |
| CycleFilters.CycleFilter.IsCycleVisible | crates/fluxrs-gui/src/ui/validation_app/toggle_traces.rs:102-130 | the same verdict as the navigator's `is_cycle_visible` over the filter's own map and flags |
| CycleFilters.DigitsValue | crates/fluxrs-gui/src/ui/validation_app/toggle_traces.rs:65-66 | a name of digits reads as a finite value of at least 0 |
| CycleFilters.SortedTracesExampleComparisons | crates/fluxrs-gui/src/ui/validation_app/toggle_traces.rs:195-220 | how the comparator orders the test's names |
| CycleFilters.SortedTracesExampleReadings | crates/fluxrs-gui/src/ui/validation_app/toggle_traces.rs:195-220 | how the test's names read as numbers |
| CycleFilters.SortedTracesExampleInserts | crates/fluxrs-gui/src/ui/validation_app/toggle_traces.rs:195-220 | the insertions the sort makes on the test's names |
| CycleFilters.SortedTracesExample | crates/fluxrs-gui/src/ui/validation_app/toggle_traces.rs:195-220 | "10", "2", "1", "foo", "bar" sort to "1", "2", "10", "bar", "foo" |
| PlottingUi.ToRound | crates/fluxrs-gui/src/ui/plotting_ui.rs:2282-2288 | ceil above zero, floor otherwise; `ToRoundAwayFromZero` states the rounding |
| PlottingUi.ToRoundAwayFromZero | crates/fluxrs-gui/src/ui/plotting_ui.rs:2282-2288 | the result is a whole number at most one away on the side away from zero, never smaller in size, and a whole number is kept |
| PlottingUi.ClampTranslate | crates/fluxrs-gui/src/ui/plotting_ui.rs:2290-2302 | the window shifted right to `min_b`, then left to `max_b`; `ClampTranslateKeepsLength` states the result |
| PlottingUi.ClampTranslateKeepsLength | crates/fluxrs-gui/src/ui/plotting_ui.rs:2290-2302 | the length is kept, a window no longer than the bounds ends inside them, and one already inside is not moved |
| PlottingUi.ClampResizeLeft | crates/fluxrs-gui/src/ui/plotting_ui.rs:2305-2311 | the new start raised to `min_b`, then lowered to `end - min_len`; `ClampResizeLeftBounds` states the result |
| PlottingUi.ClampResizeLeftBounds | crates/fluxrs-gui/src/ui/plotting_ui.rs:2305-2311 | the end is kept and at least min_len follows the start; the start stays at or above min_b when the bounds leave room, and a fitting new start is taken as it is |
| PlottingUi.ClampResizeRight | crates/fluxrs-gui/src/ui/plotting_ui.rs:2314-2323 | the new end lowered to `max_b`, then raised to `start + min_len`; `ClampResizeRightBounds` states the result |
| PlottingUi.ClampResizeRightBounds | crates/fluxrs-gui/src/ui/plotting_ui.rs:2314-2323 | the start is kept and the window is at least min_len long; the end stays at or below max_b when the bounds leave room, and a fitting new end is taken as it is |
| PlottingUi.DraggerWidth | crates/fluxrs-gui/src/ui/plotting_ui.rs:1611-1613 | the width is 30 % of the window or 40, whichever is smaller, and not negative for a window that is not reversed |
| PlottingUi.ValidationApp.constructor | crates/fluxrs-gui/src/ui/plotting_ui.rs:1947-1959 | the view starts with the given trace map |
| PlottingUi.ValidationApp.ToggleVisibility | crates/fluxrs-gui/src/ui/plotting_ui.rs:1947-1959 | the map becomes `ToggledTraces` of the old one, the same rule as the review filter's, and a view with a visible trace keeps one |

## Left out

- Rendering, egui event handling, the key-binding editor, SQLite persistence, the CLI and configuration, and the CSV, time-zone and file readers are not part of this model. They drive the engine rather than compute with it.
- Concurrency: the rayon `par_bridge` window search is a sequential scan. The order of rayon's reduce is unspecified, so `WindowSearch.FindBestWindowForGasPar` promises only a maximal `r`, and the window it picks among equal maxima is the sequential scan's.
- Floating point: f64 is `real`. NaN and the infinities are explicit tags only where the code makes or tests them (Pearson, median, AIC, `get_measurement_data`, and the fits' guards on sigma and the standard error, where a non-finite value comes only from the `Libm` operations). Rounding error is not modelled.
- LinFlux.Fit, LinFlux.FromData, PolyFlux.FromData: the samples are finite reals. The code turns a sample missing from the measurement window into NaN (`crates/fluxrs-core/src/cycle/cycle.rs:1152`). In the linear fit a NaN sample makes the residual sum and sigma NaN, so the fit fails with `NonFiniteSigma` (`crates/fluxrs-core/src/flux/linflux.rs:151-154`). In the quadratic fit the matrix depends only on the times, so a NaN sample gives NaN coefficients and then the same `NonFiniteSigma`. That path is not modelled.
- ExpFlux.FromData: the samples are finite reals. A NaN sample fails the positivity test `v > 0.0`, so the code rejects it with `NonPositiveY` (`crates/fluxrs-core/src/flux/expflux.rs:126-128`) before any fit or sigma is computed. The model cannot represent a NaN sample, so this path is not modelled. On finite samples the same guard is `ExpFlux.FromData`'s `NonPositiveY` case.
- ExpFlux.FromData, ExpFlux.Fit, ExpFlux.RefitFlux, ExpFlux.ExponentialFluxCell.FluxFromVec, Flux.FluxUmol: require the air temperature and pressure to hold values. The code unwraps them (`crates/fluxrs-core/src/flux/flux.rs:154-155`) and panics on `None`, which is what a new cycle holds (`MeteoPoint::default()`, `crates/fluxrs-core/src/data_formats/meteodata.rs:132-135`, used at `crates/fluxrs-core/src/cycle/cycle.rs:1650-1651`). The panic is not modelled.
- Navigator.ClosestPosition: among visible cycles with the same start time it returns the first. `binary_search_by_key` (`crates/fluxrs-core/src/cycle_navigator.rs:155-157`) may return any of them, so the model fixes a choice the code leaves open.
- `sqrt`, `ln`, `exp`, the Student-t CDF and nalgebra's LU solve in `PolyReg::train` are fields of a `Libm` parameter (`floats.dfy`). Their numerical behaviour is not modelled.
- Wall-clock time (`Utc::now`) and the time-zone conversion of the Oulanka reader are parameters. `TimeDatas.OulankaTimes` takes the row's UTC time as given.
- The lag setters of `Cycle` (`set_open_lag`, `increment_open_lag`, `increment_close_lag`, `search_open_lag`, `get_peak_near_timestamp`) also call `check_errors`, `calculate_measurement_rs`, `calculate_concentration_at_t0`, `compute_all_fluxes` and `reload_gas_data`. Those recomputations are not modelled, so the model's samples, gases and fitted models are `const` fields that these methods do not change.
- `is_valid_by_threshold`, `check_main_r`, `check_missing`, `check_errors` and `calculate_concentration_at_t0` are not modelled. The threshold validity of a cycle is an input of the visibility test (`Navigator.CycleView`).
- `ErrorCode::FailedMeasurement`, which the navigator and the filter test, is not defined in `src/errorcode.rs`. The copy that defines it (crates/fluxrs-core/src/errorcode.rs) is not part of this model, so "has a failed measurement" is a boolean input of the visibility test.
- The iteration order of a `HashSet` or `HashMap` is a parameter where the result depends on it: the order `get_sorted_traces` receives the chamber names in, and the order of the gases that the `*_all` loops visit.
- Parsing a chamber name as f64 (`parse::<f64>()`) is the parameter `num` of `get_sorted_traces`.
- CycleFilters.SortedTracesOrder: the numeric-then-lexicographic order is proved only when no name reads as NaN. `partial_cmp` on a NaN makes the comparator's answer `Equal`, which the stable sort accepts without a total order.
- CycleFilters.CycleFilter.GetSortedTraces: states that the listing holds exactly the known chambers, each once, given the set's names without repeats. The order of that listing is `CycleFilters.SortedTracesOrder`'s.
- The closures `update_current_cycle` and `current_cycle_mut` of the navigator hand out a mutable cycle to the GUI. They are not modelled.
- `Index::increment` does not model `usize` overflow. The `i64` arithmetic of the peak searches and the `abs` of `find_closest_visible_cycle` do not model overflow either. Times are unbounded integers.
- The window search takes the times and concentrations as finite reals. The score of a window holding a NaN sample is not modelled.
- Meteo.GetNearest, Heights.GetNearestPreviousHeight: `MeteoData::get_nearest` and `HeightData::get_nearest_previous_height` take columns of equal length, or at least as long as the one that sets the row count, as their readers build them. The code would panic on a shorter column.
- TimeDatas.Chunk: `TimeData::chunk` takes all nine columns at least as long as `start_time`, as `query_cycles` builds them (`crates/fluxrs-core/src/data_formats/timedata.rs:480-527`), and `query_cycles`' result is what `chunk` is called on. The two file readers leave `id` empty (`crates/fluxrs-core/src/data_formats/timedata.rs:244`, `:379`), so `chunk` would panic on their output; that panic is not modelled.
- `get_dragger_width` gets the current cycle's calculation range as a number (`PlottingUi.DraggerWidth`). The lookup of the current cycle and its `get_calc_range` is the navigator's `CurrentCycle` and the timing's getters.
- The older and duplicate copies of this logic (`src/cycle.rs`, `src/flux.rs`, `src/stats.rs`, `src/data_formats`, the GUI's own navigator and filter copies, and the rest) are not part of this model. The `crates/fluxrs-core` and `crates/fluxrs-gui/src/ui/validation_app` copies are the ones modelled.
- `GasChannelData` and `gaschannel.rs` enter only through the slope's unit factor and `equal_len`. `PolyReg` and `ExpReg` enter only as the `Trainer` parameter and the log-linear fit the exponential model runs.

## Findings

The model's setters, drags and fits use each definition as written, so they behave as the program does. Each corrected definition stands beside it with the intended property proved.

| source | as written | input that shows it | evidently intended | confidence | as-written member | corrected member |
|---|---|---|---|---|---|---|
| crates/fluxrs-core/src/cycle/cycletiming.rs:365-368 | a short interval is lengthened to `min_len` and its start is raised to `min_b` without moving its end, so it comes back shorter than `min_len` | bounds [0, 100], `min_len` 10, interval (-3, 5) gives (0, 7) | the lengthened interval keeps `min_len` and is shifted into the bounds | not executed | CycleTimings.ShortRangeAtLowerBoundStaysShort | CycleTimings.ClampRangeFits |
| crates/fluxrs-core/src/cycle/cycletiming.rs:365-368 | an interval ending more than `min_len` below `min_b` is lengthened to end at `start + min_len`, then only its start is raised to `min_b`, so it comes back with its end before its start | bounds [0, 100], `min_len` 10, interval (-30, -25) gives (0, -20) | the lengthened interval (-30, -20) is shifted into the bounds, giving (0, 10) | not executed | CycleTimings.ShortRangeFarBelowLowerBoundReverses | CycleTimings.ClampRangeFits |
| crates/fluxrs-core/src/cycle/cycletiming.rs:298-306 | `increment_end_lag` adds `delta` to the end lag twice and undoes only the second addition | end lag 0, delta 1, end far after the open time: the lag becomes 2 | `delta` is added once and undone when the open time would fall after the end | not executed | CycleTimings.EndLagIncrementAsWrittenDoubles | CycleTimings.EndLagIncrementKeepsOrder |
| crates/fluxrs-core/src/cycle/cycletiming.rs:257-267 | `set_calc_end_all` clamps each end from below at `adjusted_close + deadband`, unlike `set_calc_end`, which clamps from above at `adjusted_open` | a value after the adjusted open time is stored as it is | each end is lowered to `adjusted_open`, as `set_calc_end` does | not executed | CycleTimings.EndAllAsWrittenPassesOpen | CycleTimings.EndAllBeforeOpen |
| crates/fluxrs-core/src/data_formats/timedata.rs:74-97 | `validate_lengths` compares each column length with itself, so it is always true | a `start_time` column of one row with empty other columns | every column has the length of the first | not executed | TimeDatas.UnequalColumnsAccepted | TimeDatas.ValidateLengths |
| crates/fluxrs-core/src/flux/expflux.rs:260-268 | `flux_from_vec`'s first guard tests length, point count and positivity together and reports all three as LengthMismatch | x = [0, 1, 2], y = [1, -1, 1] reports LengthMismatch(3, 3) | each cause is reported by its own variant | not executed | ExpFlux.FromVecGuardMislabels | ExpFlux.FromVecGuardsAgree |
