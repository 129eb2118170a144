# Dynamic calendar and clocks icons — a Dafny model

This project models the GNOME Shell extension "Dynamic Calendar and Clocks Icons".
The extension replaces the icons of GNOME Calendar and GNOME Clocks with drawing
areas that repaint themselves every second. The calendar icon shows today's page:
an optional weekday/month header and the day of the month. The clocks icon shows a
face with hour, minute and optional second hands.

The model covers:

- **Drawing.** The cairo calls of the four repaint callbacks are an operation word
  (`Canvas.Op`). An interpreter (`Canvas.Run`) tracks the current transformation
  matrix (CTM), the source, the operator, the font and the current point. It records
  what gets painted or written. Matrices are exact over `real` (`Transform`).
- **Geometry.** How the icon size is chosen and centred (`IconSize`), the hand angles
  (`ClockAngles`), and where each hand, label and page ends up (`Clocks`, `Calendar`).
  The hands are proved to sit at their absolute angles about the pivot, even though
  the code rotates each hand relative to the previous one.
- **Dispatch.** Which application ids get a dynamic icon (`Dispatch`).
- **Lifecycle.** enable / disable, the registry of (icon, timeout, connection) triples,
  the settings handlers and destroyObjects (`Extension`). As written, disable faults
  when its own icon refresh has destroyed a registered icon (see Findings). With
  the intended teardown, where a destroyed icon unregisters itself, the registry is
  proved to release every timeout, connection and icon exactly once.
- **Preferences.** The coupling of the two weather switches in the preferences
  window (`Prefs`).

Rotations are applied through a parameter `cis : real -> Dir` that turns degrees into
a unit direction. The pose theorems assume only that `cis` adds angles
(`Transform.IsRotationMap`), which the true cosine and sine do.

## Model

| member | source | states |
|---|---|---|
| ClockAngles.HourAngle | dynamic-calendar-and-clocks-icons@fcusr.github.com/extension.js:178-187 | for a valid time the hour-hand angle, read on a 12-hour dial, lies in [0, 360) |
| ClockAngles.MinuteAngle | dynamic-calendar-and-clocks-icons@fcusr.github.com/extension.js:193 | for a valid time the full-colour minute angle, which creeps with the seconds, lies in [0, 360) |
| ClockAngles.SymbolicMinuteAngle | dynamic-calendar-and-clocks-icons@fcusr.github.com/extension.js:225 | for a valid time the symbolic minute angle (whole minutes only) lies in [0, 360) |
| ClockAngles.SecondAngle | dynamic-calendar-and-clocks-icons@fcusr.github.com/extension.js:200 | for a valid time the second angle lies in [0, 360) |
| ClockAngles.HourHandGearing | dynamic-calendar-and-clocks-icons@fcusr.github.com/extension.js:219-225 | twelve times the hour angle is the minute angle plus one full turn per hour past 12 |
| ClockAngles.MinuteHandGearing | dynamic-calendar-and-clocks-icons@fcusr.github.com/extension.js:193-200 | the full-colour minute angle is the whole-minute angle plus a sixtieth of the second angle |
| ClockAngles.TwelveHourDial | dynamic-calendar-and-clocks-icons@fcusr.github.com/extension.js:178 | a time and the same time twelve hours later give the same hour angle |
| ClockAngles.Examples | dynamic-calendar-and-clocks-icons@fcusr.github.com/extension.js:178-193 | 3:00 puts the hour hand at 90 degrees, 3:15 at 97.5 with the minute hand at 90, and 15:00 reads as 3:00 |
| IconSize.StoredSize | dynamic-calendar-and-clocks-icons@fcusr.github.com/extension.js:101-106 | the natural-size sentinel -1 is kept as it is; any other size is multiplied by the stage scale factor |
| IconSize.GetIconSize | dynamic-calendar-and-clocks-icons@fcusr.github.com/extension.js:232-241 | a requested size is used as is, otherwise the smaller widget side; the square's centre is the widget's centre on both axes |
| IconSize.NaturalFitsInside | dynamic-calendar-and-clocks-icons@fcusr.github.com/extension.js:236-239 | with no requested size the square lies inside the widget and touches two opposite sides |
| IconSize.RequestedFillsWidget | dynamic-calendar-and-clocks-icons@fcusr.github.com/extension.js:101-106 | a widget sized by newIcon is filled exactly by its square, with no offset |
| Transform.ApplyAroundPivot | dynamic-calendar-and-clocks-icons@fcusr.github.com/extension.js:186-189 | translate to the pivot, rotate, translate back maps a point to the pivot plus the turned offset from it |
| Transform.PivotFixed | dynamic-calendar-and-clocks-icons@fcusr.github.com/extension.js:186-189 | that sequence leaves the pivot where it was |
| Transform.Telescope | dynamic-calendar-and-clocks-icons@fcusr.github.com/extension.js:192-194 | turning by `a` and then by `b - a` about the same pivot is turning by `b` |
| Transform.ScaleCancel | dynamic-calendar-and-clocks-icons@fcusr.github.com/extension.js:129-130 | scaling by a non-zero factor and then by its reciprocal restores the CTM |
| Canvas.RunLaws | dynamic-calendar-and-clocks-icons@fcusr.github.com/extension.js:123-149 | drawing only ever adds marks; a context in error is left alone; only a scale by zero causes the error |
| Artwork.BackgroundRun | dynamic-calendar-and-clocks-icons@fcusr.github.com/extension.js:124-128 | the face is painted once, under the centred and scaled CTM, with the context's current operator (OVER from a fresh context) |
| Artwork.EmptyBackground | dynamic-calendar-and-clocks-icons@fcusr.github.com/extension.js:182-185 | a square of size zero scales by zero, so nothing after it is painted |
| Clocks.HandRun | dynamic-calendar-and-clocks-icons@fcusr.github.com/extension.js:186-191 | painting a hand turns the CTM about the pivot by the delta, adds the delta to the running angle and paints the hand under the new CTM |
| Clocks.RegularDialRun | dynamic-calendar-and-clocks-icons@fcusr.github.com/extension.js:182-197 | the face, then the hour hand and the minute hand, each turned from the previous pose by its delta about (256, 252) |
| Clocks.RegularClocksRun | dynamic-calendar-and-clocks-icons@fcusr.github.com/extension.js:172-206 | the full-colour clock paints the face and the hands in order; the running angle equals each hand's absolute angle; the second hand appears only with seconds shown |
| Clocks.RegularClocksPoses | dynamic-calendar-and-clocks-icons@fcusr.github.com/extension.js:186-204 | with true rotations every hand's pose is the base CTM turned by its absolute angle about (256, 252), although the code rotates by differences |
| Clocks.SymbolicClocksRun | dynamic-calendar-and-clocks-icons@fcusr.github.com/extension.js:208-230 | the symbolic clock paints its face with OVER, then cuts out the hour and minute hands with DEST_OUT; there is no second hand |
| Clocks.SymbolicClocksPoses | dynamic-calendar-and-clocks-icons@fcusr.github.com/extension.js:218-228 | the symbolic hands sit at their absolute angles about (64, 64) |
| Clocks.SecondHandShown | dynamic-calendar-and-clocks-icons@fcusr.github.com/extension.js:172-204 | for a non-empty icon a second hand is painted exactly when seconds are shown and the icon style is not symbolic |
| Clocks.RegularClocks | dynamic-calendar-and-clocks-icons@fcusr.github.com/extension.js:177-206 | repaintClocks sets the face, hour, minute and (with seconds shown) second layers in that order, never cuts out, and its rotations add up to the last hand's own angle |
| Clocks.SymbolicClocks | dynamic-calendar-and-clocks-icons@fcusr.github.com/extension.js:208-230 | repaintSymbolicClocks sets the symbolic face and two hands, cuts them out with DEST_OUT, and its rotations add up to the whole-minute angle |
| Clocks.RepaintClocks | dynamic-calendar-and-clocks-icons@fcusr.github.com/extension.js:172-176 | the hands are cut out exactly under icon style 2, and a second hand is drawn exactly when seconds are shown outside that style |
| Clocks.EmptyClocks | dynamic-calendar-and-clocks-icons@fcusr.github.com/extension.js:182-185 | an icon whose square has size zero paints nothing |
| Calendar.HeaderText | dynamic-calendar-and-clocks-icons@fcusr.github.com/extension.js:134-139 | the header is the selected words (weekday, then month) joined by single spaces |
| Calendar.HeaderExamples | dynamic-calendar-and-clocks-icons@fcusr.github.com/extension.js:134-139 | "Mon Jan", "Mon", "Jan" or "" for the four flag combinations |
| Calendar.Centered | dynamic-calendar-and-clocks-icons@fcusr.github.com/extension.js:140-141 | the middle of a centred line is the middle of the icon |
| Calendar.LabelRun | dynamic-calendar-and-clocks-icons@fcusr.github.com/extension.js:131-142 | a label writes its text once, in its font, size and colour, starting at the centred x and the given baseline; empty text writes nothing |
| Calendar.PageRun | dynamic-calendar-and-clocks-icons@fcusr.github.com/extension.js:125-130 | the page is painted under the scaled CTM, and the scale is undone before any text is written |
| Calendar.RegularCalendarRun | dynamic-calendar-and-clocks-icons@fcusr.github.com/extension.js:114-150 | the full-colour page, then the header (14/96 of the size, baseline 25/96) and the date (28/96, baseline 68/96), in their fonts and colours |
| Calendar.TextLinesRun | dynamic-calendar-and-clocks-icons@fcusr.github.com/extension.js:131-148 | the header line and the date line are written in that order, each centred |
| Calendar.SymbolicCalendarRun | dynamic-calendar-and-clocks-icons@fcusr.github.com/extension.js:152-170 | the symbolic page shows only the date, in half the icon's size, on the baseline three quarters down |
| Calendar.RegularCalendar | dynamic-calendar-and-clocks-icons@fcusr.github.com/extension.js:119-150 | repaintCalendar paints the calendar page only and writes the header, then the day's numeral, without rotating |
| Calendar.SymbolicCalendar | dynamic-calendar-and-clocks-icons@fcusr.github.com/extension.js:152-170 | repaintSymbolicCalendar paints the symbolic page and writes only the day's numeral |
| Calendar.RepaintCalendar | dynamic-calendar-and-clocks-icons@fcusr.github.com/extension.js:114-118 | icon style 2 gives the symbolic page and the date alone, any other style the full page with the header first; the day's numeral is always written last |
| Calendar.EmptyCalendar | dynamic-calendar-and-clocks-icons@fcusr.github.com/extension.js:124-128 | an icon whose square has size zero draws nothing |
| Numeral.Decimal | dynamic-calendar-and-clocks-icons@fcusr.github.com/extension.js:122 | the day's numeral is non-empty, all digits, has no leading zero, and is one digit exactly below 10 |
| Numeral.DecimalRoundTrip | dynamic-calendar-and-clocks-icons@fcusr.github.com/extension.js:122 | reading the numeral back gives the day |
| Numeral.DecimalInjective | dynamic-calendar-and-clocks-icons@fcusr.github.com/extension.js:122 | different days give different numerals |
| Numeral.DayOfMonthNumeral | dynamic-calendar-and-clocks-icons@fcusr.github.com/extension.js:122 | days 1 to 9 are one digit and days 10 to 31 two, never zero-padded |
| Dispatch.FilesDiffer | dynamic-calendar-and-clocks-icons@fcusr.github.com/extension.js:10-11 | the calendar and clocks desktop ids are different |
| Dispatch.Choose | dynamic-calendar-and-clocks-icons@fcusr.github.com/extension.js:83-91 | the calendar icon exactly when the calendar is enabled and the id is the calendar's, the clocks icon likewise, the original otherwise |
| Dispatch.ChoiceIgnoresOtherFlags | dynamic-calendar-and-clocks-icons@fcusr.github.com/extension.js:70-73 | the choice depends only on the asked application's enable flag |
| Extension.InitialGood | dynamic-calendar-and-clocks-icons@fcusr.github.com/extension.js:93 | before the first enable the registry invariant holds (registered handles distinct, live and below the counter, each registered timeout wired to its own icon) |
| Extension.NewIcon | dynamic-calendar-and-clocks-icons@fcusr.github.com/extension.js:95-112 | a fresh icon with the stored size, its kind and one queued repaint is registered as the last triple, with its timeout wired to it; every earlier icon and timeout entry, the settings connections and the flags stay as they were; the registry invariant is kept |
| Extension.RegisteredTimeoutRepaints | dynamic-calendar-and-clocks-icons@fcusr.github.com/extension.js:96-100 | under the registry invariant every registered timeout is live and, when it fires, repaints its own icon and no other |
| Extension.EarlierTimeoutStillRepaints | dynamic-calendar-and-clocks-icons@fcusr.github.com/extension.js:95-112 | after a new icon is made, the timeout of an icon registered earlier still repaints that icon |
| Extension.Tick | dynamic-calendar-and-clocks-icons@fcusr.github.com/extension.js:97-100 | a removed timeout does nothing; a live one adds a repaint to its own icon and to no other |
| Extension.TimerRepaintsIcon | dynamic-calendar-and-clocks-icons@fcusr.github.com/extension.js:96-100 | the timeout newIcon starts repaints the icon newIcon returns |
| Extension.Put | dynamic-calendar-and-clocks-icons@fcusr.github.com/extension.js:44-60 | a settings handler sets its own flag and no other |
| Extension.SettingChanged | dynamic-calendar-and-clocks-icons@fcusr.github.com/extension.js:44-60 | a change reaches the flags only through a live handler for that key, and changes only that key's flag |
| Extension.Enable | dynamic-calendar-and-clocks-icons@fcusr.github.com/extension.js:294-300 | enable reads the stored flags, connects a live handler for every key, saves the slots' contents and installs the patches; the registry invariant is kept |
| Extension.CreateIconTexture | dynamic-calendar-and-clocks-icons@fcusr.github.com/extension.js:83-91 | a dynamic icon of the chosen kind is registered exactly when the choice is dynamic, leaving earlier icons and timeouts alone; otherwise the saved original is used and nothing changes |
| Extension.InitProviderInfo | dynamic-calendar-and-clocks-icons@fcusr.github.com/extension.js:65-79 | for the calendar or clocks provider, the first child of the content becomes a new registered icon and earlier icons and timeouts are left alone; the other children are untouched |
| Extension.ReleaseAll | dynamic-calendar-and-clocks-icons@fcusr.github.com/extension.js:279-286 | releasing a list of handles frees exactly those handles, and no release fails exactly when the list has no repeats and all its handles are live |
| Extension.DestroyObjects | dynamic-calendar-and-clocks-icons@fcusr.github.com/extension.js:278-292 | no release fails exactly when no handle is registered twice and all are live; from a state satisfying the registry invariant every registered timeout, connection and icon and every settings connection is released exactly once and nothing remains live; both lists are emptied |
| Extension.IconIndex | dynamic-calendar-and-clocks-icons@fcusr.github.com/extension.js:110 | the index found holds the icon, and no index is found only when no triple holds it |
| Extension.HostDestroys | dynamic-calendar-and-clocks-icons@fcusr.github.com/extension.js:243-276 | as written, a drawing area the shell destroys leaves the live set but stays registered |
| Extension.HostDestroysBreaksGood | dynamic-calendar-and-clocks-icons@fcusr.github.com/extension.js:95-112 | as written, a registered icon the shell destroys breaks the registry invariant: its triple lists a handle that is no longer alive |
| Extension.HostRefresh | dynamic-calendar-and-clocks-icons@fcusr.github.com/extension.js:243-276 | as written, every registered icon the refresh destroys is dead afterwards while the registry is unchanged |
| Extension.DisableAsWritten | dynamic-calendar-and-clocks-icons@fcusr.github.com/extension.js:304-309 | disable as written restores the slots, refreshes the shell's icons, then empties both lists |
| Extension.RefreshThenDestroyFaults | dynamic-calendar-and-clocks-icons@fcusr.github.com/extension.js:278-309 | as written, disable faults whenever its refresh destroyed at least one registered icon |
| Extension.IconDestroyed | dynamic-calendar-and-clocks-icons@fcusr.github.com/extension.js:278-282 | with the intended destroy handler, a destroyed icon's triple leaves the registry and all three of its handles are released, other triples stay, and the registry invariant is kept |
| Extension.Rebuild | dynamic-calendar-and-clocks-icons@fcusr.github.com/extension.js:243-276 | the refresh under the intended teardown keeps the registry invariant and touches neither the slots nor the settings |
| Extension.Disable | dynamic-calendar-and-clocks-icons@fcusr.github.com/extension.js:304-309 | the saved entry points go back into the slots; with the intended teardown, from a state satisfying the registry invariant everything is then released without a fault, whatever the refresh destroyed |
| Extension.DisabledIsInert | dynamic-calendar-and-clocks-icons@fcusr.github.com/extension.js:278-292 | after disable no timeout repaints and no settings change reaches the flags |
| Extension.Replay | dynamic-calendar-and-clocks-icons@fcusr.github.com/extension.js:65-112 | icon requests, settings changes and timeouts never touch the slots, the saved originals or the settings connections, and keep the registry invariant; so do icons the shell destroys, with the intended teardown (ShellDestroys runs IconDestroyed) |
| Extension.Lifecycle | dynamic-calendar-and-clocks-icons@fcusr.github.com/extension.js:294-309 | with the intended teardown, enable, any events, then disable restores the slots as they were and releases every resource exactly once |
| Prefs.Handler | dynamic-calendar-and-clocks-icons@fcusr.github.com/prefs.js:52-61 | a handler writes the other key exactly when its own key was turned the uncoupling way, and its write restores the coupling |
| Prefs.CascadeStops | dynamic-calendar-and-clocks-icons@fcusr.github.com/prefs.js:52-61 | the handler triggered by a forced write has nothing to do |
| Prefs.Toggle | dynamic-calendar-and-clocks-icons@fcusr.github.com/prefs.js:52-61 | after a user write and its cascade the written key holds its value, temperature implies background, at most one forced write happens, and the result matches the settled-state table |
| Prefs.SettledCoupledAndIdempotent | dynamic-calendar-and-clocks-icons@fcusr.github.com/prefs.js:52-61 | every settled state is coupled, keeps the user's value, and repeating the write changes nothing |
| Prefs.SettledChangesOnlyWhatItMust | dynamic-calendar-and-clocks-icons@fcusr.github.com/prefs.js:53-58 | from a coupled state a write that keeps it coupled changes only its own key |

## Left out

- Cairo itself. PNG loading, compositing and glyph rendering are not modelled. A paint is a recorded mark (source, CTM, operator). A text run is a recorded mark (text, font, size, start point). Text width comes from a `measure` parameter standing in for `textExtents`.
- Radians and floating point. Angles are exact reals in degrees. `Math.PI / 180` and cairo's cosine and sine are the `cis` parameter.
- `new Date()` and the locale. The time, the short weekday and month names and the day of the month are inputs.
- The icon style, widget allocation and stage scale factor are inputs.
- Canvas.Run: the current point does not advance after `show_text`, because each line is placed with its own `move_to` first.
- Canvas.Step: in the program, cairo's GJS binding throws on `scale(0, 0)` (an icon of size zero). The callback stops there, and `context.$dispose()` is skipped; the 1-second timeout throws again on every repaint. The model instead marks the context as in error and runs the remaining calls as no-ops. The marks are the same, since nothing is painted either way, but the exception path is not modelled.
- Artwork.Reciprocal: for a size of zero the program never computes `1 / scaleFactor`, because the binding has already thrown at the scale by zero. The model needs a value there and uses 0.
- redisplayIcons walks the overview, folders, dash, search results and panel to refresh icons. The walk is left out because it only touches host widgets. Its effect on the extension is the list of registered drawing areas it destroys, an input (`rebuilt`) of the disable models. The calls in enable and the two settings handlers are not modelled separately; a drawing area the shell destroys at any time is the `ShellDestroys` event, with the intended teardown (ShellDestroys runs IconDestroyed).
- GSettings storage, `settings.bind`, and the preferences window's widgets (`newRow`, pages, groups) are left out. A settings change is an event carrying the new value.
- Extension.InitProviderInfo: the call to the saved original `_init` is represented by the content it builds, which is an input.
- Extension.Tick: a queued repaint is counted. The repaint that follows is the drawing model above, not linked here.
- The timeout's one-second period and the main loop's scheduling are left out. A firing is an event.
- Extension.Replay: the registry invariant is kept across `ShellDestroys` events only with the intended teardown, where the event runs `Extension.IconDestroyed`. In the code as written the shell's destruction of a registered icon breaks the invariant (`Extension.HostDestroysBreaksGood`).
- Extension.Lifecycle: zero faults rests on the intended teardown, where a drawing area the shell destroys unregisters itself (`Extension.IconDestroyed`). The code as written has no such handler. Its own refresh in disable destroys registered icons before destroyObjects releases them again (see Findings). The same happens to icons replaced by the refresh after a `changed::calendar` or `changed::clocks` setting.
- The weather keys appear only in prefs.js; extension.js reads none of them.

## Findings

| source | as written | input that shows it | evidently intended | confidence | as-written member | corrected member |
|---|---|---|---|---|---|---|
| dynamic-calendar-and-clocks-icons@fcusr.github.com/extension.js:304-309 | disable calls redisplayIcons before destroyObjects. The refresh rebuilds the shell's calendar and clocks icons, destroying the dynamic drawing areas they held, and the registry still lists them. | one registered icon shown in the app grid, then disable: destroyObjects disconnects and destroys that drawing area a second time | each timeout, connection and icon is released exactly once, e.g. by dropping a triple when its drawing area is destroyed | medium, not executed; it depends on the shell destroying the old icon on update | Extension.DisableAsWritten, Extension.RefreshThenDestroyFaults, Extension.HostDestroysBreaksGood | Extension.IconDestroyed, Extension.Disable, Extension.Replay, Extension.Lifecycle |
