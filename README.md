# sound150 applet core, modelled in Dafny

This project models the behaviour of the Cinnamon sound applet `sound150@claudiux`
(version 5.4, `applet.js`) apart from its user interface, and proves properties of
that model. It covers four parts.

- **MPRIS player registry** (`player_registry.dfy`, `mpris_names.dfy`). The applet watches
  `NameOwnerChanged` for `org.mpris.MediaPlayer2.*` bus names and keeps three things:
  - the `_players` dictionary, keyed by owner, in insertion order (`keyOrder`);
  - the `_playerItems` list of the "choose player" menu;
  - the `_activePlayer` pointer.

  A `Player` is a class because one player object is shared by the dictionary and the
  item list, and a change of owner updates it in place. The `Registry` methods keep
  the invariant `Valid()`: every key maps to a player owned by that key, the items list
  each registered player exactly once, and the active pointer is null or a key.
- **Position slider (`Seeker`)** (`seeker.dfy`). The class holds the playback status, the
  current time, the track length, the one-second timer and its tick counter, the
  pending seek value and the `CanSeek` flag. Remote MPRIS calls (`Position`, `CanSeek`,
  `SetPosition`) are recorded in a ghost log `sent`. The timer is a flag plus a `Tick`
  method. `Tick` is specified by the clock function `TickStep`, and lemmas compute
  `n` ticks in closed form.
- **Volume arithmetic** (`volume.dfy`). This part covers:
  - the output slider's value-to-volume mapping, with "magnetic" snapping to 100 %
    and optionally to 25/50/75/125 %;
  - slider steps by scroll and keys;
  - the slider icon;
  - the panel scroll/hotkey steps (`_volumeChange`);
  - the panel icon and colour bands.

  Volumes are PulseAudio units over `real`. The snapping loop `for (i = 0.25; i < 1.5;
  i += 0.25)` is a `while` loop over `k = 1..5` with `i = k/4`, skipping `k = 4`.
- **Helpers.** These are:
  - `formatTextWrap` (`text_wrap.dfy`);
  - the `LoopStatus` cycle None → Playlist → Track, the artist/album/title fallbacks of
    track metadata, and the truncated panel text (`player_text.dfy`);
  - the de-duplicated list of known desktop entries (`known_players.dfy`).

Shared pieces:
- `strings.dfy` holds JavaScript's `split`/`join` on one-character separators.
- `js_math.dfy` holds `Math.round` (`floor(x + 0.5)`), `Math.max` and `Math.min`.
- `wrappers.dfy` holds `Option`.

Host services are parameters or are left out. This covers the Mainloop timer, D-Bus
replies, the Cvc mixer stream, the settings and the `St.Slider` widget. Gettext `_()`
is taken as the identity.

## Model

All source paths are in `sound150@claudiux/files/sound150@claudiux/5.4/`.

| member | source | states |
|---|---|---|
| JsMath.Round | sound150@claudiux/files/sound150@claudiux/5.4/applet.js:527 | `Math.round` lands within half a unit of its argument: `x - 0.5 < r <= x + 0.5` |
| Strings.Split | sound150@claudiux/files/sound150@claudiux/5.4/applet.js:1818-1825 | `split` on one character yields at least one piece, and no piece contains the separator |
| Strings.SplitCount | sound150@claudiux/files/sound150@claudiux/5.4/applet.js:1818-1825 | `split` yields exactly one piece more than there are separators |
| MprisNames.IsInstance | sound150@claudiux/files/sound150@claudiux/5.4/applet.js:1818-1825 | a bus name is an instance iff it has at least four dots (more than four segments) or is VLC's `org.mpris.MediaPlayer2.vlc-<digits>` |
| MprisNames.MasterName | sound150@claudiux/files/sound150@claudiux/5.4/applet.js:1818-1825 | a plain `org.mpris.MediaPlayer2.<player>` name is an instance only in the VLC form |
| MprisNames.InstanceName | sound150@claudiux/files/sound150@claudiux/5.4/applet.js:1818-1825 | `org.mpris.MediaPlayer2.<player>.<instance>` is always an instance |
| MprisNames.VlcName | sound150@claudiux/files/sound150@claudiux/5.4/applet.js:1824 | the VLC pattern matches iff the suffix after `vlc-` is non-empty and all digits |
| PlayerRegistry.ClassifyOwnerChange | sound150@claudiux/files/sound150@claudiux/5.4/applet.js:1244-1251 | non-MPRIS names are ignored. Otherwise a new owner with no old one is an appearance, an old owner with no new one is a disappearance, and anything else is an owner change |
| PlayerRegistry.FirstOwnedBy | sound150@claudiux/files/sound150@claudiux/5.4/applet.js:1871-1881 | the index the item scan stops at holds the owner and no earlier item does; -1 when none does |
| PlayerRegistry.ItemsKeepPlayers | sound150@claudiux/files/sound150@claudiux/5.4/applet.js:1858-1869 | removing the item of an unregistered owner keeps the items duplicate-free and every registered player listed |
| PlayerRegistry.Registry.constructor | sound150@claudiux/files/sound150@claudiux/5.4/applet.js:1218-1220 | the registry starts empty with no active player, and valid |
| PlayerRegistry.Registry.RemovePlayerItem | sound150@claudiux/files/sound150@claudiux/5.4/applet.js:1871-1881 | the loop splices out exactly the first item owned by `owner`, if any |
| PlayerRegistry.Registry.AddPlayer | sound150@claudiux/files/sound150@claudiux/5.4/applet.js:1827-1856 | for a known owner, the bus name changes only when an instance name replaces a non-instance one; nothing else changes. An empty new owner changes nothing. A new owner adds one entry and one item and becomes active. Validity is kept |
| PlayerRegistry.Registry.SwitchPlayer | sound150@claudiux/files/sound150@claudiux/5.4/applet.js:1858-1869 | a known owner becomes active. An unknown owner's stale item is removed and the pointer is kept. The dictionary is untouched |
| PlayerRegistry.Registry.RemovePlayer | sound150@claudiux/files/sound150@claudiux/5.4/applet.js:1883-1901 | no-op unless the registered bus name matches. Otherwise the owner leaves the dictionary and the items, and an active pointer at it moves to the first remaining key in insertion order, or null |
| PlayerRegistry.Registry.ChangePlayerOwner | sound150@claudiux/files/sound150@claudiux/5.4/applet.js:1903-1911 | with a matching bus name, the same player object moves to the new key with its owner updated, the old key goes, and the active pointer follows. Otherwise no-op. Validity is kept when the owners differ |
| PlayerRegistry.Registry.OnNameOwnerChanged | sound150@claudiux/files/sound150@claudiux/5.4/applet.js:1244-1251 | dispatches per `ClassifyOwnerChange`. Every event with distinct owners leaves the active pointer null or a key of the dictionary |
| PlayerRegistry.AppearThenVanish | sound150@claudiux/files/sound150@claudiux/5.4/applet.js:1244-1251 | a player that appears and then vanishes leaves the registry empty with no active player |
| PlayerRegistry.MasterThenInstance | sound150@claudiux/files/sound150@claudiux/5.4/applet.js:1827-1838 | a master name followed by an instance name for the same owner leaves one entry, carrying the instance name |
| Seek.SliderPosition | sound150@claudiux/files/sound150@claudiux/5.4/applet.js:449-456 | the slider shows `currentTime / length` (clamped to [0, 1]), and 0 when the length or the time is not positive |
| Seek.SeekedTime | sound150@claudiux/files/sound150@claudiux/5.4/applet.js:403-421 | a positive reported position wins, else a pending seek, else 0. The time is never negative |
| Seek.SeekEchoLandsOnRequest | sound150@claudiux/files/sound150@claudiux/5.4/applet.js:403-421 | when a player echoes a seek with a non-positive position, the time becomes the requested `round(value·length·10⁶)` µs, within half a microsecond of value·length |
| Seek.DenylistForbidsSeek | sound150@claudiux/files/sound150@claudiux/5.4/applet.js:494-505 | a valid seeker for a player on the no-seek list is never seekable; `Valid()` keeps this through every method |
| Seek.OddRateForbidsSeek | sound150@claudiux/files/sound150@claudiux/5.4/applet.js:507-518 | a playback rate other than 1, 0 or null disables seeking |
| Seek.TickStep | sound150@claudiux/files/sound150@claudiux/5.4/applet.js:458-473 | while playing, a tick either adds one second or issues one position query, never both. Otherwise the timer stops and nothing else changes |
| Seek.TickerStaysBounded | sound150@claudiux/files/sound150@claudiux/5.4/applet.js:458-473 | the tick counter never exceeds 10 |
| Seek.TicksFromStart | sound150@claudiux/files/sound150@claudiux/5.4/applet.js:458-473 | from a reset counter, `n` playing ticks add `n - n/11` seconds and `n/11` position queries, and leave the counter at `n % 11` |
| Seek.TicksFromCounter | sound150@claudiux/files/sound150@claudiux/5.4/applet.js:458-473 | the same closed form from any counter value up to 10 |
| Seek.Seeker.constructor | sound150@claudiux/files/sound150@claudiux/5.4/applet.js:378-425 | initial state: Stopped, time 0, no timer, no pending seek. A `CanSeek` query is sent unless the player is on the no-seek list |
| Seek.Seeker.UpdateValue | sound150@claudiux/files/sound150@claudiux/5.4/applet.js:449-456 | outside a drag and when seekable, the slider shows `SliderPosition`; otherwise it is left alone |
| Seek.Seeker.UpdateTimer | sound150@claudiux/files/sound150@claudiux/5.4/applet.js:475-492 | the timer runs iff playing and seekable; starting it resets the counter and queries the position. Stopped resets the time to 0 |
| Seek.Seeker.Tick | sound150@claudiux/files/sound150@claudiux/5.4/applet.js:458-473 | the state moves exactly as `TickStep` says. Below 10 the time and the slider advance; at 10 the counter resets and one position query is sent |
| Seek.Seeker.SetPositionFrom | sound150@claudiux/files/sound150@claudiux/5.4/applet.js:520-529 | a position ≥ 0 sets the time in seconds. Anything else (none, negative) sends `SetPosition` for the slider's value and records the rounded pending value |
| Seek.Seeker.RequestSeek | sound150@claudiux/files/sound150@claudiux/5.4/applet.js:524-528 | the pending value is `round(value·length·10⁶)`, and exactly one `SetPosition` call with the unrounded time is appended |
| Seek.Seeker.OnSeeked | sound150@claudiux/files/sound150@claudiux/5.4/applet.js:403-421 | the time becomes `SeekedTime(v, pending)` and the pending value is cleared to 0 |
| Seek.Seeker.OnPositionReply | sound150@claudiux/files/sound150@claudiux/5.4/applet.js:531-536 | a reply ≥ 0 sets the time in seconds and refreshes the slider outside a drag when seekable, leaving the pending value and the log alone. A negative reply keeps the time and the slider, records `round(value·length·10⁶)` as the pending value and sends one `SetPosition` |
| Seek.Seeker.SetCanSeek | sound150@claudiux/files/sound150@claudiux/5.4/applet.js:507-518 | seekable iff the player says so and the rate is 1, 0 or null. When seekable and playing, the counter resets and one position query is sent. When seekable and not playing, the counter and log are kept, Stopped resets the time, and the slider is refreshed outside a drag. When not seekable, nothing else changes |
| Seek.Seeker.RequestCanSeek | sound150@claudiux/files/sound150@claudiux/5.4/applet.js:494-505 | denylisted players become unseekable with no call. Others get one `CanSeek` query |
| Seek.Seeker.OnCanSeekReply | sound150@claudiux/files/sound150@claudiux/5.4/applet.js:501-504 | for a player not on the no-seek list, a `CanSeek` reply sets seekability to `SeekAllowed` and re-arms the timer exactly as `SetCanSeek` does |
| Seek.Seeker.Play | sound150@claudiux/files/sound150@claudiux/5.4/applet.js:427-430 | status Playing, then a `CanSeek` query (none for denylisted players) |
| Seek.Seeker.Pause | sound150@claudiux/files/sound150@claudiux/5.4/applet.js:432-435 | status Paused, the timer stopped, the time and the counter kept, the slider refreshed to `SliderPosition` outside a drag when seekable |
| Seek.Seeker.Stop | sound150@claudiux/files/sound150@claudiux/5.4/applet.js:437-440 | status Stopped, the timer stopped, the time reset to 0, the counter kept; the slider shows 0 outside a drag when seekable and is otherwise left alone |
| Seek.Seeker.SetTrack | sound150@claudiux/files/sound150@claudiux/5.4/applet.js:442-447 | a new track id and length, the time reset to 0, the slider refreshed |
| Seek.Seeker.StartDrag | sound150@claudiux/files/sound150@claudiux/5.4/applet.js:397-401 | a grabbed slider is dragging, so value changes do not seek |
| Seek.Seeker.EndDrag | sound150@claudiux/files/sound150@claudiux/5.4/applet.js:397 | `drag-end` seeks to the final slider value |
| Seek.Seeker.SlideTo | sound150@claudiux/files/sound150@claudiux/5.4/applet.js:398-401 | a value change seeks only outside a drag |
| Seek.Seeker.Destroy | sound150@claudiux/files/sound150@claudiux/5.4/applet.js:538-551 | the timer is removed |
| Volume.SnapTest | sound150@claudiux/files/sound150@claudiux/5.4/applet.js:243-244 | the literal window test `v != c·norm && norm·(c - step/2) < v < norm·(c + step/2)` snaps exactly as `Snap` |
| Volume.QuarterPassUnrolled | sound150@claudiux/files/sound150@claudiux/5.4/applet.js:246-251 | the quarter loop visits 0.25, 0.5, 0.75 and 1.25 in that order, skipping 1 |
| Volume.MagnetizeLoop | sound150@claudiux/files/sound150@claudiux/5.4/applet.js:241-252 | the snapping code (the 100 % test, then the loop) computes `Magnetize` |
| Volume.SnapsOntoNominal | sound150@claudiux/files/sound150@claudiux/5.4/applet.js:243-244 | with magnetism on, a volume strictly within norm·step/2 of norm becomes exactly norm (the 25 % option needs step ≤ 0.25, so that the quarter windows do not reach it) |
| Volume.SnapsOntoQuarter | sound150@claudiux/files/sound150@claudiux/5.4/applet.js:246-251 | with the 25 % option as well, the same holds for 0.25, 0.5, 0.75 and 1.25 × norm |
| Volume.MagnetizeSnapsOntoCentre | sound150@claudiux/files/sound150@claudiux/5.4/applet.js:241-252 | any volume within the window of an active centre ends exactly on that centre |
| Volume.MagnetizeKeepsFarVolume | sound150@claudiux/files/sound150@claudiux/5.4/applet.js:241-252 | a volume outside every active window is unchanged |
| Volume.MagnetizeMoves | sound150@claudiux/files/sound150@claudiux/5.4/applet.js:241-252 | snapping changes the volume iff it lies in an active window off its centre |
| Volume.MagnetizePositive | sound150@claudiux/files/sound150@claudiux/5.4/applet.js:241-252 | snapping never turns a positive volume into 0 |
| Volume.MagnetizeWithinCeiling | sound150@claudiux/files/sound150@claudiux/5.4/applet.js:241-252 | without the 25 % option, snapping keeps a volume within [0, max] |
| Volume.SliderToVolume | sound150@claudiux/files/sound150@claudiux/5.4/applet.js:234-252 | the computation of `_onValueChanged` yields `SliderVolume`: value × scale, muted below 0.005, then snapped |
| Volume.SliderMutesOnlyAtZero | sound150@claudiux/files/sound150@claudiux/5.4/applet.js:237-241 | muted iff the value is below 0.005 iff the volume pushed is 0 |
| Volume.SliderWithoutSnapping | sound150@claudiux/files/sound150@claudiux/5.4/applet.js:234-241 | without magnetism the volume is value × (max for the output sink, norm otherwise), unmuted |
| Volume.SliderWithinCeiling | sound150@claudiux/files/sound150@claudiux/5.4/applet.js:231-252 | without the 25 % option, a slider value in [0, 1] never pushes a volume above max |
| Volume.SliderCanOvershootCeiling | sound150@claudiux/files/sound150@claudiux/5.4/applet.js:246-251 | with the 25 % option, nominal 100, max 124 and step 4 %, the full slider pushes 125 |
| Volume.SliderDelta | sound150@claudiux/files/sound150@claudiux/5.4/applet.js:268-271 | the slider step `step / max · norm` is positive for sane settings |
| Volume.SliderStep | sound150@claudiux/files/sound150@claudiux/5.4/applet.js:265-278 | a step up stays ≤ 1 and never lowers the value; a step down stays ≥ 0 and never raises it |
| Volume.SliderStepsCancel | sound150@claudiux/files/sound150@claudiux/5.4/applet.js:265-278 | an unclamped step up and step down cancel, in both orders |
| Volume.SliderIconLevel | sound150@claudiux/files/sound150@claudiux/5.4/applet.js:353-374 | muted below 0.005, low below 1/3, medium below 2/3 of the slider (each an iff) |
| Volume.SliderIconMonotone | sound150@claudiux/files/sound150@claudiux/5.4/applet.js:353-374 | a larger slider value never shows a lower icon level |
| Volume.SliderIconAtNominal | sound150@claudiux/files/sound150@claudiux/5.4/applet.js:353-374 | as written, at 100 % with max = norm the slider icon is "overamplified" while the panel shows "high" |
| Volume.SliderIconAboveNominalMeansLoud | sound150@claudiux/files/sound150@claudiux/5.4/applet.js:353-374 | corrected icon, for ceilings up to 150 % of norm: "overamplified" iff the volume exceeds norm, and it agrees with the as-written icon below high |
| Volume.SliderIconAboveNominalAtNominal | sound150@claudiux/files/sound150@claudiux/5.4/applet.js:353-374 | corrected icon: 100 % shows "high", as the panel does |
| Volume.VolumeSlider.OnValueChanged | sound150@claudiux/files/sound150@claudiux/5.4/applet.js:231-262 | with a stream, its volume and mute state become `SliderVolume` of the slider value; without one, nothing changes |
| Volume.VolumeSlider.OnScroll | sound150@claudiux/files/sound150@claudiux/5.4/applet.js:265-278 | up/down move the value one `SliderStep` (other directions keep it), and the stream follows the new value |
| Volume.VolumeSlider.OnKeyPress | sound150@claudiux/files/sound150@claudiux/5.4/applet.js:280-299 | the arrow and volume keys are handled, stepping up for Right/RaiseVolume and down for Left/LowerVolume, and the stream follows. Other keys change nothing |
| Volume.LowerOutput | sound150@claudiux/files/sound150@claudiux/5.4/applet.js:1523-1541 | the step down computes `StepDown`, silencing exactly when `max(0, v - norm·step)` is below 1 |
| Volume.RaiseOutput | sound150@claudiux/files/sound150@claudiux/5.4/applet.js:1545-1557 | the step up computes `StepUp`: `min(max, v + norm·step)`, snapped |
| Volume.VolumeChange | sound150@claudiux/files/sound150@claudiux/5.4/applet.js:1517-1571 | Down sets `StepDown` and mutes when it fell below 1. Up sets `StepUp` and unmutes. Null only re-pushes, other directions change nothing. A change is reported for null, Up and Down |
| Volume.PanelStepsWithinCeiling | sound150@claudiux/files/sound150@claudiux/5.4/applet.js:1517-1559 | without the 25 % option, both panel steps keep the output within [0, max] |
| Volume.PanelStepsCancel | sound150@claudiux/files/sound150@claudiux/5.4/applet.js:1517-1559 | without magnetism, unclamped steps up and down cancel, in both orders |
| Volume.PanelStepCanOvershootCeiling | sound150@claudiux/files/sound150@claudiux/5.4/applet.js:1545-1557 | with the 25 % option, a step up from 122 with max 124 lands on 125 |
| Volume.PanelIconMonotone | sound150@claudiux/files/sound150@claudiux/5.4/applet.js:1578-1584 | a higher percentage never shows a lower panel icon level |
| Volume.PanelIconLevel | sound150@claudiux/files/sound150@claudiux/5.4/applet.js:1578-1584 | the panel icon bands, each an iff: above 100 % overamplified, below 1 muted, 1-32 low, 33-66 medium, 67-100 high |
| Volume.PanelOveramplifiedAboveNominal | sound150@claudiux/files/sound150@claudiux/5.4/applet.js:1578-1584 | the panel icon is overamplified iff the volume rounds to more than 100 % of norm |
| Volume.ColourMarksOveramplified | sound150@claudiux/files/sound150@claudiux/5.4/applet.js:2063-2077 | with adaptive colour on, the label leaves the theme colour iff the percentage is above 100, the same threshold as the overamplified icon |
| Volume.PanelColour | sound150@claudiux/files/sound150@claudiux/5.4/applet.js:2063-2077 | the label keeps the theme colour unless adaptive colour is on and the percentage is above 100; then 101-115, 116-130 and above 130 each get their own colour (each an iff) |
| TextWrap.CollapseBreaks | sound150@claudiux/files/sound150@claudiux/5.4/applet.js:74 | replacing runs of `\r`/`\n` by one space leaves no line break, does not lengthen the text, keeps a break-free text as is, and keeps the same words (maximal runs of non-separators), in order, so words are neither merged nor split |
| TextWrap.WrapStepKeepsWellWrapped | sound150@claudiux/files/sound150@claudiux/5.4/applet.js:78-86 | one reduce step keeps `lineLength` equal to the length of the last line, and every line within the limit or a single word |
| TextWrap.WrapWordsKeepsWellWrapped | sound150@claudiux/files/sound150@claudiux/5.4/applet.js:78-86 | the whole reduce keeps that invariant |
| TextWrap.FormatTextWrap | sound150@claudiux/files/sound150@claudiux/5.4/applet.js:73-87 | every line of the result is at most `maxLineLength` long or holds a single (over-long) word, and the result has exactly the words of the input, in order |
| TextWrap.WrapWordsKeepsWords | sound150@claudiux/files/sound150@claudiux/5.4/applet.js:78-86 | the reduce only inserts spaces and line breaks between the words: the words of its text are those of the start text followed by the words passed |
| TextWrap.WordsJoin | sound150@claudiux/files/sound150@claudiux/5.4/applet.js:74 | splitting at spaces and joining the pieces back by a space keeps the words: joining pieces by a space yields the words of the pieces, in order |
| PlayerText.ToggleLoopStatus | sound150@claudiux/files/sound150@claudiux/5.4/applet.js:1009-1018 | each of the three MPRIS loop statuses maps to the next one in the order None, Playlist, Track, wrapping round; any other status finds no entry |
| PlayerText.ToggleCycle | sound150@claudiux/files/sound150@claudiux/5.4/applet.js:1009-1018 | three presses return to the starting status, and one or two never do |
| PlayerText.ToggleOrder | sound150@claudiux/files/sound150@claudiux/5.4/applet.js:1009-1018 | from None, presses give Playlist, then Track, then None again |
| PlayerText.ToggleReachesEveryStatus | sound150@claudiux/files/sound150@claudiux/5.4/applet.js:1009-1018 | every status reaches every other within two presses |
| PlayerText.Find | sound150@claudiux/files/sound150@claudiux/5.4/applet.js:884 | the first occurrence of the separator, if any; none exactly when `includes` is false |
| PlayerText.Before | sound150@claudiux/files/sound150@claudiux/5.4/applet.js:885 | the first piece of `split`: the text itself iff it holds no separator, otherwise the prefix up to the first occurrence, which holds none |
| PlayerText.JoinComma | sound150@claudiux/files/sound150@claudiux/5.4/applet.js:866 | joining no artists gives the empty string; one artist gives that artist |
| PlayerText.JoinCommaLast | sound150@claudiux/files/sound150@claudiux/5.4/applet.js:866 | two or more artists are the join of all but the last, then ", ", then the last |
| PlayerText.ArtistOf | sound150@claudiux/files/sound150@claudiux/5.4/applet.js:856-873 | the artist is never empty. A missing or non-string entry gives "Unknown Artist", and any other artist comes from a string or string-array entry |
| PlayerText.ArtistAsSent | sound150@claudiux/files/sound150@claudiux/5.4/applet.js:856-873 | a non-empty artist is shown as sent, whether as a string or as a one-element array |
| PlayerText.AlbumOf | sound150@claudiux/files/sound150@claudiux/5.4/applet.js:877-880 | a present album entry is shown (even empty); a missing one gives "Unknown Album" |
| PlayerText.TrackTextOf | sound150@claudiux/files/sound150@claudiux/5.4/applet.js:882-890 | a missing title gives "Unknown Title". A title is taken as is unless the artist is unknown and it holds " - ". Then the artist is the piece before the first " - ", and the title is the piece after it, up to the next " - " |
| PlayerText.CombinedTitleSplits | sound150@claudiux/files/sound150@claudiux/5.4/applet.js:882-890 | for a dash-free artist, the title "artist - title" splits into the artist and the first piece of the title; a title without " - " comes back whole |
| PlayerText.TitleText | sound150@claudiux/files/sound150@claudiux/5.4/applet.js:1767-1772 | an unknown artist gives just the title; a known one gives the title, " - " and the artist |
| PlayerText.SliceEnd | sound150@claudiux/files/sound150@claudiux/5.4/applet.js:1775 | `slice`'s end index: an end beyond the length is the length, a negative one counts from the end (not below 0), any other is kept |
| PlayerText.Truncate | sound150@claudiux/files/sound150@claudiux/5.4/applet.js:1773-1776 | a short text is kept. A long one becomes a proper prefix plus "...", exactly `truncatetext` characters long when that is at least 3, and never more than 3 longer than the text |
| PlayerText.TruncateBelowThree | sound150@claudiux/files/sound150@claudiux/5.4/applet.js:1773-1776 | below 3 the negative end counts from the end: "abcdef" with limit 0 shows "abc..." |
| PlayerText.AppletText | sound150@claudiux/files/sound150@claudiux/5.4/applet.js:1764-1780 | empty unless the option is on and the player plays. Otherwise at most `truncatetext` long (when ≥ 3), and unchanged when it fits |
| KnownPlayers.Remember | sound150@claudiux/files/sound150@claudiux/5.4/applet.js:1914-1924 | the entry is then listed, the old list is a prefix, and nothing else is added |
| KnownPlayers.RememberIdempotent | sound150@claudiux/files/sound150@claudiux/5.4/applet.js:1914-1924 | passing the same entry twice equals passing it once |
| KnownPlayers.RememberKeepsDistinct | sound150@claudiux/files/sound150@claudiux/5.4/applet.js:1914-1924 | the list stays duplicate-free |
| KnownPlayers.RememberGrowsByNew | sound150@claudiux/files/sound150@claudiux/5.4/applet.js:1914-1924 | the list grows by one exactly for a new entry |
| KnownPlayers.RememberAllKeepsDistinct | sound150@claudiux/files/sound150@claudiux/5.4/applet.js:1914-1924 | after any sequence of entries the list is duplicate-free and holds exactly the old and the passed entries |
| KnownPlayers.KnownPlayerList.PassDesktopEntry | sound150@claudiux/files/sound150@claudiux/5.4/applet.js:1914-1924 | the scan-then-push yields `Remember`, and reports a save exactly for a new entry |

## Left out

- User interface: widgets, menus, tooltips, styles, icons as names, cover art, and the systray and keybinding registration.
- D-Bus transport: replies are parameters, and calls the seeker issues are recorded in a ghost log. The initial `ListNames` enumeration of players is not part of this model.
- Cvc mixer I/O: `push_volume`, `change_is_muted` and stream enumeration. The stream is a class with a volume and a mute flag.
- Cvc volumes are unsigned integers and the JavaScript arithmetic is IEEE-754 double precision. The model uses exact `real` arithmetic and does not reproduce rounding. The float loop counter `i += 0.25` is replaced by `k / 4`.
- Horizontal panel scroll (previous/next track) in `_volumeChange`. It is a remote call with no effect on the modelled state.
- The quarter-snap branch of `VolumeSlider._update` (`applet.js:318-328`).
- Volume.VolumeSlider.OnValueChanged and Volume.VolumeChange: assigning the stream volume fires `notify::volume` into `VolumeSlider._update` (connected at `applet.js:221`), whose 100 % branch (`applet.js:311-317`) tests against a window scaled by max/norm and can write norm back to the output stream. The model stops at the assignment, so when max > norm the stream can end at norm where these members say `SliderVolume` or `StepUp`.
- TextWrap.FormatTextWrap: lengths are counted in characters. The source counts `word.length` in UTF-16 code units, so a word outside the Basic Multilingual Plane counts two per character there.
- Volume.Magnetize is the specification function of the snapping loop and carries no ensures of its own; its behaviour is stated by `SnapsOntoNominal`, `SnapsOntoQuarter`, `MagnetizeSnapsOntoCentre`, `MagnetizeKeepsFarVolume`, `MagnetizeMoves`, `MagnetizePositive` and `MagnetizeWithinCeiling`.
- `_notifyVolumeChange` (a sound), the mute button, and the microphone suffix of the icon names.
- Saving the known-players list and `_updateLaunchPlayer`. `PassDesktopEntry` reports `added` where the source calls them.
- `Util.splitByGlyph`: the panel text is truncated by characters, not by grapheme clusters.
- `St.Slider.setValue` is host code. The seeker's `SliderPosition` takes it to clamp to [0, 1].
- A `NaN` playback rate is not modelled; a rate is a `real` or null.
- Volume.VolumeSlider.OnKeyPress: requires `max > 0` and `step > 0`. The settings never give other values, but the source does not check them.
- Volume.SliderStep, Volume.SliderDelta, Volume.SliderIconLevel and Volume.VolumeSlider.OnScroll: require `max > 0`, because they divide by it.
- PlayerRegistry.Registry.ChangePlayerOwner: validity is promised only for distinct owners. With equal owners the code deletes the entry it has just written, which D-Bus never asks for.

## Findings

| source | as written | input that shows it | evidently intended | confidence | as-written member | corrected member |
|---|---|---|---|---|---|---|
| sound150@claudiux/files/sound150@claudiux/5.4/applet.js:353-374 | the slider icon compares `floor(300·value)/100 < 3·nominal` for "high", so exactly 100 % of nominal falls through to "overamplified" | `max == norm` (the default) and slider value 1.0: the slider icon shows "overamplified" while the panel icon (`volume > 100`) shows "high" | "overamplified" only above the nominal volume, as on the panel | medium, not executed | Volume.SliderIconAtNominal | Volume.SliderIconAboveNominalMeansLoud |
