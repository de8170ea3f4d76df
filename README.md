# A verified model of the shared YouTube player

This project models the logic core of `mre-ytplayer` in Dafny. `mre-ytplayer` is a Mixed Reality Extension app that shows one YouTube panel to everyone in a virtual space. Users pick items from a paginated catalog and drive one shared playback session with on-screen transport buttons.

The model covers five parts of the app:

- **The playback session controller** (`src/app.ts`). This covers play, stop, rewind and fast-forward. It includes the 5-second end-of-item timer, which either resumes the item an ad interrupted or advances to the next catalog item. It also includes ad preemption (the "Duke ads" interruption), the carry-forward of sound options, and the volume and rolloff steps.
- **The time-string codec** (`src/utils/index.ts`). This is `secondsToString` and `hmsToSecondsOnly`.
- **The catalog controller** (`src/actors/youtube-selections-controller.ts`). This covers:
  - the circular next-item map, built from a result page;
  - the pager buttons;
  - the `ignoreClicks` latch;
  - the rule for refreshing the search term.
- **The resolver and search adapter** (`src/services/yt-service.ts`). This covers the cache-then-resolve rule, the choice of stream format, and the filtering and truncation of search results.
- **The player controls** (`src/actors/player-controls.ts`). This covers the command latch around action dispatch, and the title and remaining-time label text.

## Structure

- `Wrappers.dfy`: `Option`.
- `Models.dfy`: the records of `src/models/*.ts`, plus the `ScreenContext` class. That class is the shared context that the app, the controls and the catalog all update in place.
- `TimeFormat.dfy`:
  - a model of JavaScript `parseInt` with radix 10 (leading whitespace, a sign, the longest digit prefix, NaN when there is none);
  - `parseInt` with no radix, where a "0x" or "0X" prefix selects base 16;
  - `split(':')`;
  - `secondsToString`;
  - `hmsToSecondsOnly`, written as a `while` loop proved against a function.
- `DisplayText.dfy`: the title label text and the remaining-time label text.
- `YtService.dfy`:
  - descriptor building and format choice;
  - `Resolve`, which is the reference for the resolver;
  - the `VideoService` class, whose cache map the resolver updates;
  - the search loop, proved against a reference definition.
- `Selections.dfy`:
  - the mapping loop, proved against a fold;
  - the circular-map lemmas;
  - the pager functions;
  - the `SelectionsController` class.
- `Session.dfy`: every `src/app.ts` transition as a function from a `Playback` value to a `Step`. A `Playback` value holds the context's playback fields, whether a media instance exists, and the resolver cache. A `Step` is the state after the transition plus whether the call returned normally or threw. The lemmas about these transitions are in the same file.
- `Player.dfy`:
  - the `App` class, whose methods update the context step by step, as the source does. Each method is proved to leave exactly the state that the matching `Session` function computes.
  - the `PlayerControls` class, with the latch;
  - the catalog's play-card handler.

## Conventions

- **Time.**
  - `Date.now()` is the parameter `now`, in milliseconds. Each handler sees one `now`. `onPlay` reads the clock before it awaits the resolver and again after it (`src/app.ts:142`, `:160`, `:164`). The time spent resolving is not modelled, so the ad check and the start alignment see the same `now`.
  - Running time, start time and `soundOptions.time` are integer milliseconds. The source keeps the running time and `soundOptions.time` in seconds with millisecond precision (`src/app.ts:121`, `:161`). It keeps the start time in epoch milliseconds (`src/app.ts:160`).
  - The seek distance is in whole seconds, as configured, so a seek moves the running time by `seek*1000`.
- **Volume** is in integer hundredths. This matches the rounding at `src/app.ts:378`.
- **Rolloff** is a `real`.
- **NaN.** A JavaScript `NaN` is `None`. This applies to `parseInt`, `hmsToSecondsOnly`, the remaining time and the ad rerun time.
- **Throws.** A call that throws returns `ok == false`, after the updates it made before throwing.
- **The armed timer** is the context field `streamInterval`. It is `None` when no timer is armed. Otherwise it holds the item descriptor that the callback captured.
- **Abstract inputs.**
  - The resolver `ytdl.getInfo` is the parameter `lookup`, a function from an id to an `InfoOutcome`: a throw, or an info record.
  - The search library is the parameter `searchApi`, which gives `None` when it throws.
  - The text the user enters at the prompt is the parameter `answer`.
  - Environment variables and launch parameters are fields of `Session.Config`.

## Behaviour that may be unexpected

The model follows the code in each case below.

- **Fast-forward moves from the stored running time.** The code adds the seek distance to the stored `progress.runningTime`, which only the last tick refreshed (`src/app.ts:232`). It does not add it to the elapsed time, as rewind does. See `Session.FastForwardPosition`.
- **A failed resolution throws.** The code dereferences the null result at `src/app.ts:152`, so `onPlay` throws rather than returning quietly. By then a due ad has already set `dukeAdsPlayActive` and `dukeAdsProgress`. `Session.Play` returns `ok == false` with those fields set. It does not require the resolution to succeed.
- **One malformed search result fails the whole search.** An empty `thumbnails` or `runs` list makes `[0].url` or `[0].text` throw, and the throw ends the search (`src/services/yt-service.ts:84`, `:89`). See `YtService.ItemStream` and `YtService.SearchThrows`.
- **The volume can leave 0..100.** The "down" step adds 10 hundredths to any volume from 10 up to below 100, so 95 becomes 105 (`Session.VolumeOvershoot`). Volumes on the grid that the steps reach from the default stay within 0..100 (`Session.VolumeGridInvariant`).
- **The `v` parameter is read without a radix** (`src/app.ts:69`), so "0x32" gives a volume of 50 hundredths (`TimeFormat.HexVersusDecimal`).

## Behaviour worth knowing

- **Picking a card during an ad can wedge the session.** `onStop` refuses to act while the ad is active. The new item is then installed with its progress cleared. When the picked item's duration parses to a positive number of seconds, the ad's timer keeps running with the ad flag up, and neither stop nor the timer ever changes the state again (`Session.PickDuringAd`). When the picked item has no duration, as a live search result has none, the remaining time is NaN, so the next tick ends the ad: the flag goes down and the kept progress is cleared (`Session.PickDuringAdWithoutDuration`).
- **The latch clears even when the action throws.** `handleButtonAction` does not await its dispatch, so the latch is always clear again after a dispatch.

## Model

| member | source | states |
|---|---|---|
| TimeFormat.SecondsToString | src/utils/index.ts:2-8 | the text is 8 characters "HH:MM:SS": colons at positions 2 and 5, digits elsewhere; the fields are the hours of the day, the minutes of the hour and the seconds of the minute |
| TimeFormat.SecondsToStringPeriodic | src/utils/index.ts:4-6 | the text depends only on the second count modulo 86400 |
| TimeFormat.HmsToSecondsOnly | src/utils/index.ts:15-25 | the pop loop computes the fields weighted by powers of 60 from the right; a NaN field makes the result NaN |
| TimeFormat.HmsOneField | src/utils/index.ts:15-25 | "s" reads as parseInt(s) |
| TimeFormat.HmsTwoFields | src/utils/index.ts:15-25 | "m:s" reads as s + 60*m |
| TimeFormat.HmsThreeFields | src/utils/index.ts:15-25 | "h:m:s" reads as h*3600 + m*60 + s |
| TimeFormat.ClockReadsBack | src/utils/index.ts:2-25 | the zero-padded "hh:mm:ss" of h, m and s reads back as h*3600 + m*60 + s |
| TimeFormat.EmptyIsNaN | src/utils/index.ts:15-25 | the empty string, and so an undefined duration, reads as NaN |
| TimeFormat.ParseIntAuto | src/app.ts:69 | without a "0x"/"0X" prefix after the sign it reads as base-10 `parseInt`; with one it reads the hexadecimal digits that follow, and is NaN exactly when there are none |
| TimeFormat.ParseIntAutoHex | src/app.ts:69 | "0x" or "0X" followed by hexadecimal digits reads as their base-16 value |
| TimeFormat.HexVersusDecimal | src/app.ts:69 | "0x32" reads as 50 without a radix, and as 0 in base 10 |
| TimeFormat.SplitJoin | src/utils/index.ts:16 | splitting a join of colon-free fields on ':' gives the fields back |
| TimeFormat.JoinSplit | src/utils/index.ts:16 | joining the pieces of a split with ':' gives the string back |
| TimeFormat.RoundTrip | src/utils/index.ts:2-25 | for 0 <= s < 86400, hmsToSecondsOnly(secondsToString(s)) == s |
| TimeFormat.LiveSentinel | src/services/yt-service.ts:50 | the live duration "23:59:59" is secondsToString(86399) and reads back as 86399 |
| DisplayText.StripUnprintable | src/actors/player-controls.ts:185 | the result holds only characters in 0x20-0x7E, is no longer than the title, and leaves a fully printable title as it is |
| DisplayText.StripAppend | src/actors/player-controls.ts:185 | stripping a concatenation gives the concatenation of the stripped parts, so the printable characters are kept in order |
| DisplayText.StripOne | src/actors/player-controls.ts:185 | one character is kept exactly when it is printable |
| DisplayText.TitleDisplay | src/actors/player-controls.ts:183-186 | at most 58 characters; up to 55 characters the text is the stripped title; above 55 it is the first 55 stripped characters (or all of them, when fewer) followed by "..."; a printable title is cut to 55 |
| DisplayText.RemainingLabel | src/actors/player-controls.ts:247-251 | "00:00:00" for NaN or a remaining time of -1 s or less; secondsToString of the whole seconds for 0 or more; "0-1:0-1:0-1" just below 0 |
| DisplayText.RemainingLabelReadsBack | src/actors/player-controls.ts:247-251 | under a day, the label reads back as the whole seconds remaining |
| YtService.CacheKeyInjective | src/services/yt-service.ts:12 | different ids have different cache keys |
| YtService.FirstWhere | src/services/yt-service.ts:41-46 | `find`: the index of the first format that satisfies the test, or none exactly when no format does |
| YtService.Describe | src/services/yt-service.ts:30-53 | the id is the requested one; the duration is secondsToString(lengthSeconds); itag 22 is preferred over 18, either giving url + "&.mp4"; otherwise the first HLS format gives a live item lasting "23:59:59"; with no usable format the uri is "<onClick>" |
| YtService.CachedUnderOwnId | src/services/yt-service.ts:12-16 | in a coherent cache, the entry under `yt-<id>` has that id |
| YtService.Resolve | src/services/yt-service.ts:10-63 | a cache hit is returned and the cache is unchanged; otherwise a descriptor exists exactly when the info has `videoDetails` and a thumbnail object, and it is then cached under `yt-<id>`; a null result caches nothing; a coherent cache stays coherent |
| YtService.VideoService.GetVideoStreamFromYT | src/services/yt-service.ts:10-63 | the result and the new cache are those of `Resolve` |
| YtService.ItemStream | src/services/yt-service.ts:80-90 | the id, duration and title are the item's; the uri is "<onClick>" and the item is not live; the photo is the first thumbnail; building fails exactly on an empty thumbnail list or an empty byline list; the author is the first byline run, or "unlisted" when that is missing or empty |
| YtService.Videos | src/services/yt-service.ts:75-79 | filtering never lengthens the list |
| YtService.VideosFiltered | src/services/yt-service.ts:75-79 | every kept result is a video taken from the input, and every video of the input is kept |
| YtService.VideosAppend | src/services/yt-service.ts:75-79 | filtering distributes over concatenation, so input order is kept |
| YtService.StreamsOf | src/services/yt-service.ts:80-92 | a successful build has one descriptor per item; `StreamsOfElements` states which |
| YtService.StreamsOfElements | src/services/yt-service.ts:80-92 | the descriptors succeed exactly when every item does, and the i-th is the i-th item's descriptor |
| YtService.StreamsOfAppend | src/services/yt-service.ts:80-92 | building descriptors distributes over concatenation |
| YtService.SearchLimit | src/services/yt-service.ts:93-95 | the loop keeps at least one result, and keeps exactly totalCount when totalCount >= 1 |
| YtService.SearchResults | src/services/yt-service.ts:72-98 | a successful search holds at most the limit and at most the number of videos |
| YtService.SearchResultsMeaning | src/services/yt-service.ts:72-98 | a successful search holds the descriptors of the first min(limit, videos) videos, in order; it fails exactly when one of those videos has no descriptor |
| YtService.SearchFull | src/services/yt-service.ts:92-95 | once the limit is reached, later results do not matter |
| YtService.SearchThrows | src/services/yt-service.ts:84-89 | a throwing video within the limit fails the whole search |
| YtService.SearchStep | src/services/yt-service.ts:75-92 | one more raw item leaves the descriptors unchanged when it is not a video, and otherwise appends its descriptor or fails |
| YtService.SearchExhausted | src/services/yt-service.ts:75-97 | when the input runs out below the limit, the result is the descriptors of all its videos |
| YtService.GetVideoStreamFromSearch | src/services/yt-service.ts:72-98 | the loop with `continue` and early `break` equals `SearchResults` |
| Selections.BuildNextStreamMapping | src/actors/youtube-selections-controller.ts:147-175 | the `prev`/`first` loop and the closing link compute `NextStreamMapping` |
| Selections.GetNextStream | src/actors/youtube-selections-controller.ts:110 | a successor exists exactly when the id is mapped, and it is the mapped item |
| Selections.MappingAfterPage | src/actors/youtube-selections-controller.ts:141-175 | a failed or empty page leaves the previous map as it was; a one-item page leaves it empty; a page of two or more items gets `NextStreamMapping`, whose links `CircularMapping` states |
| Selections.LinkPrefix | src/actors/youtube-selections-controller.ts:150-156 | after k items, each of the first k-1 items is mapped to its successor, the first item is remembered, and only those ids are mapped |
| Selections.CircularMapping | src/actors/youtube-selections-controller.ts:147-175 | for N >= 2 distinct non-empty ids, item i maps to item i+1 and the last item maps to the first |
| Selections.MappingDomain | src/actors/youtube-selections-controller.ts:147-175 | only ids of the page are mapped |
| Selections.Orbit | src/actors/youtube-selections-controller.ts:110 | N steps of getNextStream from any item of the page return to that item |
| Selections.CycleOrbit | src/actors/youtube-selections-controller.ts:110 | for any map that links the page's items into one circle in page order, N steps of getNextStream from any item return to it |
| Selections.SingleItemPage | src/actors/youtube-selections-controller.ts:173-175 | a one-item page leaves the map empty, so no item has a successor |
| Selections.InitialPager | src/actors/youtube-selections-controller.ts:255-265 | an existing pager is kept; otherwise start 0, page size 18, total 18, one page, hidden |
| Selections.PageNext | src/actors/youtube-selections-controller.ts:356-360 | start moves on by 18 and wraps to 0 past the total; the page size is 18; nothing else changes |
| Selections.PagePrev | src/actors/youtube-selections-controller.ts:372-376 | start moves back by 18, clamped at 0; the page size is 18; nothing else changes |
| Selections.PagingKeepsRange | src/actors/youtube-selections-controller.ts:352-383 | both buttons keep the start between 0 and the total |
| Selections.PrevUndoesNext | src/actors/youtube-selections-controller.ts:356-376 | within the total, "previous" undoes "next" |
| Selections.PromptedTerm | src/actors/youtube-selections-controller.ts:339-341 | the term is replaced only by a submitted non-empty answer |
| Selections.SearchQuery | src/actors/youtube-selections-controller.ts:135 | the query starts with the term and is longer exactly when karaoke is on, when it ends in " karaoke" |
| Selections.SelectionsController.constructor | src/actors/youtube-selections-controller.ts:254-265 | setup initialises the pager only when it is absent; the map starts empty and the panel hidden |
| Selections.SelectionsController.DisplayPage | src/actors/youtube-selections-controller.ts:111-207 | the search query is the term plus " karaoke" when enabled; a non-empty page rebuilds the map; an empty page leaves it unchanged; a throwing search returns false with no cards |
| Selections.SelectionsController.CloseMovieSelectionPicker | src/actors/youtube-selections-controller.ts:227-252 | the panel is hidden and the pager is marked hidden; nothing else changes |
| Selections.SelectionsController.OpenPanel | src/actors/youtube-selections-controller.ts:324-333 | the panel is shown and the pager is marked displayed; the page is rebuilt only when asked |
| Selections.SelectionsController.DisplayMovieSelectionPicker | src/actors/youtube-selections-controller.ts:323-351 | the term follows `PromptedTerm`; the pager keeps its start, page size, total and page count; a non-empty term that differs from the previous search becomes the previous search and rebuilds the shown page; any other term leaves the map, the cards and the previous search unchanged and only reopens a hidden page that exists, marking the pager displayed |
| Selections.SelectionsController.HandlePageNextButton | src/actors/youtube-selections-controller.ts:352-367 | with the latch clear and the panel shown, the pager moves as `PageNext`; otherwise nothing changes; the latch ends as it began (clear inside the guard) |
| Selections.SelectionsController.HandlePrevPageButton | src/actors/youtube-selections-controller.ts:368-383 | as above, with `PagePrev` |
| Selections.SelectionsController.HandleCloseButton | src/actors/youtube-selections-controller.ts:384-392 | with the latch clear and the panel shown, the picker closes and the latch is clear; otherwise nothing changes |
| Models.ScreenContext.constructor | src/app.ts:303-306 | the session starts with no state, the default item as a bare id, no progress, the default sound options, no ad and no timer |
| Session.GetSeekDistance | src/app.ts:24 | 15 when unset; otherwise the parsed value, possibly NaN |
| Session.GetMaxRolloffDistance | src/app.ts:26 | the parsed value, or 250 when it is NaN or 0; never 0 |
| Session.AsciiLower | src/app.ts:31 | keeps the length and lower-cases exactly the ASCII capitals |
| Session.GetNextAd | src/app.ts:28-38 | an ad is configured exactly when its id is set and the disable switch is not "true" in any case; the rerun time is 20 minutes when unset, otherwise parsed |
| Session.GetDefaultSoundOptions | src/app.ts:66-87 | volume 50 unless `v` is non-empty and its radix-less `parseInt` is a number, which then is the volume; rolloff 5 unless `ro` is a number; spread 0.25; time 0 |
| Session.RunningTime | src/app.ts:118-124 | 0 without progress; otherwise the time since the start, never negative |
| Session.RemainingTime | src/app.ts:125-131 | 0 without a current item |
| Session.RemainingTimeBounds | src/app.ts:125-131 | with a current item: NaN exactly when the duration does not parse; never more than the duration; negative exactly when the running time exceeds the duration |
| Session.Play | src/app.ts:133-201 | `playing` after every call that does not throw; a throw happens only on start (a null resolution) or on a resume without media, and leaves the state and media as they were; a start arms the timer with the pre-resolution item and sets the progress and `soundOptions.time` |
| Session.Stop | src/app.ts:204-217 | acts only with media, no ad running and `playing`; then the session is stopped, with no media, no timer and the controls shown; the progress is never touched |
| Session.CarrySoundOptions | src/app.ts:100-108 | the defaults, keeping the previous volume and rolloff only when they are non-zero |
| Session.PrepareItem | src/app.ts:96-111 | installs the item and the carried sound options; clears the progress exactly when `resetProgress`; when not stopped and media is present it stops first, which, outside an ad and while playing, leaves the session stopped without media or timer and the controls shown; a refused stop (during an ad) leaves state, media, timer and controls as they were; labels, ad fields and cache never change |
| Session.DoPlayActionHelper | src/app.ts:96-113 | after a call that does not throw the session is playing; the controls are shown when the stop acted and otherwise keep their flag; the ad's last-play time is kept; `HelperPlaysItem` and `HelperPreempted` state the item played |
| Session.RewoundTime | src/app.ts:221-222 | max(0, elapsed - seek), and 0 for a NaN seek distance |
| Session.Rewind | src/app.ts:218-225 | without media, without a current item, or during an ad, nothing changes |
| Session.FastForward | src/app.ts:226-235 | unless more than the seek distance remains (and seek is allowed), nothing changes |
| Session.ReplayAt | src/app.ts:220-224 | without progress the seek throws after the stop; after a call that does not throw the session is playing; the kept ad progress stays as it was unless an ad is active afterwards |
| Session.PlayAlignsRunningTime | src/app.ts:159-161 | after a start, the running time at the same `now` equals the stored running time, which is `soundOptions.time`: 0 for an ad, else the saved one |
| Session.PlayWithoutAd | src/app.ts:136-166 | with no ad due, the current item's id is resolved, the play succeeds exactly when it resolves, and the ad fields are untouched |
| Session.AdPreemption | src/app.ts:142-150 | with an ad due, the ad id is resolved, the ad flag is raised, the kept progress is the earlier kept one or else the current one, and the ad starts at 0 |
| Session.FirstPlayIsAd | src/app.ts:134-150 | with the last-play time still 0, a play after the first rerun period is the ad |
| Session.TickWhileRemaining | src/app.ts:170-178 | while time remains, a tick only refreshes the running time and the label |
| Session.TickEndsAd | src/app.ts:180-188 | at the end of an ad: the flag is down, the last-play time is `now`, the pre-ad item plays from the kept progress, and the kept progress is cleared |
| Session.TickAtEndOfItem | src/app.ts:189-193 | at the end of an item with no ad running, the mapped next item (else the captured item) goes to the helper with the progress reset |
| Session.TickAdvances | src/app.ts:189-193 | that item then plays from 0 |
| Session.TickAdvancesIntoAd | src/app.ts:189-193 | if an ad is due then, it preempts the next item and keeps a progress of 0 |
| Session.TickWithoutItem | src/app.ts:190 | at the end with no current item the tick disarms and throws |
| Session.Tick | src/app.ts:169-195 | while time remains the tick returns normally and keeps media, cache, state and timer; at the end with no ad and no current item it disarms and throws; the `Tick*` lemmas state the other cases |
| Session.RewindPosition | src/app.ts:218-225 | rewind replays the same current item, resolved again, from max(0, elapsed - seek), with the timer armed on that item |
| Session.FastForwardPosition | src/app.ts:226-235 | fast-forward replays the same current item, resolved again, from the stored running time plus the seek distance, with the timer armed on that item |
| Session.AdBlocksTransport | src/app.ts:204-235 | during an ad, rewind, fast-forward and stop change nothing |
| Session.PreparedStarts | src/app.ts:96-112 | from a settled session with no ad running, the helper's onPlay takes the start branch |
| Session.HelperPlaysItem | src/app.ts:96-113 | the helper plays the item with the carried sound options, from 0 when resetting and from the stored progress otherwise |
| Session.HelperPreempted | src/app.ts:96-113 | with an ad due, the helper plays the ad and keeps the progress the item would have used |
| Session.PlayKeepsInv | src/app.ts:142-150 | play keeps a kept progress exactly while an ad plays |
| Session.HelperKeepsInv | src/app.ts:96-113 | stop and the helper keep that invariant |
| Session.RewindKeepsInv | src/app.ts:218-225 | rewind keeps that invariant |
| Session.FastForwardKeepsInv | src/app.ts:226-235 | fast-forward keeps that invariant |
| Session.TickKeepsInv | src/app.ts:169-195 | the tick keeps that invariant |
| Session.AdRoundTrip | src/app.ts:142-188 | an item interrupted by an ad resumes, after the ad, at the running time it had before the ad |
| Session.PickDuringAd | src/app.ts:96-113 | picking an item whose duration parses to a positive number of seconds during an ad leaves the ad flag up and the progress cleared; stop and every later tick then change nothing |
| Session.PickDuringAdWithoutDuration | src/app.ts:96-195 | picking an item without a parsable duration during an ad installs it with the ad flag still up; the next tick (with no ad due again) lowers the flag, stamps its time and clears the kept progress |
| Session.VolumeAfter | src/app.ts:376-387 | "down" raises the volume by 2 below 10 and by exactly 10 from 10 up to below 100, and gives 100 at 100 or more; "up" lowers it by 2 from 1 to 10 and by exactly 10 above 10, and gives 0 at 0 or less |
| Session.VolumeGridInvariant | src/app.ts:378-383 | the steps keep a volume on the grid they start on, within 0..100 |
| Session.VolumeOvershoot | src/app.ts:380 | off the grid, "down" takes 95 to 105 |
| Session.RolloffAfter | src/app.ts:388-400 | "down" by 0.2 but never below 0.2; "up" by 0.2, capped at the maximum only when already at or above it |
| Player.App.constructor | src/app.ts:289-308 | the app starts without media, with the invariant holding |
| Player.App.OnPlay | src/app.ts:133-201 | the new state and the outcome are those of `Session.Play`; the catalog fields are untouched |
| Player.App.StartStream | src/app.ts:136-166 | the start branch of onPlay, equal to `Session.Play` |
| Player.App.PreemptIfDue | src/app.ts:137-150 | the id to resolve, the starting progress and the ad fields, as onPlay sets them |
| Player.App.StartPlayback | src/app.ts:159-195 | the fields onPlay sets after resolution, with media present and the timer cleared and re-armed on the pre-resolution item |
| Player.App.ShowItem | src/app.ts:159-164 | the progress aligned with the clock, `soundOptions.time`, the item, its title and its remaining-time label |
| Player.App.OnStop | src/app.ts:204-217 | the new state is `Session.Stop` of the old one |
| Player.App.DoPlayActionHelper | src/app.ts:96-113 | equal to `Session.DoPlayActionHelper` |
| Player.App.PrepareItem | src/app.ts:96-111 | equal to `Session.PrepareItem` |
| Player.App.HandlePlayButtonClick | src/app.ts:115-116 | the helper with the progress reset |
| Player.App.OnRewind | src/app.ts:218-225 | equal to `Session.Rewind` |
| Player.App.OnFastForward | src/app.ts:226-235 | equal to `Session.FastForward` |
| Player.App.ReplayAt | src/app.ts:220-233 | stop, store the running time (throwing without progress), play |
| Player.App.Tick | src/app.ts:169-195 | equal to `Session.Tick` with the catalog's map; the invariant is kept |
| Player.App.EndOfItem | src/app.ts:179-194 | the end-of-item branch of the tick |
| Player.App.PlayNext | src/app.ts:189-193 | plays the mapped next item, else the captured item, from the start |
| Player.App.EndAd | src/app.ts:182-188 | the ad flag down, the end time stamped, the kept progress restored, the item resumed |
| Player.App.OnOpenMenu | src/app.ts:236-240 | during an ad nothing changes; otherwise the picker runs: the term follows `PromptedTerm`, and a new term becomes the previous search and rebuilds the map and cards with the panel shown, while any other term keeps them and only reopens a hidden page; playback and the latch are not touched; the invariant is kept; the catalog's change is summed up as `MenuOpened` |
| Player.App.OnVolumeChange | src/app.ts:376-387 | only the volume changes, to `VolumeAfter` |
| Player.App.OnRolloffDistanceChange | src/app.ts:388-400 | only the rolloff changes, to `RolloffAfter` with the configured maximum |
| Player.App.SetOnScreenControlsClick | src/app.ts:414-416 | toggles whether the controls are hidden; nothing else changes |
| Player.ActionOf | src/actors/player-controls.ts:299-303 | each button dispatches its own handler, never onCloseMenu |
| Player.ButtonsDistinct | src/actors/player-controls.ts:299-303 | different buttons dispatch different actions |
| Player.Dispatch | src/actors/player-controls.ts:292 | the menu actions change nothing; during an ad every action but play changes nothing; every action keeps the ad invariant |
| Player.PlayerControls.HandleButtonAction | src/actors/player-controls.ts:288-298 | with the latch set nothing is dispatched and nothing changes; with it clear the action is dispatched once and the latch ends clear; the playback state is that of the action; outside the menu the catalog is untouched, and for the menu the catalog changes as the picker changes it (`MenuOpened`: nothing during an ad, else the prompted term, a rebuilt page for a new term or a reopened one otherwise) |
| Player.PlayerControls.HandleButton | src/actors/player-controls.ts:299-303 | with the latch set nothing changes; with it clear the button's own action is dispatched once, the playback state is that action's step, outside the menu the catalog is untouched, for the menu button the catalog changes as `MenuOpened` states, and the latch ends clear |
| Player.HandlePlayCardButton | src/actors/youtube-selections-controller.ts:394-404 | with the latch set nothing changes; otherwise the item plays through the helper with the progress reset; if the play did not throw the panel is hidden and the pager marked hidden, with the term and the rest of the pager kept; a throwing play leaves the catalog as it was; the latch ends clear |

## Left out

- **The network libraries.** `ytdl.getInfo` and `youtube-search-api` are not modelled. They are the inputs `lookup` and `searchApi`.
- **Word wrapping.** The `word-wrap` library is not modelled. The title text is modelled up to the point where it is wrapped.
- **Cache expiry.** The node-cache TTL (60 s by default, 600 s on write) is not modelled. The cache is a map that never evicts.
- **Timers and asynchrony.**
  - `setInterval`, `clearInterval` and the 5-second period are not modelled. The callback is the explicit `Tick`.
  - Interleavings of un-awaited and awaited calls are not modelled either. Each handler runs to completion.
  - No generation counter was added, since the code has none.
- **Scene work.** All MRE scene work, including actors, meshes, materials, layouts, cards and the actor lookup in `setControlsDisplayEnabled`, is not modelled. The prompt's wording is left out too.
- **`src/server.ts`.** It is HTTP plumbing and is not part of this model.
- **`started` and `stopped`.** These are modelled only as the initial context fields and the app's wiring.
- **Parsing.** `parseFloat` of the `ro` parameter is not modelled; the parameter arrives parsed.
- **`lengthSeconds`.** It arrives as a natural number, so a NaN duration ("NaN:NaN:NaN") is not modelled.
- **Floating point.**
  - The IEEE behaviour of volume and rolloff is not modelled; they are integer hundredths and reals.
  - The text of the volume and rolloff labels is not modelled.
  - `secondsToString` is modelled on whole seconds. `src/services/yt-service.ts:32` passes it whole seconds. The remaining-time label passes it fractional seconds, the duration minus `getRunningTime()` (`src/app.ts:121`, `:128`; `src/actors/player-controls.ts:249`). `DisplayText.RemainingLabel` first floors the remaining milliseconds to whole seconds. For a value of 0 or more, this gives the same text, because the source floors the hour, minute and second fields.
- **String length.** Lengths count Dafny characters, which stand in for UTF-16 code units.
- **Constant descriptor fields.** `enabled`, `sbs` and `streamCount` are constants of every descriptor and are not modelled.
- **Search result shape.**
  - An undefined `items` list from the search library is not modelled; that case throws in the code.
  - An undefined `formats` list is not modelled either.
- **Card visibility.** The visibility of cards and of the "no results" placeholder is not modelled. `hasCardsBase` records only whether a page exists.
- **Plain-object lookups.** The next-item map is a Dafny map of its own keys. In the code it is a plain object, so a lookup of an inherited name such as "constructor" finds an `Object.prototype` member, and a write under "__proto__" sets the prototype instead of a key. Ids of that kind are not modelled: `Selections.GetNextStream` and `Selections.NextStreamMapping` see own keys only.
- **`onCloseMenu`.** It does nothing in the code, and the model dispatches it as a step that changes nothing.
- **`paused`.** Nothing in the code enters the `paused` state. It is kept only as the resume branch of `onPlay`.
- YtService.StreamsOf: its own contract states only the length of the result. The element-wise statement is `YtService.StreamsOfElements`.
- YtService.Videos: its own contract states only the length of the result. Which items are kept is stated by `YtService.VideosFiltered`.
- YtService.SearchResults: its own contract states only the length bounds. The contents are stated by `YtService.SearchResultsMeaning`.
- Session.RemainingTime: its own contract states only the case without a current item. The other cases are stated by `Session.RemainingTimeBounds`.
- Session.Rewind: its own contract states only the guard. Its effect is stated by `Session.RewindPosition`, which relies on a successful resolution.
- Session.FastForward: its own contract states only the guard. Its effect is stated by `Session.FastForwardPosition`, which relies on a successful resolution.
- Session.Play: it does not assume the resolver succeeds. The failure path is modelled as a throw, so the lemmas about a successful play require `Resolves`.
- Session.DoPlayActionHelper: its own contract states the final state only in part (playing, controls, last-play time). The `Helper*` lemmas and `Session.PickDuringAd` state it case by case.
- Session.Tick: its own contract states only the running branch and the throw without an item. The `Tick*` lemmas state the other cases.
- Session.ReplayAt: its own contract states only the throw without progress and the outcome state. `Session.RewindPosition` and `Session.FastForwardPosition` state the item and offset it replays.
- Selections.NextStreamMapping: a specification function with no contract of its own. `Selections.CircularMapping`, `Selections.MappingDomain` and `Selections.SingleItemPage` state it, and `Selections.BuildNextStreamMapping` is proved equal to it.
