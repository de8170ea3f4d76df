/**
 * The playback session controller of src/app.ts as transitions over values: play, stop,
 * the seeks, the end-of-item tick with auto-advance or ad resume, ad preemption, the
 * sound-option carry-forward and the volume and rolloff steps. The App class in the
 * Player module runs the same steps in place and is proved equal to these functions.
 *
 * `now` is the value of `Date.now()` in ms; the resolver `ytdl.getInfo` is the function
 * `lookup`; the next-item map of the catalog is the map `nextStreamMapping`.
 */
module Session {
  import opened Wrappers
  import opened Models
  import TimeFormat
  import DisplayText
  import YtService
  import Selections

  /**
   * Everything a playback step reads or writes: the playback fields of the context,
   * whether the app holds a media instance, and the resolver cache.
   */
  datatype Playback = Playback(context: PlaybackFields, mediaPresent: bool, cache: map<string, VideoStream>)

  /** What the environment and the launch parameters fix for a session. */
  datatype Config = Config(
    seekDistance: Option<int>,
    maxRolloffDistance: int,
    nextAd: Option<DukeAds>,
    defaultSoundOptions: SoundOptions)

  /** The state after a step and whether the step returned normally (`false`: it threw). */
  datatype Step = Step(after: Playback, ok: bool)

  type Lookup = string -> YtService.InfoOutcome

  // ---------------------------------------------------------------- configuration

  /** getSeekDistance, in seconds: 15 when unset, otherwise the parsed value (possibly NaN). */
  function GetSeekDistance(env: Option<string>): (r: Option<int>)
    ensures env.None? || env.value == "" ==> r == Some(15)
    ensures env.Some? && env.value != "" ==> r == TimeFormat.ParseInt(env.value)
  {
    if env.Some? && env.value != "" then TimeFormat.ParseInt(env.value) else Some(15)
  }

  /** getMaxRolloffDistance: the parsed value, or 250 when it is NaN or 0. */
  function GetMaxRolloffDistance(env: Option<string>): (r: int)
    ensures r != 0
    ensures var v := TimeFormat.ParseInt(env.GetOr("undefined"));
            r == if v.Some? && v.value != 0 then v.value else 250
  {
    var v := TimeFormat.ParseInt(env.GetOr("undefined"));
    if v.None? || v.value == 0 then 250 else v.value
  }

  /** `toLowerCase` on ASCII letters; no other character lower-cases to a letter of "true". */
  function AsciiLower(s: string): (r: string)
    ensures |r| == |s|
    ensures forall i :: 0 <= i < |s| ==> r[i] == if 'A' <= s[i] <= 'Z' then (s[i] - 'A' + 'a') as char else s[i]
  {
    if |s| == 0 then ""
    else [if 'A' <= s[0] <= 'Z' then (s[0] - 'A' + 'a') as char else s[0]] + AsciiLower(s[1..])
  }

  /**
   * getNextAd: an ad is configured exactly when its id is set and the disable switch does
   * not read "true" in any case; the rerun time defaults to 20 minutes.
   */
  function GetNextAd(adId: Option<string>, rerunTime: Option<string>, disabled: Option<string>): (r: Option<DukeAds>)
    ensures r.Some? <==> adId.Some? && adId.value != "" && !(disabled.Some? && AsciiLower(disabled.value) == "true")
    ensures r.Some? ==> r.value.dukeAdsId == adId.value && r.value.dukeAdsId != ""
    ensures r.Some? ==>
              r.value.dukeAdsRerunTime ==
              (if rerunTime.None? || rerunTime.value == "" then Some(20) else TimeFormat.ParseInt(rerunTime.value))
  {
    var adRerunTime := if rerunTime.Some? && rerunTime.value != "" then TimeFormat.ParseInt(rerunTime.value) else Some(20);
    if adId.Some? && adId.value != "" && !(disabled.Some? && AsciiLower(disabled.value) == "true")
    then Some(DukeAds(adId.value, adRerunTime))
    else None
  }

  /**
   * getDefaultSoundOptions: volume 50 unless the `v` parameter parses, rolloff 5 m unless
   * `ro` gives a number (`ro` arrives parsed, `None` when absent or NaN), spread 0.25, time 0.
   */
  function GetDefaultSoundOptions(v: Option<string>, ro: Option<real>): (r: SoundOptions)
    ensures r.spread == 0.25 && r.time == 0
    ensures r.volume == if v.Some? && v.value != "" && TimeFormat.ParseIntAuto(v.value).Some?
                        then TimeFormat.ParseIntAuto(v.value).value else 50
    ensures r.rolloffStartDistance == ro.GetOr(5.0)
  {
    var volume := if v.Some? && v.value != "" && TimeFormat.ParseIntAuto(v.value).Some?
                  then TimeFormat.ParseIntAuto(v.value).value else 50;
    SoundOptions(volume, 0.25, ro.GetOr(5.0), 0)
  }

  // ---------------------------------------------------------------- queries

  /** getRunningTime, in ms: the elapsed time since `startTime`, never negative, 0 without progress. */
  function RunningTime(progress: Option<Progress>, now: int): (t: nat)
    ensures progress.None? ==> t == 0
    ensures progress.Some? && now >= progress.value.startTime ==> t == now - progress.value.startTime
    ensures progress.Some? && now < progress.value.startTime ==> t == 0
  {
    if progress.None? then 0
    else if now - progress.value.startTime >= 0 then now - progress.value.startTime
    else 0
  }

  /**
   * getRemainingTime, in ms: 0 without a current item, otherwise the parsed duration minus
   * the running time; NaN (`None`) when the duration does not parse.
   */
  function RemainingTime(current: Option<VideoStream>, progress: Option<Progress>, now: int): (r: Option<int>)
    ensures current.None? ==> r == Some(0)
  {
    if current.None? then Some(0)
    else
      var duration := TimeFormat.HmsToSeconds(current.value.duration.GetOr(""));
      if duration.None? then None else Some(duration.value * 1000 - RunningTime(progress, now))
  }

  /**
   * With a current item, the remaining time is NaN exactly when its duration does not parse;
   * otherwise it never exceeds the duration and is negative exactly when the running time does.
   */
  lemma RemainingTimeBounds(current: VideoStream, progress: Option<Progress>, now: int)
    ensures var d := TimeFormat.HmsToSeconds(current.duration.GetOr(""));
            var r := RemainingTime(Some(current), progress, now);
            (r.Some? <==> d.Some?)
            && (r.Some? ==> r.value <= d.value * 1000 && (r.value < 0 <==> RunningTime(progress, now) > d.value * 1000))
  {
  }

  /** Whether an ad preempts a play at `now`. */
  predicate AdDue(nextAd: Option<DukeAds>, lastPlay: int, now: int) {
    nextAd.Some? && nextAd.value.dukeAdsId != "" && nextAd.value.dukeAdsRerunTime.Some?
    && now - lastPlay > nextAd.value.dukeAdsRerunTime.value * (1000 * 60)
  }

  /** The title handed to the title label. */
  function PlayTitle(dukeAdsPlayActive: bool, title: Option<string>): string {
    (if dukeAdsPlayActive then "DUKE ADS: " else "") + title.GetOr("undefined")
  }

  // ---------------------------------------------------------------- transitions

  /** Whether onPlay starts a new stream: stopped or no state, and a current item with an id. */
  predicate Starts(p: PlaybackFields) {
    (p.state.None? || p.state == Some(Stopped)) && p.currentVideoStream.Some? && p.currentVideoStream.value.id != ""
  }

  /** onPlay. A null resolution throws at `ytVideo.title`, after the ad fields are set. */
  function Play(cfg: Config, p: Playback, now: int, lookup: Lookup): (r: Step)
    ensures r.ok ==> r.after.context.state == Some(Playing)
    ensures !r.ok ==> r.after.context.state == p.context.state && r.after.mediaPresent == p.mediaPresent
    ensures !r.ok ==> Starts(p.context) || (p.context.state == Some(Paused) && !p.mediaPresent)
    ensures !Starts(p.context) ==> r.after.context.(state := p.context.state) == p.context && r.after.cache == p.cache
    ensures Starts(p.context) && r.ok ==>
              r.after.mediaPresent && r.after.context.streamInterval == p.context.currentVideoStream
              && r.after.context.progress.Some?
              && r.after.context.soundOptions == p.context.soundOptions.(time := r.after.context.progress.value.runningTime)
    ensures r.after.context.controlsHidden == p.context.controlsHidden
    ensures r.after.context.dukeAdsLastPlayTimestamp == p.context.dukeAdsLastPlayTimestamp
  {
    var ctx := p.context;
    if Starts(ctx) then
      var resolved := YtService.Resolve(p.cache, PlayId(cfg, ctx, now), lookup);
      var ctx1 := Preempted(cfg, ctx, now);
      if resolved.result.None? then Step(Playback(ctx1, p.mediaPresent, resolved.cache), false)
      else Step(Playback(Started(ctx1, resolved.result.value, PlayFrom(cfg, ctx, now), now), true, resolved.cache), true)
    else if ctx.state == Some(Paused) then
      if p.mediaPresent then Step(p.(context := ctx.(state := Some(Playing))), true) else Step(p, false)
    else
      Step(p.(context := ctx.(state := Some(Playing))), true)
  }

  /** The id onPlay resolves: the due ad's, else the current item's. */
  function PlayId(cfg: Config, ctx: PlaybackFields, now: int): string
    requires ctx.currentVideoStream.Some?
  {
    if AdDue(cfg.nextAd, ctx.dukeAdsLastPlayTimestamp, now) then cfg.nextAd.value.dukeAdsId
    else ctx.currentVideoStream.value.id
  }

  /** A due ad becomes active and keeps the item's progress, unless one is already kept. */
  function Preempted(cfg: Config, ctx: PlaybackFields, now: int): PlaybackFields {
    if AdDue(cfg.nextAd, ctx.dukeAdsLastPlayTimestamp, now)
    then ctx.(dukeAdsPlayActive := true,
              dukeAdsProgress := Some(ctx.dukeAdsProgress.GetOr(ctx.progress.GetOr(Progress(0, 0)))))
    else ctx
  }

  /** The progress onPlay starts from: zero for an ad, else the stored one. */
  function PlayFrom(cfg: Config, ctx: PlaybackFields, now: int): Progress {
    if AdDue(cfg.nextAd, ctx.dukeAdsLastPlayTimestamp, now) then Progress(0, 0)
    else ctx.progress.GetOr(Progress(0, 0))
  }

  /** The fields onPlay sets once `ytVideo` is resolved, starting from `from`. */
  function Started(ctx1: PlaybackFields, ytVideo: VideoStream, from: Progress, now: int): PlaybackFields {
    Shown(ctx1, ytVideo, from, now).(streamInterval := ctx1.currentVideoStream, state := Some(Playing))
  }

  /** The progress aligned with the clock, the item, its title and its remaining time. */
  function Shown(ctx1: PlaybackFields, ytVideo: VideoStream, from: Progress, now: int): PlaybackFields {
    var runningTime := from.runningTime;
    var started := Progress(now - runningTime, runningTime);
    ctx1.(
      progress := Some(started),
      soundOptions := ctx1.soundOptions.(time := runningTime),
      currentVideoStream := Some(ytVideo),
      titleText := DisplayText.TitleDisplay(PlayTitle(ctx1.dukeAdsPlayActive, ytVideo.title)),
      remainingTimeText := DisplayText.RemainingLabel(RemainingTime(Some(ytVideo), Some(started), now)))
  }

  /** Whether onStop acts: media present, no ad running, and playing. */
  predicate Stops(p: Playback) {
    p.mediaPresent && !p.context.dukeAdsPlayActive && p.context.state == Some(Playing)
  }

  /**
   * onStop: acts only with media present, no ad active and state `playing`; it then leaves
   * the session stopped, without media and without an armed timer, and shows the controls.
   */
  function Stop(p: Playback): (r: Playback)
    ensures !Stops(p) ==> r == p
    ensures Stops(p) ==> r.context.state == Some(Stopped) && !r.mediaPresent && r.context.streamInterval.None?
                         && !r.context.controlsHidden
    ensures r.context.progress == p.context.progress && r.cache == p.cache
    ensures r.context.(state := p.context.state, streamInterval := p.context.streamInterval,
                       controlsHidden := p.context.controlsHidden) == p.context
  {
    if Stops(p) then
      Playback(p.context.(streamInterval := None, controlsHidden := false, state := Some(Stopped)), false, p.cache)
    else p
  }

  /**
   * The sound options doPlayActionHelper installs: the defaults, keeping the previous
   * volume and rolloff when they are non-zero.
   */
  function CarrySoundOptions(defaults: SoundOptions, current: SoundOptions): (r: SoundOptions)
    ensures r.volume == if current.volume != 0 then current.volume else defaults.volume
    ensures r.rolloffStartDistance ==
              if current.rolloffStartDistance != 0.0 then current.rolloffStartDistance else defaults.rolloffStartDistance
    ensures r.spread == defaults.spread && r.time == defaults.time
  {
    var soundOptions := defaults;
    var soundOptions' := if current.volume != 0 then soundOptions.(volume := current.volume) else soundOptions;
    if current.rolloffStartDistance != 0.0
    then soundOptions'.(rolloffStartDistance := current.rolloffStartDistance)
    else soundOptions'
  }

  /** The state doPlayActionHelper hands to onPlay. */
  function PrepareItem(cfg: Config, p: Playback, stream: VideoStream, resetProgress: bool): (r: Playback)
    ensures r.context.currentVideoStream == Some(stream)
    ensures r.context.soundOptions == CarrySoundOptions(cfg.defaultSoundOptions, p.context.soundOptions)
    ensures r.context.progress == if resetProgress then None else p.context.progress
    ensures r.context.dukeAdsPlayActive == p.context.dukeAdsPlayActive
    ensures r.context.dukeAdsProgress == p.context.dukeAdsProgress
    ensures r.context.dukeAdsLastPlayTimestamp == p.context.dukeAdsLastPlayTimestamp
    ensures r.cache == p.cache
    ensures r.context.(currentVideoStream := p.context.currentVideoStream, soundOptions := p.context.soundOptions,
                       progress := p.context.progress, state := p.context.state,
                       streamInterval := p.context.streamInterval, controlsHidden := p.context.controlsHidden)
            == p.context
    ensures r.context.titleText == p.context.titleText && r.context.remainingTimeText == p.context.remainingTimeText
    ensures Stops(p) ==> r.context.state == Some(Stopped) && !r.mediaPresent && r.context.streamInterval.None?
                         && !r.context.controlsHidden
    ensures !Stops(p) ==>
              r.context.state == p.context.state && r.mediaPresent == p.mediaPresent
              && r.context.streamInterval == p.context.streamInterval
              && r.context.controlsHidden == p.context.controlsHidden
  {
    var p1 := if p.context.state != Some(Stopped) && p.mediaPresent then Stop(p) else p;
    var ctx := p1.context.(
      currentVideoStream := Some(stream),
      soundOptions := CarrySoundOptions(cfg.defaultSoundOptions, p1.context.soundOptions),
      progress := if resetProgress then None else p1.context.progress);
    p1.(context := ctx)
  }

  /** doPlayActionHelper: stop if needed, install the item and the sound options, then play. */
  function DoPlayActionHelper(cfg: Config, p: Playback, now: int, stream: VideoStream, resetProgress: bool,
                              lookup: Lookup): (r: Step)
    ensures r.ok ==> r.after.context.state == Some(Playing)
    ensures r.after.context.controlsHidden == (!Stops(p) && p.context.controlsHidden)
    ensures r.after.context.dukeAdsLastPlayTimestamp == p.context.dukeAdsLastPlayTimestamp
  {
    Play(cfg, PrepareItem(cfg, p, stream, resetProgress), now, lookup)
  }

  /** The running time rewind restarts from, in ms. NaN seek distances restart from 0. */
  function RewoundTime(running: nat, seekDistance: Option<int>): (t: int)
    ensures t >= 0
    ensures seekDistance.Some? && running >= seekDistance.value * 1000 ==> t == running - seekDistance.value * 1000
    ensures seekDistance.None? || running < seekDistance.value * 1000 ==> t == 0
  {
    if seekDistance.None? then 0
    else if running - seekDistance.value * 1000 >= 0 then running - seekDistance.value * 1000
    else 0
  }

  /** Whether rewind, fast-forward and the menu may act: media and a current item, and no ad. */
  predicate SeekAllowed(p: Playback) {
    p.mediaPresent && p.context.currentVideoStream.Some? && !p.context.dukeAdsPlayActive
  }

  /**
   * onRewind: stop, move the stored running time back by the seek distance from the elapsed
   * time (clamped at 0), play. Without progress the assignment throws.
   */
  function Rewind(cfg: Config, p: Playback, now: int, lookup: Lookup): (r: Step)
    ensures !SeekAllowed(p) ==> r == Step(p, true)
  {
    if SeekAllowed(p) then ReplayAt(cfg, p, RewoundTime(RunningTime(p.context.progress, now), cfg.seekDistance), now, lookup)
    else Step(p, true)
  }

  /** Both seeks: stop, store `runningTime` in the progress (throwing without one), play. */
  function ReplayAt(cfg: Config, p: Playback, runningTime: int, now: int, lookup: Lookup): (r: Step)
    ensures p.context.progress.None? ==> r == Step(Stop(p), false)
    ensures r.ok ==> r.after.context.state == Some(Playing)
    ensures r.after.context.dukeAdsPlayActive || r.after.context.dukeAdsProgress == p.context.dukeAdsProgress
  {
    var p1 := Stop(p);
    if p1.context.progress.None? then Step(p1, false)
    else
      var progress := p1.context.progress.value.(runningTime := runningTime);
      Play(cfg, p1.(context := p1.context.(progress := Some(progress))), now, lookup)
  }

  /** Whether fast-forward acts: seek allowed and more than the seek distance remaining. */
  predicate ForwardAllowed(cfg: Config, p: Playback, now: int) {
    var remaining := RemainingTime(p.context.currentVideoStream, p.context.progress, now);
    SeekAllowed(p) && remaining.Some? && cfg.seekDistance.Some? && remaining.value > cfg.seekDistance.value * 1000
  }

  /**
   * onFastForward: stop, add the seek distance to the STORED running time (refreshed by the
   * last tick, not the elapsed time), play.
   */
  function FastForward(cfg: Config, p: Playback, now: int, lookup: Lookup): (r: Step)
    ensures !ForwardAllowed(cfg, p, now) ==> r == Step(p, true)
  {
    if ForwardAllowed(cfg, p, now) then
      ReplayAt(cfg, p, p.context.progress.GetOr(Progress(0, 0)).runningTime + cfg.seekDistance.value * 1000, now, lookup)
    else Step(p, true)
  }

  /** The pre-ad progress is saved exactly while an ad is in progress. */
  predicate Inv(p: Playback) {
    p.context.dukeAdsPlayActive <==> p.context.dukeAdsProgress.Some?
  }

  /**
   * The 5-second interval callback, for the timer armed with `captured`. While time
   * remains it refreshes the running time; at the end it disarms, and either ends the ad
   * and replays the pre-ad item from its saved progress, or advances to the mapped next
   * item (else the same item) from the start.
   */
  function Tick(cfg: Config, p: Playback, now: int, nextStreamMapping: map<string, VideoStream>, lookup: Lookup): (r: Step)
    requires Inv(p) && p.context.streamInterval.Some?
    ensures !ItemOver(p, now) ==>
              r.ok && r.after.mediaPresent == p.mediaPresent && r.after.cache == p.cache
              && r.after.context.state == p.context.state && r.after.context.streamInterval == p.context.streamInterval
    ensures ItemOver(p, now) && !p.context.dukeAdsPlayActive && p.context.currentVideoStream.None? ==>
              r == Step(p.(context := p.context.(streamInterval := None)), false)
  {
    var ctx := p.context;
    var currentVideoStream := ctx.streamInterval.value;
    var remainingTime := RemainingTime(ctx.currentVideoStream, ctx.progress, now);
    if remainingTime.Some? && remainingTime.value > 0 then
      if ctx.progress.Some? then
        var progress := ctx.progress.value.(runningTime := RunningTime(ctx.progress, now));
        Step(p.(context := ctx.(progress := Some(progress),
                                remainingTimeText := DisplayText.RemainingLabel(remainingTime))), true)
      else Step(p, true)
    else
      var ctx1 := ctx.(streamInterval := None);
      if ctx1.dukeAdsPlayActive then
        var ctx2 := ctx1.(dukeAdsPlayActive := false, dukeAdsLastPlayTimestamp := now,
                          progress := ctx1.dukeAdsProgress, dukeAdsProgress := None);
        DoPlayActionHelper(cfg, p.(context := ctx2), now, currentVideoStream, false, lookup)
      else if ctx1.currentVideoStream.None? then Step(p.(context := ctx1), false)
      else
        var next := Selections.GetNextStream(nextStreamMapping, ctx1.currentVideoStream.value.id);
        var nextStream := if next.Some? then next.value else currentVideoStream;
        DoPlayActionHelper(cfg, p.(context := ctx1), now, nextStream, true, lookup)
  }

  // ---------------------------------------------------------------- properties

  /** Whether the resolver yields a descriptor for `id`. */
  predicate Resolves(cache: map<string, VideoStream>, id: string, lookup: Lookup) {
    YtService.Resolve(cache, id, lookup).result.Some?
  }

  /** The progress onPlay starts from when no ad preempts it. */
  function StartProgress(p: PlaybackFields): Progress {
    p.progress.GetOr(Progress(0, 0))
  }

  /**
   * A started play aligns the clock: at the same `now` the running time equals the stored
   * running time, which is the saved one (or 0), and the sound options carry it as `time`.
   */
  lemma PlayAlignsRunningTime(cfg: Config, p: Playback, now: int, lookup: Lookup)
    requires Starts(p.context) && Play(cfg, p, now, lookup).ok
    ensures var q := Play(cfg, p, now, lookup).after.context;
            q.progress.Some? && q.soundOptions.time == q.progress.value.runningTime
            && q.progress.value.runningTime ==
                 (if AdDue(cfg.nextAd, p.context.dukeAdsLastPlayTimestamp, now) then 0 else StartProgress(p.context).runningTime)
            && (q.progress.value.runningTime >= 0 ==> RunningTime(q.progress, now) == q.progress.value.runningTime)
  {
  }

  /** Without a due ad, the current item is the one resolved and the ad fields stay as they were. */
  lemma PlayWithoutAd(cfg: Config, p: Playback, now: int, lookup: Lookup)
    requires Starts(p.context) && !AdDue(cfg.nextAd, p.context.dukeAdsLastPlayTimestamp, now)
    ensures var r := Play(cfg, p, now, lookup);
            r.ok == Resolves(p.cache, p.context.currentVideoStream.value.id, lookup)
            && r.after.context.dukeAdsPlayActive == p.context.dukeAdsPlayActive
            && r.after.context.dukeAdsProgress == p.context.dukeAdsProgress
            && (r.ok ==> r.after.context.currentVideoStream ==
                           YtService.Resolve(p.cache, p.context.currentVideoStream.value.id, lookup).result)
  {
  }

  /**
   * Ad preemption: the ad id is resolved instead of the item, the ad flag is raised, the
   * progress to resume is the earlier saved one or else the current one, and the ad starts at 0.
   */
  lemma AdPreemption(cfg: Config, p: Playback, now: int, lookup: Lookup)
    requires Starts(p.context) && AdDue(cfg.nextAd, p.context.dukeAdsLastPlayTimestamp, now)
    ensures var r := Play(cfg, p, now, lookup);
            r.after.context.dukeAdsPlayActive
            && r.after.context.dukeAdsProgress == Some(p.context.dukeAdsProgress.GetOr(StartProgress(p.context)))
            && r.ok == Resolves(p.cache, cfg.nextAd.value.dukeAdsId, lookup)
            && (r.ok ==> r.after.context.currentVideoStream ==
                           YtService.Resolve(p.cache, cfg.nextAd.value.dukeAdsId, lookup).result
                         && r.after.context.progress.value.runningTime == 0
                         && r.after.context.streamInterval == p.context.currentVideoStream)
  {
  }

  /** With the last-play time still 0, a play after the first rerun period is the ad. */
  lemma FirstPlayIsAd(cfg: Config, p: Playback, now: int, lookup: Lookup)
    requires Starts(p.context) && p.context.dukeAdsLastPlayTimestamp == 0
    requires cfg.nextAd.Some? && cfg.nextAd.value.dukeAdsId != "" && cfg.nextAd.value.dukeAdsRerunTime.Some?
    requires now > cfg.nextAd.value.dukeAdsRerunTime.value * 60000
    ensures Play(cfg, p, now, lookup).after.context.dukeAdsPlayActive
  {
    AdPreemption(cfg, p, now, lookup);
  }

  /** While time remains, a tick only refreshes the stored running time and the label. */
  lemma TickWhileRemaining(cfg: Config, p: Playback, now: int, nextStreamMapping: map<string, VideoStream>, lookup: Lookup)
    requires Inv(p) && p.context.streamInterval.Some? && p.context.progress.Some?
    requires var t := RemainingTime(p.context.currentVideoStream, p.context.progress, now); t.Some? && t.value > 0
    ensures var r := Tick(cfg, p, now, nextStreamMapping, lookup);
            r.ok && r.after.mediaPresent == p.mediaPresent && r.after.cache == p.cache
            && r.after.context == p.context.(
                 progress := Some(p.context.progress.value.(runningTime := RunningTime(p.context.progress, now))),
                 remainingTimeText := r.after.context.remainingTimeText)
            && r.after.context.remainingTimeText ==
                 DisplayText.RemainingLabel(RemainingTime(p.context.currentVideoStream, p.context.progress, now))
  {
  }

  /** Whether a tick at `now` finds the item over. */
  predicate ItemOver(p: Playback, now: int) {
    var t := RemainingTime(p.context.currentVideoStream, p.context.progress, now);
    !(t.Some? && t.value > 0)
  }

  /** The helper's stop succeeds or is not needed: never paused, and playing only with media. */
  predicate Settled(p: Playback) {
    p.context.state != Some(Paused) && (p.context.state == Some(Playing) ==> p.mediaPresent)
  }

  /**
   * At the end of an ad, a tick clears the flag, stamps the last-play time, and replays the
   * pre-ad item from the saved progress; the saved progress is then cleared.
   */
  lemma TickEndsAd(cfg: Config, p: Playback, now: int, nextStreamMapping: map<string, VideoStream>, lookup: Lookup)
    requires Inv(p) && p.context.streamInterval.Some? && ItemOver(p, now) && p.context.dukeAdsPlayActive
    requires Settled(p) && p.context.streamInterval.value.id != ""
    requires !AdDue(cfg.nextAd, now, now)
    requires Resolves(p.cache, p.context.streamInterval.value.id, lookup)
    ensures var r := Tick(cfg, p, now, nextStreamMapping, lookup);
            r.ok && !r.after.context.dukeAdsPlayActive && r.after.context.dukeAdsProgress.None?
            && r.after.context.dukeAdsLastPlayTimestamp == now
            && r.after.context.state == Some(Playing) && r.after.mediaPresent
            && r.after.context.currentVideoStream ==
                 YtService.Resolve(p.cache, p.context.streamInterval.value.id, lookup).result
            && r.after.context.progress.value.runningTime == p.context.dukeAdsProgress.value.runningTime
            && r.after.context.streamInterval == Some(p.context.streamInterval.value)
  {
    var ctx1 := p.context.(streamInterval := None);
    var ctx2 := ctx1.(dukeAdsPlayActive := false, dukeAdsLastPlayTimestamp := now,
                      progress := ctx1.dukeAdsProgress, dukeAdsProgress := None);
    assert Tick(cfg, p, now, nextStreamMapping, lookup) ==
           DoPlayActionHelper(cfg, p.(context := ctx2), now, p.context.streamInterval.value, false, lookup);
    HelperPlaysItem(cfg, p.(context := ctx2), now, p.context.streamInterval.value, false, lookup);
  }

  /** The item a tick advances to: the mapped successor of the current item, else the captured item. */
  function NextItem(p: Playback, nextStreamMapping: map<string, VideoStream>): VideoStream
    requires p.context.streamInterval.Some? && p.context.currentVideoStream.Some?
  {
    var next := Selections.GetNextStream(nextStreamMapping, p.context.currentVideoStream.value.id);
    if next.Some? then next.value else p.context.streamInterval.value
  }

  /** At the end of an item with no ad running, a tick hands the next item to the helper with progress reset. */
  lemma TickAtEndOfItem(cfg: Config, p: Playback, now: int, nextStreamMapping: map<string, VideoStream>, lookup: Lookup)
    requires Inv(p) && p.context.streamInterval.Some? && ItemOver(p, now) && !p.context.dukeAdsPlayActive
    requires p.context.currentVideoStream.Some?
    ensures Tick(cfg, p, now, nextStreamMapping, lookup) ==
            DoPlayActionHelper(cfg, p.(context := p.context.(streamInterval := None)), now,
                               NextItem(p, nextStreamMapping), true, lookup)
  {
  }

  /**
   * At the end of an item with no ad running or due, a tick plays the mapped next item
   * (else the same item) from the start.
   */
  lemma TickAdvances(cfg: Config, p: Playback, now: int, nextStreamMapping: map<string, VideoStream>, lookup: Lookup)
    requires Inv(p) && p.context.streamInterval.Some? && ItemOver(p, now) && !p.context.dukeAdsPlayActive
    requires Settled(p) && p.context.currentVideoStream.Some?
    requires NextItem(p, nextStreamMapping).id != ""
    requires !AdDue(cfg.nextAd, p.context.dukeAdsLastPlayTimestamp, now)
    requires Resolves(p.cache, NextItem(p, nextStreamMapping).id, lookup)
    ensures var r := Tick(cfg, p, now, nextStreamMapping, lookup);
            var next := NextItem(p, nextStreamMapping);
            r.ok && r.after.context.currentVideoStream == YtService.Resolve(p.cache, next.id, lookup).result
            && r.after.context.progress.Some? && r.after.context.progress.value.runningTime == 0
            && r.after.context.streamInterval == Some(next)
  {
    TickAtEndOfItem(cfg, p, now, nextStreamMapping, lookup);
    HelperPlaysItem(cfg, p.(context := p.context.(streamInterval := None)), now, NextItem(p, nextStreamMapping), true, lookup);
  }

  /** If an ad is due when an item ends, it preempts the next item, saving a progress of 0 to resume. */
  lemma TickAdvancesIntoAd(cfg: Config, p: Playback, now: int, nextStreamMapping: map<string, VideoStream>, lookup: Lookup)
    requires Inv(p) && p.context.streamInterval.Some? && ItemOver(p, now) && !p.context.dukeAdsPlayActive
    requires Settled(p) && p.context.currentVideoStream.Some?
    requires NextItem(p, nextStreamMapping).id != ""
    requires AdDue(cfg.nextAd, p.context.dukeAdsLastPlayTimestamp, now)
    ensures var r := Tick(cfg, p, now, nextStreamMapping, lookup);
            r.after.context.dukeAdsPlayActive && r.after.context.dukeAdsProgress == Some(Progress(0, 0))
  {
    TickAtEndOfItem(cfg, p, now, nextStreamMapping, lookup);
    HelperPreempted(cfg, p.(context := p.context.(streamInterval := None)), now, NextItem(p, nextStreamMapping), true, lookup);
  }

  /** A tick at the end with no current item throws (it reads the id of undefined), after disarming. */
  lemma TickWithoutItem(cfg: Config, p: Playback, now: int, nextStreamMapping: map<string, VideoStream>, lookup: Lookup)
    requires Inv(p) && p.context.streamInterval.Some? && p.context.currentVideoStream.None?
    requires !p.context.dukeAdsPlayActive
    ensures Tick(cfg, p, now, nextStreamMapping, lookup) == Step(p.(context := p.context.(streamInterval := None)), false)
  {
  }

  /** Rewind from a playing item restarts it from the elapsed time less the seek distance, clamped at 0. */
  lemma RewindPosition(cfg: Config, p: Playback, now: int, lookup: Lookup)
    requires SeekAllowed(p) && p.context.state == Some(Playing) && p.context.progress.Some?
    requires p.context.currentVideoStream.value.id != ""
    requires !AdDue(cfg.nextAd, p.context.dukeAdsLastPlayTimestamp, now)
    requires Resolves(p.cache, p.context.currentVideoStream.value.id, lookup)
    ensures var r := Rewind(cfg, p, now, lookup);
            r.ok && r.after.context.state == Some(Playing)
            && r.after.context.progress.value.runningTime ==
                 RewoundTime(RunningTime(p.context.progress, now), cfg.seekDistance)
            && r.after.context.currentVideoStream ==
                 YtService.Resolve(p.cache, p.context.currentVideoStream.value.id, lookup).result
            && r.after.context.streamInterval == p.context.currentVideoStream
  {
  }

  /** Fast-forward from a playing item restarts it at the stored running time plus the seek distance. */
  lemma FastForwardPosition(cfg: Config, p: Playback, now: int, lookup: Lookup)
    requires ForwardAllowed(cfg, p, now) && p.context.state == Some(Playing) && p.context.progress.Some?
    requires p.context.currentVideoStream.value.id != ""
    requires !AdDue(cfg.nextAd, p.context.dukeAdsLastPlayTimestamp, now)
    requires Resolves(p.cache, p.context.currentVideoStream.value.id, lookup)
    ensures var r := FastForward(cfg, p, now, lookup);
            r.ok && r.after.context.state == Some(Playing)
            && r.after.context.progress.value.runningTime ==
                 p.context.progress.value.runningTime + cfg.seekDistance.value * 1000
            && r.after.context.currentVideoStream ==
                 YtService.Resolve(p.cache, p.context.currentVideoStream.value.id, lookup).result
            && r.after.context.streamInterval == p.context.currentVideoStream
  {
  }

  /** While an ad runs, rewind, fast-forward and stop change nothing. */
  lemma AdBlocksTransport(cfg: Config, p: Playback, now: int, lookup: Lookup)
    requires p.context.dukeAdsPlayActive
    ensures Rewind(cfg, p, now, lookup) == Step(p, true)
    ensures FastForward(cfg, p, now, lookup) == Step(p, true)
    ensures Stop(p) == p
  {
  }

  /** From a settled session with no ad running, the helper's prepared state starts a play. */
  lemma PreparedStarts(cfg: Config, p: Playback, stream: VideoStream, resetProgress: bool)
    requires Settled(p) && !p.context.dukeAdsPlayActive && stream.id != ""
    ensures Starts(PrepareItem(cfg, p, stream, resetProgress).context)
  {
    if p.context.state.Some? {
      match p.context.state.value
      case Playing => assert Stops(p);
      case Stopped =>
      case Paused =>
    }
  }

  /**
   * doPlayActionHelper from a settled session plays `stream` with the carried-forward sound
   * options, from 0 when `resetProgress` and from the stored progress otherwise.
   */
  lemma HelperPlaysItem(cfg: Config, p: Playback, now: int, stream: VideoStream, resetProgress: bool, lookup: Lookup)
    requires Settled(p) && !p.context.dukeAdsPlayActive && stream.id != ""
    requires !AdDue(cfg.nextAd, p.context.dukeAdsLastPlayTimestamp, now)
    requires Resolves(p.cache, stream.id, lookup)
    ensures var r := DoPlayActionHelper(cfg, p, now, stream, resetProgress, lookup);
            var from := if resetProgress then 0 else StartProgress(p.context).runningTime;
            r.ok && r.after.context.state == Some(Playing) && r.after.mediaPresent
            && r.after.context.currentVideoStream == YtService.Resolve(p.cache, stream.id, lookup).result
            && r.after.context.progress.Some? && r.after.context.progress.value.runningTime == from
            && r.after.context.soundOptions ==
                 CarrySoundOptions(cfg.defaultSoundOptions, p.context.soundOptions).(time := from)
            && r.after.context.streamInterval == Some(stream)
            && r.after.context.dukeAdsPlayActive == p.context.dukeAdsPlayActive
            && r.after.context.dukeAdsProgress == p.context.dukeAdsProgress
            && r.after.context.dukeAdsLastPlayTimestamp == p.context.dukeAdsLastPlayTimestamp
  {
    var q := PrepareItem(cfg, p, stream, resetProgress);
    PreparedStarts(cfg, p, stream, resetProgress);
    PlayWithoutAd(cfg, q, now, lookup);
    PlayAlignsRunningTime(cfg, q, now, lookup);
  }

  /** From a settled session with an ad due, the helper's play is the ad, saving the progress it would have used. */
  lemma HelperPreempted(cfg: Config, p: Playback, now: int, stream: VideoStream, resetProgress: bool, lookup: Lookup)
    requires Settled(p) && !p.context.dukeAdsPlayActive && stream.id != "" && Inv(p)
    requires AdDue(cfg.nextAd, p.context.dukeAdsLastPlayTimestamp, now)
    ensures var r := DoPlayActionHelper(cfg, p, now, stream, resetProgress, lookup);
            r.after.context.dukeAdsPlayActive
            && r.after.context.dukeAdsProgress ==
                 Some(if resetProgress then Progress(0, 0) else StartProgress(p.context))
  {
    var q := PrepareItem(cfg, p, stream, resetProgress);
    PreparedStarts(cfg, p, stream, resetProgress);
    AdPreemption(cfg, q, now, lookup);
  }

  lemma PlayKeepsInv(cfg: Config, p: Playback, now: int, lookup: Lookup)
    requires Inv(p)
    ensures Inv(Play(cfg, p, now, lookup).after)
  {
  }

  /** Stop and the helper keep the saved progress in step with the ad flag. */
  lemma HelperKeepsInv(cfg: Config, p: Playback, now: int, stream: VideoStream, resetProgress: bool, lookup: Lookup)
    requires Inv(p)
    ensures Inv(Stop(p))
    ensures Inv(DoPlayActionHelper(cfg, p, now, stream, resetProgress, lookup).after)
  {
    PlayKeepsInv(cfg, PrepareItem(cfg, p, stream, resetProgress), now, lookup);
  }

  /** Rewind keeps the saved progress in step with the ad flag. */
  lemma RewindKeepsInv(cfg: Config, p: Playback, now: int, lookup: Lookup)
    requires Inv(p)
    ensures Inv(Rewind(cfg, p, now, lookup).after)
  {
    if SeekAllowed(p) {
      ReplayKeepsInv(cfg, p, RewoundTime(RunningTime(p.context.progress, now), cfg.seekDistance), now, lookup);
    }
  }

  /** Fast-forward keeps the saved progress in step with the ad flag. */
  lemma FastForwardKeepsInv(cfg: Config, p: Playback, now: int, lookup: Lookup)
    requires Inv(p)
    ensures Inv(FastForward(cfg, p, now, lookup).after)
  {
    if ForwardAllowed(cfg, p, now) {
      ReplayKeepsInv(cfg, p, p.context.progress.GetOr(Progress(0, 0)).runningTime + cfg.seekDistance.value * 1000,
                     now, lookup);
    }
  }

  lemma ReplayKeepsInv(cfg: Config, p: Playback, runningTime: int, now: int, lookup: Lookup)
    requires Inv(p)
    ensures Inv(ReplayAt(cfg, p, runningTime, now, lookup).after)
  {
    var p1 := Stop(p);
    if p1.context.progress.Some? {
      PlayKeepsInv(cfg, p1.(context := p1.context.(progress := Some(p1.context.progress.value.(
        runningTime := runningTime)))), now, lookup);
    }
  }

  /** The tick keeps the saved progress in step with the ad flag. */
  lemma TickKeepsInv(cfg: Config, p: Playback, now: int, nextStreamMapping: map<string, VideoStream>, lookup: Lookup)
    requires Inv(p) && p.context.streamInterval.Some?
    ensures Inv(Tick(cfg, p, now, nextStreamMapping, lookup).after)
  {
    if ItemOver(p, now) {
      var ctx1 := p.context.(streamInterval := None);
      if ctx1.dukeAdsPlayActive {
        var ctx2 := ctx1.(dukeAdsPlayActive := false, dukeAdsLastPlayTimestamp := now,
                          progress := ctx1.dukeAdsProgress, dukeAdsProgress := None);
        HelperKeepsInv(cfg, p.(context := ctx2), now, p.context.streamInterval.value, false, lookup);
      } else if ctx1.currentVideoStream.Some? {
        HelperKeepsInv(cfg, p.(context := ctx1), now, NextItem(p, nextStreamMapping), true, lookup);
      }
    }
  }

  /**
   * The ad round trip: an item interrupted by an ad at `now` is, once the ad is over,
   * resumed at the running time it had before the ad, with the ad flag down.
   */
  lemma AdRoundTrip(cfg: Config, p: Playback, now: int, later: int, nextStreamMapping: map<string, VideoStream>,
                    lookup: Lookup)
    requires Inv(p) && Starts(p.context) && !p.context.dukeAdsPlayActive
    requires AdDue(cfg.nextAd, p.context.dukeAdsLastPlayTimestamp, now) && !AdDue(cfg.nextAd, later, later)
    requires Play(cfg, p, now, lookup).ok
    requires ItemOver(Play(cfg, p, now, lookup).after, later)
    requires Resolves(Play(cfg, p, now, lookup).after.cache, p.context.currentVideoStream.value.id, lookup)
    ensures var r := Tick(cfg, Play(cfg, p, now, lookup).after, later, nextStreamMapping, lookup);
            r.ok && !r.after.context.dukeAdsPlayActive
            && r.after.context.progress.value.runningTime == StartProgress(p.context).runningTime
            && r.after.context.currentVideoStream ==
                 YtService.Resolve(Play(cfg, p, now, lookup).after.cache, p.context.currentVideoStream.value.id, lookup).result
  {
    var q := Play(cfg, p, now, lookup).after;
    AdPreemption(cfg, p, now, lookup);
    TickEndsAd(cfg, q, later, nextStreamMapping, lookup);
  }

  /**
   * Picking an item while an ad plays (as written): the stop is refused, the progress is
   * cleared and the play keeps running the ad's timer, so neither stop nor the timer ever
   * leaves the state, as long as the picked item has time left.
   */
  lemma PickDuringAd(cfg: Config, p: Playback, now: int, later: int, stream: VideoStream,
                     nextStreamMapping: map<string, VideoStream>, lookup: Lookup)
    requires Inv(p) && p.context.dukeAdsPlayActive && p.context.state == Some(Playing) && p.mediaPresent
    requires p.context.streamInterval.Some?
    requires var d := TimeFormat.HmsToSeconds(stream.duration.GetOr("")); d.Some? && d.value > 0
    ensures var q := DoPlayActionHelper(cfg, p, now, stream, true, lookup);
            q.ok && q.after.context.dukeAdsPlayActive && q.after.context.progress.None? && q.after.mediaPresent
            && q.after.context.state == Some(Playing)
            && q.after.context.currentVideoStream == Some(stream)
            && q.after.context.streamInterval == p.context.streamInterval
            && Stop(q.after) == q.after
            && Tick(cfg, q.after, later, nextStreamMapping, lookup) == Step(q.after, true)
  {
  }

  /**
   * Picking an item without a duration (a live search result) while an ad plays: the
   * remaining time is NaN, so the next tick ends the ad: the flag goes down, its time is
   * stamped and the kept progress is cleared.
   */
  lemma PickDuringAdWithoutDuration(cfg: Config, p: Playback, now: int, later: int, stream: VideoStream,
                                    nextStreamMapping: map<string, VideoStream>, lookup: Lookup)
    requires Inv(p) && p.context.dukeAdsPlayActive && p.context.state == Some(Playing) && p.mediaPresent
    requires p.context.streamInterval.Some? && p.context.streamInterval.value.id != ""
    requires TimeFormat.HmsToSeconds(stream.duration.GetOr("")).None?
    requires !AdDue(cfg.nextAd, later, later)
    ensures var q := DoPlayActionHelper(cfg, p, now, stream, true, lookup);
            q.ok && q.after.context.dukeAdsPlayActive && q.after.context.currentVideoStream == Some(stream)
            && q.after.context.streamInterval == p.context.streamInterval
            && ItemOver(q.after, later)
            && var r := Tick(cfg, q.after, later, nextStreamMapping, lookup);
               !r.after.context.dukeAdsPlayActive && r.after.context.dukeAdsLastPlayTimestamp == later
               && r.after.context.dukeAdsProgress.None?
  {
    var q := DoPlayActionHelper(cfg, p, now, stream, true, lookup).after;
    var ctx1 := q.context.(streamInterval := None);
    var ctx2 := ctx1.(dukeAdsPlayActive := false, dukeAdsLastPlayTimestamp := later,
                      progress := ctx1.dukeAdsProgress, dukeAdsProgress := None);
    var q2 := q.(context := ctx2);
    assert Tick(cfg, q, later, nextStreamMapping, lookup) ==
           DoPlayActionHelper(cfg, q2, later, p.context.streamInterval.value, false, lookup);
    var prepared := PrepareItem(cfg, q2, p.context.streamInterval.value, false);
    assert Stops(q2);
    assert Starts(prepared.context);
    PlayWithoutAd(cfg, prepared, later, lookup);
  }

  // ---------------------------------------------------------------- volume and rolloff

  datatype Direction = Up | Down

  /**
   * onVolumeChange on a volume in hundredths. As in the source, "down" raises the volume
   * (by 2 below 10, by 10 from 10 up to below 100, back to 100 from 100 up) and "up"
   * lowers it (by 2 up to 10, by 10 above 10, never below 0).
   */
  function VolumeAfter(direction: Direction, vol: int): (r: int)
    ensures direction == Down && vol >= 100 ==> r == 100
    ensures direction == Down && vol < 100 ==> vol < r <= vol + 10 && (vol < 10 ==> r == vol + 2)
                                               && (10 <= vol ==> r == vol + 10)
    ensures direction == Up && vol <= 0 ==> r == 0
    ensures direction == Up && vol > 0 ==> vol - 10 <= r < vol && (vol <= 10 ==> r == vol - 2)
                                           && (vol > 10 ==> r == vol - 10)
  {
    if direction == Down then (if vol >= 100 then 100 else vol + (if vol < 10 then 2 else 10))
    else (if vol <= 0 then 0 else vol - (if vol <= 10 then 2 else 10))
  }

  /** The volumes the steps reach from the default: even, and multiples of 10 from 10 up, within 0..100. */
  predicate OnVolumeGrid(vol: int) {
    0 <= vol <= 100 && vol % 2 == 0 && (vol >= 10 ==> vol % 10 == 0)
  }

  lemma VolumeGridInvariant(direction: Direction, vol: int)
    requires OnVolumeGrid(vol)
    ensures OnVolumeGrid(VolumeAfter(direction, vol))
  {
  }

  /** Off the grid, "down" can overshoot 100 for one step. */
  lemma VolumeOvershoot()
    ensures VolumeAfter(Down, 95) == 105
    ensures VolumeAfter(Down, 105) == 100
  {
  }

  /** onRolloffDistanceChange: "down" by 0.2 m but never below 0.2, "up" by 0.2 m, capped only once at the maximum. */
  function RolloffAfter(direction: Direction, val: real, maxRolloffDistance: int): (r: real)
    ensures direction == Down ==> r >= 0.2 && (val - 0.2 > 0.2 ==> r == val - 0.2)
    ensures direction == Down && val - 0.2 <= 0.2 ==> r == 0.2
    ensures direction == Up && val >= maxRolloffDistance as real ==> r == maxRolloffDistance as real
    ensures direction == Up && val < maxRolloffDistance as real ==> r == val + 0.2
  {
    var incr := 0.2;
    if direction == Down then (if val - incr <= incr then incr else val - incr)
    else (if val >= maxRolloffDistance as real then maxRolloffDistance as real else val + incr)
  }
}
