/**
 * The stateful objects of the player: the App (src/app.ts), which updates the screen
 * context, its media instance and the resolver cache step by step, the on-screen
 * PlayerControls (src/actors/player-controls.ts) with their `ignoreClicks` latch, and
 * the play button on a catalog card. Each App method is proved to leave the state
 * that the matching Session transition computes.
 */
module Player {
  import opened Wrappers
  import opened Models
  import DisplayText
  import YtService
  import Selections
  import Session

  /**
   * What the menu action does to the catalog between two states: nothing while an ad runs;
   * otherwise the picker's prompted term, the kept pager, and either a rebuilt page for a new
   * term or a reopened page for the same one. The latch is not part of it.
   */
  twostate predicate MenuOpened(context: ScreenContext, picker: Selections.SelectionsController, answer: Option<string>,
                                searchApi: string -> Option<seq<YtService.SearchItem>>)
    reads context, picker
  {
    if old(context.dukeAdsPlayActive) then
      context.Playback() == old(context.Playback()) && context.ytSelectionsPager == old(context.ytSelectionsPager)
      && context.searchTerm == old(context.searchTerm)
      && context.selectionPanelEnabled == old(context.selectionPanelEnabled)
      && picker.previousSearch == old(picker.previousSearch) && picker.nextStreamMapping == old(picker.nextStreamMapping)
      && picker.hasCardsBase == old(picker.hasCardsBase)
    else
      old(context.ytSelectionsPager).Some? && context.ytSelectionsPager.Some?
      && context.searchTerm == Selections.PromptedTerm(old(context.searchTerm), answer)
      && context.ytSelectionsPager ==
           Some(old(context.ytSelectionsPager.value).(displayed := context.ytSelectionsPager.value.displayed))
      && (Selections.NewSearch(context.searchTerm, old(picker.previousSearch)) ==>
            var streams := Selections.PageStreams(Selections.SearchQuery(context.searchTerm.value, false),
                                                  context.ytSelectionsPager.value, searchApi);
            picker.previousSearch == context.searchTerm.value
            && context.selectionPanelEnabled && context.ytSelectionsPager.value.displayed
            && picker.hasCardsBase == streams.Some?
            && picker.nextStreamMapping == Selections.MappingAfterPage(old(picker.nextStreamMapping), streams))
      && (!Selections.NewSearch(context.searchTerm, old(picker.previousSearch)) ==>
            picker.previousSearch == old(picker.previousSearch)
            && picker.nextStreamMapping == old(picker.nextStreamMapping)
            && picker.hasCardsBase == old(picker.hasCardsBase)
            && context.selectionPanelEnabled == (old(context.selectionPanelEnabled) || old(picker.hasCardsBase))
            && context.ytSelectionsPager.value.displayed ==
                 (old(context.ytSelectionsPager.value.displayed)
                  || (old(picker.hasCardsBase) && !old(context.selectionPanelEnabled))))
  }

  class App {
    const context: ScreenContext
    const config: Session.Config
    const service: YtService.VideoService
    const selectionsController: Selections.SelectionsController
    /** Whether `this.mediaInstance` is set. */
    var mediaPresent: bool

    /** The playback state this object and its collaborators hold. */
    function Snapshot(): Session.Playback
      reads this, context, service
    {
      Session.Playback(context.Playback(), mediaPresent, service.cache)
    }

    ghost predicate Valid()
      reads this, context, service, selectionsController
    {
      selectionsController.context == context && selectionsController.Valid() && Session.Inv(Snapshot())
    }

    constructor (context: ScreenContext, config: Session.Config, service: YtService.VideoService,
                 selectionsController: Selections.SelectionsController)
      requires selectionsController.context == context && selectionsController.Valid()
      requires context.dukeAdsPlayActive == context.dukeAdsProgress.Some?
      ensures this.context == context && this.config == config && this.service == service
      ensures this.selectionsController == selectionsController
      ensures !mediaPresent && Valid()
    {
      this.context := context;
      this.config := config;
      this.service := service;
      this.selectionsController := selectionsController;
      mediaPresent := false;
    }

    /** onPlay. `false` when it throws: a null resolution, or resuming without media. */
    method OnPlay(now: int, lookup: Session.Lookup) returns (ok: bool)
      requires Valid()
      modifies this, context, service
      ensures Snapshot() == Session.Play(config, old(Snapshot()), now, lookup).after
      ensures ok == Session.Play(config, old(Snapshot()), now, lookup).ok
      ensures context.Panel() == old(context.Panel())
      ensures Valid()
    {
      Session.PlayKeepsInv(config, Snapshot(), now, lookup);
      var state := context.state;
      var currentVideoStream := context.currentVideoStream;
      if (state.None? || state == Some(Stopped)) && currentVideoStream.Some? && currentVideoStream.value.id != "" {
        ok := StartStream(now, lookup);
      } else if state == Some(Paused) && !mediaPresent {
        ok := false;
      } else {
        context.state := Some(Playing);
        ok := true;
      }
    }

    /** The branch of onPlay that starts the current item, or the due ad in its place. */
    method StartStream(now: int, lookup: Session.Lookup) returns (ok: bool)
      requires Session.Starts(context.Playback())
      modifies this, context, service
      ensures Snapshot() == Session.Play(config, old(Snapshot()), now, lookup).after
      ensures ok == Session.Play(config, old(Snapshot()), now, lookup).ok
      ensures context.Panel() == old(context.Panel())
    {
      var playId, progress := PreemptIfDue(now);
      var ytVideo := service.GetVideoStreamFromYT(playId, lookup);
      if ytVideo.None? {
        return false;
      }
      StartPlayback(ytVideo.value, progress, now);
      return true;
    }

    /** When an ad is due, switch to it and keep the item's progress for later. */
    method PreemptIfDue(now: int) returns (playId: string, progress: Progress)
      requires context.currentVideoStream.Some?
      modifies context
      ensures playId == Session.PlayId(config, old(context.Playback()), now)
      ensures progress == Session.PlayFrom(config, old(context.Playback()), now)
      ensures context.Playback() == Session.Preempted(config, old(context.Playback()), now)
      ensures context.Panel() == old(context.Panel())
    {
      playId := context.currentVideoStream.value.id;
      progress := if context.progress.Some? then context.progress.value else Progress(0, 0);
      var nextAd := config.nextAd;
      if nextAd.Some? && nextAd.value.dukeAdsId != "" && nextAd.value.dukeAdsRerunTime.Some?
         && now - context.dukeAdsLastPlayTimestamp > nextAd.value.dukeAdsRerunTime.value * (1000 * 60) {
        playId := nextAd.value.dukeAdsId;
        context.dukeAdsPlayActive := true;
        context.dukeAdsProgress := if context.dukeAdsProgress.Some? then context.dukeAdsProgress else Some(progress);
        progress := Progress(0, 0);
      }
    }

    /** The rest of onPlay once `ytVideo` is resolved: show it, create the media, arm the timer. */
    method StartPlayback(ytVideo: VideoStream, from: Progress, now: int)
      modifies this, context
      ensures context.Playback() == Session.Started(old(context.Playback()), ytVideo, from, now)
      ensures mediaPresent && context.Panel() == old(context.Panel())
    {
      var currentVideoStream := context.currentVideoStream;
      ShowItem(ytVideo, from, now);
      mediaPresent := true;
      context.streamInterval := None;  // clearInterval of any timer still armed
      context.streamInterval := currentVideoStream;
      context.state := Some(Playing);
    }

    /** Align the progress with the clock and show the item's title and remaining time. */
    method ShowItem(ytVideo: VideoStream, from: Progress, now: int)
      modifies context
      ensures context.Playback() == Session.Shown(old(context.Playback()), ytVideo, from, now)
      ensures context.Panel() == old(context.Panel())
    {
      var playTitle := Session.PlayTitle(context.dukeAdsPlayActive, ytVideo.title);
      var progress := from.(startTime := now - from.runningTime);
      var remaining := DisplayText.RemainingLabel(Session.RemainingTime(Some(ytVideo), Some(progress), now));
      context.progress, context.soundOptions, context.currentVideoStream, context.titleText, context.remainingTimeText :=
        Some(progress), context.soundOptions.(time := progress.runningTime), Some(ytVideo),
        DisplayText.TitleDisplay(playTitle), remaining;
    }

    /** onStop. */
    method OnStop()
      requires Valid()
      modifies this, context
      ensures Snapshot() == Session.Stop(old(Snapshot()))
      ensures context.Panel() == old(context.Panel())
      ensures Valid()
    {
      var state := context.state;
      if mediaPresent && !context.dukeAdsPlayActive {
        if state == Some(Playing) {
          context.streamInterval := None;
          context.controlsHidden := false;
          context.state := Some(Stopped);
          mediaPresent := false;
        }
      }
    }

    /** doPlayActionHelper. */
    method DoPlayActionHelper(now: int, stream: VideoStream, resetProgress: bool, lookup: Session.Lookup)
      returns (ok: bool)
      requires Valid()
      modifies this, context, service
      ensures var r := Session.DoPlayActionHelper(config, old(Snapshot()), now, stream, resetProgress, lookup);
              Snapshot() == r.after && ok == r.ok
      ensures context.Panel() == old(context.Panel())
      ensures Valid()
    {
      PrepareItem(stream, resetProgress);
      ok := OnPlay(now, lookup);
    }

    /** The part of doPlayActionHelper before onPlay: stop, install the item and its sound options. */
    method PrepareItem(stream: VideoStream, resetProgress: bool)
      requires Valid()
      modifies this, context
      ensures Snapshot() == Session.PrepareItem(config, old(Snapshot()), stream, resetProgress)
      ensures context.Panel() == old(context.Panel())
      ensures Valid()
    {
      if context.state != Some(Stopped) && mediaPresent {
        OnStop();
      }
      var currentSoundOptions := context.soundOptions;
      var soundOptions := config.defaultSoundOptions;
      if currentSoundOptions.volume != 0 {
        soundOptions := soundOptions.(volume := currentSoundOptions.volume);
      }
      if currentSoundOptions.rolloffStartDistance != 0.0 {
        soundOptions := soundOptions.(rolloffStartDistance := currentSoundOptions.rolloffStartDistance);
      }
      context.currentVideoStream, context.soundOptions := Some(stream), soundOptions;
      if resetProgress {
        context.progress := None;
      }
    }

    /** handlePlayButtonClick: the helper with progress reset. */
    method HandlePlayButtonClick(now: int, stream: VideoStream, lookup: Session.Lookup) returns (ok: bool)
      requires Valid()
      modifies this, context, service
      ensures var r := Session.DoPlayActionHelper(config, old(Snapshot()), now, stream, true, lookup);
              Snapshot() == r.after && ok == r.ok
      ensures context.Panel() == old(context.Panel())
      ensures Valid()
    {
      ok := DoPlayActionHelper(now, stream, true, lookup);
    }

    /** onRewind. */
    method OnRewind(now: int, lookup: Session.Lookup) returns (ok: bool)
      requires Valid()
      modifies this, context, service
      ensures var r := Session.Rewind(config, old(Snapshot()), now, lookup);
              Snapshot() == r.after && ok == r.ok
      ensures context.Panel() == old(context.Panel())
      ensures Valid()
    {
      ok := true;
      if mediaPresent && context.currentVideoStream.Some? && !context.dukeAdsPlayActive {
        var runningTime := Session.RewoundTime(Session.RunningTime(context.progress, now), config.seekDistance);
        ok := ReplayAt(runningTime, now, lookup);
      }
    }

    /** onFastForward. */
    method OnFastForward(now: int, lookup: Session.Lookup) returns (ok: bool)
      requires Valid()
      modifies this, context, service
      ensures var r := Session.FastForward(config, old(Snapshot()), now, lookup);
              Snapshot() == r.after && ok == r.ok
      ensures context.Panel() == old(context.Panel())
      ensures Valid()
    {
      ok := true;
      var remainingTime := Session.RemainingTime(context.currentVideoStream, context.progress, now);
      var seekDistance := config.seekDistance;
      if mediaPresent && context.currentVideoStream.Some? && !context.dukeAdsPlayActive
         && remainingTime.Some? && seekDistance.Some? && remainingTime.value > seekDistance.value * 1000 {
        var progress := if context.progress.Some? then context.progress.value else Progress(0, 0);
        ok := ReplayAt(progress.runningTime + seekDistance.value * 1000, now, lookup);
      }
    }

    /** The common tail of both seeks: stop, store the new running time, play. */
    method ReplayAt(runningTime: int, now: int, lookup: Session.Lookup) returns (ok: bool)
      requires Valid()
      modifies this, context, service
      ensures var r := Session.ReplayAt(config, old(Snapshot()), runningTime, now, lookup);
              Snapshot() == r.after && ok == r.ok
      ensures context.Panel() == old(context.Panel())
      ensures Valid()
    {
      OnStop();
      if context.progress.None? {
        return false;
      }
      context.progress := Some(context.progress.value.(runningTime := runningTime));
      ok := OnPlay(now, lookup);
    }

    /** The callback of the armed 5-second interval. */
    method Tick(now: int, lookup: Session.Lookup) returns (ok: bool)
      requires Valid() && context.streamInterval.Some?
      modifies this, context, service
      ensures var r := Session.Tick(config, old(Snapshot()), now, selectionsController.nextStreamMapping, lookup);
              Snapshot() == r.after && ok == r.ok
      ensures context.Panel() == old(context.Panel()) && Valid()
    {
      var remainingTime := Session.RemainingTime(context.currentVideoStream, context.progress, now);
      if remainingTime.Some? && remainingTime.value > 0 {
        if context.progress.Some? {
          context.progress := Some(context.progress.value.(runningTime := Session.RunningTime(context.progress, now)));
          context.remainingTimeText := DisplayText.RemainingLabel(remainingTime);
        }
        return true;
      }
      ok := EndOfItem(now, lookup);
    }

    /** The tick at the end of the ad or item: disarm, then resume the item or play the next one. */
    method EndOfItem(now: int, lookup: Session.Lookup) returns (ok: bool)
      requires Valid() && context.streamInterval.Some?
      requires var r := Session.RemainingTime(context.currentVideoStream, context.progress, now);
               !(r.Some? && r.value > 0)
      modifies this, context, service
      ensures var r := Session.Tick(config, old(Snapshot()), now, selectionsController.nextStreamMapping, lookup);
              Snapshot() == r.after && ok == r.ok
      ensures context.Panel() == old(context.Panel())
      ensures Valid()
    {
      var currentVideoStream := context.streamInterval.value;
      context.streamInterval := None;
      if context.dukeAdsPlayActive {
        ok := EndAd(now, currentVideoStream, lookup);
        return;
      }
      if context.currentVideoStream.None? {
        return false;
      }
      ok := PlayNext(now, currentVideoStream, lookup);
    }

    /** The end of an item: play the item mapped after it, else `item` again, from the start. */
    method PlayNext(now: int, item: VideoStream, lookup: Session.Lookup) returns (ok: bool)
      requires Valid() && context.currentVideoStream.Some?
      modifies this, context, service
      ensures var next := Selections.GetNextStream(selectionsController.nextStreamMapping,
                                                    old(context.currentVideoStream.value.id));
              var r := Session.DoPlayActionHelper(config, old(Snapshot()), now,
                                                  if next.Some? then next.value else item, true, lookup);
              Snapshot() == r.after && ok == r.ok
      ensures context.Panel() == old(context.Panel())
      ensures Valid()
    {
      var next := selectionsController.GetNextStreamOf(context.currentVideoStream.value.id);
      var nextStream := if next.Some? then next.value else item;
      ok := HandlePlayButtonClick(now, nextStream, lookup);
    }

    /** The end of an ad: restore the kept progress, stamp the ad's end, and resume `item`. */
    method EndAd(now: int, item: VideoStream, lookup: Session.Lookup) returns (ok: bool)
      requires Valid()
      modifies this, context, service
      ensures var p := old(Snapshot());
              var r := Session.DoPlayActionHelper(config,
                p.(context := p.context.(dukeAdsPlayActive := false, dukeAdsLastPlayTimestamp := now,
                                         progress := p.context.dukeAdsProgress, dukeAdsProgress := None)),
                now, item, false, lookup);
              Snapshot() == r.after && ok == r.ok
      ensures context.Panel() == old(context.Panel())
      ensures Valid()
    {
      context.dukeAdsPlayActive := false;
      context.dukeAdsLastPlayTimestamp := now;
      context.progress := context.dukeAdsProgress;
      context.dukeAdsProgress := None;
      ok := DoPlayActionHelper(now, item, false, lookup);
    }

    /** onOpenMenu: the catalog picker, unless an ad is running. */
    method OnOpenMenu(answer: Option<string>, searchApi: string -> Option<seq<YtService.SearchItem>>)
      returns (ok: bool)
      requires Valid()
      modifies context, selectionsController
      ensures Valid() && Snapshot() == old(Snapshot())
      ensures context.dukeAdsPlayActive ==>
                ok && unchanged(context) && unchanged(selectionsController)
      ensures !context.dukeAdsPlayActive ==>
                context.searchTerm == Selections.PromptedTerm(old(context.searchTerm), answer)
                && context.ignoreClicks == old(context.ignoreClicks)
                && context.ytSelectionsPager ==
                     Some(old(context.ytSelectionsPager.value).(displayed := context.ytSelectionsPager.value.displayed))
      ensures !context.dukeAdsPlayActive && Selections.NewSearch(context.searchTerm, old(selectionsController.previousSearch)) ==>
                var streams := Selections.PageStreams(Selections.SearchQuery(context.searchTerm.value, false),
                                                      context.ytSelectionsPager.value, searchApi);
                selectionsController.previousSearch == context.searchTerm.value
                && context.selectionPanelEnabled && context.ytSelectionsPager.value.displayed
                && ok == streams.Some? && selectionsController.hasCardsBase == ok
                && selectionsController.nextStreamMapping ==
                     Selections.MappingAfterPage(old(selectionsController.nextStreamMapping), streams)
      ensures !context.dukeAdsPlayActive && !Selections.NewSearch(context.searchTerm, old(selectionsController.previousSearch)) ==>
                ok && selectionsController.previousSearch == old(selectionsController.previousSearch)
                && selectionsController.nextStreamMapping == old(selectionsController.nextStreamMapping)
                && selectionsController.hasCardsBase == old(selectionsController.hasCardsBase)
                && context.selectionPanelEnabled ==
                     (old(context.selectionPanelEnabled) || old(selectionsController.hasCardsBase))
                && context.ytSelectionsPager.value.displayed ==
                     (old(context.ytSelectionsPager.value.displayed)
                      || (old(selectionsController.hasCardsBase) && !old(context.selectionPanelEnabled)))
      ensures MenuOpened(context, selectionsController, answer, searchApi)
    {
      ok := true;
      if !context.dukeAdsPlayActive {
        ok := selectionsController.DisplayMovieSelectionPicker(false, answer, searchApi);
      }
    }

    /** onVolumeChange on the volume in hundredths; nothing else changes. */
    method OnVolumeChange(direction: Session.Direction)
      requires Valid()
      modifies context
      ensures context.soundOptions ==
                old(context.soundOptions).(volume := Session.VolumeAfter(direction, old(context.soundOptions.volume)))
      ensures context.Playback() == old(context.Playback()).(soundOptions := context.soundOptions)
      ensures context.Panel() == old(context.Panel())
      ensures Valid()
    {
      var soundOptions := context.soundOptions;
      var vol := soundOptions.volume;
      if direction == Session.Down {
        soundOptions := soundOptions.(volume := if vol >= 100 then 100 else vol + (if vol < 10 then 2 else 10));
      } else {
        soundOptions := soundOptions.(volume := if vol <= 0 then 0 else vol - (if vol <= 10 then 2 else 10));
      }
      context.soundOptions := soundOptions;
    }

    /** onRolloffDistanceChange; nothing else changes. */
    method OnRolloffDistanceChange(direction: Session.Direction)
      requires Valid()
      modifies context
      ensures context.soundOptions == old(context.soundOptions).(rolloffStartDistance :=
                Session.RolloffAfter(direction, old(context.soundOptions.rolloffStartDistance), config.maxRolloffDistance))
      ensures context.Playback() == old(context.Playback()).(soundOptions := context.soundOptions)
      ensures context.Panel() == old(context.Panel())
      ensures Valid()
    {
      var soundOptions := context.soundOptions;
      var val := soundOptions.rolloffStartDistance;
      var incr := 0.2;
      if direction == Session.Down {
        soundOptions := soundOptions.(rolloffStartDistance := if val - incr <= incr then incr else val - incr);
      } else {
        var maxRolloffDistance := config.maxRolloffDistance as real;
        soundOptions := soundOptions.(rolloffStartDistance := if val >= maxRolloffDistance then maxRolloffDistance else val + incr);
      }
      context.soundOptions := soundOptions;
    }

    /** setOnScreenControlsClick: toggles whether the on-screen controls are hidden. */
    method SetOnScreenControlsClick()
      requires Valid()
      modifies context
      ensures context.controlsHidden == !old(context.controlsHidden)
      ensures context.Playback() == old(context.Playback()).(controlsHidden := context.controlsHidden)
      ensures context.Panel() == old(context.Panel())
      ensures Valid()
    {
      var enabled := context.controlsHidden;
      context.controlsHidden := !enabled;
    }
  }

  /** The transport buttons of the on-screen controls. */
  datatype Button = PlayButton | StopButton | RewindButton | FastForwardButton | MenuButton

  /** The action each button's handler dispatches. */
  function ActionOf(button: Button): (a: Action)
    ensures a != OnCloseMenu
  {
    match button
    case PlayButton => OnPlay
    case StopButton => OnStop
    case RewindButton => OnRewind
    case FastForwardButton => OnFastForward
    case MenuButton => OnOpenMenu
  }

  /** Different buttons dispatch different actions. */
  lemma ButtonsDistinct(b1: Button, b2: Button)
    requires b1 != b2
    ensures ActionOf(b1) != ActionOf(b2)
  {
  }

  /** The playback step an action performs; the menu actions leave playback as it is. */
  function Dispatch(cfg: Session.Config, p: Session.Playback, action: Action, now: int, lookup: Session.Lookup)
    : (r: Session.Step)
    ensures action == OnOpenMenu || action == OnCloseMenu ==> r == Session.Step(p, true)
    ensures p.context.dukeAdsPlayActive && action != OnPlay ==> r == Session.Step(p, true)
    ensures Session.Inv(p) ==> Session.Inv(r.after)
  {
    assert p.context.dukeAdsPlayActive ==>
             Session.Rewind(cfg, p, now, lookup) == Session.Step(p, true)
             && Session.FastForward(cfg, p, now, lookup) == Session.Step(p, true) && Session.Stop(p) == p by {
      if p.context.dukeAdsPlayActive {
        Session.AdBlocksTransport(cfg, p, now, lookup);
      }
    }
    assert Session.Inv(p) ==>
             Session.Inv(Session.Play(cfg, p, now, lookup).after) && Session.Inv(Session.Stop(p))
             && Session.Inv(Session.Rewind(cfg, p, now, lookup).after)
             && Session.Inv(Session.FastForward(cfg, p, now, lookup).after) by {
      if Session.Inv(p) {
        Session.PlayKeepsInv(cfg, p, now, lookup);
        Session.RewindKeepsInv(cfg, p, now, lookup);
        Session.FastForwardKeepsInv(cfg, p, now, lookup);
        Session.HelperKeepsInv(cfg, p, now, IdOnly(""), false, lookup);
      }
    }
    match action
    case OnPlay => Session.Play(cfg, p, now, lookup)
    case OnStop => Session.Step(Session.Stop(p), true)
    case OnRewind => Session.Rewind(cfg, p, now, lookup)
    case OnFastForward => Session.FastForward(cfg, p, now, lookup)
    case OnOpenMenu => Session.Step(p, true)
    case OnCloseMenu => Session.Step(p, true)
  }

  class PlayerControls {
    const context: ScreenContext
    const mediaControlHandler: App

    constructor (context: ScreenContext, mediaControlHandler: App)
      ensures this.context == context && this.mediaControlHandler == mediaControlHandler
    {
      this.context := context;
      this.mediaControlHandler := mediaControlHandler;
    }

    /**
     * handleButtonAction: behind the latch, dispatch `action` once to the app and clear the
     * latch. The dispatch is not awaited, so a throwing action does not stop the latch
     * from clearing. With the latch set nothing is dispatched and nothing changes.
     */
    method HandleButtonAction(action: Action, now: int, lookup: Session.Lookup, answer: Option<string>,
                              searchApi: string -> Option<seq<YtService.SearchItem>>)
      returns (dispatched: Option<Action>)
      requires mediaControlHandler.context == context && mediaControlHandler.Valid()
      modifies context, mediaControlHandler, mediaControlHandler.service, mediaControlHandler.selectionsController
      ensures old(context.ignoreClicks) ==>
                dispatched.None? && unchanged(context, mediaControlHandler, mediaControlHandler.service,
                                              mediaControlHandler.selectionsController)
      ensures !old(context.ignoreClicks) ==>
                dispatched == Some(action) && !context.ignoreClicks
                && mediaControlHandler.Snapshot() ==
                     Dispatch(mediaControlHandler.config, old(mediaControlHandler.Snapshot()), action, now, lookup).after
      ensures !old(context.ignoreClicks) && action != OnOpenMenu ==>
                unchanged(mediaControlHandler.selectionsController)
                && context.Panel() == old(context.Panel()).(ignoreClicks := false)
      ensures !old(context.ignoreClicks) && action == OnOpenMenu ==>
                MenuOpened(context, mediaControlHandler.selectionsController, answer, searchApi)
      ensures mediaControlHandler.Valid()
    {
      dispatched := None;
      if !context.ignoreClicks {
        context.ignoreClicks := true;
        var app := mediaControlHandler;
        match action {
          case OnPlay => var _ := app.OnPlay(now, lookup);
          case OnStop => app.OnStop();
          case OnRewind => var _ := app.OnRewind(now, lookup);
          case OnFastForward => var _ := app.OnFastForward(now, lookup);
          case OnOpenMenu => var _ := app.OnOpenMenu(answer, searchApi);
          case OnCloseMenu =>
        }
        dispatched := Some(action);
        context.ignoreClicks := false;
      }
    }

    /** The handler of one transport button. */
    method HandleButton(button: Button, now: int, lookup: Session.Lookup, answer: Option<string>,
                        searchApi: string -> Option<seq<YtService.SearchItem>>)
      returns (dispatched: Option<Action>)
      requires mediaControlHandler.context == context && mediaControlHandler.Valid()
      modifies context, mediaControlHandler, mediaControlHandler.service, mediaControlHandler.selectionsController
      ensures old(context.ignoreClicks) ==>
                dispatched.None? && unchanged(context, mediaControlHandler, mediaControlHandler.service,
                                              mediaControlHandler.selectionsController)
      ensures !old(context.ignoreClicks) ==>
                dispatched == Some(ActionOf(button)) && !context.ignoreClicks
                && mediaControlHandler.Snapshot() ==
                     Dispatch(mediaControlHandler.config, old(mediaControlHandler.Snapshot()), ActionOf(button), now,
                              lookup).after
      ensures !old(context.ignoreClicks) && button != MenuButton ==>
                unchanged(mediaControlHandler.selectionsController)
                && context.Panel() == old(context.Panel()).(ignoreClicks := false)
      ensures !old(context.ignoreClicks) && button == MenuButton ==>
                MenuOpened(context, mediaControlHandler.selectionsController, answer, searchApi)
      ensures mediaControlHandler.Valid()
    {
      dispatched := HandleButtonAction(ActionOf(button), now, lookup, answer, searchApi);
    }
  }

  /**
   * handlePlayCardButton of the catalog: behind the latch, play the card's item through the
   * app's handlePlayButtonClick, then close the picker; the latch is clear afterwards. A
   * throwing play skips the close.
   */
  method HandlePlayCardButton(selections: Selections.SelectionsController, app: App, selectedStream: VideoStream,
                              now: int, lookup: Session.Lookup) returns (ok: bool)
    requires app.context == selections.context && app.selectionsController == selections && app.Valid()
    modifies selections.context, app, app.service
    ensures old(selections.context.ignoreClicks) ==> ok && unchanged(selections.context, app, app.service)
    ensures !old(selections.context.ignoreClicks) ==>
              var r := Session.DoPlayActionHelper(app.config, old(app.Snapshot()), now, selectedStream, true, lookup);
              app.Snapshot() == r.after && ok == r.ok && !selections.context.ignoreClicks
              && selections.context.Panel() ==
                   if ok then old(selections.context.Panel()).(
                                selectionPanelEnabled := false,
                                ytSelectionsPager := Some(old(selections.context.ytSelectionsPager.value).(displayed := false)))
                   else old(selections.context.Panel())
    ensures app.Valid()
  {
    ok := true;
    var context := selections.context;
    if !context.ignoreClicks {
      context.ignoreClicks := true;
      ok := app.HandlePlayButtonClick(now, selectedStream, lookup);
      if ok {
        selections.CloseMovieSelectionPicker();
      }
      context.ignoreClicks := false;
    }
  }
}
