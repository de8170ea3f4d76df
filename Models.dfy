/**
 * The records of the player (src/models/base.ts, src/models/yt.ts, src/models/controls.ts)
 * and the shared screen context that the app, the player controls and the catalog
 * controller all update in place.
 *
 * Times are integer milliseconds throughout; the volume is in hundredths.
 */
module Models {
  import opened Wrappers

  /** The `state` field of the context; an absent state is `None`. */
  datatype PlayState = Playing | Paused | Stopped

  /** Progress of the current item: wall-clock start and running time, both in ms. */
  datatype Progress = Progress(startTime: int, runningTime: int)

  /** The catalog pager. */
  datatype Pager = Pager(start: int, pageSize: int, displayed: bool, totalCount: int, numberPages: int)

  /**
   * An item descriptor. Optional text fields are `None` when the source leaves
   * them undefined; `live` is false when the source leaves it undefined.
   */
  datatype VideoStream = VideoStream(
    id: string,
    duration: Option<string>,
    uri: Option<string>,
    photoUrl: Option<string>,
    title: Option<string>,
    author: Option<string>,
    live: bool)

  /** The item descriptor the context starts with: only an id. */
  function IdOnly(id: string): VideoStream {
    VideoStream(id, None, None, None, None, None, false)
  }

  /** The names of the transport handlers a button can dispatch. */
  datatype Action = OnPlay | OnStop | OnRewind | OnFastForward | OnOpenMenu | OnCloseMenu

  /** Media state options: volume in hundredths, rolloff in metres, time in ms. */
  datatype SoundOptions = SoundOptions(volume: int, spread: real, rolloffStartDistance: real, time: int)

  /** The administrative interruption ("ad") configuration; the rerun time in minutes is `None` when it parses to NaN. */
  datatype DukeAds = DukeAds(dukeAdsId: string, dukeAdsRerunTime: Option<int>)

  /** The playback part of the screen context. */
  datatype PlaybackFields = PlaybackFields(
    state: Option<PlayState>,
    currentVideoStream: Option<VideoStream>,
    progress: Option<Progress>,
    soundOptions: SoundOptions,
    dukeAdsPlayActive: bool,
    dukeAdsProgress: Option<Progress>,
    dukeAdsLastPlayTimestamp: int,
    streamInterval: Option<VideoStream>,
    titleText: string,
    remainingTimeText: string,
    controlsHidden: bool)

  /** The catalog part of the screen context, and the command latch. */
  datatype PanelFields = PanelFields(
    ignoreClicks: bool,
    ytSelectionsPager: Option<Pager>,
    searchTerm: Option<string>,
    selectionPanelEnabled: bool)

  /**
   * The screen context shared by the app, the player controls and the catalog controller.
   * `streamInterval` is the armed 5-second timer: `None` when no timer is armed, otherwise
   * the item descriptor its callback captured. `titleText` and `remainingTimeText` are
   * what the title and remaining-time labels show.
   */
  class ScreenContext {
    var state: Option<PlayState>
    var currentVideoStream: Option<VideoStream>
    var progress: Option<Progress>
    var soundOptions: SoundOptions
    var dukeAdsPlayActive: bool
    var dukeAdsProgress: Option<Progress>
    var dukeAdsLastPlayTimestamp: int
    var streamInterval: Option<VideoStream>
    var titleText: string
    var remainingTimeText: string
    var controlsHidden: bool
    var ignoreClicks: bool
    var ytSelectionsPager: Option<Pager>
    var searchTerm: Option<string>
    var selectionPanelEnabled: bool

    /** The context as the app's start-up leaves it: default sound, the default item, controls shown. */
    constructor (sound: SoundOptions, defaultVideoId: string)
      ensures Playback() == PlaybackFields(None, Some(IdOnly(defaultVideoId)), None, sound,
                                           false, None, 0, None, "", "00:00:00", false)
      ensures Panel() == PanelFields(false, None, None, false)
    {
      state := None;
      currentVideoStream := Some(IdOnly(defaultVideoId));
      progress := None;
      soundOptions := sound;
      dukeAdsPlayActive := false;
      dukeAdsProgress := None;
      dukeAdsLastPlayTimestamp := 0;
      streamInterval := None;
      titleText := "";
      remainingTimeText := "00:00:00";
      controlsHidden := false;
      ignoreClicks := false;
      ytSelectionsPager := None;
      searchTerm := None;
      selectionPanelEnabled := false;
    }

    function Playback(): PlaybackFields
      reads this
    {
      PlaybackFields(state, currentVideoStream, progress, soundOptions, dukeAdsPlayActive,
                     dukeAdsProgress, dukeAdsLastPlayTimestamp, streamInterval, titleText,
                     remainingTimeText, controlsHidden)
    }

    function Panel(): PanelFields
      reads this
    {
      PanelFields(ignoreClicks, ytSelectionsPager, searchTerm, selectionPanelEnabled)
    }
  }
}
