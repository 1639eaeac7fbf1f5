/**
 * The Windows Media Foundation player service: a playback session and the
 * control objects it hands out through a name-keyed request/release
 * protocol. At most one of the video renderer control and the video window
 * control exists at any time.
 *
 * Destroying an object is recorded as an event and the field that held it is
 * cleared; the session's COM reference counting is reduced to the order of
 * the close and release events.
 */
module MFPlayerService {

  /** Interface identifiers the host framework requests controls by. */
  const MediaPlayerControlIid := "org.qt-project.qt.mediaplayercontrol/5.0"
  const MetaDataReaderControlIid := "org.qt-project.qt.metadatareadercontrol/5.0"
  const VideoRendererControlIid := "org.qt-project.qt.videorenderercontrol/5.0"
  const VideoWindowControlIid := "org.qt-project.qt.videowindowcontrol/5.0"

  /** The side effects whose order the service is responsible for. */
  datatype Event =
    | SessionClosed
    | SessionReleased
    | RendererSurfaceCleared
    | RendererControlDeleted
    | WindowControlDeleted
    | NullReleaseWarning

  class PlayerSession {
    constructor () {}
  }

  class PlayerControl {
    const session: PlayerSession

    constructor (session: PlayerSession)
      ensures this.session == session
    {
      this.session := session;
    }
  }

  class MetaDataControl {
    constructor () {}
  }

  class VideoRendererControl {
    /** The surface frames are rendered to; null when none is set. */
    var surface: object?

    constructor ()
      ensures surface == null
    {
      surface := null;
    }

    method SetSurface(s: object?)
      modifies this
      ensures surface == s
    {
      surface := s;
    }
  }

  class EvrVideoWindowControl {
    constructor () {}
  }

  class PlayerService {
    const session: PlayerSession
    const player: PlayerControl
    const metaDataControl: MetaDataControl
    var videoRendererControl: VideoRendererControl?
    var videoWindowControl: EvrVideoWindowControl?
    /** The service's side effects so far, oldest first. */
    ghost var events: seq<Event>

    /** The renderer control and the window control never exist together. */
    ghost predicate Valid()
      reads this
    {
      videoRendererControl == null || videoWindowControl == null
    }

    constructor ()
      ensures Valid()
      ensures fresh(session) && fresh(player) && fresh(metaDataControl)
      ensures player.session == session
      ensures videoRendererControl == null && videoWindowControl == null
      ensures events == []
    {
      var s := new PlayerSession();
      session := s;
      player := new PlayerControl(s);
      metaDataControl := new MetaDataControl();
      videoRendererControl := null;
      videoWindowControl := null;
      events := [];
    }

    /** The renderer control, if one has been handed out and not released. */
    function VideoRenderer(): (r: VideoRendererControl?)
      reads this
      requires Valid()
      ensures r != null ==> videoWindowControl == null
    {
      videoRendererControl
    }

    /** The window control, if one has been handed out and not released. */
    function VideoWindow(): (r: EvrVideoWindowControl?)
      reads this
      requires Valid()
      ensures r != null ==> videoRendererControl == null
    {
      videoWindowControl
    }

    /**
     * Hands out the control registered under `name`. The player and
     * metadata controls are always available. A renderer or window control
     * is created on demand, but only while neither of the two exists;
     * otherwise, and for an unknown name, the answer is null.
     */
    method RequestControl(name: string) returns (control: object?)
      requires Valid()
      modifies this
      ensures Valid()
      ensures events == old(events)
      ensures name == MediaPlayerControlIid ==> control == player
      ensures name == MetaDataReaderControlIid ==> control == metaDataControl
      ensures name == VideoRendererControlIid && old(videoRendererControl == null && videoWindowControl == null) ==>
        && videoRendererControl != null && fresh(videoRendererControl)
        && videoRendererControl.surface == null
        && control == videoRendererControl
        && videoWindowControl == null
      ensures name == VideoWindowControlIid && old(videoRendererControl == null && videoWindowControl == null) ==>
        && videoWindowControl != null && fresh(videoWindowControl)
        && control == videoWindowControl
        && videoRendererControl == null
      ensures ((name == VideoRendererControlIid || name == VideoWindowControlIid)
               && old(videoRendererControl != null || videoWindowControl != null)) ==>
        control == null
      ensures name !in {MediaPlayerControlIid, MetaDataReaderControlIid, VideoRendererControlIid, VideoWindowControlIid} ==>
        control == null
      ensures control == null || name in {MediaPlayerControlIid, MetaDataReaderControlIid} ==>
        videoRendererControl == old(videoRendererControl) && videoWindowControl == old(videoWindowControl)
    {
      if name == MediaPlayerControlIid {
        return player;
      } else if name == MetaDataReaderControlIid {
        return metaDataControl;
      } else if name == VideoRendererControlIid {
        if videoRendererControl == null && videoWindowControl == null {
          videoRendererControl := new VideoRendererControl();
          return videoRendererControl;
        }
      } else if name == VideoWindowControlIid {
        if videoRendererControl == null && videoWindowControl == null {
          videoWindowControl := new EvrVideoWindowControl();
          return videoWindowControl;
        }
      }
      return null;
    }

    /**
     * Takes back a control. The current renderer control has its surface
     * cleared and is destroyed; the current window control is destroyed.
     * Null draws a warning; any other control is ignored.
     */
    method ReleaseControl(control: object?)
      requires Valid()
      modifies this, videoRendererControl
      ensures Valid()
      ensures control == null ==>
        && videoRendererControl == old(videoRendererControl)
        && videoWindowControl == old(videoWindowControl)
        && events == old(events) + [NullReleaseWarning]
      ensures control != null && control == old(videoRendererControl) ==>
        && old(videoRendererControl).surface == null
        && videoRendererControl == null && videoWindowControl == null
        && events == old(events) + [RendererSurfaceCleared, RendererControlDeleted]
      ensures control != null && control == old(videoWindowControl) ==>
        && videoRendererControl == null && videoWindowControl == null
        && events == old(events) + [WindowControlDeleted]
      ensures control != null && control != old(videoRendererControl) && control != old(videoWindowControl) ==>
        && videoRendererControl == old(videoRendererControl)
        && videoWindowControl == old(videoWindowControl)
        && events == old(events)
      ensures old(videoRendererControl) != null && control != old(videoRendererControl) ==>
        unchanged(old(videoRendererControl))
    {
      if control == null {
        events := events + [NullReleaseWarning];
      } else if control == videoRendererControl {
        videoRendererControl.SetSurface(null);
        events := events + [RendererSurfaceCleared, RendererControlDeleted];
        videoRendererControl := null;
        return;
      } else if control == videoWindowControl {
        events := events + [WindowControlDeleted];
        videoWindowControl := null;
        return;
      }
    }

    /**
     * Tears the service down: the session is closed first, then whichever of
     * the window and renderer controls exists is destroyed, and the session
     * is released last.
     */
    method Destroy()
      requires Valid()
      modifies this
      ensures events == old(events) + [SessionClosed]
        + (if old(videoWindowControl) != null then [WindowControlDeleted] else [])
        + (if old(videoRendererControl) != null then [RendererControlDeleted] else [])
        + [SessionReleased]
      ensures videoRendererControl == old(videoRendererControl)
      ensures videoWindowControl == old(videoWindowControl)
    {
      events := events + [SessionClosed];
      if videoWindowControl != null {
        events := events + [WindowControlDeleted];
      }
      if videoRendererControl != null {
        events := events + [RendererControlDeleted];
      }
      events := events + [SessionReleased];
    }
  }

  /**
   * The exchange the framework relies on: once a renderer control is out, a
   * window control is refused until the renderer is released, and granted
   * afterwards.
   */
  method RendererThenWindow(service: PlayerService)
    requires service.Valid()
    requires service.videoRendererControl == null && service.videoWindowControl == null
    modifies service
    ensures service.Valid()
    ensures service.videoRendererControl == null && service.videoWindowControl != null
  {
    var renderer := service.RequestControl(VideoRendererControlIid);
    assert renderer != null;
    var refused := service.RequestControl(VideoWindowControlIid);
    assert refused == null;
    service.ReleaseControl(renderer);
    var window := service.RequestControl(VideoWindowControlIid);
    assert window != null;
  }
}
