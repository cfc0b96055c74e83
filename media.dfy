/** The media controller: owns the DirectShow capture graph of the selected
    device, negotiates its format, inserts the processing stages between the
    source and the renderer, and rebuilds the graph when the format or the
    stages change. */
module Media {
  import opened Common
  import opened Native
  import opened Stages
  import opened Filters
  import opened Resolution

  datatype PlayState = Stopped | Paused | Running | Init

  /** The persisted last format (Settings.Default). */
  datatype Settings = Settings(Width: int, Height: int, Bpp: int)

  /** HRESULTs the model raises itself: E_FAIL (0x80004005) for a device
      moniker that does not bind, VFW_E_NOT_FOUND (0x80040216) for a graph
      without a filter named "Video Capture". */
  const E_FAIL: int := -0x7FFF_BFFB
  const VFW_E_NOT_FOUND: int := -0x7FFB_FDEA

  /** Whether a format was persisted: the three fields sum, in 32-bit C#
      arithmetic, to something positive. For real frame sizes the sum does
      not wrap, so a format counts as stored exactly when one of the fields
      is positive; the all-zero default does not. */
  predicate HasStoredSettings(s: Settings)
    ensures 0 <= s.Width <= 0x10000 && 0 <= s.Height <= 0x10000 && 0 <= s.Bpp <= 64 ==>
      (HasStoredSettings(s) <==> s.Width > 0 || s.Height > 0 || s.Bpp > 0)
  {
    Wrap32(s.Width + s.Height + s.Bpp) > 0
  }

  /** The settings GetFormat persists for a format. */
  function SettingsOf(mt: MediaType): (s: Settings)
    ensures s.Width == mt.width && s.Height == mt.height && s.Bpp == mt.bitCount
  {
    var info := Create(mt);
    Settings(info.Width, info.Height, info.Bpp)
  }

  /** A capability is used by SetFormat when it is a VideoInfo video format of
      exactly the requested size and depth. */
  predicate Matches(mt: MediaType, width: int, height: int, bpp: int)
    ensures Matches(mt, width, height, bpp) ==> SettingsOf(mt) == Settings(width, height, bpp)
  {
    && mt.majorType == Video && mt.formatType == VideoInfo
    && mt.width == width && mt.height == height && mt.bitCount == bpp
  }

  /** The index of the first capability that matches, if any. */
  function FirstMatch(caps: seq<MediaType>, width: int, height: int, bpp: int): (r: Option<nat>)
    ensures r.Some? ==> r.value < |caps| && Matches(caps[r.value], width, height, bpp)
    ensures r.Some? ==> forall j :: 0 <= j < r.value ==> !Matches(caps[j], width, height, bpp)
    ensures r.None? <==> forall j :: 0 <= j < |caps| ==> !Matches(caps[j], width, height, bpp)
  {
    if caps == [] then None
    else if Matches(caps[0], width, height, bpp) then Some(0)
    else match FirstMatch(caps[1..], width, height, bpp)
      case None => None
      case Some(i) => Some(i + 1)
  }

  /** The capability loop of SetFormat: walks the capabilities in order and
      stops at the first exact match. */
  method FindCapability(caps: seq<MediaType>, width: int, height: int, bpp: int) returns (found: Option<nat>)
    ensures found == FirstMatch(caps, width, height, bpp)
    ensures found.Some? ==> found.value < |caps| && Matches(caps[found.value], width, height, bpp)
  {
    var iFormat := 0;
    while iFormat < |caps|
      invariant 0 <= iFormat <= |caps|
      invariant forall j :: 0 <= j < iFormat ==> !Matches(caps[j], width, height, bpp)
    {
      if Matches(caps[iFormat], width, height, bpp) {
        return Some(iFormat);
      }
      iFormat := iFormat + 1;
    }
    return None;
  }

  /** The format a pin ends with when asked for `mt` by a caller that ignores
      the HRESULT: the pin only ever holds one of its capabilities or what it
      had, and the request takes effect exactly when the pin supports it. */
  function Accept(device: Device, current: MediaType, mt: MediaType): (r: MediaType)
    ensures r in device.capabilities || r == current
    ensures r == mt <==> mt in device.capabilities || mt == current
  {
    if mt in device.capabilities then mt else current
  }

  /** The format after SetFormat with the persisted size: whenever some
      capability has exactly that size and depth the pin takes one, and
      otherwise it keeps its format. */
  function Stored(device: Device, current: MediaType, s: Settings): (r: MediaType)
    ensures r in device.capabilities || r == current
    ensures (exists i :: 0 <= i < |device.capabilities| && Matches(device.capabilities[i], s.Width, s.Height, s.Bpp))
      ==> r in device.capabilities && Matches(r, s.Width, s.Height, s.Bpp)
    ensures (forall i :: 0 <= i < |device.capabilities| ==> !Matches(device.capabilities[i], s.Width, s.Height, s.Bpp))
      ==> r == current
  {
    match FirstMatch(device.capabilities, s.Width, s.Height, s.Bpp)
    case Some(i) => device.capabilities[i]
    case None => current
  }

  /** The format after the property dialog; `chosen` is what the user applied
      there, None when the dialog was dismissed or the pin has no pages. */
  function Chosen(device: Device, current: MediaType, chosen: Option<MediaType>): (r: MediaType)
    ensures r in device.capabilities || r == current
    ensures r != current ==> chosen == Some(r)
    ensures chosen.Some? && chosen.value in device.capabilities ==> r == chosen.value
  {
    match chosen
    case Some(mt) => Accept(device, current, mt)
    case None => current
  }

  /** The format policy applied to a pin in format `initial`: re-apply the
      format of the previous graph; else the persisted size; else ask the user. */
  function NegotiatedFrom(device: Device, initial: MediaType, currentFormat: Option<MediaType>, s: Settings,
                          chosen: Option<MediaType>): (r: MediaType)
    ensures r in device.capabilities || r == initial
    ensures currentFormat.Some? && currentFormat.value in device.capabilities ==> r == currentFormat.value
    ensures currentFormat.None? && HasStoredSettings(s)
            && (exists i :: 0 <= i < |device.capabilities| && Matches(device.capabilities[i], s.Width, s.Height, s.Bpp))
            ==> SettingsOf(r) == s
  {
    match currentFormat
    case Some(f) => Accept(device, initial, f)
    case None =>
      if HasStoredSettings(s) then Stored(device, initial, s) else Chosen(device, initial, chosen)
  }

  /** The format policy of a freshly bound source: always one the pin
      supports, or its initial one. */
  function NegotiatedFormat(device: Device, currentFormat: Option<MediaType>, s: Settings,
                            chosen: Option<MediaType>): (r: MediaType)
    ensures r in device.capabilities || r == device.defaultFormat
  {
    NegotiatedFrom(device, device.defaultFormat, currentFormat, s, chosen)
  }

  /** With persisted settings and no previous format, the first capability
      with exactly the persisted size and depth is chosen, whatever comes after. */
  lemma StoredPicksFirstExact(device: Device, s: Settings, chosen: Option<MediaType>, k: nat)
    requires HasStoredSettings(s)
    requires k < |device.capabilities| && Matches(device.capabilities[k], s.Width, s.Height, s.Bpp)
    requires forall j :: 0 <= j < k ==> !Matches(device.capabilities[j], s.Width, s.Height, s.Bpp)
    ensures NegotiatedFormat(device, None, s, chosen) == device.capabilities[k]
  {
    var r := FirstMatch(device.capabilities, s.Width, s.Height, s.Bpp);
    assert r.Some?;
    assert r.value == k;
  }

  /** Negotiating again from the negotiated format changes nothing: re-selecting
      the same device reproduces its format. */
  lemma NegotiationIdempotent(device: Device, currentFormat: Option<MediaType>, s: Settings,
                              chosen: Option<MediaType>, s': Settings, chosen': Option<MediaType>)
    ensures var f := NegotiatedFormat(device, currentFormat, s, chosen);
      NegotiatedFormat(device, Some(f), s', chosen') == f
  {
  }

  /** Persisting a video capability and starting over restores its size and
      depth (possibly from an earlier capability of the same size). */
  lemma RestartRestoresResolution(device: Device, f: MediaType, chosen: Option<MediaType>)
    requires f in device.capabilities && f.majorType == Video && f.formatType == VideoInfo
    requires HasStoredSettings(SettingsOf(f))
    ensures var g := NegotiatedFormat(device, None, SettingsOf(f), chosen);
      g.width == f.width && g.height == f.height && g.bitCount == f.bitCount
  {
    var s := SettingsOf(f);
    var caps := device.capabilities;
    var k :| 0 <= k < |caps| && caps[k] == f;
    assert Matches(caps[k], s.Width, s.Height, s.Bpp);
    assert FirstMatch(caps, s.Width, s.Height, s.Bpp).Some?;
  }

  /** SetFormat(source, width, height, bpp): applies the first exact capability. */
  method SetFormat(source: SourceFilter, width: int, height: int, bpp: int)
    modifies source
    ensures source.format == Stored(source.device, old(source.format), Settings(width, height, bpp))
  {
    var found := FindCapability(source.device.capabilities, width, height, bpp);
    if found.Some? {
      var hr := source.SetFormat(source.device.capabilities[found.value]);
    }
  }

  /** ChooseFormat(filter): the property dialog applies the user's choice to the
      pin; a rejected choice is only logged. */
  method ChooseFormat(source: SourceFilter, chosen: Option<MediaType>)
    modifies source
    ensures source.format == Chosen(source.device, old(source.format), chosen)
  {
    if chosen.Some? {
      var hr := source.SetFormat(chosen.value);
    }
  }

  /** What the native side answers while a graph is built: the format chosen in
      the property dialog, the HRESULT of RenderStream, the video size the
      graph reports, what each sample grabber reports as its connected media
      type (in stage order; see ConnectionAt), the first failing HRESULT of the
      video-window calls of SetupVideoWindow, and the HRESULT of Run. */
  datatype NativeEnv = NativeEnv(
    chosen: Option<MediaType>, renderHr: int,
    videoWidth: int, videoHeight: int, connections: seq<Connection>, windowHr: int, runHr: int)

  /** The action ChangeGraph applies to the source between teardown and rebuild. */
  datatype GraphChange = ChooseNewFormat | ClearStages | KeepStages

  /** What the controller remembers across graphs. */
  datatype Session = Session(
    device: Option<Device>, format: Option<MediaType>, settings: Settings,
    formatEvents: seq<string>, errorsShown: nat, timerStarted: bool)

  /** Building and running a graph with `stageCount` stages raises no fault. */
  predicate BuildSucceeds(stageCount: nat, env: NativeEnv) {
    && !Failed(env.renderHr)
    && (forall i :: 0 <= i < stageCount ==> StrideReadable(ConnectionAt(env.connections, i)))
    && !Failed(env.windowHr)
    && !Failed(env.runHr)
  }

  /** The outcome of rendering, configuring the stages and running, in the
      order the build raises its faults: the missing capture graph builder,
      RenderStream, the first stage that faults, SetupVideoWindow, Run. */
  function BuildOutcome(hasCaptureBuilder: bool, stageFault: Option<Fault>, env: NativeEnv): (r: Outcome)
    ensures r.Pass? <==> hasCaptureBuilder && !Failed(env.renderHr) && stageFault.None?
                         && !Failed(env.windowHr) && !Failed(env.runHr)
  {
    if !hasCaptureBuilder then Fail(NullReference)
    else if Failed(env.renderHr) then Fail(NativeFailure(env.renderHr))
    else if stageFault.Some? then Fail(stageFault.value)
    else if Failed(env.windowHr) then Fail(NativeFailure(env.windowHr))
    else if Failed(env.runHr) then Fail(NativeFailure(env.runHr))
    else Pass
  }

  /** The device moniker binds to a source filter. */
  predicate Bound(device: Option<Device>) {
    device.Some? && device.value.bindable
  }

  /** The format left on the source by a ChangeGraph action. */
  function FormatAfter(change: GraphChange, device: Device, current: MediaType, chosen: Option<MediaType>): MediaType {
    if change == ChooseNewFormat then Chosen(device, current, chosen) else current
  }

  /** One graph node per sample grabber, in order. */
  function StageNodes(grabbers: seq<SampleGrabber>): (r: seq<Node>)
    ensures |r| == |grabbers|
    ensures forall i :: 0 <= i < |r| ==> r[i] == StageNode(grabbers[i])
  {
    seq(|grabbers|, i requires 0 <= i < |grabbers| => StageNode(grabbers[i]))
  }

  /** `t` holds one stage per grabber of `gs`, in order. */
  predicate StagesOf(t: seq<Node>, gs: seq<SampleGrabber?>) {
    && |t| == |gs|
    && forall i :: 0 <= i < |t| ==> t[i].StageNode? && t[i].grabber == gs[i]
  }

  /** `s` is `kept` followed by the stages of `gs`. */
  predicate Staged(s: seq<Node>, kept: seq<Node>, gs: seq<SampleGrabber?>) {
    |s| >= |kept| && s[..|kept|] == kept && StagesOf(s[|kept|..], gs)
  }

  /** `g` holds `kept`, then the stages of `gs`, then the renderer. */
  predicate Rebuilt(g: FilterGraph, kept: seq<Node>, gs: seq<SampleGrabber?>, renderer: VideoRenderer?)
    reads g`filters
  {
    && renderer != null
    && |g.filters| > 0 && g.filters[|g.filters| - 1] == RendererNode(renderer)
    && Staged(g.filters[..|g.filters| - 1], kept, gs)
  }

  /** Every filter of `s` other than `keep`. */
  function Others(s: seq<Node>, keep: Node): set<Node> {
    set n | n in s && n != keep
  }

  /** Extending the enumeration by one filter adds it to the others unless it is kept. */
  lemma OthersStep(s: seq<Node>, i: nat, keep: Node)
    requires i < |s|
    ensures Others(s[..i + 1], keep) == Others(s[..i], keep) + (if s[i] != keep then {s[i]} else {})
  {
    assert s[..i + 1] == s[..i] + [s[i]];
  }

  /** Resetting the graph keeps the source and nothing else. */
  lemma ResetKeepsOnlySource(s: seq<Node>, keep: Node)
    ensures forall n :: n in Without(s, Others(s, keep)) ==> n == keep
    ensures keep in s ==> keep in Without(s, Others(s, keep))
    ensures |s| > 0 && s[0] == keep && (forall i :: 1 <= i < |s| ==> s[i] != keep) ==>
      Without(s, Others(s, keep)) == [keep]
  {
    var r := Without(s, Others(s, keep));
    if |s| > 0 && s[0] == keep && (forall i :: 1 <= i < |s| ==> s[i] != keep) {
      assert r == [keep] + Without(s[1..], Others(s, keep));
      assert forall n :: n in s[1..] ==> n in Others(s, keep);
      assert Without(s[1..], Others(s, keep)) == [];
    }
  }

  class MediaController {
    const filtersController: FilterController
    var currentDevice: Option<Device>
    var currentState: PlayState
    var currentFormat: Option<MediaType>
    var settings: Settings
    /** The filter graph; its IMediaControl, IMediaEventEx and IVideoWindow
        interfaces are held and released together with it. */
    var graphBuilder: FilterGraph?
    var captureGraphBuilder: CaptureGraphBuilder?
    var qualProp: VideoRenderer?
    /** The labels raised through FormatChanged, oldest first. */
    var formatEvents: seq<string>
    /** How many times "An unrecoverable error has occurred." was shown. */
    var errorsShown: nat
    /** Whether the frame-rate timer exists (it is created after the first
        successful capture). */
    var timerStarted: bool

    constructor (filtersController: FilterController, stored: Settings)
      ensures this.filtersController == filtersController && settings == stored
      ensures currentState == Stopped && currentDevice == None && currentFormat == None
      ensures graphBuilder == null && captureGraphBuilder == null && qualProp == null
      ensures formatEvents == [] && errorsShown == 0 && !timerStarted
    {
      this.filtersController := filtersController;
      settings := stored;
      currentState := Stopped;
      currentDevice, currentFormat := None, None;
      graphBuilder, captureGraphBuilder, qualProp := null, null, null;
      formatEvents, errorsShown, timerStarted := [], 0, false;
    }

    function Remembered(): Session
      reads this
    {
      Session(currentDevice, currentFormat, settings, formatEvents, errorsShown, timerStarted)
    }

    /** The source filter of the current graph, the one object ChangeGraph
        changes outside the graph and the controller. */
    function GraphSource(): set<SourceFilter>
      reads this, graphBuilder
    {
      if graphBuilder == null then {}
      else match graphBuilder.FindSource()
        case Some(s) => {s}
        case None => {}
    }

    /** Stops the graph and releases every interface; safe to repeat. */
    method CloseInterfaces()
      modifies this, graphBuilder
      ensures currentState == Stopped
      ensures graphBuilder == null && captureGraphBuilder == null && qualProp == null
      ensures old(graphBuilder) != null ==>
        !old(graphBuilder).running && old(graphBuilder).filters == old(graphBuilder.filters)
      ensures Remembered() == old(Remembered())
    {
      if graphBuilder != null {
        graphBuilder.Stop();
      }
      currentState := Stopped;
      qualProp := null;
      graphBuilder := null;
      captureGraphBuilder := null;
    }

    /** Starts or stops the preview; does nothing without a graph. */
    method ChangePreviewState(showVideo: bool)
      modifies this, graphBuilder
      ensures graphBuilder == old(graphBuilder) && captureGraphBuilder == old(captureGraphBuilder)
      ensures qualProp == old(qualProp) && Remembered() == old(Remembered())
      ensures graphBuilder == null ==> currentState == old(currentState)
      ensures graphBuilder != null ==> graphBuilder.filters == old(graphBuilder.filters)
      ensures graphBuilder != null && showVideo ==> currentState == Running
      ensures graphBuilder != null && showVideo && old(currentState) != Running ==> graphBuilder.running
      ensures graphBuilder != null && showVideo && old(currentState) == Running ==>
        graphBuilder.running == old(graphBuilder.running)
      ensures graphBuilder != null && !showVideo ==> currentState == Stopped && !graphBuilder.running
    {
      if graphBuilder == null {
        return;
      }
      if showVideo {
        if currentState != Running {
          graphBuilder.Run();
          currentState := Running;
        }
      } else {
        graphBuilder.Stop();
        currentState := Stopped;
      }
    }

    /** Reads the source's format, persists it as the settings and raises
        FormatChanged with its label. */
    method GetFormat(source: SourceFilter)
      modifies this`currentFormat, this`settings, this`formatEvents
      ensures currentFormat == Some(source.format) && settings == SettingsOf(source.format)
      ensures formatEvents == old(formatEvents) + [ToString(Create(source.format))]
    {
      var media := source.format;
      currentFormat := Some(media);
      var resolutionInfo := Create(media);
      settings := Settings(resolutionInfo.Width, resolutionInfo.Height, resolutionInfo.Bpp);
      formatEvents := formatEvents + [ToString(resolutionInfo)];
    }

    /** Builds one stage per registered type and adds them to the graph in
        order; answers the compressor filter, the last stage built. */
    method AddFiltersToGraph() returns (compressor: SampleGrabber?)
      requires graphBuilder != null
      modifies graphBuilder`filters, filtersController`filterBuilders, filtersController`CompressorFilter
      ensures compressor == filtersController.CompressorFilter
      ensures filtersController.filterTypes == old(filtersController.filterTypes)
      ensures |filtersController.filterBuilders| == |filtersController.filterTypes|
      ensures forall b :: b in filtersController.filterBuilders ==> fresh(b) && fresh(b.filter)
      ensures forall g :: g in filtersController.Grabbers() ==> g != null && fresh(g)
      ensures filtersController.BuiltInOrder(graphBuilder)
      ensures filtersController.filterTypes == [] ==> compressor == old(filtersController.CompressorFilter)
      ensures filtersController.Ready() && filtersController.Unconfigured()
      ensures Staged(graphBuilder.filters, old(graphBuilder.filters), filtersController.Grabbers())
      ensures graphBuilder.running == old(graphBuilder.running)
    {
      var built := filtersController.InitFilters(graphBuilder);
      AddStages(graphBuilder, built);
      compressor := filtersController.CompressorFilter;
    }

    /** Adds one graph node per grabber, in order: the Select(AddFilter) pass. */
    static method AddStages(graph: FilterGraph, built: seq<SampleGrabber>)
      modifies graph`filters
      ensures graph.filters == old(graph.filters) + StageNodes(built)
    {
      var i := 0;
      while i < |built|
        invariant 0 <= i <= |built|
        invariant graph.filters == old(graph.filters) + StageNodes(built[..i])
      {
        graph.AddFilter(StageNode(built[i]));
        assert StageNodes(built[..i + 1]) == StageNodes(built[..i]) + [StageNode(built[i])];
        i := i + 1;
      }
      assert built[..i] == built;
    }

    /** Pushes the connected frame geometry into the stages, in order, each
        with its own grabber's stride; the first stage that faults ends it. */
    method ConfigureFilters(env: NativeEnv, ghost stages: set<PreprocessingFilter>) returns (r: Outcome)
      requires filtersController.DistinctStages()
      requires stages == filtersController.Stages()
      modifies stages`VideoHeight, stages`VideoStride
      ensures filtersController.ConfiguredUpTo(filtersController.FirstFault(env.videoWidth, env.connections, 0),
        old(filtersController.Geometry()), env.videoWidth, env.videoHeight, env.connections)
      ensures r == match filtersController.StageFault(env.videoWidth, env.connections)
        case None => Pass
        case Some(f) => Fail(f)
      ensures filtersController.Ready() ==>
        (r.Pass? <==> forall i :: 0 <= i < |filtersController.filterBuilders| ==>
           StrideReadable(ConnectionAt(env.connections, i)))
      ensures filtersController.Grabbers() == old(filtersController.Grabbers())
      ensures unchanged(filtersController)
      ensures forall b :: b in filtersController.filterBuilders ==> unchanged(b)
      ensures forall b :: b in filtersController.filterBuilders && b.sampleGrabber != null ==> unchanged(b.sampleGrabber)
      ensures forall f :: f in stages ==> f.Interceptors == old(f.Interceptors)
    {
      r := filtersController.ConfigureFilters(env.videoWidth, env.videoHeight, env.connections);
    }

    /** The first half of BuildAndRunGraph: reads and persists the source's
        format, then adds the stages, in type order, and the renderer. */
    method AssembleGraph(source: SourceFilter) returns (renderer: VideoRenderer)
      requires graphBuilder != null
      modifies this`currentFormat, this`settings, this`formatEvents, this`qualProp
      modifies graphBuilder`filters, filtersController`filterBuilders, filtersController`CompressorFilter
      ensures currentFormat == Some(source.format) && settings == SettingsOf(source.format)
      ensures formatEvents == old(formatEvents) + [ToString(Create(source.format))]
      ensures filtersController.filterTypes == old(filtersController.filterTypes)
      ensures |filtersController.filterBuilders| == |filtersController.filterTypes|
      ensures forall b :: b in filtersController.filterBuilders ==> fresh(b) && fresh(b.filter)
      ensures forall g :: g in filtersController.Grabbers() ==> g != null && fresh(g)
      ensures filtersController.BuiltInOrder(graphBuilder)
      ensures filtersController.Ready() && filtersController.Unconfigured()
      ensures fresh(renderer) && qualProp == renderer
      ensures Rebuilt(graphBuilder, old(graphBuilder.filters), filtersController.Grabbers(), renderer)
      ensures graphBuilder.running == old(graphBuilder.running)
    {
      GetFormat(source);
      renderer := AddStagesAndRenderer();
    }

    /** AddFiltersToGraph, then the renderer appended after the stages. */
    method AddStagesAndRenderer() returns (renderer: VideoRenderer)
      requires graphBuilder != null
      modifies this`qualProp
      modifies graphBuilder`filters, filtersController`filterBuilders, filtersController`CompressorFilter
      ensures filtersController.filterTypes == old(filtersController.filterTypes)
      ensures |filtersController.filterBuilders| == |filtersController.filterTypes|
      ensures forall b :: b in filtersController.filterBuilders ==> fresh(b) && fresh(b.filter)
      ensures forall g :: g in filtersController.Grabbers() ==> g != null && fresh(g)
      ensures filtersController.BuiltInOrder(graphBuilder)
      ensures filtersController.Ready() && filtersController.Unconfigured()
      ensures fresh(renderer) && qualProp == renderer
      ensures Rebuilt(graphBuilder, old(graphBuilder.filters), filtersController.Grabbers(), renderer)
      ensures graphBuilder.running == old(graphBuilder.running)
    {
      var filter := AddFiltersToGraph();
      renderer := AddRenderer();
    }

    /** Creates the video renderer, keeps it as the quality-property
        interface and appends it to the graph. */
    method AddRenderer() returns (renderer: VideoRenderer)
      requires graphBuilder != null
      modifies this`qualProp, graphBuilder`filters
      ensures fresh(renderer) && qualProp == renderer
      ensures graphBuilder.filters == old(graphBuilder.filters) + [RendererNode(renderer)]
    {
      renderer := new VideoRenderer();
      qualProp := renderer;
      graphBuilder.AddFilter(RendererNode(renderer));
    }

    /** Reads and persists the source's format, adds the stages and the
        renderer, renders, configures the stages, sets up the video window
        and runs. A fault stops the build where it is raised. */
    method BuildAndRunGraph(source: SourceFilter, env: NativeEnv) returns (r: Outcome)
      requires graphBuilder != null
      modifies this`currentFormat, this`settings, this`formatEvents, this`qualProp, this`currentState
      modifies graphBuilder`filters, graphBuilder`running, filtersController`filterBuilders, filtersController`CompressorFilter
      ensures currentFormat == Some(source.format) && settings == SettingsOf(source.format)
      ensures formatEvents == old(formatEvents) + [ToString(Create(source.format))]
      ensures filtersController.filterTypes == old(filtersController.filterTypes)
      ensures |filtersController.filterBuilders| == |filtersController.filterTypes|
      ensures forall b :: b in filtersController.filterBuilders ==> fresh(b)
      ensures forall g :: g in filtersController.Grabbers() ==> g != null && fresh(g)
      ensures filtersController.BuiltInOrder(graphBuilder)
      ensures qualProp != null && fresh(qualProp)
      ensures Rebuilt(graphBuilder, old(graphBuilder.filters), filtersController.Grabbers(), qualProp)
      ensures r == BuildOutcome(captureGraphBuilder != null,
                                filtersController.StageFault(env.videoWidth, env.connections), env)
      ensures r.Pass? <==> captureGraphBuilder != null && BuildSucceeds(|filtersController.filterTypes|, env)
      ensures r.Pass? ==> currentState == Running && graphBuilder.running
      ensures r.Fail? ==> currentState == old(currentState) && graphBuilder.running == old(graphBuilder.running)
    {
      var renderer := AssembleGraph(source);
      r := RenderAndRun(env, filtersController.Stages());
    }

    /** The rest of BuildAndRunGraph once the graph is assembled: renders the
        preview stream through the stages, configures them, sets up the video
        window and runs the graph. The first fault is the outcome; the stages
        are configured only once RenderStream succeeded, and only up to the
        first stage that faults. */
    method RenderAndRun(env: NativeEnv, ghost stages: set<PreprocessingFilter>) returns (r: Outcome)
      requires graphBuilder != null && filtersController.Ready() && filtersController.DistinctStages()
      requires stages == filtersController.Stages()
      modifies this`currentState, graphBuilder`running, stages`VideoHeight, stages`VideoStride
      ensures graphBuilder.filters == old(graphBuilder.filters)
      ensures filtersController.Grabbers() == old(filtersController.Grabbers())
      ensures old(filtersController.BuiltInOrder(graphBuilder)) ==> filtersController.BuiltInOrder(graphBuilder)
      ensures r == BuildOutcome(captureGraphBuilder != null,
                                filtersController.StageFault(env.videoWidth, env.connections), env)
      ensures filtersController.ConfiguredUpTo(
        if captureGraphBuilder != null && !Failed(env.renderHr)
        then filtersController.FirstFault(env.videoWidth, env.connections, 0) else 0,
        old(filtersController.Geometry()), env.videoWidth, env.videoHeight, env.connections)
      ensures r.Pass? <==> captureGraphBuilder != null && BuildSucceeds(|filtersController.filterBuilders|, env)
      ensures r.Pass? ==> currentState == Running && graphBuilder.running
      ensures r.Fail? ==> currentState == old(currentState) && graphBuilder.running == old(graphBuilder.running)
    {
      if captureGraphBuilder == null {
        r := Fail(NullReference);
      } else if Failed(env.renderHr) {
        // RenderStream(source -> compressor -> renderer)
        r := Fail(NativeFailure(env.renderHr));
      } else {
        r := ConfigureAndStart(env, stages);
      }
    }

    /** RenderAndRun once RenderStream succeeded: configures the stages up to
        the first that faults and, if none does, sets up the window and runs. */
    method ConfigureAndStart(env: NativeEnv, ghost stages: set<PreprocessingFilter>) returns (r: Outcome)
      requires graphBuilder != null && captureGraphBuilder != null && !Failed(env.renderHr)
      requires filtersController.Ready() && filtersController.DistinctStages()
      requires stages == filtersController.Stages()
      modifies this`currentState, graphBuilder`running, stages`VideoHeight, stages`VideoStride
      ensures filtersController.Grabbers() == old(filtersController.Grabbers())
      ensures old(filtersController.BuiltInOrder(graphBuilder)) ==> filtersController.BuiltInOrder(graphBuilder)
      ensures r == BuildOutcome(true, filtersController.StageFault(env.videoWidth, env.connections), env)
      ensures filtersController.ConfiguredUpTo(filtersController.FirstFault(env.videoWidth, env.connections, 0),
        old(filtersController.Geometry()), env.videoWidth, env.videoHeight, env.connections)
      ensures r.Pass? <==> BuildSucceeds(|filtersController.filterBuilders|, env)
      ensures r.Pass? ==> currentState == Running && graphBuilder.running
      ensures r.Fail? ==> currentState == old(currentState) && graphBuilder.running == old(graphBuilder.running)
    {
      r := ConfigureFilters(env, stages);
      ghost var g := filtersController.Geometry();
      if r.Pass? {
        r := StartGraph(env);
        assert filtersController.Geometry() == g;
      }
      filtersController.OrderKept(graphBuilder);
    }

    /** SetupVideoWindow, then IMediaControl.Run: the first failing HRESULT
        is the fault, and only a graph that runs marks the capture Running. */
    method StartGraph(env: NativeEnv) returns (r: Outcome)
      requires graphBuilder != null
      modifies this`currentState, graphBuilder`running
      ensures r == if Failed(env.windowHr) then Fail(NativeFailure(env.windowHr))
                   else if Failed(env.runHr) then Fail(NativeFailure(env.runHr)) else Pass
      ensures r.Pass? ==> currentState == Running && graphBuilder.running
      ensures r.Fail? ==> currentState == old(currentState) && graphBuilder.running == old(graphBuilder.running)
    {
      // SetupVideoWindow
      if Failed(env.windowHr) {
        return Fail(NativeFailure(env.windowHr));
      }
      if Failed(env.runHr) {
        return Fail(NativeFailure(env.runHr));
      }
      graphBuilder.Run();
      currentState := Running;
      r := Pass;
    }

    /** Creates the filter graph and the capture graph builder. */
    method GetInterfaces()
      modifies this`graphBuilder, this`captureGraphBuilder
      ensures graphBuilder != null && fresh(graphBuilder) && graphBuilder.filters == [] && !graphBuilder.running
      ensures captureGraphBuilder != null && fresh(captureGraphBuilder)
    {
      graphBuilder := new FilterGraph();
      captureGraphBuilder := new CaptureGraphBuilder();
    }

    /** The format policy of CaptureVideo, applied to the freshly bound source. */
    method NegotiateFormat(source: SourceFilter, chosen: Option<MediaType>)
      modifies source
      ensures source.format == NegotiatedFrom(source.device, old(source.format), currentFormat, settings, chosen)
    {
      if currentFormat.None? {
        if HasStoredSettings(settings) {
          SetFormat(source, settings.Width, settings.Height, settings.Bpp);
        } else {
          ChooseFormat(source, chosen);
        }
      } else {
        var hr := source.SetFormat(currentFormat.value);
      }
    }

    /** From GetCaptureDevice on: adds the bound source to the new graph,
        negotiates its format, then builds and runs the graph. */
    method CaptureFrom(device: Device, env: NativeEnv) returns (r: Outcome)
      requires graphBuilder != null && graphBuilder.filters == []
      modifies this`currentFormat, this`settings, this`formatEvents, this`qualProp, this`currentState
      modifies graphBuilder, filtersController
      ensures filtersController.filterTypes == old(filtersController.filterTypes)
      ensures r.Pass? <==> captureGraphBuilder != null && BuildSucceeds(|filtersController.filterTypes|, env)
      ensures currentState == (if r.Pass? then Running else old(currentState))
      ensures graphBuilder.running == (r.Pass? || old(graphBuilder.running))
      ensures var f := NegotiatedFormat(device, old(currentFormat), old(settings), env.chosen);
        && currentFormat == Some(f) && settings == SettingsOf(f)
        && formatEvents == old(formatEvents) + [ToString(Create(f))]
        && |graphBuilder.filters| > 0 && graphBuilder.filters[0].SourceNode?
        && fresh(graphBuilder.filters[0].source)
        && graphBuilder.filters[0].source.device == device
        && graphBuilder.filters[0].source.format == f
      ensures Rebuilt(graphBuilder, graphBuilder.filters[..1], filtersController.Grabbers(), qualProp)
      ensures qualProp != null && fresh(qualProp)
      ensures |filtersController.filterBuilders| == |filtersController.filterTypes|
      ensures forall b :: b in filtersController.filterBuilders ==> fresh(b)
      ensures forall g :: g in filtersController.Grabbers() ==> g != null && fresh(g)
    {
      var graph := graphBuilder;
      var source := new SourceFilter(device);
      graph.AddFilter(SourceNode(source));
      NegotiateFormat(source, env.chosen);
      ghost var kept := graph.filters;
      assert kept == [SourceNode(source)];
      r := BuildAndRunGraph(source, env);
      assert graph.filters[..1] == kept;
    }

    /** Binds the selected device and builds and runs its graph with the
        negotiated format; any fault is reported once and the graph is left
        as far as it got. */
    method CaptureVideo(env: NativeEnv)
      modifies this`graphBuilder, this`captureGraphBuilder, this`errorsShown, this`timerStarted
      modifies this`currentFormat, this`settings, this`formatEvents, this`qualProp, this`currentState
      modifies filtersController
      ensures graphBuilder != null && fresh(graphBuilder)
      ensures captureGraphBuilder != null && fresh(captureGraphBuilder)
      ensures captureGraphBuilder.graph == graphBuilder
      ensures filtersController.filterTypes == old(filtersController.filterTypes)
      ensures var ok := Bound(currentDevice) && BuildSucceeds(|filtersController.filterTypes|, env);
        && errorsShown == old(errorsShown) + (if ok then 0 else 1)
        && currentState == (if ok then Running else old(currentState))
        && timerStarted == (old(timerStarted) || ok)
        && graphBuilder.running == ok
      ensures !Bound(currentDevice) ==>
        && graphBuilder.filters == []
        && currentFormat == old(currentFormat) && settings == old(settings) && formatEvents == old(formatEvents)
      ensures Bound(currentDevice) ==>
        var f := NegotiatedFormat(currentDevice.value, old(currentFormat), old(settings), env.chosen);
        && currentFormat == Some(f) && settings == SettingsOf(f)
        && formatEvents == old(formatEvents) + [ToString(Create(f))]
        && |graphBuilder.filters| > 0 && graphBuilder.filters[0].SourceNode?
        && fresh(graphBuilder.filters[0].source)
        && graphBuilder.filters[0].source.device == currentDevice.value
        && graphBuilder.filters[0].source.format == f
        && Rebuilt(graphBuilder, graphBuilder.filters[..1], filtersController.Grabbers(), qualProp)
        && qualProp != null && fresh(qualProp)
        && |filtersController.filterBuilders| == |filtersController.filterTypes|
        && (forall b :: b in filtersController.filterBuilders ==> fresh(b))
        && (forall g :: g in filtersController.Grabbers() ==> g != null && fresh(g))
    {
      GetInterfaces();
      captureGraphBuilder.SetFiltergraph(graphBuilder);
      // GetCaptureDevice: a missing device is a NullReferenceException, a
      // moniker that does not bind a COMException; both are caught
      if !Bound(currentDevice) {
        errorsShown := errorsShown + 1;
        return;
      }
      var r := CaptureFrom(currentDevice.value, env);
      if r.Fail? {
        errorsShown := errorsShown + 1;
        return;
      }
      // StartTimer
      timerStarted := true;
    }

    /** Releases the previous graph, remembers the device and captures from it. */
    method SelectDevice(device: Device, env: NativeEnv)
      modifies this, graphBuilder, filtersController
      ensures old(graphBuilder) != null ==> !old(graphBuilder).running
      ensures currentDevice == Some(device)
      ensures graphBuilder != null && fresh(graphBuilder)
      ensures filtersController.filterTypes == old(filtersController.filterTypes)
      ensures var ok := device.bindable && BuildSucceeds(|filtersController.filterTypes|, env);
        && errorsShown == old(errorsShown) + (if ok then 0 else 1)
        && currentState == (if ok then Running else Stopped)
        && timerStarted == (old(timerStarted) || ok)
        && graphBuilder.running == ok
      ensures !device.bindable ==>
        && graphBuilder.filters == []
        && currentFormat == old(currentFormat) && settings == old(settings) && formatEvents == old(formatEvents)
      ensures device.bindable ==>
        var f := NegotiatedFormat(device, old(currentFormat), old(settings), env.chosen);
        && currentFormat == Some(f) && settings == SettingsOf(f)
        && formatEvents == old(formatEvents) + [ToString(Create(f))]
        && |graphBuilder.filters| > 0 && graphBuilder.filters[0].SourceNode?
        && fresh(graphBuilder.filters[0].source)
        && graphBuilder.filters[0].source.device == device
        && Rebuilt(graphBuilder, graphBuilder.filters[..1], filtersController.Grabbers(), qualProp)
        && qualProp != null && fresh(qualProp)
        && (forall b :: b in filtersController.filterBuilders ==> fresh(b))
        && (forall g :: g in filtersController.Grabbers() ==> g != null && fresh(g))
    {
      CloseInterfaces();
      currentDevice := Some(device);
      CaptureVideo(env);
    }

    /** Releases the graph; the device stays remembered. */
    method ResetDevice()
      modifies this, graphBuilder
      ensures currentState == Stopped
      ensures graphBuilder == null && captureGraphBuilder == null && qualProp == null
      ensures old(graphBuilder) != null ==> !old(graphBuilder).running
      ensures Remembered() == old(Remembered())
    {
      CloseInterfaces();
    }

    /** Stops the frame-rate timer, then releases the graph. Without a
        timer (no capture ever succeeded) the first call faults. */
    method Dispose() returns (r: Outcome)
      modifies this, graphBuilder
      ensures Remembered() == old(Remembered())
      ensures !timerStarted ==>
        r == Fail(NullReference) && graphBuilder == old(graphBuilder) && currentState == old(currentState)
      ensures timerStarted ==>
        && r == Pass && currentState == Stopped
        && graphBuilder == null && captureGraphBuilder == null && qualProp == null
    {
      if !timerStarted {
        return Fail(NullReference);
      }
      CloseInterfaces();
      return Pass;
    }

    /** `Dispose` with the timer stopped only when there is one: the graph is
        released whether or not a capture ever started. */
    method DisposeGuarded()
      modifies this, graphBuilder
      ensures Remembered() == old(Remembered())
      ensures currentState == Stopped
      ensures graphBuilder == null && captureGraphBuilder == null && qualProp == null
      ensures old(graphBuilder) != null ==> !old(graphBuilder).running
    {
      CloseInterfaces();
    }

    /** Removes every filter except `source` from the graph, whatever order
        the graph enumerates them in. */
    method ResetGraph(source: SourceFilter)
      requires graphBuilder != null
      modifies graphBuilder
      ensures graphBuilder.filters ==
        Without(old(graphBuilder.filters), Others(old(graphBuilder.filters), SourceNode(source)))
      ensures graphBuilder.running == old(graphBuilder.running)
    {
      var graph := graphBuilder;
      var filters := graph.filters;
      ghost var removed: set<Node> := {};
      WithoutNothing(filters);
      for i := 0 to |filters|
        invariant removed == Others(filters[..i], SourceNode(source))
        invariant graph.filters == Without(filters, removed)
        invariant graph.running == old(graph.running)
      {
        OthersStep(filters, i, SourceNode(source));
        var filter := filters[i];
        if filter != SourceNode(source) {
          graph.RemoveFilter(filter);
          WithoutTwice(filters, removed, {filter});
          removed := removed + {filter};
        }
      }
      assert filters[..|filters|] == filters;
    }

    /** Stops the graph, strips it down to its source, applies `change` and
        builds and runs it again around the same source filter. */
    method ChangeGraph(change: GraphChange, env: NativeEnv) returns (r: Outcome)
      modifies this`currentFormat, this`settings, this`formatEvents, this`qualProp, this`currentState
      modifies graphBuilder, filtersController, GraphSource()
      ensures filtersController.filterTypes == old(filtersController.filterTypes)
      ensures r.Fail? ==> currentState == Stopped
      ensures old(graphBuilder) == null ==> r == Fail(NullReference)
      ensures old(graphBuilder) != null && old(graphBuilder.FindSource()).None? ==>
        r == Fail(NativeFailure(VFW_E_NOT_FOUND)) && graphBuilder.filters == old(graphBuilder.filters)
      ensures old(graphBuilder) == null || old(graphBuilder.FindSource()).None? ==>
        && currentFormat == old(currentFormat) && settings == old(settings)
        && formatEvents == old(formatEvents) && qualProp == old(qualProp)
      ensures old(graphBuilder) != null && old(graphBuilder.FindSource()).Some? ==>
        var src := old(graphBuilder.FindSource()).value;
        var kept := Without(old(graphBuilder.filters), Others(old(graphBuilder.filters), SourceNode(src)));
        && src.format == FormatAfter(change, src.device, old(src.format), env.chosen)
        && currentFormat == Some(src.format) && settings == SettingsOf(src.format)
        && formatEvents == old(formatEvents) + [ToString(Create(src.format))]
        && Rebuilt(graphBuilder, kept, filtersController.Grabbers(), qualProp)
        && qualProp != null && fresh(qualProp)
        && |filtersController.filterBuilders| == |filtersController.filterTypes|
        && (r.Pass? <==> captureGraphBuilder != null && BuildSucceeds(|filtersController.filterTypes|, env))
        && (r.Pass? ==> currentState == Running)
        && graphBuilder.running == r.Pass?
    {
      currentState := Stopped;
      if graphBuilder == null {
        // GetSourceFilter on a released graph
        return Fail(NullReference);
      }
      var graph := graphBuilder;
      var found := graph.FindSource();
      if found.None? {
        return Fail(NativeFailure(VFW_E_NOT_FOUND));
      }
      var source := found.value;
      graph.Stop();
      ResetGraph(source);
      match change {
        case ChooseNewFormat => ChooseFormat(source, env.chosen);
        case ClearStages => filtersController.Clear();
        case KeepStages =>
      }
      r := BuildAndRunGraph(source, env);
    }

    /** Rebuilds the graph after the property dialog has changed the format. */
    method ChangeCameraFormat(env: NativeEnv) returns (r: Outcome)
      modifies this`currentFormat, this`settings, this`formatEvents, this`qualProp, this`currentState
      modifies graphBuilder, filtersController, GraphSource()
      ensures r.Fail? ==> currentState == Stopped
      ensures old(graphBuilder) != null && old(graphBuilder.FindSource()).Some? ==>
        var src := old(graphBuilder.FindSource()).value;
        currentFormat == Some(Chosen(src.device, old(src.format), env.chosen))
    {
      r := ChangeGraph(ChooseNewFormat, env);
    }

    /** Clears the builders and rebuilds: InitFilters builds every registered
        stage again, so the stages come back. */
    method DisableFilters(env: NativeEnv) returns (r: Outcome)
      modifies this`currentFormat, this`settings, this`formatEvents, this`qualProp, this`currentState
      modifies graphBuilder, filtersController, GraphSource()
      ensures r.Fail? ==> currentState == Stopped
      ensures filtersController.filterTypes == old(filtersController.filterTypes)
      ensures old(graphBuilder) != null && old(graphBuilder.FindSource()).Some? ==>
        && |filtersController.filterBuilders| == |filtersController.filterTypes|
        && graphBuilder != null && |graphBuilder.filters| == |Without(old(graphBuilder.filters),
             Others(old(graphBuilder.filters), SourceNode(old(graphBuilder.FindSource()).value)))|
           + |filtersController.filterTypes| + 1
    {
      r := ChangeGraph(ClearStages, env);
    }

    /** Rebuilds the graph with the same format and stages. */
    method SetFilterBuilderType(env: NativeEnv) returns (r: Outcome)
      modifies this`currentFormat, this`settings, this`formatEvents, this`qualProp, this`currentState
      modifies graphBuilder, filtersController, GraphSource()
      ensures r.Fail? ==> currentState == Stopped
      ensures old(graphBuilder) != null && old(graphBuilder.FindSource()).Some? ==>
        var src := old(graphBuilder.FindSource()).value;
        currentFormat == Some(old(src.format))
    {
      r := ChangeGraph(KeepStages, env);
    }
  }
}
