/** The DirectShow objects the program drives, reduced to the state it reads
    and changes: media types, the capture source, sample grabbers, the video
    renderer and the filter graph. Every native call is modelled as succeeding
    unless its HRESULT is an input. */
module Native {
  import opened Common
  import opened Stages

  datatype MajorType = Video | Audio | OtherMajor
  datatype SubType = RGB24 | OtherSubType
  datatype FormatType = VideoInfo | OtherFormat

  /** An AM_MEDIA_TYPE together with the BITMAPINFOHEADER fields the program
      reads from its format block. */
  datatype MediaType = MediaType(
    majorType: MajorType, subType: SubType, formatType: FormatType,
    width: int, height: int, bitCount: int)

  /** What ISampleGrabber.GetConnectedMediaType reports once pins are connected:
      its HRESULT, the format type, whether the format block pointer is non-null,
      and the block's bit count. */
  datatype Connection = Connection(hr: int, formatType: FormatType, hasFormatBlock: bool, bitCount: int)

  /** VFW_E_NOT_CONNECTED (0x80040209): the pin is not connected. */
  const VFW_E_NOT_CONNECTED: int := -0x7FFB_FDF7

  /** What grabber `i` of a graph reports, given the reports of the grabbers
      the graph connected, in stage order: a grabber beyond them was left
      unconnected. */
  function ConnectionAt(connections: seq<Connection>, i: nat): (c: Connection)
    ensures i < |connections| ==> c == connections[i]
    ensures i >= |connections| ==> Failed(c.hr)
  {
    if i < |connections| then connections[i] else Connection(VFW_E_NOT_CONNECTED, OtherFormat, false, 0)
  }

  /** A capture device of the system enumeration (DsDevice): whether its
      moniker binds, its output pin's initial format and its capabilities in
      enumeration order. */
  datatype Device = Device(name: string, bindable: bool, defaultFormat: MediaType, capabilities: seq<MediaType>)

  /** A capture filter bound from a device; `format` is the current format of
      its output pin (IAMStreamConfig). */
  class SourceFilter {
    const device: Device
    var format: MediaType

    constructor (device: Device)
      ensures this.device == device && format == device.defaultFormat
    {
      this.device := device;
      format := device.defaultFormat;
    }

    /** IAMStreamConfig.SetFormat: the pin accepts exactly its capabilities. */
    method SetFormat(mediaType: MediaType) returns (hr: int)
      modifies this
      ensures mediaType in device.capabilities ==> hr == 0 && format == mediaType
      ensures mediaType !in device.capabilities ==> Failed(hr) && format == old(format)
    {
      if mediaType in device.capabilities {
        format := mediaType;
        hr := 0;
      } else {
        hr := -1;
      }
    }
  }

  /** A sample grabber: the media type it accepts and the callback it calls per frame. */
  class SampleGrabber {
    var majorType: MajorType
    var subType: SubType
    var formatType: FormatType
    var callback: PreprocessingFilter?
    var callbackMethod: int

    constructor ()
      ensures callback == null
    {
      majorType, subType, formatType := OtherMajor, OtherSubType, OtherFormat;
      callback := null;
      callbackMethod := 0;
    }

    method SetMediaType(major: MajorType, sub: SubType, format: FormatType)
      modifies this
      ensures majorType == major && subType == sub && formatType == format
      ensures callback == old(callback) && callbackMethod == old(callbackMethod)
    {
      majorType, subType, formatType := major, sub, format;
    }

    method SetCallback(cb: PreprocessingFilter, whichMethod: int)
      modifies this
      ensures callback == cb && callbackMethod == whichMethod
      ensures majorType == old(majorType) && subType == old(subType) && formatType == old(formatType)
    {
      callback := cb;
      callbackMethod := whichMethod;
    }
  }

  /** The video renderer (its IQualProp interface). */
  class VideoRenderer {
    constructor () { }
  }

  /** ICaptureGraphBuilder2: builds capture graphs on top of a filter graph. */
  class CaptureGraphBuilder {
    var graph: FilterGraph?

    constructor ()
      ensures graph == null
    {
      graph := null;
    }

    method SetFiltergraph(g: FilterGraph)
      modifies this
      ensures graph == g
    {
      graph := g;
    }
  }

  /** A filter of the graph. */
  datatype Node =
    | SourceNode(source: SourceFilter)
    | StageNode(grabber: SampleGrabber)
    | RendererNode(renderer: VideoRenderer)

  /** `s` with every filter in `gone` taken out, order kept. */
  function Without(s: seq<Node>, gone: set<Node>): (r: seq<Node>)
    ensures |r| <= |s|
    ensures forall i :: 0 <= i < |r| ==> r[i] in s && r[i] !in gone
    ensures forall i :: 0 <= i < |s| && s[i] !in gone ==> s[i] in r
  {
    if s == [] then []
    else (if s[0] in gone then [] else [s[0]]) + Without(s[1..], gone)
  }

  /** Removing nothing keeps every filter. */
  lemma {:induction false} WithoutNothing(s: seq<Node>)
    ensures Without(s, {}) == s
  {
    if s != [] {
      WithoutNothing(s[1..]);
      assert s == [s[0]] + s[1..];
    }
  }

  /** Removing one set of filters, then another, removes both. */
  lemma {:induction false} WithoutTwice(s: seq<Node>, a: set<Node>, b: set<Node>)
    ensures Without(Without(s, a), b) == Without(s, a + b)
  {
    if s != [] {
      WithoutTwice(s[1..], a, b);
      assert Without(s, a + b) == (if s[0] in a + b then [] else [s[0]]) + Without(s[1..], a + b);
      if s[0] !in a {
        var x := Without(s, a);
        assert x == [s[0]] + Without(s[1..], a);
        assert x[0] == s[0] && x[1..] == Without(s[1..], a);
        assert Without(x, b) == (if s[0] in b then [] else [s[0]]) + Without(x[1..], b);
      } else {
        assert Without(s, a) == [] + Without(s[1..], a) == Without(s[1..], a);
        assert Without(s, a + b) == Without(s[1..], a + b);
      }
    }
  }

  /** The filter graph manager (IGraphBuilder, IMediaControl, IMediaEventEx and
      IVideoWindow are interfaces of this one object): its filters in
      enumeration order and whether it is streaming. */
  class FilterGraph {
    var filters: seq<Node>
    var running: bool

    constructor ()
      ensures filters == [] && !running
    {
      filters := [];
      running := false;
    }

    method AddFilter(filter: Node)
      modifies this`filters
      ensures filters == old(filters) + [filter] && running == old(running)
    {
      filters := filters + [filter];
    }

    method RemoveFilter(filter: Node)
      modifies this`filters
      ensures filters == Without(old(filters), {filter}) && running == old(running)
    {
      filters := Without(filters, {filter});
    }

    method Run()
      modifies this`running
      ensures running && filters == old(filters)
    {
      running := true;
    }

    /** IMediaControl.Stop and StopWhenReady. */
    method Stop()
      modifies this`running
      ensures !running && filters == old(filters)
    {
      running := false;
    }

    /** FindFilterByName("Video Capture"): the capture source added to the graph. */
    function FindSource(): (r: Option<SourceFilter>)
      reads this
      ensures r.Some? <==> exists i :: 0 <= i < |filters| && filters[i].SourceNode?
      ensures r.Some? ==> SourceNode(r.value) in filters
    {
      FirstSource(filters)
    }
  }

  function FirstSource(s: seq<Node>): (r: Option<SourceFilter>)
    ensures r.Some? <==> exists i :: 0 <= i < |s| && s[i].SourceNode?
    ensures r.Some? ==> SourceNode(r.value) in s
  {
    if s == [] then None
    else if s[0].SourceNode? then Some(s[0].source)
    else
      var r := FirstSource(s[1..]);
      assert forall i :: 1 <= i < |s| ==> s[i] == s[1..][i - 1];
      r
  }
}
