/** Building the processing stages of a capture graph: one FilterBuilder per
    stage, and the FilterController that owns the ordered stage types. */
module Filters {
  import opened Common
  import opened Stages
  import opened Native

  /** The sample grabber calls back `SampleCB` (method 0). */
  const SampleGrabberCallbackMethod: int := 0

  /** Bytes from one scanline to the next: width times whole bytes per pixel,
      in 32-bit C# arithmetic with truncating division. For every real frame
      size nothing wraps: 3 * width at 24 bits, 4 * width at 32 bits. */
  function Stride(videoWidth: int, bitCount: int): (r: int)
    ensures IsInt32(r)
    ensures 0 <= videoWidth <= 0x10000 && 0 <= bitCount <= 64 ==>
      && r == videoWidth * (bitCount / 8)
      && (bitCount == 24 ==> r == 3 * videoWidth)
      && (bitCount == 32 ==> r == 4 * videoWidth)
  {
    var q := TruncDiv(bitCount, 8);
    assert 0 <= videoWidth <= 0x10000 && 0 <= bitCount <= 64 ==> 0 <= videoWidth * q <= 0x10000 * 8;
    Wrap32(videoWidth * q)
  }

  /** The connected media type succeeded and carries a VideoInfo block. */
  predicate StrideReadable(c: Connection) {
    !Failed(c.hr) && c.formatType == VideoInfo && c.hasFormatBlock
  }

  /** Builds one sample-grabber stage around a filter stage and configures it
      once the graph is connected. */
  class FilterBuilder {
    var graphBuilder: FilterGraph?
    const filter: PreprocessingFilter
    var sampleGrabber: SampleGrabber?

    constructor (filter: PreprocessingFilter)
      ensures this.filter == filter && graphBuilder == null && sampleGrabber == null
    {
      this.filter := filter;
      graphBuilder := null;
      sampleGrabber := null;
    }

    /** Records the graph and changes nothing else. */
    method Init(graphBuilder: FilterGraph)
      modifies this
      ensures this.graphBuilder == graphBuilder && sampleGrabber == old(sampleGrabber)
    {
      this.graphBuilder := graphBuilder;
    }

    /** Creates a new sample grabber for RGB24 video whose callback is the stage. */
    method Build() returns (g: SampleGrabber)
      modifies this
      ensures fresh(g) && sampleGrabber == g && graphBuilder == old(graphBuilder)
      ensures g.majorType == Video && g.subType == RGB24 && g.formatType == VideoInfo
      ensures g.callback == filter && g.callbackMethod == SampleGrabberCallbackMethod
    {
      g := new SampleGrabber();
      sampleGrabber := g;
      g.SetMediaType(Video, RGB24, VideoInfo);
      g.SetCallback(filter, SampleGrabberCallbackMethod);
    }

    /** The stride read from the grabber's connected media type; fails when the
        grabber is missing, the call fails, or the format is not VideoInfo. */
    function GetStride(videoWidth: int, connected: Connection): (r: Result<int>)
      reads this
      ensures r.Ok? <==> sampleGrabber != null && StrideReadable(connected)
      ensures r.Ok? ==> r.value == Stride(videoWidth, connected.bitCount)
      ensures sampleGrabber != null && !Failed(connected.hr)
              && !(connected.formatType == VideoInfo && connected.hasFormatBlock)
              ==> r == Err(FormatTypeIncorrect)
    {
      if sampleGrabber == null then Err(NullReference)
      else if Failed(connected.hr) then Err(NativeFailure(connected.hr))
      else if connected.formatType != VideoInfo || !connected.hasFormatBlock then Err(FormatTypeIncorrect)
      else Ok(Stride(videoWidth, connected.bitCount))
    }

    /** The stride Configure stores, or the fault it raises instead. */
    function ConfiguredStride(videoWidth: int, connected: Connection): Result<int>
      reads this
    {
      if graphBuilder == null then Err(NullReference) else GetStride(videoWidth, connected)
    }

    /** After connection: pushes the reported height and the computed stride
        into the stage; a fault leaves the stage unchanged. */
    method Configure(videoWidth: int, videoHeight: int, connected: Connection) returns (r: Outcome)
      modifies filter`VideoHeight, filter`VideoStride
      ensures r == if ConfiguredStride(videoWidth, connected).Ok? then Pass
                   else Fail(ConfiguredStride(videoWidth, connected).fault)
      ensures graphBuilder == null ==> r == Fail(NullReference)
      ensures graphBuilder != null && GetStride(videoWidth, connected).Err? ==>
        r == Fail(GetStride(videoWidth, connected).fault)
      ensures r.Pass? <==> graphBuilder != null && GetStride(videoWidth, connected).Ok?
      ensures r.Pass? ==>
        filter.VideoHeight == videoHeight && filter.VideoStride == GetStride(videoWidth, connected).value
      ensures r.Fail? ==> filter.VideoHeight == old(filter.VideoHeight) && filter.VideoStride == old(filter.VideoStride)
      ensures filter.Interceptors == old(filter.Interceptors)
    {
      if graphBuilder == null {
        return Fail(NullReference);
      }
      var stride := GetStride(videoWidth, connected);
      if stride.Err? {
        return Fail(stride.fault);
      }
      filter.VideoHeight := videoHeight;
      filter.VideoStride := stride.value;
      return Pass;
    }
  }

  /** `g` holds, ahead of stage `k`, the connected height and the stride of
      each stage's own report, and `before` from stage `k` on. */
  predicate UpTo(g: seq<(int, int)>, k: nat, before: seq<(int, int)>, videoWidth: int, videoHeight: int,
                 connections: seq<Connection>)
  {
    && k <= |g| && |before| == |g|
    && (forall i :: 0 <= i < k ==> g[i] == (videoHeight, Stride(videoWidth, ConnectionAt(connections, i).bitCount)))
    && g[k..] == before[k..]
  }

  lemma UpToStart(g: seq<(int, int)>, videoWidth: int, videoHeight: int, connections: seq<Connection>)
    ensures UpTo(g, 0, g, videoWidth, videoHeight, connections)
  {
  }

  /** Configuring stage `k` extends the configured prefix by one. */
  lemma UpToStep(g: seq<(int, int)>, k: nat, before: seq<(int, int)>, videoWidth: int, videoHeight: int,
                 connections: seq<Connection>)
    requires UpTo(g, k, before, videoWidth, videoHeight, connections) && k < |g|
    ensures UpTo(g[k := (videoHeight, Stride(videoWidth, ConnectionAt(connections, k).bitCount))], k + 1,
                 before, videoWidth, videoHeight, connections)
  {
    var g' := g[k := (videoHeight, Stride(videoWidth, ConnectionAt(connections, k).bitCount))];
    assert g'[k + 1..] == g[k..][1..];
  }

  /** The builder's grabber, as a set that is empty while it has none. */
  function GrabberOf(b: FilterBuilder): (s: set<SampleGrabber>)
    reads b`sampleGrabber
  {
    if b.sampleGrabber == null then {} else {b.sampleGrabber}
  }

  /** Owns the ordered, duplicate-free stage types and the builders of the
      current graph. */
  class FilterController {
    const registry: PreprocessingRegistry
    var filterTypes: seq<StageType>
    var filterBuilders: seq<FilterBuilder>
    var CompressorFilter: SampleGrabber?

    constructor (registry: PreprocessingRegistry)
      ensures this.registry == registry
      ensures filterTypes == [] && filterBuilders == [] && CompressorFilter == null
    {
      this.registry := registry;
      filterTypes := [];
      filterBuilders := [];
      CompressorFilter := null;
    }

    /** Appends a stage type; a type already present is refused and nothing changes. */
    method RegisterFilterType(filterType: StageType) returns (r: Outcome)
      modifies this
      ensures filterType in old(filterTypes) ==>
        r == Fail(InvalidOperation("Filter type " + filterType.name + " already registered"))
        && filterTypes == old(filterTypes)
      ensures filterType !in old(filterTypes) ==> r == Pass && filterTypes == old(filterTypes) + [filterType]
      ensures filterBuilders == old(filterBuilders) && CompressorFilter == old(CompressorFilter)
    {
      if filterType in filterTypes {
        return Fail(InvalidOperation("Filter type " + filterType.name + " already registered"));
      }
      filterTypes := filterTypes + [filterType];
      return Pass;
    }

    /** A fresh stage of the given type, wired to the controller's registry. */
    method CreateFilter(filterType: StageType) returns (f: PreprocessingFilter)
      ensures fresh(f) && f.Type == filterType && f.Interceptors == registry
      ensures f.VideoHeight == 0 && f.VideoStride == 0
    {
      f := new PreprocessingFilter(filterType, registry);
    }

    /** Whether builder `b` is the one built, in `graph`, for a stage of type `t`. */
    ghost predicate BuiltFor(b: FilterBuilder, t: StageType, graph: FilterGraph)
      reads b`graphBuilder, b`sampleGrabber, b.filter`Interceptors, GrabberOf(b)`callback
    {
      && b.graphBuilder == graph
      && b.filter.Type == t && b.filter.Interceptors == registry
      && b.sampleGrabber != null && b.sampleGrabber.callback == b.filter
    }

    /** Discards the previous builders, then builds one stage per registered
        type, in registration order; the last one built becomes the compressor. */
    method InitFilters(graphBuilder: FilterGraph) returns (built: seq<SampleGrabber>)
      modifies this`filterBuilders, this`CompressorFilter
      ensures filterTypes == old(filterTypes)
      ensures |built| == |filterBuilders| == |filterTypes|
      ensures forall i :: 0 <= i < |filterBuilders| ==>
        fresh(filterBuilders[i]) && fresh(filterBuilders[i].filter)
        && filterBuilders[i].sampleGrabber == built[i] && fresh(built[i])
        && BuiltFor(filterBuilders[i], filterTypes[i], graphBuilder)
      ensures DistinctStages() && Unconfigured()
      ensures CompressorFilter == if filterTypes == [] then old(CompressorFilter) else built[|built| - 1]
    {
      filterBuilders := [];
      built := [];
      var i := 0;
      while i < |filterTypes|
        invariant 0 <= i <= |filterTypes|
        invariant filterTypes == old(filterTypes)
        invariant |built| == |filterBuilders| == i
        invariant forall k :: 0 <= k < i ==>
          fresh(filterBuilders[k]) && fresh(filterBuilders[k].filter)
          && filterBuilders[k].sampleGrabber == built[k] && fresh(built[k])
          && BuiltFor(filterBuilders[k], filterTypes[k], graphBuilder)
          && filterBuilders[k].filter.VideoHeight == 0 && filterBuilders[k].filter.VideoStride == 0
        invariant DistinctStages()
        invariant CompressorFilter == if i == 0 then old(CompressorFilter) else built[i - 1]
      {
        var filter := CreateFilter(filterTypes[i]);
        var builder := new FilterBuilder(filter);
        filterBuilders := filterBuilders + [builder];
        builder.Init(graphBuilder);
        var baseFilter := builder.Build();
        CompressorFilter := baseFilter;
        built := built + [baseFilter];
        i := i + 1;
      }
    }

    /** Every builder has built its grabber and knows its graph. */
    predicate Ready()
      reads this, set b | b in filterBuilders
    {
      forall i :: 0 <= i < |filterBuilders| ==>
        filterBuilders[i].graphBuilder != null && filterBuilders[i].sampleGrabber != null
    }

    /** No two builders share a stage (each was created with a fresh one). */
    predicate DistinctStages()
      reads this`filterBuilders
    {
      forall i, j :: 0 <= i < j < |filterBuilders| ==> filterBuilders[i].filter != filterBuilders[j].filter
    }

    /** The sample grabber of each builder, in order. */
    function Grabbers(): (gs: seq<SampleGrabber?>)
      reads this, set b | b in filterBuilders
      ensures |gs| == |filterBuilders|
      ensures forall i :: 0 <= i < |gs| ==> gs[i] == filterBuilders[i].sampleGrabber
    {
      seq(|filterBuilders|, i reads this, set b | b in filterBuilders
                              requires 0 <= i < |filterBuilders| => filterBuilders[i].sampleGrabber)
    }

    /** The stages of the current builders. */
    function Stages(): set<PreprocessingFilter>
      reads this`filterBuilders
    {
      set b | b in filterBuilders :: b.filter
    }

    /** The builders are those InitFilters builds in `graph`: one per
        registered type, in registration order, each around its own stage,
        and the compressor is the last grabber built. */
    ghost predicate BuiltInOrder(graph: FilterGraph)
      reads this`filterBuilders, this`filterTypes, this`CompressorFilter
      reads (set b | b in filterBuilders)`graphBuilder, (set b | b in filterBuilders)`sampleGrabber
      reads (set b | b in filterBuilders :: b.filter)`Interceptors
      reads (set b, g | b in filterBuilders && g in GrabberOf(b) :: g)`callback
    {
      && |filterBuilders| == |filterTypes|
      && (forall i :: 0 <= i < |filterBuilders| ==> BuiltFor(filterBuilders[i], filterTypes[i], graph))
      && DistinctStages()
      && (filterBuilders != [] ==> CompressorFilter == filterBuilders[|filterBuilders| - 1].sampleGrabber)
    }

    /** Configuring the stages' geometry leaves the build order intact. */
    twostate lemma OrderKept(graph: FilterGraph)
      requires unchanged(this)
      requires forall b :: b in filterBuilders ==> unchanged(b)
      requires forall b :: b in filterBuilders && b.sampleGrabber != null ==> unchanged(b.sampleGrabber)
      requires forall f :: f in Stages() ==> f.Interceptors == old(f.Interceptors)
      ensures old(BuiltInOrder(graph)) ==> BuiltInOrder(graph)
    {
      if old(BuiltInOrder(graph)) {
        forall i | 0 <= i < |filterBuilders|
          ensures BuiltFor(filterBuilders[i], filterTypes[i], graph)
        {
          assert old(BuiltFor(filterBuilders[i], filterTypes[i], graph));
          assert filterBuilders[i].filter in Stages();
        }
        if filterBuilders != [] {
          assert filterBuilders[|filterBuilders| - 1] in filterBuilders;
        }
      }
    }

    /** Every stage still has the zero geometry of a new stage. */
    predicate Unconfigured()
      reads this, Stages()
    {
      forall i :: 0 <= i < |filterBuilders| ==>
        filterBuilders[i].filter.VideoHeight == 0 && filterBuilders[i].filter.VideoStride == 0
    }

    /** The VideoHeight and VideoStride of each builder's stage, in order. */
    function Geometry(): (g: seq<(int, int)>)
      reads this, Stages()
      ensures |g| == |filterBuilders|
      ensures forall i :: 0 <= i < |g| ==>
        g[i] == (filterBuilders[i].filter.VideoHeight, filterBuilders[i].filter.VideoStride)
    {
      seq(|filterBuilders|, i reads this, Stages() requires 0 <= i < |filterBuilders| =>
        (filterBuilders[i].filter.VideoHeight, filterBuilders[i].filter.VideoStride))
    }

    /** The first builder at or after `from` whose Configure faults when grabber
        `i` reports `ConnectionAt(connections, i)`; `|filterBuilders|` when none does. */
    function FirstFault(videoWidth: int, connections: seq<Connection>, from: nat): (k: nat)
      requires from <= |filterBuilders|
      reads this, set b | b in filterBuilders
      decreases |filterBuilders| - from
      ensures from <= k <= |filterBuilders|
      ensures forall i :: from <= i < k ==>
        filterBuilders[i].ConfiguredStride(videoWidth, ConnectionAt(connections, i)).Ok?
      ensures k < |filterBuilders| ==>
        filterBuilders[k].ConfiguredStride(videoWidth, ConnectionAt(connections, k)).Err?
    {
      if from == |filterBuilders| then from
      else if filterBuilders[from].ConfiguredStride(videoWidth, ConnectionAt(connections, from)).Err? then from
      else FirstFault(videoWidth, connections, from + 1)
    }

    /** The fault of the first builder that faults, if any. */
    function StageFault(videoWidth: int, connections: seq<Connection>): (f: Option<Fault>)
      reads this, set b | b in filterBuilders
      ensures f.None? <==> forall i :: 0 <= i < |filterBuilders| ==>
        filterBuilders[i].ConfiguredStride(videoWidth, ConnectionAt(connections, i)).Ok?
      ensures Ready() ==> (f.None? <==> forall i :: 0 <= i < |filterBuilders| ==>
        StrideReadable(ConnectionAt(connections, i)))
    {
      var k := FirstFault(videoWidth, connections, 0);
      if k == |filterBuilders| then None
      else Some(filterBuilders[k].ConfiguredStride(videoWidth, ConnectionAt(connections, k)).fault)
    }

    /** The stages ahead of builder `k` carry the connected height and their
        own grabber's stride; stage `k` and the rest keep `before`. */
    predicate ConfiguredUpTo(k: nat, before: seq<(int, int)>, videoWidth: int, videoHeight: int,
                             connections: seq<Connection>)
      reads this, Stages()
    {
      UpTo(Geometry(), k, before, videoWidth, videoHeight, connections)
    }

    /** Builders 0 .. k-1 configure and builder k (if any) faults: k is the first fault. */
    lemma FirstFaultIs(videoWidth: int, connections: seq<Connection>, k: nat)
      requires k <= |filterBuilders|
      requires forall i :: 0 <= i < k ==>
        filterBuilders[i].ConfiguredStride(videoWidth, ConnectionAt(connections, i)).Ok?
      requires k < |filterBuilders| ==>
        filterBuilders[k].ConfiguredStride(videoWidth, ConnectionAt(connections, k)).Err?
      ensures FirstFault(videoWidth, connections, 0) == k
      ensures StageFault(videoWidth, connections) ==
        if k == |filterBuilders| then None
        else Some(filterBuilders[k].ConfiguredStride(videoWidth, ConnectionAt(connections, k)).fault)
    {
    }

    /** Configures each builder once, in order, with the report of its own
        grabber; the first fault ends the loop, leaving the stages before it
        configured and the others as they were. */
    method ConfigureFilters(videoWidth: int, videoHeight: int, connections: seq<Connection>) returns (r: Outcome)
      requires DistinctStages()
      modifies Stages()`VideoHeight, Stages()`VideoStride
      ensures var k := FirstFault(videoWidth, connections, 0);
        && ConfiguredUpTo(k, old(Geometry()), videoWidth, videoHeight, connections)
        && (r.Pass? <==> k == |filterBuilders|)
      ensures r == (match StageFault(videoWidth, connections) case None => Pass case Some(f) => Fail(f))
    {
      var i := 0;
      UpToStart(Geometry(), videoWidth, videoHeight, connections);
      while i < |filterBuilders|
        invariant 0 <= i <= |filterBuilders|
        invariant forall k :: 0 <= k < i ==>
          filterBuilders[k].ConfiguredStride(videoWidth, ConnectionAt(connections, k)).Ok?
        invariant ConfiguredUpTo(i, old(Geometry()), videoWidth, videoHeight, connections)
      {
        ghost var g := Geometry();
        r := ConfigureStage(i, videoWidth, videoHeight, connections);
        if r.Fail? {
          FirstFaultIs(videoWidth, connections, i);
          return;
        }
        UpToStep(g, i, old(Geometry()), videoWidth, videoHeight, connections);
        i := i + 1;
      }
      FirstFaultIs(videoWidth, connections, i);
      return Pass;
    }

    /** One turn of the ConfigureFilters loop: builder `i` configures its
        own stage from its own grabber's report; no other stage changes. */
    method ConfigureStage(i: nat, videoWidth: int, videoHeight: int, connections: seq<Connection>)
      returns (r: Outcome)
      requires i < |filterBuilders| && DistinctStages()
      modifies filterBuilders[i].filter`VideoHeight, filterBuilders[i].filter`VideoStride
      ensures r == if filterBuilders[i].ConfiguredStride(videoWidth, ConnectionAt(connections, i)).Ok? then Pass
                   else Fail(filterBuilders[i].ConfiguredStride(videoWidth, ConnectionAt(connections, i)).fault)
      ensures Geometry() == if r.Fail? then old(Geometry())
        else old(Geometry())[i := (videoHeight, Stride(videoWidth, ConnectionAt(connections, i).bitCount))]
    {
      ghost var g := Geometry();
      r := filterBuilders[i].Configure(videoWidth, videoHeight, ConnectionAt(connections, i));
      if r.Pass? {
        assert Geometry() == g[i := (videoHeight, Stride(videoWidth, ConnectionAt(connections, i).bitCount))];
      } else {
        assert Geometry() == g;
      }
    }

    /** Discards the builders; the registered types stay. */
    method Clear()
      modifies this
      ensures filterBuilders == [] && filterTypes == old(filterTypes) && CompressorFilter == old(CompressorFilter)
    {
      filterBuilders := [];
    }
  }
}
