/** The filter stage: the sample-grabber callback object that hands each
    delivered frame to the registered interceptors of its category. */
module Stages {
  import opened Common
  import opened PluginApi
  import opened Effects
  import opened Registry

  /** The registry the pipeline uses: preprocessing interceptors by category. */
  type PreprocessingRegistry = InterceptorRegistry<Category, EffectsInterceptor>

  /** The `enabled` flag of each interceptor, in order. */
  function Flags(xs: seq<EffectsInterceptor>): (r: seq<bool>)
    reads set x | x in xs
    ensures |r| == |xs|
    ensures forall i :: 0 <= i < |xs| ==> r[i] == xs[i].enabled
  {
    if xs == [] then [] else Flags(xs[..|xs| - 1]) + [xs[|xs| - 1].enabled]
  }

  /** One interceptor's `Execute` on the frame `s`. */
  function Step(s: seq<byte>, enabled: bool, height: int, stride: int): (r: seq<byte>)
    ensures |r| == |s|
  {
    if enabled then NegateFrame(s, height, stride) else s
  }

  /** How many of the flags are set. */
  function CountEnabled(flags: seq<bool>): nat {
    if flags == [] then 0
    else CountEnabled(flags[..|flags| - 1]) + (if flags[|flags| - 1] then 1 else 0)
  }

  /** The frame after interceptors with the given flags ran one after the
      other on the same buffer, each seeing the previous one's output: the
      input negated once per enabled interceptor, so an odd count negates
      and an even count (none in particular) restores. */
  function Pipeline(s: seq<byte>, flags: seq<bool>, height: int, stride: int): (r: seq<byte>)
    ensures r == if CountEnabled(flags) % 2 == 1 then NegateFrame(s, height, stride) else s
  {
    if flags == [] then s
    else
      NegateInvolution(s, height, stride);
      Step(Pipeline(s, flags[..|flags| - 1], height, stride), flags[|flags| - 1], height, stride)
  }

  /** Every enabled interceptor's frame lies inside the buffer. */
  predicate FramesFit(xs: seq<EffectsInterceptor>, len: int, height: int, stride: int)
    reads set x | x in xs
  {
    forall i :: 0 <= i < |xs| && xs[i].enabled ==> FrameFits(len, height, stride)
  }

  /** A stage type registered with the filter chain (a `System.Type`). */
  datatype StageType = StageType(name: string)

  /** FilterBase<IPreprocessingInterceptor> together with PreprocessingFilter. */
  class PreprocessingFilter {
    /** The type the stage was instantiated from (its `GetType()`). */
    const Type: StageType
    var Interceptors: PreprocessingRegistry
    var VideoHeight: int
    var VideoStride: int

    /** A stage of type `filterType` wired to `registry`, as
        FilterController.CreateFilter leaves it. */
    constructor (filterType: StageType, registry: PreprocessingRegistry)
      ensures Type == filterType && Interceptors == registry && VideoHeight == 0 && VideoStride == 0
    {
      Type := filterType;
      Interceptors := registry;
      VideoHeight := 0;
      VideoStride := 0;
    }

    /** Re-queries the registry for IPreprocessingInterceptor on every call. */
    function GetInterceptors(): (r: Result<seq<EffectsInterceptor>>)
      reads this, Interceptors
      ensures r.Ok? <==> Resolve(Interceptors.known, {Preprocessing}).Unique?
      ensures r.Ok? ==> r.value == Lookup(Interceptors.interceptors, Resolve(Interceptors.known, {Preprocessing}).category)
    {
      Interceptors.GetInterceptors({Preprocessing})
    }

    /** Calls every preprocessing interceptor, in registry order, on the same buffer. */
    method Execute(buf: array<byte>, videoHeight: int, videoStride: int) returns (r: Outcome)
      requires GetInterceptors().Ok? ==> FramesFit(GetInterceptors().value, buf.Length, videoHeight, videoStride)
      modifies buf
      ensures match GetInterceptors()
        case Err(f) => r == Fail(f) && buf[..] == old(buf[..])
        case Ok(xs) => r == Pass && buf[..] == Pipeline(old(buf[..]), Flags(xs), videoHeight, videoStride)
    {
      var query := GetInterceptors();
      if query.Err? {
        return Fail(query.fault);
      }
      var xs := query.value;
      var i := 0;
      while i < |xs|
        invariant 0 <= i <= |xs|
        invariant buf[..] == Pipeline(old(buf[..]), Flags(xs)[..i], videoHeight, videoStride)
      {
        assert Flags(xs)[..i + 1][..i] == Flags(xs)[..i];
        xs[i].Execute(buf, videoHeight, videoStride);
        i := i + 1;
      }
      assert Flags(xs)[..i] == Flags(xs);
      return Pass;
    }

    /** The buffer callback: runs `Execute` with the stored geometry; the
        buffer length and sample time are not used. Returns 0. */
    method BufferCB(sampleTime: real, pBuffer: array<byte>, bufferLen: int) returns (r: Result<int>)
      requires GetInterceptors().Ok? ==> FramesFit(GetInterceptors().value, pBuffer.Length, VideoHeight, VideoStride)
      modifies pBuffer
      ensures match GetInterceptors()
        case Err(f) => r == Err(f) && pBuffer[..] == old(pBuffer[..])
        case Ok(xs) => r == Ok(0) && pBuffer[..] == Pipeline(old(pBuffer[..]), Flags(xs), VideoHeight, VideoStride)
    {
      var done := Execute(pBuffer, VideoHeight, VideoStride);
      if done.Fail? {
        return Err(done.fault);
      }
      return Ok(0);
    }

    /** The sample callback: runs `Execute` on the sample's buffer with the
        stored geometry. Returns 0. */
    method SampleCB(sampleTime: real, pSample: array<byte>) returns (r: Result<int>)
      requires GetInterceptors().Ok? ==> FramesFit(GetInterceptors().value, pSample.Length, VideoHeight, VideoStride)
      modifies pSample
      ensures match GetInterceptors()
        case Err(f) => r == Err(f) && pSample[..] == old(pSample[..])
        case Ok(xs) => r == Ok(0) && pSample[..] == Pipeline(old(pSample[..]), Flags(xs), VideoHeight, VideoStride)
    {
      var done := Execute(pSample, VideoHeight, VideoStride);
      if done.Fail? {
        return Err(done.fault);
      }
      return Ok(0);
    }
  }
}
