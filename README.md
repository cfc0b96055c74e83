# WebcamCapture.NET — a Dafny model of the capture pipeline core

WebcamCapture.NET previews a webcam through a DirectShow filter graph:

- a capture source;
- one sample-grabber stage per registered filter type;
- a video renderer.

Each stage calls back into the application for every frame. The callback hands the frame buffer to the preprocessing interceptors that plugins registered, in registration order. The only interceptor in the repository, `EffectsInterceptor`, negates the frame when it is enabled.

This project models that core in Dafny and proves what it promises:

- **Effects** (`effects.dfy`). `EffectsInterceptor` as a class with its `enabled` flag. The nested negation loops run in place on an `array<bv8>` and are proved against a function on the buffer contents. Proved: the bytes they touch, the bytes they leave alone, that negation is an involution, and the worked 2×4 example.
- **Registry** (`registry.dfy`). The interceptor registry as a class holding a map from category to an ordered list. Category resolution behaves like `SingleOrDefault` over the known categories: one match, none (a null key that throws), or several (throws). Also pure reference definitions of registration and query, with the lemmas relating them.
- **Stages** (`stages.dfy`). The filter stage (`FilterBase` + `PreprocessingFilter`). Its callbacks fetch the interceptors and run them over the frame in order. Proved: the result is the frame negated once when an odd number of interceptors are enabled, and unchanged otherwise.
- **Native** (`native.dfy`). The DirectShow collaborators as small classes:
  - a source filter with a capability list and a current format;
  - the sample grabber and the renderer;
  - the capture graph builder;
  - a filter graph holding a sequence of nodes and a running flag.
- **Filters** (`filters.dfy`). `FilterBuilder` and `FilterController`:
  - duplicate filter-type registration;
  - building one stage and one grabber per type, in type order;
  - stride computation, in 32-bit C# arithmetic with truncating division, and its failure on a connection that is not `VideoInfo`;
  - configuring every stage with the frame height and stride.
- **Resolution** (`resolution.dfy`). `ResolutionInfo` and its label `Resolution: WxHxB`. A parser for the label is proved to invert it for all integers.
- **Media** (`media.dfy`). `MediaController` as a class whose methods update its fields in place:
  - capture start and device selection;
  - the format negotiation policy (the stored settings when there are any, otherwise an interactive choice; the current format is re-applied on a restart);
  - graph building and the renderer;
  - graph reset and rebuild for a format change or a filter change;
  - the play-state changes;
  - teardown.
- **Plugins** (`plugins.dfy`). `PluginManager` as loops over an input sequence of plugins. It is proved against a fold. Proved: order, a null interceptor list treated as empty, every plugin initialised once, and each plugin's `InitUI` called before its interceptors are registered.

Native answers come into the model as parameters. A `NativeEnv` value carries:

- the user's choice in the format dialog;
- the HRESULT of `RenderStream`;
- the video size the graph reports;
- what each sample grabber reports as its connected media type, one report per grabber in stage order;
- the first failing HRESULT of the video-window calls in `SetupVideoWindow`, and the HRESULT of `Run`.

`RenderStream` connects only the compressor, the last grabber. A grabber without a report counts as unconnected (`VFW_E_NOT_CONNECTED`, see `Native.ConnectionAt`). Each builder reads its own grabber's report, so a stage whose grabber is not connected faults, and the stages before it stay configured.

Exceptions are `Outcome`/`Result` values. HRESULTs are plain integers, where failure means negative. The persisted `Settings.Default` record is the controller's `settings` field.

Four behaviours of the code a reader may not expect; the model follows the code:

- `ResetDevice` only releases the interfaces. The device stays recorded in `currentDevice`, but nothing reads it again: `CaptureVideo`'s only caller, `SelectDevice`, overwrites it first.
- When `CaptureVideo` fails after `GetInterfaces`, the new graph and capture builder stay held. A partial graph is left in place, though not running. The fault is reported once (`errorsShown`) and is not propagated.
- `DisableFilters` clears the stage builders, but the rebuild that follows re-creates one stage per registered filter type. The rebuilt graph therefore has as many stages as before (`Media.MediaController.DisableFilters`).
- With stored settings and no current format, the pin takes the first capability of exactly the stored size and depth. When none matches, the pin keeps its format and no dialog opens (`Media.Stored`).

## Model

| member | source | states |
|---|---|---|
| Effects.NegateInPlace | src/Plugins/Effects/EffectsInterceptor.cs:17-34 | the two nested loops leave the buffer equal to `NegateFrame` of its old contents, inverting whole rows of `videoStride` bytes (padding included) for rows 1..`videoHeight` |
| Effects.NegateFrame | src/Plugins/Effects/EffectsInterceptor.cs:17-34 | the buffer keeps its length; byte `i` is XORed with 0xFF exactly when height and stride are positive and `i < height*stride` (whole rows, padding included); every other byte, and every byte of a frame with a non-positive dimension, keeps its value |
| Effects.NegateInvolution | src/Plugins/Effects/EffectsInterceptor.cs:27 | negating twice restores any buffer, for every height and stride |
| Effects.NegateExample | src/Plugins/Effects/EffectsInterceptor.cs:17-34 | height 2, stride 4: `00 00 00 00 FF FF FF FF` becomes `FF FF FF FF 00 00 00 00` |
| Effects.EffectsInterceptor.constructor | src/Plugins/Effects/EffectsInterceptor.cs:8 | a fresh interceptor is disabled |
| Effects.EffectsInterceptor.Execute | src/Plugins/Effects/EffectsInterceptor.cs:10-15 | disabled: the buffer is unchanged byte for byte; enabled: the buffer is negated in its frame |
| Effects.EffectsInterceptor.Disable | src/Plugins/Effects/EffectsInterceptor.cs:36-39 | afterwards the interceptor is disabled, whatever it was before |
| Effects.EffectsInterceptor.SetEffect | src/Plugins/Effects/EffectsInterceptor.cs:41-49 | selecting `Negate` enables the interceptor, whatever it was before |
| Registry.Matches | src/WebcamCapture/Plugin/Internal/InterceptorRegistry.cs:56 | the filtered list holds exactly the known categories the type implements |
| Registry.Resolve | src/WebcamCapture/Plugin/Internal/InterceptorRegistry.cs:54-57 | resolution is unique iff exactly one known category matches, null iff none does, and a unique result is a known, implemented category |
| Registry.ResolveUnique | src/WebcamCapture/Plugin/Internal/InterceptorRegistry.cs:54-57 | with distinct known categories, a type implementing exactly one of them resolves to it |
| Registry.ResolveAmbiguous | src/WebcamCapture/Plugin/Internal/InterceptorRegistry.cs:56 | a type implementing two known categories makes `SingleOrDefault` throw |
| Registry.Register | src/WebcamCapture/Plugin/Internal/InterceptorRegistry.cs:29-40 | registration succeeds iff the category resolves; it appends at the end of that category's list (creating it) and leaves every other category's list as it was |
| Registry.Query | src/WebcamCapture/Plugin/Internal/InterceptorRegistry.cs:47-52 | a query succeeds iff the category resolves, and a category with no registrations yields an empty sequence, not a fault |
| Registry.QueryAfterRegister | src/WebcamCapture/Plugin/Internal/InterceptorRegistry.cs:24-52 | right after a registration a query sees the new interceptor last in its own category and every other category unchanged |
| Registry.InterceptorRegistry.RegisterInterceptor | src/WebcamCapture/Plugin/Internal/InterceptorRegistry.cs:29-40 | the dictionary becomes `Register` of the old one; a resolution fault is raised before any change |
| Registry.InterceptorRegistry.GetInterceptors | src/WebcamCapture/Plugin/Internal/InterceptorRegistry.cs:47-52 | yields the resolved category's list in registration order, reading the registry only |
| Stages.Pipeline | src/WebcamCapture/Filters/Preprocessing/PreprocessingFilter.cs:9-12 | the interceptors run in order on one buffer, each on the previous one's output: the frame ends negated once if an odd number are enabled and unchanged otherwise |
| Stages.PreprocessingFilter.constructor | src/WebcamCapture/Filters/FilterBase.cs:12-15 | a new stage has its type, the shared registry, and height and stride 0 |
| Stages.PreprocessingFilter.GetInterceptors | src/WebcamCapture/Filters/FilterBase.cs:34-38 | the stage sees the registry's preprocessing list, or the resolution fault |
| Stages.PreprocessingFilter.Execute | src/WebcamCapture/Filters/Preprocessing/PreprocessingFilter.cs:9-12 | each interceptor runs on the buffer in registration order; a lookup fault leaves the buffer unchanged |
| Stages.PreprocessingFilter.BufferCB | src/WebcamCapture/Filters/FilterBase.cs:28-32 | the buffer is processed with the stage's height and stride and the callback returns 0 |
| Stages.PreprocessingFilter.SampleCB | src/WebcamCapture/Filters/FilterBase.cs:17-26 | the sample's buffer is processed with the stage's height and stride and the callback returns 0 |
| Common.Wrap32 | src/WebcamCapture/MediaController.cs:170 | C# `int` addition: the result is a 32-bit value congruent to the mathematical sum, equal to it when it fits |
| Common.TruncDiv | src/WebcamCapture/Filters/FilterBuilder.cs:91 | C# integer division truncates toward zero |
| Filters.Stride | src/WebcamCapture/Filters/FilterBuilder.cs:91 | the stride is a 32-bit value; for real frame sizes (width ≤ 65536, bit count ≤ 64) nothing wraps and it is width × whole bytes per pixel: 3·width at 24 bpp, 4·width at 32 bpp |
| Filters.FilterBuilder.constructor | src/WebcamCapture/Filters/FilterBuilder.cs:15-18 | a builder wraps its stage and has neither graph nor grabber |
| Filters.FilterBuilder.Init | src/WebcamCapture/Filters/FilterBuilder.cs:24-27 | the builder records the graph and keeps its grabber |
| Filters.FilterBuilder.Build | src/WebcamCapture/Filters/FilterBuilder.cs:33-57 | a fresh grabber asks for Video/RGB24/VideoInfo and calls back into the builder's stage through `SampleCB` (callback method 0) |
| Filters.FilterBuilder.GetStride | src/WebcamCapture/Filters/FilterBuilder.cs:76-96 | the stride is read iff a grabber exists, its connected-media-type query succeeded and the format is `VideoInfo` with a format block; a wrong format throws `FormatTypeIncorrect` |
| Filters.FilterBuilder.Configure | src/WebcamCapture/Filters/FilterBuilder.cs:62-71 | with its own grabber's report: succeeds iff the builder was initialised and the stride is readable, failing with the first fault otherwise; on success the stage gets the height and stride, on failure it keeps them |
| Filters.FilterController.constructor | src/WebcamCapture/Filters/FilterController.cs:17-20 | no filter types, no builders, no compressor grabber |
| Filters.FilterController.RegisterFilterType | src/WebcamCapture/Filters/FilterController.cs:22-31 | a new type is appended; registering a type twice throws and changes nothing |
| Filters.FilterController.CreateFilter | src/WebcamCapture/Filters/FilterController.cs:46-51 | a fresh stage of the type, sharing the controller's registry |
| Filters.FilterController.InitFilters | src/WebcamCapture/Filters/FilterController.cs:33-44 | one fresh builder, stage and grabber per registered type, in type order, all distinct; the compressor is the last grabber |
| Filters.FilterController.ConfigureFilters | src/WebcamCapture/Filters/FilterController.cs:53-56 | the builders configure in order, each from its own grabber's report, and the first fault ends the `ForEach`: the stages before the first faulting builder carry the connected height and their own stride, that stage and the later ones are as they were; the outcome is that builder's fault, and success iff no builder faults |
| Filters.FilterController.ConfigureStage | src/WebcamCapture/Filters/FilterController.cs:55 | one turn of the `ForEach`: builder `i` passes or fails as its own grabber's report dictates, and only its stage's geometry changes, and only on success |
| Filters.FilterController.Clear | src/WebcamCapture/Filters/FilterController.cs:58-61 | drops the builders and keeps the registered types |
| Resolution.Create | src/WebcamCapture/ResolutionInfo.cs:13-25 | width, height and bpp are those of the media type's video header |
| Resolution.ToString | src/WebcamCapture/ResolutionInfo.cs:29-36 | the label starts with `Resolution: `, and the rest splits at `x` into exactly three pieces: the decimal width, height and bpp, in that order |
| Resolution.DecimalRoundTrip | src/WebcamCapture/ResolutionInfo.cs:33 | every `int` printed in decimal parses back to itself and contains no `x` |
| Resolution.LabelRoundTrip | src/WebcamCapture/ResolutionInfo.cs:29-36 | the label determines the resolution: parsing `ToString(r)` gives back `r` for every width, height and bpp |
| Resolution.LabelExample | src/WebcamCapture/ResolutionInfo.cs:29-36 | 640×480×24 prints as `Resolution: 640x480x24` |
| Media.HasStoredSettings | src/WebcamCapture/MediaController.cs:168-171 | for real sizes the 32-bit sum of width, height and bpp is positive iff some field is positive; all zero is not stored |
| Media.SettingsOf | src/WebcamCapture/MediaController.cs:418-422 | the persisted settings are the width, height and bit count of the format |
| Media.Matches | src/WebcamCapture/MediaController.cs:502-508 | the settings a matching capability would persist are exactly the requested width, height and bpp |
| Media.FirstMatch | src/WebcamCapture/MediaController.cs:491-519 | the first capability that is Video/VideoInfo with exactly the stored width, height and bit count; none iff no capability matches |
| Media.FindCapability | src/WebcamCapture/MediaController.cs:491-519 | the capability loop finds exactly `FirstMatch`, and what it finds matches |
| Media.Accept | src/WebcamCapture/MediaController.cs:274-275 | after `SetFormat` whose HRESULT is ignored, the pin's format is one of its capabilities or the format it had; the requested format takes effect exactly when the pin supports it or already has it |
| Media.Stored | src/WebcamCapture/MediaController.cs:482-522 | the pin's format is a capability or the format it had; whenever some capability matches the persisted size and depth, the pin takes a matching capability; when none does, it keeps its format |
| Media.Chosen | src/WebcamCapture/MediaController.cs:433-475 | the pin's format is a capability or the format it had; a change can only be the dialog's choice, and a supported choice is always applied |
| Media.NegotiatedFrom | src/WebcamCapture/MediaController.cs:261-276 | the result is a capability or the pin's initial format; a supported previous format is re-applied; with persisted settings, no previous format and a capability of that size, the result has exactly the persisted size and depth |
| Media.NegotiatedFormat | src/WebcamCapture/MediaController.cs:255-276 | negotiation on a freshly bound source ends in one of the device's capabilities or its default format |
| Media.StoredPicksFirstExact | src/WebcamCapture/MediaController.cs:261-265 | with stored settings and no current format, negotiation picks the first exact match, not an earlier or later partial one |
| Media.NegotiationIdempotent | src/WebcamCapture/MediaController.cs:261-276 | negotiating again from the negotiated format, with the settings it stored, gives the same format |
| Media.RestartRestoresResolution | src/WebcamCapture/MediaController.cs:261-265 | after a restart the persisted settings of a supported format select a format with the same width, height and bit count |
| Media.SetFormat | src/WebcamCapture/MediaController.cs:482-522 | the source gets the first exact capability match if there is one; otherwise it keeps its format |
| Media.ChooseFormat | src/WebcamCapture/MediaController.cs:433-475 | the source gets the format the dialog returns if it is supported, and keeps its format on cancel |
| Media.ResetKeepsOnlySource | src/WebcamCapture/MediaController.cs:524-548 | removing every node other than the source leaves only the source, and exactly one node when the source was first and unique |
| Media.MediaController.constructor | src/WebcamCapture/MediaController.cs:50-55 | the controller starts Stopped, with no device, no format, no interfaces, and the persisted settings |
| Media.MediaController.CloseInterfaces | src/WebcamCapture/MediaController.cs:100-160 | stops a held graph, releases graph, capture builder and renderer, and ends Stopped; device, format and settings are kept |
| Media.MediaController.ChangePreviewState | src/WebcamCapture/MediaController.cs:173-193 | showing runs a graph that is not running and leaves a running one alone, hiding stops the graph, and nothing happens without a graph; the graph's nodes are unchanged |
| Media.MediaController.GetFormat | src/WebcamCapture/MediaController.cs:404-426 | the current format becomes the source's format, the persisted settings are its size and depth, and one format-changed label is raised |
| Media.MediaController.AddFiltersToGraph | src/WebcamCapture/MediaController.cs:362-370 | one fresh builder, stage and grabber per filter type, in type order (`BuiltInOrder`: builder `i`'s stage has type `i` and the shared registry, its grabber calls back into that stage), all stages distinct and unconfigured; the grabbers are appended to the graph in that order after the nodes already there; the answer is the compressor, the last grabber |
| Media.MediaController.AddStages | src/WebcamCapture/MediaController.cs:365-366 | the graph gains one node per grabber, in order, after the nodes it had |
| Media.MediaController.ConfigureFilters | src/WebcamCapture/MediaController.cs:353-356 | the stages before the first faulting builder carry the connected height and their own grabber's stride, the rest are as they were, and the outcome is that builder's fault; with every builder ready, it succeeds iff every grabber's report gives a readable stride; builders, grabbers and interceptor lists are unchanged |
| Media.MediaController.AssembleGraph | src/WebcamCapture/MediaController.cs:289-294 | the format is read and published, then the stages in type order and a fresh renderer are appended, in that order |
| Media.MediaController.AddStagesAndRenderer | src/WebcamCapture/MediaController.cs:291-294 | the stages in type order, then a fresh renderer, are appended after the nodes already there |
| Media.MediaController.AddRenderer | src/WebcamCapture/MediaController.cs:293-294 | a fresh renderer becomes the quality-property interface and the graph's last node |
| Media.MediaController.BuildAndRunGraph | src/WebcamCapture/MediaController.cs:287-318 | the format is published; the graph becomes the kept nodes, one stage per filter type in type order with the compressor last (`BuiltInOrder`), and a fresh renderer; the outcome is the first of: no capture builder, `RenderStream`, the first faulting stage, `SetupVideoWindow`, `Run`; the graph runs and the state is Running iff none faults |
| Media.MediaController.RenderAndRun | src/WebcamCapture/MediaController.cs:296-317 | the outcome is the first fault in source order (no capture builder, `RenderStream`, the first faulting stage, `SetupVideoWindow`, `Run`); the stages are configured only once `RenderStream` succeeded, and only up to the first faulting stage; the graph runs and the state is Running only when nothing faults, and otherwise both are as they were; the build order of the stages is kept |
| Media.MediaController.ConfigureAndStart | src/WebcamCapture/MediaController.cs:299-317 | after a successful `RenderStream`: the stages are configured up to the first faulting one, and only when none faults are the window set up and the graph run; the outcome is the first fault |
| Media.MediaController.StartGraph | src/WebcamCapture/MediaController.cs:305-317 | a `SetupVideoWindow` failure comes first, then a `Run` failure; the graph runs and the state becomes Running only when both succeed, and nothing changes otherwise |
| Media.MediaController.GetInterfaces | src/WebcamCapture/MediaController.cs:87-98 | a fresh empty, stopped graph and a fresh capture builder |
| Media.MediaController.NegotiateFormat | src/WebcamCapture/MediaController.cs:261-276 | stored settings apply when there is no current format, otherwise the dialog; a current format is re-applied on a restart |
| Media.MediaController.CaptureFrom | src/WebcamCapture/MediaController.cs:255-277 | the bound source is the graph's first node, negotiated, followed by the stages and the renderer; the graph runs iff the build succeeds |
| Media.MediaController.CaptureVideo | src/WebcamCapture/MediaController.cs:241-285 | every fault is caught and shown once; on success the graph runs with the negotiated format and the timer starts; an unbindable or missing device leaves an empty graph and the format unchanged |
| Media.MediaController.SelectDevice | src/WebcamCapture/MediaController.cs:216-221 | the old graph is stopped and released, the device is recorded, and the state is Running iff the device binds and the build succeeds, Stopped otherwise |
| Media.MediaController.ResetDevice | src/WebcamCapture/MediaController.cs:223-226 | interfaces released and Stopped; device, format and settings kept |
| Media.MediaController.Dispose | src/WebcamCapture/MediaController.cs:57-63 | with a timer the graph is released; without one the call throws before releasing anything |
| Media.MediaController.DisposeGuarded | src/WebcamCapture/MediaController.cs:57-63 | the graph is always released and the controller ends Stopped |
| Media.MediaController.ResetGraph | src/WebcamCapture/MediaController.cs:524-548 | the graph keeps exactly the nodes equal to the source, in order, whatever order the enumeration removes the others in |
| Media.MediaController.ChangeGraph | src/WebcamCapture/MediaController.cs:387-398 | Stopped first; no graph or no source faults; otherwise the graph is reset to the source, the action applied, and the graph rebuilt and run as in `BuildAndRunGraph` |
| Media.MediaController.ChangeCameraFormat | src/WebcamCapture/MediaController.cs:550-553 | the source gets the dialog's format if supported before the rebuild |
| Media.MediaController.DisableFilters | src/WebcamCapture/MediaController.cs:372-375 | the graph is rebuilt with one stage per registered filter type after the source |
| Media.MediaController.SetFilterBuilderType | src/WebcamCapture/MediaController.cs:377-385 | the graph is rebuilt with the source keeping its format |
| Plugins.InitUI | src/WebcamCapture/Plugin/Internal/PluginManager.cs:33 | the plugin's menu items are appended to the host's menu, in order |
| Plugins.PluginManager.LoadPlugins | src/WebcamCapture/Plugin/Internal/PluginManager.cs:26-29 | host menu, registry and calls become `LoadEach` of the plugin sequence; the first fault ends loading and is passed on |
| Plugins.PluginManager.LoadPlugin | src/WebcamCapture/Plugin/Internal/PluginManager.cs:31-35 | the plugin's UI is initialised, then its interceptors are registered |
| Plugins.PluginManager.LoadPluginInterceptors | src/WebcamCapture/Plugin/Internal/PluginManager.cs:37-41 | a null result counts as empty; the interceptors are registered in the order the plugin yields them until one throws |
| Plugins.RegisterFaultPersists | src/WebcamCapture/Plugin/Internal/PluginManager.cs:40 | once a registration throws, the rest of the plugin's interceptors are not registered |
| Plugins.LoadFaultPersists | src/WebcamCapture/Plugin/Internal/PluginManager.cs:28 | once a plugin's loading throws, no later plugin is loaded |
| Plugins.RegisterEachSucceeds | src/WebcamCapture/Plugin/Internal/PluginManager.cs:37-41 | when the category resolves, all of a plugin's interceptors are filed at the end of the preprocessing list, in order |
| Plugins.LoadSucceeds | src/WebcamCapture/Plugin/Internal/PluginManager.cs:26-41 | when the category resolves, loading succeeds: the menu gains every plugin's items, the preprocessing list gains every plugin's interceptors in plugin order, and the calls are exactly `Trace` |
| Plugins.LoadFailsOnFirstOffer | src/WebcamCapture/Plugin/Internal/PluginManager.cs:37-41 | when the category does not resolve, nothing is filed and loading fails exactly when some plugin offers an interceptor |
| Plugins.NullInterceptorsRegisterNothing | src/WebcamCapture/Plugin/Internal/PluginManager.cs:39 | a plugin whose `GetInterceptors` returns null only installs its UI: nothing is registered and no fault occurs |
| Plugins.EachPluginInitialisedOnce | src/WebcamCapture/Plugin/Internal/PluginManager.cs:28 | in a complete load each plugin's `InitUI` is called exactly once, in input order |
| Plugins.RegisteredInPluginOrder | src/WebcamCapture/Plugin/Internal/PluginManager.cs:28-40 | a plugin's interceptors are registered in the order it yields them, after those of earlier plugins |
| Plugins.InitUIBeforeRegistration | src/WebcamCapture/Plugin/Internal/PluginManager.cs:31-35 | every registration of a plugin's interceptor comes after that plugin's `InitUI` call |
| Plugins.StartupLoad | src/WebcamCapture/Plugin/Internal/InterceptorRegistry.cs:9-18 | with the one known category, loading into an empty registry always succeeds, and the preprocessing list is every offered interceptor in plugin order |

## Left out

- COM reference counting and release (`Marshal.ReleaseComObject`, `DsUtils.FreeAMMediaType`), and the running-object table: the model releases a reference by dropping it.
- `HandleGraphEvent`, `NotifyVideoWindow`, `ResizeVideoWindow` and the window-message plumbing: window messages and layout, which do not change the graph's nodes or play state. The `SetNotifyWindow` HRESULT check in `GetInterfaces` is not modelled either, so `Media.MediaController.GetInterfaces` cannot fail; a failure there would end `CaptureVideo` as an unbindable device does.
- `FindCaptureDevice`: unused in the code, which calls `GetCaptureDevice`; a device is an input, and binding it either succeeds or throws (`Device.bindable`).
- The format dialog inside `ChooseFormat` (property pages, the stream-config pin query): its answer is the input `chosen` (`None` for a cancel).
- The frames-per-second timer and its counter: only whether a timer was started is kept (`timerStarted`).
- `Settings.Default.Save()`: persistence to disk is I/O; the saved record is the `settings` field.
- Reflection discovery of the category interfaces and MEF discovery of plugins: a fixed category set (`Preprocessing`) and an input sequence of plugins.
- Unsafe pointer arithmetic over the frame: the buffer is an `array<bv8>` indexed from the frame start; the frame must fit the buffer.
- Concurrency between the frame callback thread and the UI thread: every operation runs to completion, one at a time.
- `MainForm`, `EventArgs` and the `EffectsPlugin` menu wiring: UI code. A plugin is reduced to the menu items its `InitUI` installs and the interceptors it yields.
- Faults thrown by an interceptor while processing a frame: `EffectsInterceptor`, the only interceptor, never throws.
- Native.FilterGraph.AddFilter: `AddFilter`, `SetFiltergraph`, `SetMediaType`, `SetCallback` and the pin queries are modelled as succeeding; only rendering, the connection query and `Run` carry an HRESULT from `NativeEnv`.
- Media.MediaController.StartGraph: the three checked calls of `SetupVideoWindow` (`put_Owner`, `put_WindowStyle`, `put_Visible`) are one HRESULT, `windowHr`, the first that fails; the window handle, style and position are not modelled.
- Media.MediaController.RenderAndRun: the renderer's quality-property query and the release of the source filter are not modelled.
- Media.MediaController.AddFiltersToGraph: `InitFilters` is a lazy iterator, so the code builds each stage and adds it to the graph before building the next. `AddFilter` is modelled as succeeding, so the model builds all stages and then adds them, with the same end state.
- Media.SetFormat: a pin that refuses one of its own capabilities (the throw after `config.SetFormat`) is not modelled, because the modelled pin accepts exactly its capabilities. The `GetStreamCaps` HRESULT and a pin without `IAMStreamConfig` are not modelled either.
- Resolution.DecimalString: the current culture's negative sign (used for a negative, top-down height) is taken to be `-`. Cultures are not modelled.
- The registry, the stages and the plugins hold `EffectsInterceptor` objects only. Another plugin's interceptor class cannot be represented, because the model has one concrete interceptor class and no interfaces.
- Plugins.PluginManager.LoadPluginInterceptors: the lazy `IEnumerable` a plugin returns is an eager sequence, so a plugin's enumerator cannot interleave with registration.
- Media.MediaController.SetFilterBuilderType: the action in the code is commented out, so it rebuilds with the stages unchanged and takes no type argument.

## Findings

| source | as written | input that shows it | evidently intended | confidence | as-written member | corrected member |
|---|---|---|---|---|---|---|
| src/WebcamCapture/MediaController.cs:57-63 | `Dispose` calls `timer.Stop()` unconditionally, but the timer is created only after a capture succeeds (line 279) | close the window when no capture ever succeeded (no camera, or the device failed to bind): `timer` is null, `Dispose` throws `NullReferenceException` before `CloseInterfaces`, and the partial graph is never released | stop the timer when there is one and always release the graph | not executed; high | Media.MediaController.Dispose | Media.MediaController.DisposeGuarded |
