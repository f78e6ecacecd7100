# SimpleEQ response-curve component, modelled in Dafny

This project models `ResponseCurveComponent` of the SimpleEQ audio plug-in's
editor. The component sits over the spectrum display and does three things:

- **Timer tick.** On each tick it drains the processor's left-channel FIFO.
  Every block it pops is shifted into a fixed-length rolling mono buffer, and
  the window that results goes to the FFT data generator. The tick then turns
  every finished FFT frame into a spectrum path and keeps only the newest path.
  It test-and-clears the `parametersChanged` dirty flag and recomputes the
  analysis-only filter chain only when the flag was set. It always asks for a
  repaint.
- **Listener registration.** The component registers as a listener on every
  processor parameter when it is built and deregisters when it is destroyed.
  Any parameter change sets the dirty flag.
- **Painting.** Paint computes the analytic response curve with one vertex per
  pixel column. A column's magnitude is the product of the magnitudes of the
  chain's stages that are not bypassed: the peak stage, four low-cut slots and
  four high-cut slots. Its decibel value is mapped with `jmap` from
  [-24, 24] dB onto [bottom, top].

Files:

- `sliding_window.dfy` (module `SlidingWindow`): the rolling buffer. It has
  the shift-append specification, its fold over many blocks, the windows handed
  to the FFT generator, and the in-place array update written as the two
  copies of the source.
- `response_curve.dfy` (module `ResponseCurve`): the chain's stages and bypass
  flags, the per-column magnitude product, `jmap`, and the curve.
- `plugin_editor.dfy` (module `PluginEditor`): the processor as the component
  sees it and the `ResponseCurveComponent` class. The class has the
  constructor, the destructor (`Dispose`), `parameterValueChanged`, the tick
  split into its four phases, and paint.

The FIFO, the FFT frame queue and the path queue are sequences.
- An FFT frame is a record of the window and the decibel floor it was computed
  from.
- A spectrum path is a record of the frame, the bounds, the FFT size, the bin
  width and the floor it was generated from.

Statements about which frame or path is kept are therefore exact.

The analysis chain starts as JUCE default-constructs it: every section has
pass-through coefficients and nothing is bypassed. The constructor does not
compute the chain, so it first reflects the parameters after the first change
notification.

The parameter snapshot is read, and the coefficients rebuilt, only on a tick
that finds the flag set (`UpdateChainIfChanged`).

Between ticks the frame queue and the path queue are empty, and the peak
position is not bypassed (`Valid`). The constructor starts the queues empty
and the chain with nothing bypassed. Every tick drains what it produced, and
no redesign writes the peak position's bypass flag.

## Model

| member | source | states |
|---|---|---|
| `SlidingWindow.ShiftAppend` | Source/PluginEditor.cpp:52-58 | absorbing a block never grows or shrinks the buffer |
| `SlidingWindow.ShiftAppendAt` | Source/PluginEditor.cpp:52-58 | new[j] = old[j + size] for j < N - size; the last `size` samples are the block in order; `size == 0` leaves the buffer unchanged and `size == N` replaces it |
| `SlidingWindow.ShiftAppendSlides` | Source/PluginEditor.cpp:52-58 | one update leaves the most recent N samples of the old buffer followed by the block |
| `SlidingWindow.ShiftAppendInPlace` | Source/PluginEditor.cpp:52-58 | the two copies, done in place with an ascending left shift, leave exactly the shift-append of the old buffer and the block |
| `SlidingWindow.Absorb` | Source/PluginEditor.cpp:46-62 | after any number of blocks the buffer still has length N |
| `SlidingWindow.AbsorbIsLatest` | Source/PluginEditor.cpp:46-62 | after any run of blocks the buffer holds exactly the most recent N samples of the old buffer followed by all their samples |
| `SlidingWindow.WindowsAt` | Source/PluginEditor.cpp:46-62 | the FFT generator gets one window per block, in FIFO order; the k-th is the buffer right after the k-th block |
| `ResponseCurve.MultiplyIn` | Source/PluginEditor.cpp:133-155 | reference definition of the conditional `mag *= ...` chain, one step per stage in the loop's order; its meaning is proved in `MultiplyInIsProduct` |
| `ResponseCurve.ColumnMagnitude` | Source/PluginEditor.cpp:131-155 | reference definition of one column's magnitude, the chain started from 1.0; proved to be the product of the active stages in `ColumnMagnitudeIsProductOfActive` |
| `ResponseCurve.MultiplyInIsProduct` | Source/PluginEditor.cpp:133-155 | the chain of `mag *= ...` steps from any starting value equals that value times the product of the magnitudes of the non-bypassed stages |
| `ResponseCurve.ColumnMagnitudeIsProductOfActive` | Source/PluginEditor.cpp:133-155 | a column's magnitude is exactly the product of the magnitudes of the non-bypassed stages (peak, low-cut 0-3, high-cut 0-3) |
| `ResponseCurve.AllBypassedIsUnity` | Source/PluginEditor.cpp:133-155 | with every stage bypassed the magnitude is 1 at every frequency, whatever the coefficients |
| `ResponseCurve.BypassIsUnitFactor` | Source/PluginEditor.cpp:136-155 | bypassing a stage gives the same magnitude as a stage whose own magnitude is 1, so a bypassed stage is a factor of 1 |
| `ResponseCurve.MapDecibels` | Source/PluginEditor.cpp:161-166 | reference definition of the `map` lambda, `jmap` from [-24, 24] dB onto [bottom, top]; its properties are in `MapDecibelsEndpoints`, `MapDecibelsMonotone` and `MapDecibelsRoundTrip` |
| `ResponseCurve.MapDecibelsEndpoints` | Source/PluginEditor.cpp:161-166 | -24 dB maps to the bottom edge, +24 dB to the top edge, 0 dB half-way |
| `ResponseCurve.MapDecibelsMonotone` | Source/PluginEditor.cpp:161-166 | with top above bottom, more decibels never draw lower, and strictly higher when the area has height |
| `ResponseCurve.MapDecibelsRoundTrip` | Source/PluginEditor.cpp:163-166 | on a non-degenerate area, mapping a pixel back with the swapped ranges recovers the decibel value |
| `ResponseCurve.ColumnDecibels` | Source/PluginEditor.cpp:127-158 | the magnitude vector has exactly `w` entries, one per pixel column (none for a zero width) |
| `ResponseCurve.CurveThrough` | Source/PluginEditor.cpp:160-173 | reference definition of the path through the per-column decibels, vertex i at `getX() + i`; its shape is proved in `CurveShape` |
| `ResponseCurve.ResponseCurvePath` | Source/PluginEditor.cpp:127-173 | reference definition of the whole curve over an area of non-zero width; `FlatCurveWhenAllBypassed` and `Paint` are stated against it |
| `ResponseCurve.CurveShape` | Source/PluginEditor.cpp:160-173 | the curve has one vertex per column, vertex i at x = left + i; louder columns are drawn no lower; -24 dB sits on the bottom and +24 dB on the top |
| `ResponseCurve.FlatCurveWhenAllBypassed` | Source/PluginEditor.cpp:127-173 | with every stage bypassed (and 0 dB for unit gain) the curve is a flat line of `w` vertices half-way up the area |
| `PluginEditor.ResponseCurveComponent.constructor` | Source/PluginEditor.cpp:13-27 | adds the component to every parameter's listener set, changes no other listener, and sizes the mono buffer to the FFT size of order 2048; the component was on no listener set before |
| `PluginEditor.ResponseCurveComponent.Dispose` | Source/PluginEditor.cpp:29-36 | removes the component from every parameter's listener set and touches nothing else |
| `PluginEditor.WithListener` | Source/PluginEditor.cpp:17-21 | reference definition of every listener set with the component added; properties in `ListenerSets` and `ListenersRestored` |
| `PluginEditor.WithoutListener` | Source/PluginEditor.cpp:31-35 | reference definition of every listener set with the component removed; properties in `ListenerSets` and `ListenersRestored` |
| `PluginEditor.ListenerSets` | Source/PluginEditor.cpp:17-35 | registering reaches every parameter and deregistering leaves the component on none; other listeners are untouched |
| `PluginEditor.ListenersRestored` | Source/PluginEditor.cpp:17-35 | destruction after construction returns every parameter's listener set to its prior state |
| `PluginEditor.ResponseCurveComponent.ParameterValueChanged` | Source/PluginEditor.cpp:38-41 | any parameter index and value sets the dirty flag |
| `PluginEditor.ResponseCurveComponent.DrainChannelFifo` | Source/PluginEditor.cpp:45-62 | the loop ends with the FIFO empty; the buffer is the fold of shift-append over the popped blocks; exactly one FFT frame is produced per block, in FIFO order |
| `PluginEditor.ResponseCurveComponent.DrainFFTFrames` | Source/PluginEditor.cpp:64-75 | every finished frame becomes one path over the local bounds with bin width sampleRate / FFT size, in order, and the frame queue ends empty |
| `PluginEditor.BinWidth` | Source/PluginEditor.cpp:66 | reference definition of the bin width, sample rate over the FFT size; `DrainFFTFrames` hands it to every path |
| `PluginEditor.LastOr` | Source/PluginEditor.cpp:77-80 | reference definition of what popping every path into one variable leaves there: the last path, or the old value when none was queued; `DrainPaths` is proved against it |
| `PluginEditor.ResponseCurveComponent.DrainPaths` | Source/PluginEditor.cpp:77-80 | the kept path is the last one drained, or the previous one when none was available; the path queue ends empty |
| `ResponseCurve.Installed` | Source/PluginEditor.cpp:84-97 | installing a redesign sets the peak coefficients and both cut filters to the design's, and keeps the peak position's bypass flag, which the update never writes |
| `PluginEditor.ResponseCurveComponent.UpdateChainIfChanged` | Source/PluginEditor.cpp:82-101 | the redesign is installed if and only if the dirty flag was set, the peak position's bypass flag stays as it was, and the flag is clear afterwards |
| `PluginEditor.ResponseCurveComponent.TimerCallback` | Source/PluginEditor.cpp:43-103 | the whole tick: FIFO drained into the buffer; the kept path is the previous one when no block was queued, and otherwise the path of the most recent 2048 samples of the old buffer followed by the blocks; the frame and path queues end empty again; the redesign installed if and only if the flag was set, the peak position kept in use, the flag cleared, and one repaint requested on every tick |
| `PluginEditor.NewestSpectrumKept` | Source/PluginEditor.cpp:43-80 | after a tick that absorbed at least one block, the path kept is the one generated from the newest window, the most recent N samples of the stream; paths generated earlier in the tick are discarded |
| `PluginEditor.ResponseCurveComponent.Paint` | Source/PluginEditor.cpp:115-173 | the curve built by the two loops is exactly the analytic response curve of the current chain over the local bounds |

## Left out

- The editor class `SimpleEQAudioProcessorEditor` (Source/PluginEditor.cpp:187-262) and everything in Source/PluginEditor.h: they are widget layout and child-component wiring.
- Drawing in paint (`fillAll`, `strokePath`, `drawRoundedRectangle`, colours). Paint returns the response curve instead of stroking it.
- Coefficient design (`getChainSetting`, `makePeakFilter`, `makeLowCutFilter`, `makeHighCutFilter`, `updateCutFilter`, `updateCoefficients`) lives in the processor, which is not part of this model. The tick takes what they design as its `currentDesign` argument: the peak coefficients and the two cut filters (`ResponseCurve.ChainDesign`). The peak position's bypass flag is not part of a design, and the update keeps it.
- `getMagnitudeForFrequency`, `mapToLog10` over 20 Hz to 20 kHz, and `Decibels::gainToDecibels` are floating-point collaborators. They are function parameters of paint.
- FFT windowing, the transform, decibel conversion and path geometry are not shown. Frames and paths are records of their inputs.
- The FIFO's ring logic and capacity, and the frame and path queues' capacities, are not shown. The queues are unbounded sequences, and a pop succeeds whenever the queue is non-empty. The branch where `getAudioBuffer` fails while buffers are reported available is not modelled.
- Concurrency is not modelled: the atomic flag, the audio thread pushing during a tick, and the 60 Hz timer. The tick is one sequential step, and repaint is a counter.
- `float`/`double` rounding is not modelled; samples and pixels are `real`.
- `FloatVectorOperations::copy` on overlapping ranges is not modelled as memcpy. The left shift is specified as new[j] = old[j + size], which an ascending copy implements.
- `SlidingWindow.ShiftAppendInPlace`, `PluginEditor.ResponseCurveComponent.DrainChannelFifo` and `PluginEditor.ResponseCurveComponent.TimerCallback` require every block to be at most the buffer length. The source does not check this: a longer block would give a negative copy count.
- `PluginEditor.ResponseCurveComponent.Paint` requires a width of at least one column, because the source reads `mags.front()`, which is undefined on an empty vector.
- The chain-level bypass of the low-cut and high-cut positions is not modelled, because paint never consults it. Paint reads only the per-slot bypass flags and the peak position's flag.
- The initial contents of the mono buffer are not stated. Only its length is fixed.
