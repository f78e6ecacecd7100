/** The response-curve component of the equalizer's editor. On a timer tick it
    drains the left-channel FIFO into a rolling mono buffer, hands each new
    window to the FFT generator, turns the generated frames into spectrum
    paths, keeps the newest path, recomputes the analysis chain when a
    parameter changed, and asks for a repaint. Painting computes the analytic
    response curve of that chain. */
module PluginEditor {
  import opened SlidingWindow
  import opened ResponseCurve

  /** The transform size of `FFTOrder::order2048`; the mono buffer has this length. */
  const FFTSize: nat := 2048

  /** The decibel floor handed to the FFT generator and the path producer. */
  const NegativeInfinityDb: real := -48.0

  /** A magnitude frame of the FFT generator, identified by the window it was
      computed from and its decibel floor. */
  datatype FFTFrame = FFTFrame(window: seq<real>, negativeInfinityDb: real)

  /** A spectrum path of the path producer, identified by the inputs it was
      generated from; EmptyPath is the path before any was generated. */
  datatype SpectrumPath =
    | EmptyPath
    | Generated(frame: FFTFrame, bounds: Rect, fftSize: nat, binWidth: real, negativeInfinityDb: real)

  /** The frequency spacing of the FFT bins. */
  function BinWidth(sampleRate: real): real
  {
    sampleRate / FFTSize as real
  }

  /** The frames the generator produces for a run of windows, one each, in order. */
  function FramesFor(windows: seq<seq<real>>): seq<FFTFrame>
  {
    seq(|windows|, i requires 0 <= i < |windows| => FFTFrame(windows[i], NegativeInfinityDb))
  }

  /** The paths the producer generates for a run of frames, one each, in order. */
  function PathsFor(frames: seq<FFTFrame>, bounds: Rect, binWidth: real): seq<SpectrumPath>
  {
    seq(|frames|, i requires 0 <= i < |frames| => Generated(frames[i], bounds, FFTSize, binWidth, NegativeInfinityDb))
  }

  /** What repeatedly popping a queue into one variable leaves there: the last
      element, or the variable's old value when the queue was empty. */
  function LastOr(paths: seq<SpectrumPath>, previous: SpectrumPath): SpectrumPath
  {
    if paths == [] then previous else paths[|paths| - 1]
  }

  /** Every parameter's listener set with l added. */
  function WithListener(listeners: seq<set<object>>, l: object): seq<set<object>>
  {
    seq(|listeners|, i requires 0 <= i < |listeners| => listeners[i] + {l})
  }

  /** Every parameter's listener set with l removed. */
  function WithoutListener(listeners: seq<set<object>>, l: object): seq<set<object>>
  {
    seq(|listeners|, i requires 0 <= i < |listeners| => listeners[i] - {l})
  }

  /** Registering reaches every parameter and touches no other listener;
      deregistering leaves l on no parameter and touches no other listener. */
  lemma ListenerSets(listeners: seq<set<object>>, l: object)
    ensures |WithListener(listeners, l)| == |listeners| == |WithoutListener(listeners, l)|
    ensures forall i :: 0 <= i < |listeners| ==> l in WithListener(listeners, l)[i]
    ensures forall i :: 0 <= i < |listeners| ==> l !in WithoutListener(listeners, l)[i]
    ensures forall i, x :: 0 <= i < |listeners| && x != l ==>
              (x in WithListener(listeners, l)[i] <==> x in listeners[i]) &&
              (x in WithoutListener(listeners, l)[i] <==> x in listeners[i])
  {
  }

  /** Deregistering after registering restores every listener set, provided l
      was on none of them before. */
  lemma ListenersRestored(listeners: seq<set<object>>, l: object)
    requires forall i :: 0 <= i < |listeners| ==> l !in listeners[i]
    ensures WithoutListener(WithListener(listeners, l), l) == listeners
  {
  }

  lemma FramesForAppend(windows: seq<seq<real>>, w: seq<real>)
    ensures FramesFor(windows + [w]) == FramesFor(windows) + [FFTFrame(w, NegativeInfinityDb)]
  {
  }

  /** After a tick that absorbed at least one block, the path kept for drawing
      is the one generated from the newest window, which holds the most recent
      |window| samples of the old buffer followed by the blocks; the paths
      generated earlier in the tick are discarded. */
  lemma {:induction false} NewestSpectrumKept(window: seq<real>, blocks: seq<seq<real>>, previous: SpectrumPath,
                                              bounds: Rect, binWidth: real)
    requires Fits(window, blocks) && blocks != []
    ensures LastOr(PathsFor(FramesFor(Windows(window, blocks)), bounds, binWidth), previous)
         == Generated(FFTFrame(Latest(window + Concat(blocks), |window|), NegativeInfinityDb),
                      bounds, FFTSize, binWidth, NegativeInfinityDb)
  {
    var ws := Windows(window, blocks);
    WindowsAt(window, blocks);
    assert blocks[..|blocks|] == blocks;
    AbsorbIsLatest(window, blocks);
    var frames := FramesFor(ws);
    assert frames[|frames| - 1] == FFTFrame(ws[|ws| - 1], NegativeInfinityDb);
  }

  /** The audio processor as the component sees it: its parameters' listener
      sets, the left-channel FIFO the audio thread fills, and its sample rate. */
  class AudioProcessor {
    /** One listener set per parameter, in the order the parameters are listed. */
    var parameterListeners: seq<set<object>>
    /** Complete blocks waiting in the left-channel FIFO, oldest first. */
    var leftChannelFifo: seq<seq<real>>
    var sampleRate: real
  }

  class ResponseCurveComponent {
    const processor: AudioProcessor
    /** The rolling mono buffer, FFTSize samples long. */
    const monoBuffer: array<real>
    /** Frames the FFT generator has finished and not yet handed out. */
    var fftFrames: seq<FFTFrame>
    /** Paths the path producer has generated and not yet handed out. */
    var paths: seq<SpectrumPath>
    /** The spectrum path drawn by paint. */
    var leftChannelFFTPath: SpectrumPath
    /** The dirty flag set by parameter-change notifications. */
    var parametersChanged: bool
    /** The analysis-only chain whose response paint draws. */
    var monoChain: MonoChain
    /** How many times the chain's coefficients were recomputed. */
    var chainUpdates: nat
    /** How many repaints were requested. */
    var repaintRequests: nat
    var width: nat
    var height: nat

    /** Between ticks: the buffer has the FFT size, every frame and path a
        tick produced has been consumed by that same tick, and the peak
        position is in use, since no redesign touches its bypass flag. */
    ghost predicate Valid()
      reads this
    {
      monoBuffer.Length == FFTSize && fftFrames == [] && paths == [] && !monoChain.peak.bypassed
    }

    /** The component's own bounds, at the origin. */
    function LocalBounds(): Rect
      reads this
    {
      Rect(0, 0, width, height)
    }

    /** Registers on every parameter of the processor and sizes the mono
        buffer to the FFT size. The chain starts as JUCE default-constructs
        it, and the flag starts clear. */
    constructor (p: AudioProcessor)
      modifies p`parameterListeners
      ensures Valid() && processor == p && fresh(monoBuffer)
      ensures p.parameterListeners == WithListener(old(p.parameterListeners), this)
      ensures forall i :: 0 <= i < |old(p.parameterListeners)| ==> this !in old(p.parameterListeners)[i]
      ensures fftFrames == [] && paths == [] && leftChannelFFTPath == EmptyPath
      ensures !parametersChanged && monoChain == DefaultChain
      ensures chainUpdates == 0 && repaintRequests == 0 && width == 0 && height == 0
    {
      processor := p;
      monoBuffer := new real[FFTSize];
      fftFrames, paths, leftChannelFFTPath := [], [], EmptyPath;
      parametersChanged, monoChain := false, DefaultChain;
      chainUpdates, repaintRequests, width, height := 0, 0, 0, 0;
      new;
      ghost var before := p.parameterListeners;
      var i := 0;
      while i < |p.parameterListeners|
        modifies p`parameterListeners
        invariant 0 <= i <= |p.parameterListeners| == |before|
        invariant forall k :: 0 <= k < i ==> p.parameterListeners[k] == before[k] + {this}
        invariant forall k :: i <= k < |before| ==> p.parameterListeners[k] == before[k]
      {
        p.parameterListeners := p.parameterListeners[i := p.parameterListeners[i] + {this}];
        i := i + 1;
      }
    }

    /** The destructor: deregisters from every parameter of the processor. */
    method Dispose()
      modifies processor`parameterListeners
      ensures processor.parameterListeners == WithoutListener(old(processor.parameterListeners), this)
    {
      var i := 0;
      while i < |processor.parameterListeners|
        invariant 0 <= i <= |processor.parameterListeners| == |old(processor.parameterListeners)|
        invariant forall k :: 0 <= k < i ==>
                    processor.parameterListeners[k] == old(processor.parameterListeners)[k] - {this}
        invariant forall k :: i <= k < |processor.parameterListeners| ==>
                    processor.parameterListeners[k] == old(processor.parameterListeners)[k]
      {
        processor.parameterListeners := processor.parameterListeners[i := processor.parameterListeners[i] - {this}];
        i := i + 1;
      }
    }

    /** Any change of any parameter only marks the chain as stale. */
    method ParameterValueChanged(parameterIndex: int, newValue: real)
      modifies this`parametersChanged
      ensures parametersChanged
    {
      parametersChanged := true;
    }

    /** Pops every complete block from the FIFO; each one is shifted into the
        mono buffer and the resulting window is handed to the FFT generator. */
    method DrainChannelFifo()
      requires Fits(monoBuffer[..], processor.leftChannelFifo)
      modifies monoBuffer, processor`leftChannelFifo, this`fftFrames
      ensures processor.leftChannelFifo == []
      ensures monoBuffer[..] == Absorb(old(monoBuffer[..]), old(processor.leftChannelFifo))
      ensures fftFrames == old(fftFrames) + FramesFor(Windows(old(monoBuffer[..]), old(processor.leftChannelFifo)))
    {
      ghost var start, blocks := monoBuffer[..], processor.leftChannelFifo;
      ghost var taken := 0;
      while |processor.leftChannelFifo| > 0
        invariant 0 <= taken <= |blocks|
        invariant processor.leftChannelFifo == blocks[taken..]
        invariant Fits(start, blocks[..taken])
        invariant monoBuffer[..] == Absorb(start, blocks[..taken])
        invariant fftFrames == old(fftFrames) + FramesFor(Windows(start, blocks[..taken]))
        decreases |processor.leftChannelFifo|
      {
        var block := processor.leftChannelFifo[0];
        processor.leftChannelFifo := processor.leftChannelFifo[1..];
        ShiftAppendInPlace(monoBuffer, block);
        fftFrames := fftFrames + [FFTFrame(monoBuffer[..], NegativeInfinityDb)];
        ghost var done := blocks[..taken + 1];
        assert done[..taken] == blocks[..taken] && done[taken] == block;
        FramesForAppend(Windows(start, blocks[..taken]), monoBuffer[..]);
        taken := taken + 1;
      }
      assert blocks[..taken] == blocks;
    }

    /** Turns every finished FFT frame into a path over the component's bounds. */
    method DrainFFTFrames()
      modifies this`fftFrames, this`paths
      ensures fftFrames == []
      ensures paths == old(paths) + PathsFor(old(fftFrames), LocalBounds(), BinWidth(processor.sampleRate))
    {
      var bounds := LocalBounds();
      var binWidth := BinWidth(processor.sampleRate);
      ghost var taken := 0;
      while |fftFrames| > 0
        invariant 0 <= taken <= |old(fftFrames)|
        invariant fftFrames == old(fftFrames)[taken..]
        invariant paths == old(paths) + PathsFor(old(fftFrames)[..taken], bounds, binWidth)
        decreases |fftFrames|
      {
        var frame := fftFrames[0];
        fftFrames := fftFrames[1..];
        paths := paths + [Generated(frame, bounds, FFTSize, binWidth, NegativeInfinityDb)];
        assert old(fftFrames)[..taken + 1] == old(fftFrames)[..taken] + [frame];
        taken := taken + 1;
      }
      assert old(fftFrames)[..taken] == old(fftFrames);
    }

    /** Pops every generated path into leftChannelFFTPath, so only the last one stays. */
    method DrainPaths()
      modifies this`paths, this`leftChannelFFTPath
      ensures paths == []
      ensures leftChannelFFTPath == LastOr(old(paths), old(leftChannelFFTPath))
    {
      ghost var taken := 0;
      while |paths| > 0
        invariant 0 <= taken <= |old(paths)|
        invariant paths == old(paths)[taken..]
        invariant leftChannelFFTPath == LastOr(old(paths)[..taken], old(leftChannelFFTPath))
        decreases |paths|
      {
        leftChannelFFTPath := paths[0];
        paths := paths[1..];
        taken := taken + 1;
      }
      assert old(paths)[..taken] == old(paths);
    }

    /** Test-and-clear of the dirty flag; only a set flag installs the
        coefficients designed from the current parameters. */
    method UpdateChainIfChanged(currentDesign: ChainDesign)
      modifies this`parametersChanged, this`monoChain, this`chainUpdates
      ensures !parametersChanged
      ensures monoChain == if old(parametersChanged) then Installed(old(monoChain), currentDesign) else old(monoChain)
      ensures monoChain.peak.bypassed == old(monoChain.peak.bypassed)
      ensures chainUpdates == if old(parametersChanged) then old(chainUpdates) + 1 else old(chainUpdates)
    {
      if parametersChanged {
        parametersChanged := false;
        monoChain := Installed(monoChain, currentDesign);
        chainUpdates := chainUpdates + 1;
      }
    }

    /** One timer tick. `currentDesign` is what the processor's filter
        factory designs from the current parameter values: the peak
        coefficients and the two cut filters. */
    method TimerCallback(currentDesign: ChainDesign)
      requires Valid() && Fits(monoBuffer[..], processor.leftChannelFifo)
      modifies this, monoBuffer, processor`leftChannelFifo
      ensures Valid()
      ensures processor.leftChannelFifo == []
      ensures monoBuffer[..] == Absorb(old(monoBuffer[..]), old(processor.leftChannelFifo))
      ensures leftChannelFFTPath
           == LastOr(PathsFor(FramesFor(Windows(old(monoBuffer[..]), old(processor.leftChannelFifo))),
                              LocalBounds(), BinWidth(processor.sampleRate)),
                     old(leftChannelFFTPath))
      ensures old(processor.leftChannelFifo) == [] ==> leftChannelFFTPath == old(leftChannelFFTPath)
      ensures old(processor.leftChannelFifo) != [] ==>
                leftChannelFFTPath
                == Generated(FFTFrame(Latest(old(monoBuffer[..]) + Concat(old(processor.leftChannelFifo)), FFTSize),
                                      NegativeInfinityDb),
                             LocalBounds(), FFTSize, BinWidth(processor.sampleRate), NegativeInfinityDb)
      ensures !parametersChanged
      ensures monoChain == if old(parametersChanged) then Installed(old(monoChain), currentDesign) else old(monoChain)
      ensures monoChain.peak.bypassed == old(monoChain.peak.bypassed)
      ensures chainUpdates == if old(parametersChanged) then old(chainUpdates) + 1 else old(chainUpdates)
      ensures repaintRequests == old(repaintRequests) + 1
      ensures width == old(width) && height == old(height)
    {
      ghost var window, blocks, previous := monoBuffer[..], processor.leftChannelFifo, leftChannelFFTPath;
      DrainChannelFifo();
      DrainFFTFrames();
      DrainPaths();
      if blocks != [] {
        NewestSpectrumKept(window, blocks, previous, LocalBounds(), BinWidth(processor.sampleRate));
      }
      UpdateChainIfChanged(currentDesign);
      repaintRequests := repaintRequests + 1;
    }

    /** The analytic response curve paint strokes: one vertex per pixel
        column of the component. Drawing itself is not modelled. */
    method Paint(magnitude: MagnitudeFn, mapToLog10: real -> real, gainToDecibels: real -> real)
      returns (responseCurve: seq<Point>)
      requires width > 0
      ensures responseCurve == ResponseCurvePath(monoChain, LocalBounds(), magnitude, mapToLog10, gainToDecibels)
    {
      var area := LocalBounds();
      var w := area.width;
      ghost var expected := ColumnDecibels(monoChain, w, magnitude, mapToLog10, gainToDecibels);
      var mags := new real[w];
      for i := 0 to w
        invariant forall k :: 0 <= k < i ==> mags[k] == expected[k]
      {
        var freq := mapToLog10(i as real / w as real);
        var mag := ColumnMagnitude(monoChain, magnitude, freq);
        mags[i] := gainToDecibels(mag);
      }
      var outputMin, outputMax := area.Bottom() as real, area.y as real;
      responseCurve := [Point(area.x as real, MapDecibels(mags[0], outputMin, outputMax))];
      for i := 1 to w
        invariant |responseCurve| == i
        invariant forall k :: 0 <= k < i ==> responseCurve[k] == CurveThrough(expected, area)[k]
      {
        responseCurve := responseCurve + [Point((area.x + i) as real, MapDecibels(mags[i], outputMin, outputMax))];
      }
    }
  }
}
