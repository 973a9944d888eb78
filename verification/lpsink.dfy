/** The lightweight playback sink (GstLpSink): its request pads, the reverse funnels behind
    them, the registry of sink chains, the per-kind bin counters and the recorded sinks,
    updated in place by the element's operations. Framework calls appear only through their
    outcomes, which are parameters of the operations. */
module LpSinkBin {
  import opened LpTypes
  import opened LpDecisions
  import opened SinkChains

  class LpSink {
    // Configuration
    var thumbnailMode: bool
    var audioResource: uint32
    var videoResource: uint32
    var audioMultipleStream: bool
    var videoMultipleStream: bool

    // Request pads (ghost pads of the sink) and the reverse funnels behind them
    var audioPad: Option<Handle>
    var videoPad: Option<Handle>
    var textPad: Option<Handle>
    var audioFunnel: Option<Handle>
    var videoFunnel: Option<Handle>
    var textFunnel: Option<Handle>

    // The chain registry, appended to and never shortened, and the bin-name counters
    var chains: seq<Chain>
    var nbAudioBin: nat
    var nbVideoBin: nat
    var nbTextBin: nat

    // The sinks recorded as "the" audio, video and text sink
    var audioSink: Option<Handle>
    var videoSink: Option<Handle>
    var textSink: Option<Handle>

    // What the framework sees of the sink
    var exposedPads: set<Handle>          // pads added to the element
    var children: set<Handle>             // elements and bins added to the sink's bin
    var padTarget: map<Handle, Handle>    // ghost pad -> its target; absent: no target
    var links: set<(Handle, Handle)>      // pad links made by the sink itself

    // Allocation of framework objects: every handle below this one has been handed out
    var nextHandle: Handle

    function Pad(k: Kind): Option<Handle>
      reads this`audioPad, this`videoPad, this`textPad
    {
      match k
      case Audio => audioPad
      case Video => videoPad
      case Text => textPad
    }

    function Funnel(k: Kind): Option<Handle>
      reads this`audioFunnel, this`videoFunnel, this`textFunnel
    {
      match k
      case Audio => audioFunnel
      case Video => videoFunnel
      case Text => textFunnel
    }

    function Counter(k: Kind): nat
      reads this`nbAudioBin, this`nbVideoBin, this`nbTextBin
    {
      match k
      case Audio => nbAudioBin
      case Video => nbVideoBin
      case Text => nbTextBin
    }

    function RecordedSink(k: Kind): Option<Handle>
      reads this`audioSink, this`videoSink, this`textSink
    {
      match k
      case Audio => audioSink
      case Video => videoSink
      case Text => textSink
    }

    /** Whether a request for kind `k` puts a reverse funnel behind the pad: on request
        for audio and video, always for text. */
    function MultipleStream(k: Kind): bool
      reads this`audioMultipleStream, this`videoMultipleStream
    {
      match k
      case Audio => audioMultipleStream
      case Video => videoMultipleStream
      case Text => true
    }

    /** The object invariant: the pads are sound, the registry is numbered, and every
        chain bin and sink, recorded sink and child was handed out already. */
    ghost predicate Valid()
      reads this`audioPad, this`videoPad, this`textPad, this`nextHandle, this`padTarget,
            this`chains, this`nbAudioBin, this`nbVideoBin, this`nbTextBin, this`children,
            this`audioSink, this`videoSink, this`textSink
    {
      PadsValid() && RegistryValid() && ObjectsValid()
    }

    /** The chains' bins and sinks, the recorded sinks and the sink's children are handles
        already handed out, so any object made later differs from all of them. */
    ghost predicate ObjectsValid()
      reads this`chains, this`children, this`nextHandle, this`audioSink, this`videoSink,
            this`textSink
    {
      && ObjectsBelow(nextHandle)
      && (forall h :: h in children ==> h < nextHandle)
    }

    /** Every chain's bin and sink, and every recorded sink, is below `n`. */
    ghost predicate ObjectsBelow(n: nat)
      reads this`chains, this`audioSink, this`videoSink, this`textSink
    {
      && (forall i :: 0 <= i < |chains| ==>
            chains[i].bin < n && (chains[i].sink.Some? ==> chains[i].sink.value < n))
      && (audioSink.Some? ==> audioSink.value < n)
      && (videoSink.Some? ==> videoSink.value < n)
      && (textSink.Some? ==> textSink.value < n)
    }

    /** Handing out more handles keeps those objects below the counter. */
    lemma ObjectsBelowRaised(n: nat, m: nat)
      requires ObjectsBelow(n) && n <= m
      ensures ObjectsBelow(m)
    {
    }

    /** The pad fields hold distinct handles already handed out, and only such pads have
        targets. */
    ghost predicate PadsValid()
      reads this`audioPad, this`videoPad, this`textPad, this`nextHandle, this`padTarget
    {
      && (audioPad.Some? ==> audioPad.value < nextHandle)
      && (videoPad.Some? ==> videoPad.value < nextHandle)
      && (textPad.Some? ==> textPad.value < nextHandle)
      && (audioPad.Some? ==> audioPad != videoPad && audioPad != textPad)
      && (videoPad.Some? ==> videoPad != textPad)
      && (forall p :: p in padTarget ==> p < nextHandle)
    }

    /** Every chain is numbered after the chains of its kind before it, and each counter
        counts the chains of its kind. */
    ghost predicate RegistryValid()
      reads this`chains, this`nbAudioBin, this`nbVideoBin, this`nbTextBin
    {
      Registry(chains, nbAudioBin, nbVideoBin, nbTextBin)
    }

    /** The pads and funnels of every kind other than `k` are as they were. */
    twostate predicate OtherKindsKept(k: Kind)
      reads this`audioPad, this`videoPad, this`textPad, this`audioFunnel, this`videoFunnel,
            this`textFunnel
    {
      && (k != Audio ==> audioPad == old(audioPad) && audioFunnel == old(audioFunnel))
      && (k != Video ==> videoPad == old(videoPad) && videoFunnel == old(videoFunnel))
      && (k != Text ==> textPad == old(textPad) && textFunnel == old(textFunnel))
    }

    /** Nothing a chain build or a reconfiguration touches has changed. */
    twostate predicate Untouched()
      reads this
    {
      && chains == old(chains)
      && nbAudioBin == old(nbAudioBin) && nbVideoBin == old(nbVideoBin) && nbTextBin == old(nbTextBin)
      && audioSink == old(audioSink) && videoSink == old(videoSink) && textSink == old(textSink)
      && children == old(children) && padTarget == old(padTarget) && links == old(links)
      && nextHandle == old(nextHandle)
    }

    /** `c` is the chain of kind `k` just built: shaped by the configuration and the
        framework's answers `o`, numbered with the kind's old counter, which alone went up
        by one, made of new objects, and with its sink recorded as the sink of its kind
        when one could be readied. The audio chain records its first sink even when it
        then falls back to a fakesink. */
    twostate predicate NewChain(k: Kind, c: Chain, o: BuildOracle)
      reads this`nbAudioBin, this`nbVideoBin, this`nbTextBin, this`thumbnailMode,
            this`audioResource, this`videoResource, this`audioSink, this`videoSink,
            this`textSink, this`nextHandle
    {
      && BuiltFrom(c, k, old(Counter(k)), thumbnailMode, audioResource, videoResource, o)
      && nbAudioBin == old(nbAudioBin) + (if k == Audio then 1 else 0)
      && nbVideoBin == old(nbVideoBin) + (if k == Video then 1 else 0)
      && nbTextBin == old(nbTextBin) + (if k == Text then 1 else 0)
      && old(nextHandle) <= c.bin < nextHandle
      && old(nextHandle) <= c.ghostPad < nextHandle
      && (c.sink.Some? ==> old(nextHandle) <= c.sink.value < nextHandle)
      && (k != Audio ==> audioSink == old(audioSink))
      && (k != Video ==> videoSink == old(videoSink))
      && (k != Text ==> textSink == old(textSink))
      && (o.sinkReady ==>
            RecordedSink(k).Some? && old(nextHandle) <= RecordedSink(k).value < nextHandle)
      && (!o.sinkReady ==> RecordedSink(k) == old(RecordedSink(k)))
      && (o.sinkReady && !(k == Audio && AudioFallback(o)) ==> c.sink == RecordedSink(k))
      && (k == Audio && AudioFallback(o) && (o.sinkReady || c.sink.Some?) ==>
            c.sink != RecordedSink(k))
    }

    /** The effect of one reconfiguration for kind `k` that built chain `c`: exactly that
        chain appended, its bin added to the sink's bin and set to the sink's target state;
        the kind's direct pad, if any, retargeted onto the chain; for text with a funnel,
        the funnel output linked to it. */
    twostate predicate Reconfigured(k: Kind, c: Chain, srcPad: Option<Handle>, target: State,
                                    o: BuildOracle)
      reads this
    {
      && NewChain(k, c, o)
      && c.state == Null
      && chains == old(chains) + [c.(state := target)]
      && c.bin !in old(children)
      && (forall i :: 0 <= i < |old(chains)| ==>
            old(chains)[i].bin != c.bin && (c.sink.Some? ==> old(chains)[i].sink != c.sink))
      && children == old(children) + {c.bin}
      && (if k != Text && Pad(k).Some?
          then padTarget == old(padTarget)[Pad(k).value := c.ghostPad]
          else padTarget == old(padTarget))
      && links == (if k == Text && textFunnel.Some? && srcPad.Some?
                   then old(links) + {(srcPad.value, c.ghostPad)} else old(links))
    }

    /** What a request for a pad of kind `k` that returned `res` did: `res` is the kind's
        pad, now exposed, and the other kinds' pads and funnels are as they were. An existing
        audio or video pad is handed out again and nothing is created. A first audio or
        video request makes a pad onto the sink pad of a new funnel in the sink's bin when
        the kind is multi-stream, and a pad with no target otherwise. A text request adds a
        new funnel every time; the text pad is made once, onto a funnel's sink pad. */
    twostate predicate PadRequested(k: Kind, new res: Option<Handle>)
      reads this
    {
      && PadExposed(k, res)
      && if k == Text then TextPadRequested(res)
         else if old(Pad(k)).Some? then PadReused(k, res)
         else if MultipleStream(k) then FunnelPadMade(k, res)
         else TargetlessPadMade(k, res)
    }

    /** `res` is the pad of kind `k`, added to the element's pads; the other kinds' pads
        and funnels are as they were. */
    twostate predicate PadExposed(k: Kind, new res: Option<Handle>)
      reads this`audioPad, this`videoPad, this`textPad, this`audioFunnel, this`videoFunnel,
            this`textFunnel, this`exposedPads
    {
      && res.Some? && res == Pad(k)
      && exposedPads == old(exposedPads) + {res.value}
      && OtherKindsKept(k)
    }

    /** The existing pad of kind `k` was handed out again and nothing was created. */
    twostate predicate PadReused(k: Kind, new res: Option<Handle>)
      reads this`audioPad, this`videoPad, this`textPad, this`audioFunnel, this`videoFunnel,
            this`textFunnel, this`children, this`padTarget, this`nextHandle
    {
      && res == old(Pad(k))
      && Funnel(k) == old(Funnel(k)) && children == old(children)
      && padTarget == old(padTarget) && nextHandle == old(nextHandle)
    }

    /** `res` is a new pad of kind `k`, onto a new pad of a new funnel of that kind, the one
        child added to the sink's bin. */
    twostate predicate FunnelPadMade(k: Kind, new res: Option<Handle>)
      reads this`audioFunnel, this`videoFunnel, this`textFunnel, this`children,
            this`padTarget, this`nextHandle
    {
      && res.Some? && old(nextHandle) <= res.value < nextHandle
      && Funnel(k).Some? && old(nextHandle) <= Funnel(k).value < nextHandle
      && children == old(children) + {Funnel(k).value}
      && res.value in padTarget && old(nextHandle) <= padTarget[res.value]
      && padTarget == old(padTarget)[res.value := padTarget[res.value]]
    }

    /** `res` is a new pad of kind `k` with no target; no funnel or child was added. */
    twostate predicate TargetlessPadMade(k: Kind, new res: Option<Handle>)
      reads this`audioFunnel, this`videoFunnel, this`textFunnel, this`children,
            this`padTarget, this`nextHandle
    {
      && res.Some? && old(nextHandle) <= res.value < nextHandle
      && Funnel(k) == old(Funnel(k)) && children == old(children)
      && res.value !in padTarget && padTarget == old(padTarget)
    }

    /** A new text funnel was added to the sink's bin; `res` is the old text pad with the
        targets left alone, or, on the first request, a new pad onto a new pad. */
    twostate predicate TextPadRequested(new res: Option<Handle>)
      reads this`textPad, this`textFunnel, this`children, this`padTarget, this`nextHandle
    {
      && textFunnel.Some? && old(nextHandle) <= textFunnel.value < nextHandle
      && children == old(children) + {textFunnel.value}
      && (old(textPad).Some? ==> res == old(textPad) && padTarget == old(padTarget))
      && (old(textPad).None? ==>
            && res.Some? && old(nextHandle) <= res.value < nextHandle
            && res.value in padTarget && old(nextHandle) <= padTarget[res.value]
            && padTarget == old(padTarget)[res.value := padTarget[res.value]])
    }

    /** gst_lp_sink_init */
    constructor ()
      ensures Valid()
      ensures !thumbnailMode && audioResource == 0 && videoResource == 0
      ensures !audioMultipleStream && !videoMultipleStream
      ensures forall k :: Pad(k).None? && Funnel(k).None? && RecordedSink(k).None? && Counter(k) == 0
      ensures chains == [] && exposedPads == {} && children == {} && padTarget == map[]
      ensures links == {}
    {
      thumbnailMode := false;
      audioResource, videoResource := 0, 0;
      audioMultipleStream, videoMultipleStream := false, false;
      audioPad, videoPad, textPad := None, None, None;
      audioFunnel, videoFunnel, textFunnel := None, None, None;
      chains := [];
      nbAudioBin, nbVideoBin, nbTextBin := 0, 0, 0;
      audioSink, videoSink, textSink := None, None, None;
      exposedPads, children, padTarget, links := {}, {}, map[], {};
      nextHandle := 0;
    }

    // -------------------------------------------------------------------------------
    // Configuration

    method SetThumbnailMode(thumbnail: bool)
      modifies this`thumbnailMode
      ensures thumbnailMode == thumbnail
    {
      thumbnailMode := thumbnail;
    }

    /** Only the exact type names "audio" and "video" are honoured. */
    method SetMultipleStream(typeName: string, multiple: bool)
      modifies this`audioMultipleStream, this`videoMultipleStream
      ensures typeName == "audio" ==>
        audioMultipleStream == multiple && videoMultipleStream == old(videoMultipleStream)
      ensures typeName == "video" ==>
        videoMultipleStream == multiple && audioMultipleStream == old(audioMultipleStream)
      ensures typeName != "audio" && typeName != "video" ==>
        audioMultipleStream == old(audioMultipleStream) && videoMultipleStream == old(videoMultipleStream)
    {
      if typeName == "audio" {
        audioMultipleStream := multiple;
      } else if typeName == "video" {
        videoMultipleStream := multiple;
      }
    }

    /** The "audio-resource" property accepts any 32-bit word. */
    method SetAudioResource(r: uint32)
      modifies this`audioResource
      ensures audioResource == r
    {
      audioResource := r;
    }

    /** The "video-resource" property is declared with the range 0..2; a value outside it
        is refused and the property keeps its value. */
    method SetVideoResource(r: uint32)
      modifies this`videoResource
      ensures videoResource == if r <= 2 then r else old(videoResource)
      ensures videoResource <= 2 || videoResource == old(videoResource)
    {
      if r <= 2 {
        videoResource := r;
      }
    }

    // -------------------------------------------------------------------------------
    // Request pads

    /** gst_lp_sink_request_pad: returns the pad of kind `t`, exposed on the element,
        creating it on the first request; a text request also adds a reverse funnel each
        time. An unknown type gets no pad and changes nothing. */
    method RequestPad(t: Option<Kind>) returns (res: Option<Handle>)
      requires Valid()
      modifies this`audioPad, this`videoPad, this`textPad, this`audioFunnel,
               this`videoFunnel, this`textFunnel, this`children, this`padTarget,
               this`exposedPads, this`nextHandle
      ensures Valid()
      ensures t.None? ==>
        && res.None?
        && OtherKindsKept(Audio) && OtherKindsKept(Video)
        && children == old(children) && padTarget == old(padTarget)
        && exposedPads == old(exposedPads) && nextHandle == old(nextHandle)
      ensures t.Some? ==> PadRequested(t.value, res)
    {
      match t
      case None =>
        res := None;
      case Some(k) =>
        if k == Text {
          res := RequestTextPad();
        } else if Pad(k).None? {
          res := CreateStreamPad(k);
        } else {
          res := Pad(k);
          exposedPads := exposedPads + {res.value};
        }
    }

    /** The text branch of gst_lp_sink_request_pad: a new reverse funnel is added on every
        request; the text pad is created once, as a ghost pad onto that funnel's sink pad,
        and later requests leave it on the first funnel. */
    method RequestTextPad() returns (res: Option<Handle>)
      requires PadsValid() && ObjectsValid()
      modifies this`textPad, this`textFunnel, this`children, this`padTarget, this`nextHandle,
               this`exposedPads
      ensures PadsValid() && ObjectsValid()
      ensures PadExposed(Text, res) && TextPadRequested(res)
    {
      if textPad.None? {
        res := CreateTextPad();
      } else {
        res := AddTextFunnel();
      }
    }

    /** The first text request: a new funnel, and the text pad as a ghost pad onto the
        funnel's sink pad. */
    method CreateTextPad() returns (res: Option<Handle>)
      requires textPad.None? && PadsValid() && ObjectsValid()
      modifies this`textPad, this`textFunnel, this`children, this`padTarget, this`nextHandle,
               this`exposedPads
      ensures PadsValid() && ObjectsValid()
      ensures PadExposed(Text, res) && TextPadRequested(res)
    {
      var funnel, pad := NewFunnelPad();
      textFunnel, textPad := Some(funnel), Some(pad);
      res := textPad;
      exposedPads := exposedPads + {pad};
    }

    /** A later text request: a new funnel, whose sink pad nothing targets; the text pad
        is handed out again. */
    method AddTextFunnel() returns (res: Option<Handle>)
      requires textPad.Some? && PadsValid() && ObjectsValid()
      modifies this`textFunnel, this`children, this`nextHandle, this`exposedPads
      ensures PadsValid() && ObjectsValid()
      ensures PadExposed(Text, res) && TextPadRequested(res)
    {
      ghost var n := nextHandle;
      // the funnel and its sink pad
      var funnel := nextHandle;
      nextHandle := nextHandle + 2;
      children := children + {funnel};
      textFunnel := Some(funnel);
      res := textPad;
      exposedPads := exposedPads + {res.value};
      ObjectsBelowRaised(n, nextHandle);
    }

    /** The first request of an audio or video pad: a ghost pad onto the sink pad of a new
        reverse funnel when the kind is multi-stream, a ghost pad without target otherwise
        (its caps notification then builds the chain). */
    method CreateStreamPad(k: Kind) returns (res: Option<Handle>)
      requires k != Text && Pad(k).None?
      requires PadsValid() && ObjectsValid()
      modifies this`audioPad, this`videoPad, this`audioFunnel, this`videoFunnel,
               this`children, this`padTarget, this`nextHandle, this`exposedPads
      ensures PadsValid() && ObjectsValid()
      ensures PadRequested(k, res)
    {
      if MultipleStream(k) {
        res := CreateFunnelPad(k);
      } else {
        res := CreateTargetlessPad(k);
      }
    }

    /** The multi-stream branch: a new reverse funnel in the sink's bin, and the kind's pad
        as a ghost pad onto the funnel's sink pad. */
    method CreateFunnelPad(k: Kind) returns (res: Option<Handle>)
      requires k != Text && Pad(k).None? && MultipleStream(k)
      requires PadsValid() && ObjectsValid()
      modifies this`audioPad, this`videoPad, this`audioFunnel, this`videoFunnel,
               this`children, this`padTarget, this`nextHandle, this`exposedPads
      ensures PadsValid() && ObjectsValid()
      ensures PadExposed(k, res) && FunnelPadMade(k, res)
    {
      var funnel, pad := NewFunnelPad();
      SetStreamPad(k, Some(funnel), pad);
      res := Some(pad);
      exposedPads := exposedPads + {pad};
    }

    /** A new reverse funnel, added to the sink's bin, and a new ghost pad onto the
        funnel's "sink" pad, which is the only new target. */
    method NewFunnelPad() returns (funnel: Handle, pad: Handle)
      requires ObjectsValid() && (forall p :: p in padTarget ==> p < nextHandle)
      modifies this`children, this`padTarget, this`nextHandle
      ensures ObjectsValid() && (forall p :: p in padTarget ==> p < nextHandle)
      ensures old(nextHandle) <= funnel < nextHandle && old(nextHandle) <= pad < nextHandle
      ensures children == old(children) + {funnel}
      ensures pad in padTarget && old(nextHandle) <= padTarget[pad]
      ensures padTarget == old(padTarget)[pad := padTarget[pad]]
    {
      ghost var n := nextHandle;
      // the funnel, its sink pad and the ghost pad onto it
      var funnelSinkPad;
      funnel, funnelSinkPad, pad := nextHandle, nextHandle + 1, nextHandle + 2;
      nextHandle := nextHandle + 3;
      children := children + {funnel};
      padTarget := padTarget[pad := funnelSinkPad];
      ObjectsBelowRaised(n, nextHandle);
    }

    /** Records `pad` and `funnel` as the pad and funnel of the audio or video kind `k`. */
    method SetStreamPad(k: Kind, funnel: Option<Handle>, pad: Handle)
      requires k != Text
      modifies this`audioPad, this`videoPad, this`audioFunnel, this`videoFunnel
      ensures Pad(k) == Some(pad) && Funnel(k) == funnel && OtherKindsKept(k)
    {
      if k == Audio {
        audioFunnel, audioPad := funnel, Some(pad);
      } else {
        videoFunnel, videoPad := funnel, Some(pad);
      }
    }

    /** The single-stream branch: the kind's pad as a ghost pad with no target. */
    method CreateTargetlessPad(k: Kind) returns (res: Option<Handle>)
      requires k != Text && Pad(k).None? && !MultipleStream(k)
      requires PadsValid() && ObjectsValid()
      modifies this`audioPad, this`videoPad, this`nextHandle, this`padTarget, this`exposedPads
      ensures PadsValid() && ObjectsValid()
      ensures PadExposed(k, res) && TargetlessPadMade(k, res)
    {
      ghost var n := nextHandle;
      // the ghost pad, without a target
      var pad := nextHandle;
      nextHandle := nextHandle + 1;
      if k == Audio {
        audioPad := Some(pad);
      } else {
        videoPad := Some(pad);
      }
      res := Some(pad);
      exposedPads := exposedPads + {pad};
      ObjectsBelowRaised(n, nextHandle);
    }

    /** gst_lp_sink_request_new_pad: the kind is read from the template's name; without
        a template, or with an unknown one, no pad is made. */
    method RequestNewPad(templateName: Option<string>) returns (res: Option<Handle>)
      requires Valid()
      modifies this`audioPad, this`videoPad, this`textPad, this`audioFunnel,
               this`videoFunnel, this`textFunnel, this`children, this`padTarget,
               this`exposedPads, this`nextHandle
      ensures Valid()
      ensures res.Some? <==> templateName.Some? && TemplateKind(templateName.value).Some?
      ensures res.Some? ==> PadRequested(TemplateKind(templateName.value).value, res)
      ensures res.None? ==>
        && OtherKindsKept(Audio) && OtherKindsKept(Video)
        && children == old(children) && padTarget == old(padTarget)
        && exposedPads == old(exposedPads) && nextHandle == old(nextHandle)
    {
      if templateName.None? {
        return None;
      }
      var kind := TemplateKind(templateName.value);
      if kind.None? {
        return None;
      }
      res := RequestPad(kind);
    }

    /** gst_lp_sink_release_pad: the audio or video pad is removed, untargeted and
        forgotten; any other pad, the text pad included, is removed from the element but
        stays in its field and keeps its target. A NULL pad is ignored. */
    method ReleasePad(pad: Option<Handle>)
      requires Valid()
      modifies this`audioPad, this`videoPad, this`exposedPads, this`padTarget
      ensures Valid()
      ensures pad.None? ==>
        && audioPad == old(audioPad) && videoPad == old(videoPad)
        && exposedPads == old(exposedPads) && padTarget == old(padTarget)
      ensures pad.Some? && pad == old(videoPad) ==>
        && videoPad.None? && audioPad == old(audioPad)
        && exposedPads == old(exposedPads) - {pad.value}
        && padTarget == old(padTarget) - {pad.value}
      ensures pad.Some? && pad == old(audioPad) ==>
        && audioPad.None? && videoPad == old(videoPad)
        && exposedPads == old(exposedPads) - {pad.value}
        && padTarget == old(padTarget) - {pad.value}
      ensures pad.Some? && pad != old(audioPad) && pad != old(videoPad) ==>
        && audioPad == old(audioPad) && videoPad == old(videoPad)
        && exposedPads == old(exposedPads) - {pad.value}
        && padTarget == old(padTarget)
    {
      var res: Option<Handle>;
      var slot: Option<Kind>;
      var untarget := true;
      if pad == videoPad {
        res, slot := videoPad, Some(Video);
      } else if pad == audioPad {
        res, slot := audioPad, Some(Audio);
      } else {
        res, slot := pad, None;
        untarget := false;
      }
      if res.Some? {
        if untarget {
          padTarget := padTarget - {res.value};
        }
        exposedPads := exposedPads - {res.value};
        if slot == Some(Video) {
          videoPad := None;
        } else if slot == Some(Audio) {
          audioPad := None;
        }
      }
    }

    // -------------------------------------------------------------------------------
    // Chain construction

    /** gen_audio_chain: an "adecsink" (a "fakesink" in thumbnail mode) told the decoded
        audio route, behind a queue with default limits, in bin "abin<n>"; a fakesink
        replaces the sink when the queue cannot be linked to it. */
    method GenAudioChain(o: BuildOracle) returns (c: Chain)
      requires Valid()
      modifies this`chains, this`nbAudioBin, this`nbVideoBin, this`nbTextBin, this`audioSink,
               this`nextHandle
      ensures Valid()
      ensures chains == old(chains) + [c] && c.state == Null
      ensures NewChain(Audio, c, o)
    {
      var sink, factory, linked := AudioSinkElement(o);
      // the bin, the queue and the bin's ghost pad
      var bin, queue, ghostPad := nextHandle, nextHandle + 1, nextHandle + 2;
      nextHandle := nextHandle + 3;
      var index := nbAudioBin;
      c := Chain(Audio, index, bin, queue, QueueLimitsFor(Audio), factory,
                 MixerRoute(DecodeAudioResource(audioResource)), sink, linked, ghostPad, Null);
      Register(c);
    }

    /** The sink end of the audio chain: the configured sink, recorded as the audio sink
        when it can be readied, or, when it cannot be readied or linked, a fakesink in its
        place. */
    method AudioSinkElement(o: BuildOracle) returns (sink: Option<Handle>, factory: SinkFactory,
                                                      linked: bool)
      requires audioSink.Some? ==> audioSink.value < nextHandle
      modifies this`audioSink, this`nextHandle
      ensures old(nextHandle) < nextHandle
      ensures sink.Some? ==> old(nextHandle) <= sink.value < nextHandle
      ensures o.sinkReady ==>
        RecordedSink(Audio).Some? && old(nextHandle) <= RecordedSink(Audio).value < nextHandle
      ensures !o.sinkReady ==> RecordedSink(Audio) == old(RecordedSink(Audio))
      ensures AudioFallback(o) ==>
        && factory == FakeSink
        && (sink.Some? <==> o.fallbackReady)
        && (linked <==> o.fallbackReady && o.fallbackLinkOk)
        && ((o.sinkReady || sink.Some?) ==> sink != RecordedSink(Audio))
      ensures !AudioFallback(o) ==>
        && factory == (if thumbnailMode then FakeSink else AdecSink)
        && sink.Some? && sink == RecordedSink(Audio) && linked
    {
      // the sink element
      var primary := nextHandle;
      nextHandle := nextHandle + 1;
      sink := if o.sinkReady then Some(primary) else None;
      if sink.Some? {
        audioSink := sink;
      }
      factory := if thumbnailMode then FakeSink else AdecSink;
      linked := sink.Some? && o.linkOk;
      if !linked {
        sink, linked := FallbackSink(o);
        factory := FakeSink;
      }
    }

    /** The fakesink that replaces an audio sink that could not be readied or linked: a new
        element, kept when it can be readied, and linked when the queue links to it. */
    method FallbackSink(o: BuildOracle) returns (sink: Option<Handle>, linked: bool)
      modifies this`nextHandle
      ensures nextHandle == old(nextHandle) + 1
      ensures sink.Some? <==> o.fallbackReady
      ensures sink.Some? ==> sink.value == old(nextHandle)
      ensures linked <==> o.fallbackReady && o.fallbackLinkOk
    {
      var fallback := nextHandle;
      nextHandle := nextHandle + 1;
      sink := if o.fallbackReady then Some(fallback) else None;
      linked := o.fallbackReady && o.fallbackLinkOk;
    }

    /** gen_video_chain: a "vdecsink" told the raw video resource as its channel, behind a
        queue limited to 3 buffers, in bin "vbin<n>"; a failed link is left as it is. */
    method GenVideoChain(o: BuildOracle) returns (c: Chain)
      requires Valid()
      modifies this`chains, this`nbAudioBin, this`nbVideoBin, this`nbTextBin, this`videoSink,
               this`nextHandle
      ensures Valid()
      ensures chains == old(chains) + [c] && c.state == Null
      ensures NewChain(Video, c, o)
    {
      // the sink element, the bin, the queue and the bin's ghost pad
      var element, bin, queue, ghostPad := nextHandle, nextHandle + 1, nextHandle + 2, nextHandle + 3;
      nextHandle := nextHandle + 4;
      var sink: Option<Handle> := if o.sinkReady then Some(element) else None;
      if sink.Some? {
        videoSink := sink;
      }
      var index := nbVideoBin;
      c := Chain(Video, index, bin, queue, QueueLimitsFor(Video), VdecSink,
                 VdecChannel(videoResource), sink, sink.Some? && o.linkOk, ghostPad, Null);
      Register(c);
    }

    /** gen_text_chain: an "appsink" behind a queue limited to 3 buffers and one second,
        in bin "tbin<n>"; a failed link is left as it is. */
    method GenTextChain(o: BuildOracle) returns (c: Chain)
      requires Valid()
      modifies this`chains, this`nbAudioBin, this`nbVideoBin, this`nbTextBin, this`textSink,
               this`nextHandle
      ensures Valid()
      ensures chains == old(chains) + [c] && c.state == Null
      ensures NewChain(Text, c, o)
    {
      // the sink element, the bin, the queue and the bin's ghost pad
      var element, bin, queue, ghostPad := nextHandle, nextHandle + 1, nextHandle + 2, nextHandle + 3;
      nextHandle := nextHandle + 4;
      var sink: Option<Handle> := if o.sinkReady then Some(element) else None;
      if sink.Some? {
        textSink := sink;
      }
      var index := nbTextBin;
      c := Chain(Text, index, bin, queue, QueueLimitsFor(Text), AppSink,
                 NoResource, sink, sink.Some? && o.linkOk, ghostPad, Null);
      Register(c);
    }

    /** The counter step of the chain's kind (taken when its bin is named) and the append
        to the registry that ends every chain build. */
    method Register(c: Chain)
      requires RegistryValid() && c.index == Counter(c.kind)
      requires ObjectsValid() && c.bin < nextHandle && (c.sink.Some? ==> c.sink.value < nextHandle)
      modifies this`chains, this`nbAudioBin, this`nbVideoBin, this`nbTextBin
      ensures RegistryValid() && ObjectsValid()
      ensures chains == old(chains) + [c]
      ensures nbAudioBin == old(nbAudioBin) + (if c.kind == Audio then 1 else 0)
      ensures nbVideoBin == old(nbVideoBin) + (if c.kind == Video then 1 else 0)
      ensures nbTextBin == old(nbTextBin) + (if c.kind == Text then 1 else 0)
    {
      RegistryAppend(chains, nbAudioBin, nbVideoBin, nbTextBin, c);
      chains := chains + [c];
      match c.kind
      case Audio => nbAudioBin := nbAudioBin + 1;
      case Video => nbVideoBin := nbVideoBin + 1;
      case Text => nbTextBin := nbTextBin + 1;
    }

    // -------------------------------------------------------------------------------
    // Reconfiguration

    /** gst_lp_sink_do_reconfigure: builds a chain of kind `k`, adds its bin to the sink,
        sets it to the sink's target state `target`, and connects it: the audio or video pad
        (if any) is retargeted onto the chain, and for text with a funnel the announced
        funnel output `srcPad` is linked to it. */
    method Reconfigure(k: Kind, srcPad: Option<Handle>, target: State, o: BuildOracle)
      returns (ok: bool, c: Chain)
      requires Valid()
      modifies this`chains, this`nbAudioBin, this`nbVideoBin, this`nbTextBin, this`audioSink,
               this`videoSink, this`textSink, this`nextHandle, this`children, this`padTarget,
               this`links
      ensures Valid()
      ensures ok
      ensures Reconfigured(k, c, srcPad, target, o)
    {
      c := GenChain(k, o);
      Install(old(chains), c, k, srcPad, target);
      ok := true;
    }

    /** Everything the reconfiguration does once chain `c` of kind `k` is built and
        registered after `before`: add_chain, activate_chain and the connection. */
    method Install(ghost before: seq<Chain>, c: Chain, k: Kind, srcPad: Option<Handle>,
                   target: State)
      requires Valid() && chains == before + [c]
      modifies this`chains, this`children, this`padTarget, this`links
      ensures Valid()
      ensures chains == before + [c.(state := target)]
      ensures children == old(children) + {c.bin}
      ensures padTarget == if k != Text && Pad(k).Some?
                           then old(padTarget)[Pad(k).value := c.ghostPad] else old(padTarget)
      ensures links == if k == Text && textFunnel.Some? && srcPad.Some?
                       then old(links) + {(srcPad.value, c.ghostPad)} else old(links)
    {
      AddChain(c, true);
      ActivateChain(|chains| - 1, true, target);
      Connect(k, srcPad, c.ghostPad);
    }

    /** The chain builder of kind `k`. */
    method GenChain(k: Kind, o: BuildOracle) returns (c: Chain)
      requires Valid()
      modifies this`chains, this`nbAudioBin, this`nbVideoBin, this`nbTextBin, this`audioSink,
               this`videoSink, this`textSink, this`nextHandle
      ensures Valid()
      ensures chains == old(chains) + [c] && c.state == Null
      ensures NewChain(k, c, o)
    {
      match k
      case Audio => c := GenAudioChain(o);
      case Video => c := GenVideoChain(o);
      case Text => c := GenTextChain(o);
    }

    /** The last step of the reconfiguration: the audio or video pad, if any, now targets
        the chain's ghost pad `chainPad`; for text with a funnel, the announced funnel output
        `srcPad` is linked to it. */
    method Connect(k: Kind, srcPad: Option<Handle>, chainPad: Handle)
      requires PadsValid()
      modifies this`padTarget, this`links
      ensures PadsValid()
      ensures padTarget == if k != Text && Pad(k).Some?
                           then old(padTarget)[Pad(k).value := chainPad] else old(padTarget)
      ensures links == if k == Text && textFunnel.Some? && srcPad.Some?
                       then old(links) + {(srcPad.value, chainPad)} else old(links)
    {
      if k == Audio && audioPad.Some? {
        padTarget := padTarget[audioPad.value := chainPad];
      } else if k == Video && videoPad.Some? {
        padTarget := padTarget[videoPad.value := chainPad];
      } else if k == Text && textFunnel.Some? && srcPad.Some? {
        links := links + {(srcPad.value, chainPad)};
      }
    }

    /** add_chain: puts the chain's bin into the sink's bin, or takes it out. */
    method AddChain(c: Chain, add: bool)
      modifies this`children
      ensures children == if add then old(children) + {c.bin} else old(children) - {c.bin}
    {
      if add {
        children := children + {c.bin};
      } else {
        children := children - {c.bin};
      }
    }

    /** activate_chain: sets the bin of chain `i` to the sink's target state `target`, or
        to NULL. */
    method ActivateChain(i: nat, activate: bool, target: State)
      requires RegistryValid() && i < |chains|
      modifies this`chains
      ensures RegistryValid()
      ensures chains == old(chains)[i := old(chains)[i].(state := if activate then target else Null)]
    {
      var d := chains[i].(state := if activate then target else Null);
      RegistryReplace(chains, nbAudioBin, nbVideoBin, nbTextBin, i, d);
      chains := chains[i := d];
    }

    /** src_pad_added_cb: a funnel announced output `pad` carrying `caps`; a recognised
        kind gets a new chain linked from that output, anything else is ignored. */
    method SrcPadAdded(pad: Handle, caps: string, target: State, o: BuildOracle)
      requires Valid()
      modifies this`chains, this`nbAudioBin, this`nbVideoBin, this`nbTextBin, this`audioSink,
               this`videoSink, this`textSink, this`nextHandle, this`children, this`padTarget,
               this`links
      ensures Valid()
      ensures ClassifyCaps(caps).None? ==> Untouched()
      ensures ClassifyCaps(caps).Some? ==>
        exists c :: Reconfigured(ClassifyCaps(caps).value, c, Some(pad), target, o)
    {
      var kind := ClassifyCaps(caps);
      if kind.Some? {
        var _, c := Reconfigure(kind.value, Some(pad), target, o);
      }
    }

    /** caps_notify_cb: caps arrived on a direct pad. The audio or video pad gets a chain
        the first time, while it has no target; afterwards it is targeted, so later
        notifications change nothing. */
    method CapsNotify(pad: Handle, hasCaps: bool, target: State, o: BuildOracle)
      requires Valid()
      modifies this`chains, this`nbAudioBin, this`nbVideoBin, this`nbTextBin, this`audioSink,
               this`videoSink, this`textSink, this`nextHandle, this`children, this`padTarget,
               this`links
      ensures Valid()
      ensures hasCaps && old(audioPad) == Some(pad) && pad !in old(padTarget) ==>
        exists c :: Reconfigured(Audio, c, None, target, o)
      ensures hasCaps && old(audioPad) != Some(pad) && old(videoPad) == Some(pad)
              && pad !in old(padTarget) ==>
        exists c :: Reconfigured(Video, c, None, target, o)
      ensures !hasCaps || (old(audioPad) != Some(pad) && old(videoPad) != Some(pad))
              || pad in old(padTarget) ==>
        Untouched()
      ensures hasCaps && (old(audioPad) == Some(pad) || old(videoPad) == Some(pad)) ==>
        pad in padTarget
    {
      if !hasCaps {
        return;
      }
      if audioPad == Some(pad) {
        if pad !in padTarget {
          var _, c := Reconfigure(Audio, None, target, o);
        }
      } else if videoPad == Some(pad) {
        if pad !in padTarget {
          var _, c := Reconfigure(Video, None, target, o);
        }
      }
    }

    // -------------------------------------------------------------------------------
    // Events

    /** gst_lp_sink_send_event_to_sink: the event goes to each chain's sink, skipping
        chains without one, in list order; the result is that of the last send, TRUE when
        there was none. `outcome` is what each sink answers. */
    method SendEventToSink(outcome: Handle -> bool) returns (res: bool, delivered: seq<Handle>)
      ensures delivered == SinksInOrder(chains)
      ensures res == SeekResult(chains, outcome)
    {
      res := true;
      delivered := [];
      var i := 0;
      while i < |chains|
        invariant 0 <= i <= |chains|
        invariant delivered == SinksInOrder(chains[..i])
        invariant res == SeekResult(chains[..i], outcome)
      {
        assert chains[..i + 1][..i] == chains[..i];
        if chains[i].sink.Some? {
          delivered := delivered + [chains[i].sink.value];
          res := outcome(chains[i].sink.value);
        }
        i := i + 1;
      }
      assert chains[..i] == chains;
    }

    /** gst_lp_sink_send_event: a seek is sent by the element itself to the chains'
        sinks, which `delivered` lists. Any other event is handed to the parent bin's
        send_event, which sends upstream events to its sink children and downstream events
        to its source children. That fan-out is not modelled here, so `delivered` is then
        empty and `parentResult` is the parent's answer. */
    method SendEvent(event: EventType, outcome: Handle -> bool, parentResult: bool)
      returns (res: bool, delivered: seq<Handle>)
      ensures event == Seek ==> delivered == SinksInOrder(chains) && res == SeekResult(chains, outcome)
      ensures event != Seek ==> delivered == [] && res == parentResult
    {
      if event == Seek {
        res, delivered := SendEventToSink(outcome);
      } else {
        res, delivered := parentResult, [];
      }
    }

    // -------------------------------------------------------------------------------
    // State changes

    /** gst_lp_sink_change_state: the children answer `parentResult` first. On FAILURE the
        sink fails at once; otherwise READY_TO_NULL tears the sink down and every other
        transition changes nothing more. */
    method ChangeState(transition: Transition, parentResult: StateChangeReturn)
      returns (ret: StateChangeReturn)
      requires Valid()
      modifies this`audioPad, this`videoPad, this`exposedPads, this`padTarget, this`chains,
               this`children
      ensures Valid()
      ensures ret == MapStateChange(parentResult)
      ensures ret == Failure || transition != ReadyToNull ==>
        && audioPad == old(audioPad) && videoPad == old(videoPad)
        && exposedPads == old(exposedPads) && padTarget == old(padTarget)
        && chains == old(chains) && children == old(children)
      ensures ret != Failure && transition == ReadyToNull ==> TornDownState()
    {
      ret := MapStateChange(parentResult);
      if ret == Failure {
        return;
      }
      if transition == ReadyToNull {
        TearDown();
      }
    }

    /** What READY_TO_NULL leaves: the audio and video pads released and forgotten, the
        text pad removed from the element though still held, every chain torn down in
        place, and every chain's bin out of the sink's bin. */
    twostate predicate TornDownState()
      reads this`audioPad, this`videoPad, this`textPad, this`exposedPads, this`padTarget,
            this`chains, this`children
    {
      && audioPad.None? && videoPad.None? && textPad == old(textPad)
      && exposedPads == old(exposedPads) - HandlesOf(old(audioPad)) - HandlesOf(old(videoPad))
                        - HandlesOf(old(textPad))
      && padTarget == old(padTarget) - HandlesOf(old(audioPad)) - HandlesOf(old(videoPad))
      && chains == TearDownAll(old(chains))
      && children == old(children) - BinsOf(old(chains))
    }

    /** The READY_TO_NULL branch of gst_lp_sink_change_state: the audio, video and text
        pads are released in that order; then, in list order, each chain's bin is set to
        NULL and taken out of the sink, and its sink is cleared. The chains stay in the
        registry. */
    method TearDown()
      requires Valid()
      modifies this`audioPad, this`videoPad, this`exposedPads, this`padTarget, this`chains,
               this`children
      ensures Valid()
      ensures TornDownState()
    {
      ReleasePad(audioPad);
      ReleasePad(videoPad);
      ReleasePad(textPad);
      TearDownChains();
    }

    /** The chain walk of READY_TO_NULL: in list order, each chain's bin is set to NULL
        (activate_chain) and taken out of the sink (add_chain), and its sink is cleared. */
    method TearDownChains()
      requires RegistryValid() && ObjectsValid()
      modifies this`chains, this`children
      ensures RegistryValid() && ObjectsValid()
      ensures chains == TearDownAll(old(chains))
      ensures children == old(children) - BinsOf(old(chains))
    {
      ghost var chains0 := chains;
      ghost var children0 := children;
      var i := 0;
      while i < |chains|
        invariant 0 <= i <= |chains| == |chains0|
        invariant RegistryValid() && ObjectsValid()
        invariant forall j :: 0 <= j < i ==> chains[j] == TornDown(chains0[j])
        invariant forall j :: i <= j < |chains| ==> chains[j] == chains0[j]
        invariant children == children0 - BinsUpTo(chains0, i)
      {
        var chain := chains[i];
        ActivateChain(i, false, Null);
        AddChain(chain, false);
        var d := chains[i].(sink := None);
        RegistryReplace(chains, nbAudioBin, nbVideoBin, nbTextBin, i, d);
        chains := chains[i := d];
        assert BinsUpTo(chains0, i + 1) == BinsUpTo(chains0, i) + {chain.bin};
        i := i + 1;
      }
      assert chains == TearDownAll(chains0);
    }

    // -------------------------------------------------------------------------------
    // Recorded sinks

    /** gst_lp_sink_set_sink: records `sink` as the audio or video sink; other types are
        ignored. A previous sink that is replaced by a different one is set to NULL, and
        `stopped` names it. The sink may be any element, one the sink made or one made
        elsewhere; a handle not handed out yet is taken out of the pool of new handles, so
        objects made later still differ from it. */
    method SetSink(t: Option<Kind>, sink: Option<Handle>) returns (stopped: Option<Handle>)
      requires Valid()
      modifies this`audioSink, this`videoSink, this`nextHandle
      ensures Valid()
      ensures old(nextHandle) <= nextHandle
      ensures sink.Some? ==> sink.value < nextHandle
      ensures t == Some(Audio) || t == Some(Video) ==>
        && RecordedSink(t.value) == sink
        && stopped == (if old(RecordedSink(t.value)).Some? && old(RecordedSink(t.value)) != sink
                       then old(RecordedSink(t.value)) else None)
      ensures t == Some(Audio) ==> videoSink == old(videoSink)
      ensures t == Some(Video) ==> audioSink == old(audioSink)
      ensures t != Some(Audio) && t != Some(Video) ==>
        audioSink == old(audioSink) && videoSink == old(videoSink) && stopped.None?
    {
      if sink.Some? && sink.value >= nextHandle {
        // an element made outside the sink: its handle is now in use
        nextHandle := sink.value + 1;
      }
      var previous: Option<Handle> := None;
      if t == Some(Audio) {
        previous := audioSink;
        audioSink := sink;
      } else if t == Some(Video) {
        previous := videoSink;
        videoSink := sink;
      }
      stopped := if previous.Some? && previous != sink then previous else None;
    }

    /** gst_lp_sink_get_sink: the recorded audio or video sink; no other type is
        readable, so the recorded text sink is never returned. */
    method GetSink(t: Option<Kind>) returns (r: Option<Handle>)
      ensures t == Some(Audio) || t == Some(Video) ==> r == RecordedSink(t.value)
      ensures t != Some(Audio) && t != Some(Video) ==> r.None?
    {
      r := None;
      if t == Some(Audio) {
        r := audioSink;
      } else if t == Some(Video) {
        r := videoSink;
      }
    }
  }
}
