# Lightweight playback sink (lpsink), modelled in Dafny

This project models the bookkeeping of `GstLpSink`, the lightweight playback sink in
`gst/playback/gstlpsink.c`. The sink hands out request pads for audio, video and text.
It puts a reverse funnel behind a pad when the stream kind is multi-stream, and always
does so for text.

When a stream's format becomes known, the sink builds a sink chain of the matching kind:
- a chain is a bin holding a queue and a terminal sink, named `abin<n>`, `vbin<n>` or `tbin<n>`;
- the sink appends the chain to its registry `sink_chain_list`;
- it adds the chain's bin to itself and sets the bin to its own target state;
- it connects the chain to the pad, or to the funnel output that announced the stream.

Seeks are routed to the chains' sinks. The READY_TO_NULL transition releases the pads
and tears the chains down.

Files:

- `types.dfy` (module `LpTypes`): the shared vocabulary.
  - Framework objects are opaque `Handle`s.
  - The stream kinds, element states and state-change results.
  - The 32-bit `guint` as `uint32`.
- `decisions.dfy` (module `LpDecisions`): the pure decisions.
  - The split of the `audio-resource` word into the mixer flag and the channel index, with its inverse.
  - The caps-prefix and template-name classifications. `strncmp` is modelled on C strings and proved equal to a prefix test.
  - The mapping of the children's state-change result.
  - The `%d` bin names and their injectivity.
- `chains.dfy` (module `SinkChains`): the `Chain` value and the specification of the registry.
  - What a chain built from a given configuration looks like.
  - The numbering invariant that ties the registry to the three counters.
  - Which sinks a seek reaches and what it returns.
  - What teardown leaves.
- `lpsink.dfy` (module `LpSinkBin`): class `LpSink`, whose fields are those of the C
  object. Its methods update them in place, as the C functions do.
  - The object invariant `Valid()`: the pads are distinct handles already handed out, and
    the registry is numbered by the counters.

Framework calls appear only through their outcomes, which the operations take as
parameters:
- `BuildOracle`: whether `try_element` readied the sink, whether the queue linked to it,
  and the same two answers for the audio fallback fakesink;
- `outcome`: the answer of `gst_element_send_event` per sink;
- `parentResult`: the parent class's state-change result or event result;
- `target`: the sink's target state, read by `activate_chain`.

Each new framework object gets a handle that is not yet in use, drawn from the counter
`nextHandle`.

Where the element's documented intent and the code differ, the model follows the
code:
- **Seek to one sink:** the comment above `gst_lp_sink_send_event` (gstlpsink.c:827-829)
  says a seek should go to a single sink. The loop in `gst_lp_sink_send_event_to_sink`
  sends it to the sink of every chain that has one.

The model also keeps these behaviours of the code:
- **Seek result:** a seek returns the answer of the last send, so an earlier failure is
  overwritten.
- **Teardown and the registry:** teardown leaves every chain in `sink_chain_list`. The
  chain's sink is cleared and its bin set to NULL and removed from the sink; the list
  keeps its entries.
- **Retargeting behind a funnel:** when the audio or video pad sits in front of a reverse
  funnel, reconfiguration still retargets that pad onto the new chain's ghost pad.
- **Releasing the text pad:** releasing the text pad removes it from the element, but
  `text_pad` keeps it. The function only nulls its own argument.
- **Failed fallback:** the audio chain's fallback fakesink is not checked. If it cannot be
  readied or linked, the chain is registered anyway, without a sink or unlinked.
- **Failed state change:** when the children fail a state change, the sink returns
  FAILURE before the READY_TO_NULL teardown runs.
- **Recorded audio sink:** `audio_sink` records the primary sink even when the chain then
  falls back to a fakesink.
- **Text sink:** `text_sink` is recorded, but `gst_lp_sink_get_sink` never returns it.
- **Video resource range:** the `video-resource` property is declared with the range 0..2,
  so a value outside it does not reach the field.

## Model

| member | source | states |
|---|---|---|
| LpDecisions.DecodeAudioResource | gst/playback/gstlpsink.c:355-364 | the mixer flag is set exactly when bit 31 of the resource word is set; the index is below 2^31; flag·2^31 + index is the word |
| LpDecisions.EncodeAudioResource | gst/playback/gstlpsink.c:147-150 | the word a client writes for a route has bit 31 set exactly for the mixer |
| LpDecisions.DecodeEncode | gst/playback/gstlpsink.c:147-150 | decoding the encoded route gives the route back, for every index below 2^31 |
| LpDecisions.EncodeDecode | gst/playback/gstlpsink.c:355-364 | every 32-bit word is the encoding of its decoded route, so the split loses nothing |
| LpDecisions.ClassifyCaps | gst/playback/gstlpsink.c:522-530 | caps starting "video/" give video; "audio/" gives audio; "text/", "application/" or "subpicture/" give text; any other caps give no kind; each in both directions |
| LpDecisions.StrNCmpIsPrefix | gst/playback/gstlpsink.c:712-717 | `strncmp (p, s, strlen (p)) == 0` holds exactly when s starts with p |
| LpDecisions.TemplateKind | gst/playback/gstlpsink.c:712-719 | template names starting "audio_sink", "video_sink" or "text_sink" give that kind and any other name gives none, both directions |
| LpDecisions.MapStateChange | gst/playback/gstlpsink.c:938-961 | the result is FAILURE exactly when the children fail; NO_PREROLL and ASYNC are passed on; otherwise SUCCESS |
| LpDecisions.DecimalInjective | gst/playback/gstlpsink.c:370 | distinct counter values print as distinct `%d` strings |
| LpDecisions.BinNameInjective | gst/playback/gstlpsink.c:370-482 | a bin name `abin<n>`/`vbin<n>`/`tbin<n>` determines both the kind and the counter value |
| SinkChains.QueueLimitsFor | gst/playback/gstlpsink.c:375-491 | only the audio queue keeps the default limits; the video queue holds 3 buffers, 0 bytes and 0 time; the text queue holds 3 buffers, 0 bytes and one second |
| SinkChains.LinkFailureFallback | gst/playback/gstlpsink.c:378-391 | when the queue cannot be linked to a readied sink, only the audio chain switches to a fakesink; video and text keep their sink, unlinked |
| SinkChains.AppendWellNumbered | gst/playback/gstlpsink.c:370-402 | appending a chain numbered with its kind's count keeps the registry numbered and raises only that kind's count, by one |
| SinkChains.BinNamesUnique | gst/playback/gstlpsink.c:370-506 | no two chains of a numbered registry share a bin name |
| SinkChains.RegistryIsNumbering | gst/playback/gstlpsink.c:198-202 | the registry invariant holds exactly when every chain carries the number of earlier chains of its kind and each counter counts the chains of its kind |
| SinkChains.RegistryBinNamesUnique | gst/playback/gstlpsink.c:370-506 | under the registry invariant, no two chains share a bin name and each counter counts its kind's chains |
| SinkChains.RegistryAppend | gst/playback/gstlpsink.c:401-402 | appending a chain numbered with its kind's counter and stepping that counter keeps the invariant |
| SinkChains.RegistryReplace | gst/playback/gstlpsink.c:971-987 | replacing a chain by one of the same kind and number keeps the invariant |
| SinkChains.SinksInOrderMembers | gst/playback/gstlpsink.c:852-871 | a seek reaches a sink exactly when some chain holds it, and reaches none exactly when no chain has a sink |
| SinkChains.SeekWithoutSinks | gst/playback/gstlpsink.c:852-871 | with no sink in any chain the seek reports TRUE |
| SinkChains.SeekResultIsLastSend | gst/playback/gstlpsink.c:857-863 | the seek result is the answer of the last chain that has a sink |
| SinkChains.EarlierFailureOverwritten | gst/playback/gstlpsink.c:857-863 | a failed send followed by a successful one reports success; both sinks are reached, in order |
| SinkChains.TearDownKeepsChains | gst/playback/gstlpsink.c:971-990 | teardown keeps every chain in place with its kind, number, name and bin, leaves no sink, and leaves every bin in NULL |
| SinkChains.TearDownIdempotent | gst/playback/gstlpsink.c:982-986 | tearing the registry down twice is tearing it down once |
| SinkChains.SeekAfterTearDown | gst/playback/gstlpsink.c:852-871 | after teardown a seek reaches no sink and reports TRUE |
| LpSinkBin.LpSink.constructor | gst/playback/gstlpsink.c:175-203 | no pads, funnels, recorded sinks or chains; counters and resources 0; thumbnail mode and multi-stream off |
| LpSinkBin.LpSink.SetThumbnailMode | gst/playback/gstlpsink.c:294-299 | thumbnail mode takes the given value |
| LpSinkBin.LpSink.SetMultipleStream | gst/playback/gstlpsink.c:301-316 | only the type names "audio" and "video" set their flag; the other flag, and both for any other name, keep their value |
| LpSinkBin.LpSink.SetAudioResource | gst/playback/gstlpsink.c:798-800 | the audio resource takes any 32-bit value |
| LpSinkBin.LpSink.SetVideoResource | gst/playback/gstlpsink.c:142-145 | a value in 0..2 is stored; any other value leaves the property as it was |
| LpSinkBin.LpSink.RequestPad | gst/playback/gstlpsink.c:612-695 | an unknown type gives no pad and changes nothing. Otherwise the result is the kind's pad, now exposed, and the other kinds keep their pads and funnels. An existing audio or video pad is handed out again and nothing is created or retargeted. A first multi-stream audio or video request adds one new funnel to the sink's bin and a new pad whose only new target is a new handle (the funnel's sink pad). A first single-stream request gives a new pad with no target, and no funnel or child. A text request adds a new funnel every time; the first one also gives a new text pad onto a new pad, and later ones leave the targets alone |
| LpSinkBin.LpSink.RequestTextPad | gst/playback/gstlpsink.c:672-685 | a new text funnel, the one child added, on every call; the text pad is created once, onto a new pad, and is afterwards handed out again with the targets unchanged; the result is exposed and the audio and video pads and funnels are kept |
| LpSinkBin.LpSink.CreateTextPad | gst/playback/gstlpsink.c:675-683 | the first text request: a new funnel, the one child added, and a new exposed text pad whose only new target is a new handle; the other kinds untouched |
| LpSinkBin.LpSink.AddTextFunnel | gst/playback/gstlpsink.c:675-684 | a later text request: a new funnel, the one child added; the existing text pad is handed out again and exposed; no target changes |
| LpSinkBin.LpSink.NewFunnelPad | gst/playback/gstlpsink.c:631-637 | a new funnel added to the sink's bin, and a new ghost pad whose target, a new handle, is the only change to the targets |
| LpSinkBin.LpSink.CreateStreamPad | gst/playback/gstlpsink.c:629-670 | a first audio or video request: the multi-stream choice between the two branches below, with the whole request effect |
| LpSinkBin.LpSink.CreateFunnelPad | gst/playback/gstlpsink.c:630-640 | one new funnel of the kind, the one child added, and a new exposed pad of the kind whose only new target is a new pad; other kinds untouched |
| LpSinkBin.LpSink.CreateTargetlessPad | gst/playback/gstlpsink.c:641-645 | a new exposed pad of the kind with no target; no funnel, child or target added; other kinds untouched |
| LpSinkBin.LpSink.RequestNewPad | gst/playback/gstlpsink.c:697-727 | a pad is returned exactly when a template is given and its name is known; the request then has the whole effect stated for RequestPad on the template's kind; otherwise nothing changes |
| LpSinkBin.LpSink.ReleasePad | gst/playback/gstlpsink.c:729-758 | the audio or video pad is untargeted, removed and its field cleared; any other pad is only removed; NULL changes nothing |
| LpSinkBin.LpSink.GenAudioChain | gst/playback/gstlpsink.c:336-405 | exactly one chain appended, built from the configuration with the old audio count, fakesink fallback when unlinked; only the audio counter steps, by one; the readied primary sink is recorded as the audio sink |
| LpSinkBin.LpSink.AudioSinkElement | gst/playback/gstlpsink.c:350-391 | the configured sink, recorded when readied; when not readied or not linked, a fakesink in its place, which is never the recorded audio sink unless neither exists; all new handles |
| LpSinkBin.LpSink.FallbackSink | gst/playback/gstlpsink.c:384-391 | one new fakesink, kept exactly when it can be readied and linked exactly when it is kept and the queue links to it |
| LpSinkBin.LpSink.GenVideoChain | gst/playback/gstlpsink.c:407-456 | exactly one chain appended, a vdecsink told the video resource, queue limits 3/0/0; only the video counter steps; the readied sink is recorded |
| LpSinkBin.LpSink.GenTextChain | gst/playback/gstlpsink.c:458-509 | exactly one chain appended, an appsink, queue limits 3/0/1s; only the text counter steps; the readied sink is recorded |
| LpSinkBin.LpSink.GenChain | gst/playback/gstlpsink.c:565-592 | the chain builder of the requested kind, with the same guarantees |
| LpSinkBin.LpSink.Register | gst/playback/gstlpsink.c:370-402 | the chain is appended and its kind's counter steps by one, keeping the registry invariant |
| LpSinkBin.LpSink.Reconfigure | gst/playback/gstlpsink.c:559-601 | exactly one new chain of the kind, whose bin is new (no earlier chain's and not yet a child) and whose sink, if any, is no earlier chain's, in the sink's bin and set to the target state; the direct pad retargeted onto it, or for text with a funnel the announced output linked to it; TRUE |
| LpSinkBin.LpSink.Install | gst/playback/gstlpsink.c:565-597 | the registered chain is added to the sink, set to the target state and connected, the registry invariant kept |
| LpSinkBin.LpSink.Connect | gst/playback/gstlpsink.c:574-597 | the audio or video pad, if any, targets the chain; a text stream behind a funnel is linked to it; nothing else changes |
| LpSinkBin.LpSink.AddChain | gst/playback/gstlpsink.c:874-889 | the chain's bin enters or leaves the sink's bin |
| LpSinkBin.LpSink.ActivateChain | gst/playback/gstlpsink.c:901-920 | only the chain's state changes, to the target state or NULL, keeping the invariant |
| LpSinkBin.LpSink.SrcPadAdded | gst/playback/gstlpsink.c:512-533 | a recognised caps kind gets exactly one new chain linked from the announced output; unrecognised caps change nothing |
| LpSinkBin.LpSink.CapsNotify | gst/playback/gstlpsink.c:535-557 | caps on the audio (else video) pad while it has no target build exactly one chain of that kind and retarget the pad onto it; without caps, on another pad or on a targeted pad nothing changes; afterwards the pad has a target |
| LpSinkBin.LpSink.SendEventToSink | gst/playback/gstlpsink.c:849-872 | the event reaches each chain's sink in list order, and the result is that of the last send, TRUE with none |
| LpSinkBin.LpSink.SendEvent | gst/playback/gstlpsink.c:830-847 | a seek is sent by the element's own code to the chains' sinks, in list order, with the last send's answer; any other event is handed to the parent bin, whose answer is returned; `delivered` lists only the sinks the element's own code sends to, so it is empty then |
| LpSinkBin.LpSink.ChangeState | gst/playback/gstlpsink.c:922-1003 | the result maps the children's; on failure or any transition other than READY_TO_NULL nothing changes; READY_TO_NULL tears down |
| LpSinkBin.LpSink.TearDown | gst/playback/gstlpsink.c:967-991 | audio and video pads released and cleared, text pad removed but kept, every chain torn down in place, every chain's bin out of the sink |
| LpSinkBin.LpSink.TearDownChains | gst/playback/gstlpsink.c:971-990 | in list order every chain's bin goes to NULL and leaves the sink and its sink is cleared; the chains stay registered |
| LpSinkBin.LpSink.SetSink | gst/playback/gstlpsink.c:1005-1038 | the audio or video sink takes the new value, any element, old or new; a handle not yet handed out is reserved, so later objects differ from it; a different previous sink is stopped; other types change nothing; the invariant is kept |
| LpSinkBin.LpSink.GetSink | gst/playback/gstlpsink.c:1040-1063 | the recorded audio or video sink; nothing for any other type, text included |

## Left out

- Locking (`GST_LP_SINK_LOCK`, `GST_OBJECT_LOCK`): the model is sequential.
- Reference counting, `free_chain`, dispose, finalize and class_init: these are memory management and GObject plumbing.
- `gst_lp_sink_new_sample`: it only pulls a sample and posts a bus message, which are calls into the framework.
- SendEvent: a non-seek event goes to the parent bin's `send_event` (gstlpsink.c:843), which sends upstream events to its sink children and downstream events to its source children; that fan-out is not modelled, and `parentResult` stands for its answer.
- TearDownIdempotent: covers only the modelled fields. `free_chain` (gstlpsink.c:986, body 891-899) drops the reference to `chain->bin` while the chain stays in `sink_chain_list`, so a second READY_TO_NULL reaches bins that may already be freed; reference counts are not modelled, so the lemma cannot show this.
- Decimal: the counters `nb_audio_bin`, `nb_video_bin` and `nb_text_bin` are C `int`s, printed with `%d` and post-incremented (gstlpsink.c:370, 430, 482). The model's counters are unbounded naturals and never wrap.
- DecimalInjective: as for Decimal, it speaks of unbounded counter values; in the source a counter that wraps after 2^31 builds of a kind repeats (or goes negative).
- BinNamesUnique: bin names are unique only while each kind's counter stays below 2^31; the model does not capture the `int` overflow past that.
- RegistryBinNamesUnique: the same bound as BinNamesUnique; uniqueness holds in the source only below 2^31 builds of a kind.
- GenTextChain: when `try_element` cannot ready the appsink (gstlpsink.c:473), it has already released the element (319-334), yet lines 475-477 still set a property on it and connect a signal to it. The model shows this as a chain without a sink; the use of a freed element is outside it, as reference counts are.
- Signal connections (`src-pad-added`, `notify::caps`, `new-sample`): the callbacks are operations the caller invokes.
- `gst_lp_sink_release_request_pad`: a one-line wrapper around `ReleasePad`.
- The property plumbing itself (`set_property`/`get_property`): it is modelled through the setters, `SetSink` and `GetSink` it dispatches to.
- Pad activation: it is folded into exposing and removing the pad.
- The text funnel's switch to PAUSED: it is a framework state change with no effect on the sink's fields.
- The contents of the chain bin: the sink and queue being added to the bin, the "silent" flag and the ghost pad being added. Only the chain's fields are modelled.
- The `gst_bin_remove` of the chain's sink during teardown: it is internal to the chain bin.
- `try_element`: its answer is the `sinkReady` / `fallbackReady` oracle.
- The "mixer" and "index" values set on the audio sink: the chain's resource records the route the primary sink was asked for. In thumbnail mode that sink is a fakesink, which has no such properties, so the request has no effect; the fallback fakesink is given no properties. Either way the chain still records the requested route.
- `sink_name` in `gst_lp_sink_request_pad`: it is undeclared and never read.
- The conflict-marker lines 285-292: the intact second copy of `gst_lp_sink_set_thumbnail_mode` is modelled.
- The order in which the framework numbers objects is not modelled: each new object is only known to be new.
- An unknown type in `gst_lp_sink_request_pad`: the source passes a NULL pad to `gst_pad_set_active` and `gst_element_add_pad`, which refuse it. The model makes no change.
- The `text_pad` and `text_sink` fields, which `gst_lp_sink_init` does not set: the model starts them as NULL, as the zero-filled instance memory does.
- Reconfigure: a text stream behind a funnel is linked only when the announcing output is given. The source links a NULL output too, which the framework refuses; this arises only when a text reconfiguration is not triggered by a funnel.
- tests/examples/dynappsrc/dynappsrc-stream.c and tests/subtitle-test.c: example applications, not part of the sink.
