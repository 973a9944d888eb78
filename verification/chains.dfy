/** Sink chains (GstSinkChain) and the specification of the chain registry
    `sink_chain_list`: how a chain is built from the sink's configuration, how chains are
    numbered, which sinks a seek reaches and what it returns, and what teardown leaves. */
module SinkChains {
  import opened LpTypes
  import opened LpDecisions

  /** The element factory behind a chain's terminal sink. */
  datatype SinkFactory = AdecSink | VdecSink | AppSink | FakeSink

  /** The hardware resource properties the chain's sink was asked for when it was created.
      In thumbnail mode the audio sink is a fakesink, which has no "mixer" or "index"
      property, and a fallback fakesink is given none; the route is still the one asked
      for. */
  datatype SinkResource =
    | MixerRoute(route: AudioRoute)   // "mixer" and "index" of the audio sink
    | VdecChannel(channel: uint32)    // "vdec-ch" of the video sink
    | NoResource

  /** The queue's size limits; `FrameworkDefaults` when the chain leaves them alone. */
  datatype QueueLimits =
    | FrameworkDefaults
    | Limits(maxBuffers: nat, maxBytes: nat, maxTimeNs: nat)

  /** GST_SECOND, in nanoseconds. */
  const SecondNs: nat := 1_000_000_000

  /** What the framework answers while a chain is built: whether the sink element could
      be made and brought to READY (`try_element`), whether the queue links to it, and the
      same two answers for the fakesink the audio chain falls back to. */
  datatype BuildOracle = BuildOracle(
    sinkReady: bool, linkOk: bool, fallbackReady: bool, fallbackLinkOk: bool)

  /** One chain: a bin holding a queue and a terminal sink, entered through `ghostPad`. */
  datatype Chain = Chain(
    kind: Kind,
    index: nat,                 // the kind's counter value when the chain was built
    bin: Handle,
    queue: Handle,
    queueLimits: QueueLimits,
    factory: SinkFactory,
    resource: SinkResource,     // the resource the first sink element was asked for
    sink: Option<Handle>,       // chain->sink, NULL when no sink could be readied
    linked: bool,               // the queue's src pad is linked to the sink
    ghostPad: Handle,           // chain->bin_ghostpad, the bin's "sink" ghost pad
    state: State)               // the state the bin was last set to
  {
    /** The bin's name, "abin<n>", "vbin<n>" or "tbin<n>", fixed by the kind and number. */
    function BinNameOf(): string {
      BinName(kind, index)
    }
  }

  // ---------------------------------------------------------------------------------
  // Building a chain

  function QueueLimitsFor(k: Kind): (q: QueueLimits)
    ensures k == Audio <==> q == FrameworkDefaults
    ensures k == Video ==> q == Limits(3, 0, 0)
    ensures k == Text ==> q == Limits(3, 0, SecondNs)
  {
    match k
    case Audio => FrameworkDefaults
    case Video => Limits(3, 0, 0)
    case Text => Limits(3, 0, SecondNs)
  }

  /** The audio chain replaces its sink with a fakesink when the queue cannot be linked
      to it; linking to a sink that was never readied (NULL) fails as well. */
  predicate AudioFallback(o: BuildOracle) {
    !(o.sinkReady && o.linkOk)
  }

  /** What a chain of kind `k` built with counter value `index` looks like, given the
      sink's configuration and the framework's answers (the bin's state aside). */
  predicate BuiltFrom(c: Chain, k: Kind, index: nat, thumbnail: bool,
                      audioResource: uint32, videoResource: uint32, o: BuildOracle)
  {
    && c.kind == k
    && c.index == index
    && c.queueLimits == QueueLimitsFor(k)
    && match k
       case Audio =>
         && c.resource == MixerRoute(DecodeAudioResource(audioResource))
         && if AudioFallback(o) then
              && c.factory == FakeSink
              && (c.sink.Some? <==> o.fallbackReady)
              && (c.linked <==> o.fallbackReady && o.fallbackLinkOk)
            else
              && c.factory == (if thumbnail then FakeSink else AdecSink)
              && c.sink.Some? && c.linked
       case Video =>
         && c.resource == VdecChannel(videoResource)
         && c.factory == VdecSink
         && (c.sink.Some? <==> o.sinkReady)
         && (c.linked <==> o.sinkReady && o.linkOk)
       case Text =>
         && c.resource == NoResource
         && c.factory == AppSink
         && (c.sink.Some? <==> o.sinkReady)
         && (c.linked <==> o.sinkReady && o.linkOk)
  }

  /** A link failure costs the audio chain its primary sink, which a fakesink replaces;
      the video and text chains keep their sink, unlinked. */
  lemma LinkFailureFallback(c: Chain, k: Kind, index: nat, thumbnail: bool,
                            ar: uint32, vr: uint32, o: BuildOracle)
    requires BuiltFrom(c, k, index, thumbnail, ar, vr, o)
    requires o.sinkReady && !o.linkOk
    ensures k == Audio ==> c.factory == FakeSink && (c.sink.Some? <==> o.fallbackReady)
    ensures k != Audio ==> c.sink.Some? && !c.linked && c.factory != FakeSink
  {
  }

  // ---------------------------------------------------------------------------------
  // Numbering of the registry

  /** The number of chains of kind `k` in `cs`. */
  function CountKind(cs: seq<Chain>, k: Kind): (n: nat)
    ensures n <= |cs|
    decreases |cs|
  {
    if cs == [] then 0
    else CountKind(cs[..|cs| - 1], k) + (if cs[|cs| - 1].kind == k then 1 else 0)
  }

  /** Every chain carries the number of earlier chains of its kind. */
  ghost predicate WellNumbered(cs: seq<Chain>)
    decreases |cs|
  {
    cs == [] ||
    var last := cs[|cs| - 1];
    && WellNumbered(cs[..|cs| - 1])
    && last.index == CountKind(cs[..|cs| - 1], last.kind)
  }

  /** The numbering of a single chain of a numbered registry. */
  lemma {:induction false} WellNumberedAt(cs: seq<Chain>, i: nat)
    requires WellNumbered(cs) && i < |cs|
    ensures cs[i].index == CountKind(cs[..i], cs[i].kind)
    decreases |cs|
  {
    if i < |cs| - 1 {
      var init := cs[..|cs| - 1];
      WellNumberedAt(init, i);
      assert init[..i] == cs[..i] && init[i] == cs[i];
    }
  }

  /** Appending a chain numbered after the current count keeps the registry numbered and
      raises only that kind's count, by one. */
  lemma AppendWellNumbered(cs: seq<Chain>, c: Chain)
    requires WellNumbered(cs)
    requires c.index == CountKind(cs, c.kind)
    ensures WellNumbered(cs + [c])
    ensures forall k :: CountKind(cs + [c], k) == CountKind(cs, k) + (if c.kind == k then 1 else 0)
  {
  }

  /** Chain i of kind k is counted before any later chain j. */
  lemma {:induction false} CountKindGrows(cs: seq<Chain>, i: nat, j: nat)
    requires i < j <= |cs|
    ensures CountKind(cs[..j], cs[i].kind) >= CountKind(cs[..i], cs[i].kind) + 1
    decreases j
  {
    assert cs[..j][..j - 1] == cs[..j - 1];
    if j == i + 1 {
      assert cs[..j][j - 1] == cs[i];
    } else {
      CountKindGrows(cs, i, j - 1);
    }
  }

  /** No two chains of a numbered registry share a bin name. */
  lemma BinNamesUnique(cs: seq<Chain>, i: nat, j: nat)
    requires WellNumbered(cs)
    requires i < j < |cs|
    ensures cs[i].BinNameOf() != cs[j].BinNameOf()
  {
    WellNumberedAt(cs, i);
    WellNumberedAt(cs, j);
    BinNameInjective(cs[i].kind, cs[i].index, cs[j].kind, cs[j].index);
    if cs[i].kind == cs[j].kind {
      CountKindGrows(cs, i, j);
    }
  }

  /** The registry invariant for the first `i` chains of `cs`, with `a`, `v` and `t` the
      values of `nb_audio_bin`, `nb_video_bin` and `nb_text_bin`: the chains were appended,
      from an empty list and zero counters, each numbered with the counter of its kind,
      which then stepped. It walks the list by position, carrying the counters, where
      WellNumbered and CountKind cut it into prefixes. */
  ghost predicate NumberedUpTo(cs: seq<Chain>, i: nat, a: nat, v: nat, t: nat)
    requires i <= |cs|
    decreases i
  {
    if i == 0 then a == 0 && v == 0 && t == 0
    else
      var c := cs[i - 1];
      match c.kind
      case Audio => a > 0 && c.index == a - 1 && NumberedUpTo(cs, i - 1, a - 1, v, t)
      case Video => v > 0 && c.index == v - 1 && NumberedUpTo(cs, i - 1, a, v - 1, t)
      case Text => t > 0 && c.index == t - 1 && NumberedUpTo(cs, i - 1, a, v, t - 1)
  }

  /** The registry invariant: the whole list with the three counters. */
  ghost predicate Registry(cs: seq<Chain>, a: nat, v: nat, t: nat) {
    NumberedUpTo(cs, |cs|, a, v, t)
  }

  /** The invariant on a prefix reads the kinds and numbers of the chains in it alone. */
  lemma {:induction false} NumberedUpToSameKeys(cs: seq<Chain>, ds: seq<Chain>, i: nat,
                                                a: nat, v: nat, t: nat)
    requires i <= |cs| && i <= |ds|
    requires forall j :: 0 <= j < i ==> cs[j].kind == ds[j].kind && cs[j].index == ds[j].index
    ensures NumberedUpTo(cs, i, a, v, t) <==> NumberedUpTo(ds, i, a, v, t)
    decreases i
  {
    if i > 0 {
      match cs[i - 1].kind
      case Audio => if a > 0 { NumberedUpToSameKeys(cs, ds, i - 1, a - 1, v, t); }
      case Video => if v > 0 { NumberedUpToSameKeys(cs, ds, i - 1, a, v - 1, t); }
      case Text => if t > 0 { NumberedUpToSameKeys(cs, ds, i - 1, a, v, t - 1); }
    }
  }

  /** The registry invariant says exactly that the list is numbered and that the counters
      count the chains of their kind. */
  lemma {:induction false} RegistryIsNumbering(cs: seq<Chain>, a: nat, v: nat, t: nat)
    ensures Registry(cs, a, v, t) <==>
      && WellNumbered(cs)
      && a == CountKind(cs, Audio) && v == CountKind(cs, Video) && t == CountKind(cs, Text)
    decreases |cs|
  {
    if cs != [] {
      var c := cs[|cs| - 1];
      var init := cs[..|cs| - 1];
      match c.kind
      case Audio =>
        if a > 0 {
          RegistryIsNumbering(init, a - 1, v, t);
          NumberedUpToSameKeys(cs, init, |init|, a - 1, v, t);
        }
      case Video =>
        if v > 0 {
          RegistryIsNumbering(init, a, v - 1, t);
          NumberedUpToSameKeys(cs, init, |init|, a, v - 1, t);
        }
      case Text =>
        if t > 0 {
          RegistryIsNumbering(init, a, v, t - 1);
          NumberedUpToSameKeys(cs, init, |init|, a, v, t - 1);
        }
    }
  }

  /** Under the registry invariant no two chains share a bin name, and each counter is
      the number of chains of its kind. */
  lemma RegistryBinNamesUnique(cs: seq<Chain>, a: nat, v: nat, t: nat, i: nat, j: nat)
    requires Registry(cs, a, v, t)
    requires i < j < |cs|
    ensures cs[i].BinNameOf() != cs[j].BinNameOf()
    ensures a == CountKind(cs, Audio) && v == CountKind(cs, Video) && t == CountKind(cs, Text)
  {
    RegistryIsNumbering(cs, a, v, t);
    BinNamesUnique(cs, i, j);
  }

  /** Appending a chain numbered with its kind's counter, and stepping that counter, keeps
      the registry invariant. */
  lemma RegistryAppend(cs: seq<Chain>, a: nat, v: nat, t: nat, c: Chain)
    requires Registry(cs, a, v, t)
    requires c.index == (match c.kind case Audio => a case Video => v case Text => t)
    ensures Registry(cs + [c], a + Step(c.kind, Audio), v + Step(c.kind, Video),
                     t + Step(c.kind, Text))
  {
    NumberedUpToSameKeys(cs, cs + [c], |cs|, a, v, t);
  }

  /** 1 for the counter of the kind that steps, 0 for the others. */
  function Step(k: Kind, j: Kind): nat {
    if k == j then 1 else 0
  }

  /** The registry invariant depends on the kinds and numbers of the chains alone. */
  lemma RegistrySameKeys(cs: seq<Chain>, ds: seq<Chain>, a: nat, v: nat, t: nat)
    requires Registry(cs, a, v, t)
    requires |cs| == |ds|
    requires forall i :: 0 <= i < |cs| ==> cs[i].kind == ds[i].kind && cs[i].index == ds[i].index
    ensures Registry(ds, a, v, t)
  {
    NumberedUpToSameKeys(cs, ds, |cs|, a, v, t);
  }

  /** Replacing one chain by one of the same kind and number (its bin set to another
      state, its sink cleared) keeps the registry invariant. */
  lemma RegistryReplace(cs: seq<Chain>, a: nat, v: nat, t: nat, i: nat, d: Chain)
    requires Registry(cs, a, v, t) && i < |cs|
    requires d.kind == cs[i].kind && d.index == cs[i].index
    ensures Registry(cs[i := d], a, v, t)
  {
    RegistrySameKeys(cs, cs[i := d], a, v, t);
  }

  // ---------------------------------------------------------------------------------
  // Seek routing

  /** The sinks a seek is sent to: each chain's non-NULL sink, in list order. */
  function SinksInOrder(cs: seq<Chain>): (hs: seq<Handle>)
    ensures |hs| <= |cs|
    decreases |cs|
  {
    if cs == [] then []
    else SinksInOrder(cs[..|cs| - 1])
         + (if cs[|cs| - 1].sink.Some? then [cs[|cs| - 1].sink.value] else [])
  }

  /** What the seek returns: TRUE when no chain has a sink, and otherwise the answer of the
      last send, whatever the earlier sends answered. */
  function SeekResult(cs: seq<Chain>, outcome: Handle -> bool): bool
    decreases |cs|
  {
    if cs == [] then true
    else if cs[|cs| - 1].sink.Some? then outcome(cs[|cs| - 1].sink.value)
    else SeekResult(cs[..|cs| - 1], outcome)
  }

  /** A seek reaches a sink exactly when some chain holds it, and reaches nothing exactly
      when no chain has a sink. */
  lemma {:induction false} SinksInOrderMembers(cs: seq<Chain>)
    ensures forall h :: h in SinksInOrder(cs) <==> exists i :: 0 <= i < |cs| && cs[i].sink == Some(h)
    ensures SinksInOrder(cs) == [] <==> forall i :: 0 <= i < |cs| ==> cs[i].sink.None?
    decreases |cs|
  {
    if cs != [] {
      var init := cs[..|cs| - 1];
      SinksInOrderMembers(init);
      assert forall i :: 0 <= i < |init| ==> init[i] == cs[i];
      forall h | (exists i :: 0 <= i < |cs| && cs[i].sink == Some(h))
        ensures h in SinksInOrder(cs)
      {
        var i :| 0 <= i < |cs| && cs[i].sink == Some(h);
        if i < |init| {
          assert init[i].sink == Some(h);
        }
      }
    }
  }

  /** With no sink in any chain the seek reports TRUE. */
  lemma {:induction false} SeekWithoutSinks(cs: seq<Chain>, outcome: Handle -> bool)
    requires forall i :: 0 <= i < |cs| ==> cs[i].sink.None?
    ensures SeekResult(cs, outcome)
    decreases |cs|
  {
    if cs != [] {
      SeekWithoutSinks(cs[..|cs| - 1], outcome);
    }
  }

  /** The reference reading of the seek result: with a sink somewhere, it is the outcome
      for the sink of the last chain that has one. */
  lemma {:induction false} SeekResultIsLastSend(cs: seq<Chain>, outcome: Handle -> bool, j: nat)
    requires j < |cs| && cs[j].sink.Some?
    requires forall i :: j < i < |cs| ==> cs[i].sink.None?
    ensures SeekResult(cs, outcome) == outcome(cs[j].sink.value)
    decreases |cs|
  {
    if j < |cs| - 1 {
      var init := cs[..|cs| - 1];
      assert init[j] == cs[j];
      SeekResultIsLastSend(init, outcome, j);
    }
  }

  /** An earlier failure does not show: the last send decides. */
  lemma EarlierFailureOverwritten(c1: Chain, c2: Chain, outcome: Handle -> bool)
    requires c1.sink.Some? && c2.sink.Some?
    requires !outcome(c1.sink.value) && outcome(c2.sink.value)
    ensures SeekResult([c1, c2], outcome)
    ensures SinksInOrder([c1, c2]) == [c1.sink.value, c2.sink.value]
  {
  }

  // ---------------------------------------------------------------------------------
  // Teardown on READY_TO_NULL

  /** A chain after teardown: bin set to NULL and `chain->sink` cleared. */
  function TornDown(c: Chain): Chain {
    c.(sink := None, state := Null)
  }

  function TearDownAll(cs: seq<Chain>): (ds: seq<Chain>)
    ensures |ds| == |cs|
  {
    seq(|cs|, i requires 0 <= i < |cs| => TornDown(cs[i]))
  }

  /** The bins of the first `n` chains of `cs`. */
  function BinsUpTo(cs: seq<Chain>, n: nat): set<Handle>
    requires n <= |cs|
  {
    set i | 0 <= i < n :: cs[i].bin
  }

  /** The bins of the chains in `cs`. */
  function BinsOf(cs: seq<Chain>): set<Handle> {
    BinsUpTo(cs, |cs|)
  }

  /** Teardown keeps every chain in place, with its kind, number, name and bin, and leaves
      none with a sink. */
  lemma TearDownKeepsChains(cs: seq<Chain>)
    ensures forall i :: 0 <= i < |cs| ==>
      && TearDownAll(cs)[i].kind == cs[i].kind
      && TearDownAll(cs)[i].index == cs[i].index
      && TearDownAll(cs)[i].BinNameOf() == cs[i].BinNameOf()
      && TearDownAll(cs)[i].bin == cs[i].bin
      && TearDownAll(cs)[i].sink.None?
      && TearDownAll(cs)[i].state == Null
    ensures BinsOf(TearDownAll(cs)) == BinsOf(cs)
  {
  }

  /** Tearing down twice is tearing down once. */
  lemma TearDownIdempotent(cs: seq<Chain>)
    ensures TearDownAll(TearDownAll(cs)) == TearDownAll(cs)
  {
  }

  /** After teardown a seek reaches no sink and reports TRUE. */
  lemma SeekAfterTearDown(cs: seq<Chain>, outcome: Handle -> bool)
    ensures SinksInOrder(TearDownAll(cs)) == []
    ensures SeekResult(TearDownAll(cs), outcome)
  {
    SinksInOrderMembers(TearDownAll(cs));
    SeekWithoutSinks(TearDownAll(cs), outcome);
  }
}
