/** The pure decisions of the sink: how the audio resource word is split, how caps strings
    and pad-template names select a stream kind, how the children's state-change result
    becomes the sink's, and how chain bins are named. */
module LpDecisions {
  import opened LpTypes

  // ---------------------------------------------------------------------------------
  // Audio resource word

  /** Bit 31 of `audio-resource`: set selects the mixer, clear selects an audio decoder. */
  const MixerBit: int := 0x8000_0000

  /** What the audio sink is told: the "mixer" flag and the "index" (channel) property. */
  datatype AudioRoute = AudioRoute(mixer: bool, index: int)

  /** Splits the resource word as the masks `1 << 31` and `~(1 << 31)` do: on a 32-bit
      word, bit 31 is the quotient by 2^31 and the other bits are the remainder. */
  function DecodeAudioResource(r: uint32): (d: AudioRoute)
    ensures d.mixer <==> r as int >= MixerBit
    ensures 0 <= d.index < MixerBit
    ensures (if d.mixer then MixerBit else 0) + d.index == r as int
  {
    AudioRoute((r as int) / MixerBit == 1, (r as int) % MixerBit)
  }

  /** The resource word a client writes to request a given route. */
  function EncodeAudioResource(d: AudioRoute): (r: uint32)
    requires 0 <= d.index < MixerBit
    ensures r as int >= MixerBit <==> d.mixer
  {
    ((if d.mixer then MixerBit else 0) + d.index) as uint32
  }

  lemma DecodeEncode(d: AudioRoute)
    requires 0 <= d.index < MixerBit
    ensures DecodeAudioResource(EncodeAudioResource(d)) == d
  {
  }

  lemma EncodeDecode(r: uint32)
    ensures EncodeAudioResource(DecodeAudioResource(r)) == r
  {
  }

  // ---------------------------------------------------------------------------------
  // Caps strings and template names

  /** `g_str_has_prefix (s, p)`. */
  predicate HasPrefix(s: string, p: string) {
    p <= s
  }

  /** A prefix fixes the characters it covers, so prefixes that differ at some position
      exclude each other. */
  lemma PrefixAt(s: string, p: string, i: nat)
    requires i < |p|
    ensures HasPrefix(s, p) ==> i < |s| && s[i] == p[i]
  {
  }

  /** The stream kind a newly announced funnel output carries, read from the start of
      its caps string; `None` means the stream is ignored. */
  function ClassifyCaps(caps: string): (k: Option<Kind>)
    ensures k == Some(Video) <==> HasPrefix(caps, "video/")
    ensures k == Some(Audio) <==> HasPrefix(caps, "audio/")
    ensures k == Some(Text) <==>
      HasPrefix(caps, "text/") || HasPrefix(caps, "application/") || HasPrefix(caps, "subpicture/")
    ensures k == None <==>
      !HasPrefix(caps, "video/") && !HasPrefix(caps, "audio/") && !HasPrefix(caps, "text/")
      && !HasPrefix(caps, "application/") && !HasPrefix(caps, "subpicture/")
  {
    PrefixAt(caps, "video/", 0);
    PrefixAt(caps, "audio/", 0);
    PrefixAt(caps, "audio/", 1);
    PrefixAt(caps, "text/", 0);
    PrefixAt(caps, "application/", 0);
    PrefixAt(caps, "application/", 1);
    PrefixAt(caps, "subpicture/", 0);
    if HasPrefix(caps, "video/") then
      Some(Video)
    else if HasPrefix(caps, "audio/") then
      Some(Audio)
    else if HasPrefix(caps, "text/") || HasPrefix(caps, "application/")
         || HasPrefix(caps, "subpicture/") then
      Some(Text)
    else
      None
  }

  /** `strncmp (a, b, n) == 0` for C strings, each modelled by its characters before the
      terminating NUL: the end of a string compares like a NUL character. */
  function StrNCmpZero(a: string, b: string, n: nat): bool
    decreases n
  {
    if n == 0 then true
    else if a == [] || b == [] then a == b
    else a[0] == b[0] && StrNCmpZero(a[1..], b[1..], n - 1)
  }

  /** Comparing the first |p| characters of p and s is a prefix test. */
  lemma {:induction false} StrNCmpIsPrefix(p: string, s: string)
    ensures StrNCmpZero(p, s, |p|) <==> HasPrefix(s, p)
    decreases |p|
  {
    if p != [] && s != [] {
      StrNCmpIsPrefix(p[1..], s[1..]);
      if HasPrefix(s, p) {
        assert HasPrefix(s[1..], p[1..]);
      }
      if HasPrefix(s[1..], p[1..]) && p[0] == s[0] {
        assert s[..|p|] == [s[0]] + s[1..][..|p| - 1];
      }
    }
  }

  /** The stream kind of a request-pad template: its name must start with "audio_sink",
      "video_sink" or "text_sink"; `None` is the unknown-template case. */
  function TemplateKind(name: string): (k: Option<Kind>)
    ensures k == Some(Audio) <==> HasPrefix(name, "audio_sink")
    ensures k == Some(Video) <==> HasPrefix(name, "video_sink")
    ensures k == Some(Text) <==> HasPrefix(name, "text_sink")
    ensures k == None <==>
      !HasPrefix(name, "audio_sink") && !HasPrefix(name, "video_sink") && !HasPrefix(name, "text_sink")
  {
    StrNCmpIsPrefix("audio_sink", name);
    StrNCmpIsPrefix("video_sink", name);
    StrNCmpIsPrefix("text_sink", name);
    PrefixAt(name, "audio_sink", 0);
    PrefixAt(name, "video_sink", 0);
    PrefixAt(name, "text_sink", 0);
    if StrNCmpZero("audio_sink", name, 10) then
      Some(Audio)
    else if StrNCmpZero("video_sink", name, 10) then
      Some(Video)
    else if StrNCmpZero("text_sink", name, 9) then
      Some(Text)
    else
      None
  }

  // ---------------------------------------------------------------------------------
  // State-change result

  /** The sink's own result once its children (the parent class) have answered `bret`. */
  function MapStateChange(bret: StateChangeReturn): (ret: StateChangeReturn)
    ensures ret == Failure <==> bret == Failure
    ensures bret == Async || bret == NoPreroll ==> ret == bret
    ensures bret == Success ==> ret == Success
  {
    match bret
    case Failure => Failure
    case NoPreroll => bret
    case Async => bret
    case Success => Success
  }

  // ---------------------------------------------------------------------------------
  // Chain bin names: "abin%d", "vbin%d", "tbin%d"

  function DigitChar(d: nat): (c: char)
    requires d < 10
    ensures '0' <= c <= '9'
  {
    ('0' as int + d) as char
  }

  /** The `%d` rendering of a non-negative counter. */
  function Decimal(n: nat): (s: string)
    ensures |s| >= 1
    ensures forall i :: 0 <= i < |s| ==> '0' <= s[i] <= '9'
    decreases n
  {
    if n < 10 then [DigitChar(n)] else Decimal(n / 10) + [DigitChar(n % 10)]
  }

  lemma DecimalOneDigit(n: nat)
    ensures |Decimal(n)| == 1 <==> n < 10
  {
  }

  /** Distinct counter values give distinct names. */
  lemma {:induction false} DecimalInjective(n: nat, m: nat)
    requires Decimal(n) == Decimal(m)
    ensures n == m
    decreases n
  {
    DecimalOneDigit(n);
    DecimalOneDigit(m);
    var s := Decimal(n);
    if n < 10 {
      assert s[0] == DigitChar(n) && s[0] == DigitChar(m);
    } else {
      assert s == Decimal(n / 10) + [DigitChar(n % 10)];
      assert s == Decimal(m / 10) + [DigitChar(m % 10)];
      assert s[..|s| - 1] == Decimal(n / 10) && s[..|s| - 1] == Decimal(m / 10);
      assert DigitChar(n % 10) == s[|s| - 1] == DigitChar(m % 10);
      DecimalInjective(n / 10, m / 10);
    }
  }

  function BinPrefix(k: Kind): (p: string)
    ensures |p| == 4
  {
    match k
    case Audio => "abin"
    case Video => "vbin"
    case Text => "tbin"
  }

  /** The name of the bin of the chain that got counter value `n` for its kind. */
  function BinName(k: Kind, n: nat): (name: string)
  {
    BinPrefix(k) + Decimal(n)
  }

  /** Bin names never repeat: the kind and the counter value can be read back. */
  lemma BinNameInjective(k1: Kind, n1: nat, k2: Kind, n2: nat)
    ensures BinName(k1, n1) == BinName(k2, n2) ==> k1 == k2 && n1 == n2
  {
    var s := BinName(k1, n1);
    if s == BinName(k2, n2) {
      assert s[0] == BinPrefix(k1)[0] == BinPrefix(k2)[0];
      assert s[4..] == Decimal(n1) && s[4..] == Decimal(n2);
      DecimalInjective(n1, n2);
    }
  }
}
