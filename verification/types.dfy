/** Vocabulary shared by the model of the lightweight playback sink (lpsink). */
module LpTypes {

  datatype Option<+T> = None | Some(value: T)

  /** An opaque reference to a framework object: a pad, an element or a bin.
      Each object the sink creates gets a handle nobody has used before. */
  type Handle = nat

  /** The C `guint` of the resource properties. */
  newtype uint32 = x: int | 0 <= x < 0x1_0000_0000

  /** The stream kinds of GstLpSinkType; an unknown type value is modelled as `None`
      wherever the source accepts one. */
  datatype Kind = Audio | Video | Text

  /** Element states; a chain's bin is set to one of them. */
  datatype State = Null | Ready | Paused | Playing

  /** GstStateChangeReturn. */
  datatype StateChangeReturn = Failure | Success | Async | NoPreroll

  /** GstStateChange: the six transitions between adjacent states. */
  datatype Transition =
    | NullToReady | ReadyToPaused | PausedToPlaying
    | PlayingToPaused | PausedToReady | ReadyToNull

  /** Only seek events are routed by the sink itself. */
  datatype EventType = Seek | NonSeek

  /** The handles held by an optional reference, as a set. */
  function HandlesOf(h: Option<Handle>): (s: set<Handle>)
    ensures h.None? <==> s == {}
    ensures forall x :: x in s <==> h == Some(x)
  {
    if h.Some? then {h.value} else {}
  }
}
