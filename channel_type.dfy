/** The configurable announcement channel kinds (`ChannelType`). */
module ChannelTypes {
  import opened Wrappers

  /** Exactly two kinds of announcement channel. */
  datatype ChannelType = Birthday | Event

  /** The enum member's value: the JSON key of that channel in the server
      store, and the suffix of the `Server` setter that sets it. */
  function Value(k: ChannelType): string {
    match k
    case Birthday => "birthday_channel"
    case Event => "event_channel"
  }

  /** `ChannelType(value)`: look an enum member up by its value. */
  function FromValue(v: string): (r: Option<ChannelType>)
    ensures r.Some? ==> Value(r.value) == v
    ensures r.None? <==> forall k :: Value(k) != v
  {
    if v == "birthday_channel" then Some(Birthday)
    else if v == "event_channel" then Some(Event)
    else None
  }

  /** Looking a member up by its value gives the member back, so the two values are distinct. */
  lemma ValueRoundTrip(k: ChannelType)
    ensures FromValue(Value(k)) == Some(k)
  {
  }

  /** `'add_{0}'.format(channel_type.value)`: the name of the setter for a kind. */
  function SetterName(k: ChannelType): string {
    "add_" + Value(k)
  }

  /** The kind that is not `k`. */
  function Other(k: ChannelType): (r: ChannelType)
    ensures r != k
  {
    match k
    case Birthday => Event
    case Event => Birthday
  }
}
