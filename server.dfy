/** The per-guild configuration entities: `Channel` and `Server`. */
module ServerModel {
  import opened Wrappers
  import opened ChannelTypes

  /** A Discord channel binding: never changed after construction, so a value. */
  datatype Channel = Channel(channelId: int, name: string, announcementRol: int)

  /** A snapshot of a `Server` object's fields. */
  datatype ServerInfo = ServerInfo(serverId: int, name: string,
                                   birthdayChannel: Option<Channel>,
                                   eventChannel: Option<Channel>)
  {
    /** The binding of kind `k`. */
    function ChannelOf(k: ChannelType): Option<Channel> {
      match k
      case Birthday => birthdayChannel
      case Event => eventChannel
    }

    /** This snapshot with the binding of kind `k` replaced by `c`. */
    function WithChannel(k: ChannelType, c: Channel): (r: ServerInfo)
      ensures r.serverId == serverId && r.name == name
      ensures r.ChannelOf(k) == Some(c)
      ensures r.ChannelOf(Other(k)) == ChannelOf(Other(k))
    {
      match k
      case Birthday => this.(birthdayChannel := Some(c))
      case Event => this.(eventChannel := Some(c))
    }
  }

  /** A Discord guild as the bot knows it. The id and the name are only set by
      the constructor; the two channel bindings are overwritten by the setters. */
  class Server {
    const serverId: int
    const name: string
    var birthdayChannel: Option<Channel>
    var eventChannel: Option<Channel>

    /** Both bindings are absent unless they are given. */
    constructor (serverId: int, name: string,
                 birthdayChannel: Option<Channel> := None, eventChannel: Option<Channel> := None)
      ensures Info() == ServerInfo(serverId, name, birthdayChannel, eventChannel)
    {
      this.serverId := serverId;
      this.name := name;
      this.birthdayChannel := birthdayChannel;
      this.eventChannel := eventChannel;
    }

    function Info(): ServerInfo
      reads this
    {
      ServerInfo(serverId, name, birthdayChannel, eventChannel)
    }

    /** `add_birthday_channel`: overwrites the birthday binding whether or not one was set. */
    method AddBirthdayChannel(birthdayChannel: Channel)
      modifies this
      ensures this.birthdayChannel == Some(birthdayChannel)
      ensures Info() == old(Info()).WithChannel(ChannelType.Birthday, birthdayChannel)
    {
      this.birthdayChannel := Some(birthdayChannel);
    }

    /** `add_event_channel`: overwrites the event binding whether or not one was set. */
    method AddEventChannel(eventChannel: Channel)
      modifies this
      ensures this.eventChannel == Some(eventChannel)
      ensures Info() == old(Info()).WithChannel(ChannelType.Event, eventChannel)
    {
      this.eventChannel := Some(eventChannel);
    }
  }

  /** `getattr(server, attribute)` over the setters a `Server` has: the kind of
      binding the named setter overwrites, or None (AttributeError). */
  function SetterFor(attribute: string): Option<ChannelType> {
    if attribute == "add_birthday_channel" then Some(ChannelType.Birthday)
    else if attribute == "add_event_channel" then Some(ChannelType.Event)
    else None
  }

  /** The setter `create_server` looks up for a kind exists and sets that kind. */
  lemma SetterDispatchTotal(k: ChannelType)
    ensures SetterFor(SetterName(k)) == Some(k)
  {
    match k
    case Birthday =>
      assert SetterName(k) == "add_birthday_channel";
    case Event =>
      assert SetterName(k) == "add_event_channel";
  }
}
