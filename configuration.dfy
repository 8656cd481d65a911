/** `ConfigurationCommand`: the `birthday_announcements` and
    `events_announcements` commands and the guard ladder they share. */
module Configuration {
  import opened Wrappers
  import opened ChannelTypes
  import opened ServerModel
  import opened ServerStore
  import opened Json

  /** A Discord role and a text channel of the guild, as far as the command uses them. */
  datatype Role = Role(roleId: int, name: string)
  datatype TextChannel = TextChannel(channelId: int, name: string)

  /** What the command sees of its invocation: whether the author is an
      administrator, the guild, its default role, and the two optional arguments. */
  datatype Invocation = Invocation(authorIsAdmin: bool, guildId: int, guildName: string,
                                   defaultRole: Role, channelName: Option<string>,
                                   announcementRol: Option<string>)

  /** The two bot commands. */
  datatype Command = BirthdayAnnouncements | EventsAnnouncements

  /** The kind each command configures. */
  function KindOf(c: Command): (k: ChannelType)
    ensures k == ChannelType.Birthday <==> c == BirthdayAnnouncements
    ensures k == ChannelType.Event <==> c == EventsAnnouncements
  {
    match c
    case BirthdayAnnouncements => ChannelType.Birthday
    case EventsAnnouncements => ChannelType.Event
  }

  /** How an invocation of `__configure_announcement` ends. */
  datatype Outcome =
    | NotAdmin
    | MissingChannelName
    | RoleNotFound(roleArgument: string)
    | ChannelNotFound(channelName: string)
    | Configure(channelName: string, channel: TextChannel, role: Role)

  /** The role to announce with: the guild's default role when none is named,
      otherwise what resolving the name gives. */
  function ResolveRole(inv: Invocation, findRole: string -> Option<Role>): (r: Option<Role>)
    ensures inv.announcementRol.None? ==> r == Some(inv.defaultRole)
    ensures inv.announcementRol.Some? ==> r == findRole(inv.announcementRol.value)
  {
    if inv.announcementRol.None? then Some(inv.defaultRole) else findRole(inv.announcementRol.value)
  }

  /** The guard ladder: administrator, then channel name, then role, then channel. */
  function Decide(inv: Invocation, findChannel: string -> Option<TextChannel>,
                  findRole: string -> Option<Role>): (r: Outcome)
    ensures r == NotAdmin <==> !inv.authorIsAdmin
    ensures r == MissingChannelName <==> inv.authorIsAdmin && inv.channelName.None?
    ensures r.RoleNotFound? <==>
              inv.authorIsAdmin && inv.channelName.Some? && ResolveRole(inv, findRole).None?
    ensures r.RoleNotFound? ==> inv.announcementRol == Some(r.roleArgument)
    ensures r.ChannelNotFound? <==>
              inv.authorIsAdmin && inv.channelName.Some? && ResolveRole(inv, findRole).Some? &&
              findChannel(inv.channelName.value).None?
    ensures r.Configure? <==>
              inv.authorIsAdmin && inv.channelName.Some? && ResolveRole(inv, findRole).Some? &&
              findChannel(inv.channelName.value).Some?
    ensures r.Configure? ==>
              r.channelName == inv.channelName.value &&
              Some(r.channel) == findChannel(r.channelName) &&
              Some(r.role) == ResolveRole(inv, findRole)
  {
    if !inv.authorIsAdmin then NotAdmin
    else if inv.channelName.None? then MissingChannelName
    else
      var channel := findChannel(inv.channelName.value);
      var role := ResolveRole(inv, findRole);
      if role.None? then RoleNotFound(inv.announcementRol.value)
      else if channel.Some? then Configure(inv.channelName.value, channel.value, role.value)
      else ChannelNotFound(inv.channelName.value)
  }

  /** A role name as echoed in the confirmation: `@everyone` loses its `@`. */
  function LogRole(name: string): (r: string)
    ensures name == "@everyone" ==> r == "everyone" && "@" + r == name
    ensures name != "@everyone" ==> r == name
  {
    if name != "@everyone" then name else name[1..]
  }

  /** The word naming the kind in the confirmation. */
  function KindLabel(kind: ChannelType): (r: string)
    ensures r == "Event" <==> kind == ChannelType.Event
  {
    if kind == ChannelType.Event then "Event" else "Birthday"
  }

  // Every reply opens with a French interjection followed by the English text.
  const NotAdminReply := "Désolé, tout utilisateur." + " Only server admins can use this command."
  const MissingChannelReply := "Hmm..." + "Please specify the channel name."
  const ConfirmationPrefix := "Fait! - "
  const Apology := "Je suis desolé - "

  /** The message the command sends for an outcome. */
  function Reply(kind: ChannelType, outcome: Outcome): string {
    match outcome
    case NotAdmin => NotAdminReply
    case MissingChannelName => MissingChannelReply
    case RoleNotFound(roleArgument) => Apology + "I wasn't able to find role [" + roleArgument + "]"
    case ChannelNotFound(channelName) => Apology + "I wasn't able to find channel [" + channelName + "]"
    case Configure(channelName, _, role) => ConfirmationPrefix + Confirmation(kind, channelName, role)
  }

  /** The English text of the confirmation: the kind, the channel name as typed, and the role. */
  function Confirmation(kind: ChannelType, channelName: string, role: Role): string {
    KindLabel(kind) + " channel [" + channelName + "] was set with role [" + LogRole(role.name) + "]"
  }

  /** A message that does not open with `F` is not a confirmation. */
  lemma NotAConfirmation(m: string)
    requires |m| > 0 && m[0] != 'F'
    ensures !IsConfirmation(m)
  {
  }

  lemma ApologyIsNotAConfirmation(rest: string)
    ensures !IsConfirmation(Apology + rest)
  {
    assert (Apology + rest)[0] == 'J';
    NotAConfirmation(Apology + rest);
  }

  predicate IsConfirmation(m: string) {
    |m| >= |ConfirmationPrefix| && m[..|ConfirmationPrefix|] == ConfirmationPrefix
  }

  lemma ConfirmationIsConfirmation(rest: string)
    ensures IsConfirmation(ConfirmationPrefix + rest)
  {
    assert (ConfirmationPrefix + rest)[..|ConfirmationPrefix|] == ConfirmationPrefix;
  }

  /** The confirmation is sent exactly when the store is changed. */
  lemma ConfirmationOnlyWhenConfigured(kind: ChannelType, outcome: Outcome)
    ensures IsConfirmation(Reply(kind, outcome)) <==> outcome.Configure?
  {
    if outcome.Configure? {
      ConfirmationIsConfirmation(Confirmation(kind, outcome.channelName, outcome.role));
    } else {
      RefusalIsNotAConfirmation(kind, outcome);
    }
  }

  /** Every reply but the confirmation opens with another letter than `F`. */
  lemma RefusalIsNotAConfirmation(kind: ChannelType, outcome: Outcome)
    requires !outcome.Configure?
    ensures !IsConfirmation(Reply(kind, outcome))
  {
    match outcome
    case NotAdmin =>
      assert NotAdminReply[0] == 'D';
      NotAConfirmation(NotAdminReply);
    case MissingChannelName =>
      assert MissingChannelReply[0] == 'H';
      NotAConfirmation(MissingChannelReply);
    case RoleNotFound(a) =>
      ApologyIsNotAConfirmation("I wasn't able to find role [" + a + "]");
    case ChannelNotFound(c) =>
      ApologyIsNotAConfirmation("I wasn't able to find channel [" + c + "]");
  }

  /** `__configure_announcement`: decide, and only for a complete, resolved request
      call `create_server` with the guild, the channel found, the kind and the role id. */
  method ConfigureAnnouncement(repository: ServerRepository, inv: Invocation, kind: ChannelType,
                               findChannel: string -> Option<TextChannel>,
                               findRole: string -> Option<Role>)
    returns (reply: string)
    modifies repository, repository.servers, repository.file
    ensures var d := Decide(inv, findChannel, findRole);
      && reply == Reply(kind, d)
      && (d.Configure? ==>
            repository.Infos() == Upsert(old(repository.Infos()), inv.guildId, inv.guildName,
                                         Channel(d.channel.channelId, d.channel.name, d.role.roleId), kind) &&
            repository.file.state == if repository.file.writable
                                     then Decoded(JArr(DictsOf(repository.Infos())))
                                     else old(repository.file.state))
      && (!d.Configure? ==>
            repository.servers == old(repository.servers) &&
            repository.Infos() == old(repository.Infos()) &&
            repository.file.state == old(repository.file.state))
    ensures repository.file.writable == old(repository.file.writable)
  {
    var decision := Decide(inv, findChannel, findRole);
    if decision.Configure? {
      repository.CreateServer(inv.guildId, inv.guildName, decision.channel.channelId,
                              decision.channel.name, kind, decision.role.roleId);
    }
    reply := Reply(kind, decision);
  }

  /** `birthday_announcements` and `events_announcements`. */
  method Announcements(command: Command, repository: ServerRepository, inv: Invocation,
                       findChannel: string -> Option<TextChannel>,
                       findRole: string -> Option<Role>)
    returns (reply: string)
    modifies repository, repository.servers, repository.file
    ensures var d := Decide(inv, findChannel, findRole);
      && reply == Reply(KindOf(command), d)
      && (d.Configure? ==>
            repository.Infos() == Upsert(old(repository.Infos()), inv.guildId, inv.guildName,
                                         Channel(d.channel.channelId, d.channel.name, d.role.roleId),
                                         KindOf(command)))
      && (d.Configure? ==>
            repository.file.state == if repository.file.writable
                                     then Decoded(JArr(DictsOf(repository.Infos())))
                                     else old(repository.file.state))
      && (!d.Configure? ==>
            repository.servers == old(repository.servers) &&
            repository.Infos() == old(repository.Infos()) &&
            repository.file.state == old(repository.file.state))
    ensures repository.file.writable == old(repository.file.writable)
  {
    reply := ConfigureAnnouncement(repository, inv, KindOf(command), findChannel, findRole);
  }
}
