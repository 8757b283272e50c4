/**
 * The event fired when a message is deleted, and its accessors that view the event's channel
 * as a private channel, a group or a guild text channel according to the channel's type.
 */
module MessageDelete {
  import opened Wrappers

  /** The kinds of channel the library knows. */
  datatype ChannelType = TEXT | PRIVATE | VOICE | GROUP | UNKNOWN

  datatype Guild = Guild(id: int, name: string)

  /** A channel that messages are posted in; each kind reports its own type. */
  datatype MessageChannel =
    | TextChannel(id: int, name: string, guild: Guild)
    | PrivateChannel(id: int, userId: int)
    | Group(id: int, name: string)
  {
    function GetType(): (t: ChannelType)
    {
      match this
      case TextChannel(_, _, _) => TEXT
      case PrivateChannel(_, _) => PRIVATE
      case Group(_, _) => GROUP
    }
  }

  datatype MessageDeleteEvent = MessageDeleteEvent(responseNumber: int, messageId: int, channel: MessageChannel)
  {
    predicate IsFromType(t: ChannelType)
    {
      channel.GetType() == t
    }

    /** The channel as a private channel, or null when it is of another type. */
    function GetPrivateChannel(): (r: Option<MessageChannel>)
      ensures r.Some? <==> channel.GetType() == PRIVATE
      ensures r.Some? ==> r.value == channel && r.value.PrivateChannel?
    {
      if IsFromType(PRIVATE) then Some(channel) else None
    }

    /** The channel as a group, or null when it is of another type. */
    function GetGroup(): (r: Option<MessageChannel>)
      ensures r.Some? <==> channel.GetType() == GROUP
      ensures r.Some? ==> r.value == channel && r.value.Group?
    {
      if IsFromType(GROUP) then Some(channel) else None
    }

    /** The channel as a guild text channel, or null when it is of another type. */
    function GetTextChannel(): (r: Option<MessageChannel>)
      ensures r.Some? <==> channel.GetType() == TEXT
      ensures r.Some? ==> r.value == channel && r.value.TextChannel?
    {
      if IsFromType(TEXT) then Some(channel) else None
    }

    /** The guild of the text channel, or null when the channel is not a text channel. */
    function GetGuild(): (r: Option<Guild>)
      ensures r.Some? <==> channel.GetType() == TEXT
      ensures r.Some? ==> GetTextChannel() == Some(channel) && r.value == channel.guild
    {
      if IsFromType(TEXT) then Some(GetTextChannel().value.guild) else None
    }
  }

  /**
   * Exactly one of the three channel views is non-null, it is the event's own channel, and a
   * guild is reported exactly when the text-channel view is non-null.
   */
  lemma ExactlyOneChannelView(e: MessageDeleteEvent)
    ensures e.GetPrivateChannel().Some? || e.GetGroup().Some? || e.GetTextChannel().Some?
    ensures !(e.GetPrivateChannel().Some? && e.GetGroup().Some?)
    ensures !(e.GetPrivateChannel().Some? && e.GetTextChannel().Some?)
    ensures !(e.GetGroup().Some? && e.GetTextChannel().Some?)
    ensures e.GetPrivateChannel() in {None, Some(e.channel)}
    ensures e.GetGroup() in {None, Some(e.channel)}
    ensures e.GetTextChannel() in {None, Some(e.channel)}
    ensures e.GetGuild().Some? <==> e.GetTextChannel().Some?
  {
  }
}
