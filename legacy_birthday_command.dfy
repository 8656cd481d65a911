/** The legacy `birthday` command, over `BirthdayRepository`: the same special
    lines, a shorter apology and one fixed embed colour. */
module LegacyBirthdayReplies {
  import opened Wrappers
  import opened Text
  import opened Characters
  import opened Colors
  import opened CharacterStore
  import opened BirthdayStore
  import BirthdayReplies

  /** The legacy copy of `_special_message_birthday`. */
  function SpecialMessage(name: string): (m: string)
    ensures m == BirthdayReplies.HerBirthday || m == BirthdayReplies.MyBirthday ||
            m == BirthdayReplies.AnnoyingBirthday
  {
    var message := BirthdayReplies.HerBirthday;
    var message := if Contains(Lower(name), "claudine") then BirthdayReplies.MyBirthday else message;
    if Contains(Lower(name), "maya") then BirthdayReplies.AnnoyingBirthday else message
  }

  /** Both copies of the rule give every name the same line. */
  lemma SpecialMessagesAgree(name: string)
    ensures SpecialMessage(name) == BirthdayReplies.SpecialMessage(name)
  {
  }

  /** `discord.Color.from_rgb(254, 153, 82)`: Claudine's colour, used for every character. */
  const FixedColor: (int, int, int) := (254, 153, 82)

  lemma FixedColorIsClaudines()
    ensures FixedColor == Claudine.Rgb()
  {
  }

  /** `"I don't know who {0} is".format(name)` */
  function UnknownReply(name: string): string {
    "I don't know who " + name + " is"
  }

  /** The legacy `birthday(ctx, name)`; `datePhrase` stands for the date
      printing the module imports. */
  function BirthdayReply(repository: BirthdayRepository, name: Option<string>,
                         datePhrase: string -> string): (r: BirthdayReplies.Exchange)
    ensures name.None? ==> r == BirthdayReplies.Exchange(None, BirthdayReplies.Reply(BirthdayReplies.Prompt, None))
    ensures name.Some? ==> r.lookedUp == name
    ensures name.Some? && repository.GetCharacterByName(name.value).None? ==>
      r.reply == BirthdayReplies.Reply(UnknownReply(name.value), None)
    ensures name.Some? && repository.GetCharacterByName(name.value).Some? ==>
      r.reply.embed.Some? && r.reply.embed.value.color == FixedColor
  {
    if name.None? then BirthdayReplies.Exchange(None, BirthdayReplies.Reply(BirthdayReplies.Prompt, None))
    else
      var character := repository.GetCharacterByName(name.value);
      if character.Some? then
        var embed := BirthdayReplies.BirthdayEmbed(character.value, FixedColor, datePhrase);
        BirthdayReplies.Exchange(name, BirthdayReplies.Reply(embed.description, Some(embed)))
      else
        BirthdayReplies.Exchange(name, BirthdayReplies.Reply(UnknownReply(name.value), None))
  }

  /** Over the same characters, the legacy command answers like the current one
      except for the apology's wording and the embed colour. */
  lemma LegacyDiffersOnlyInApologyAndColor(legacy: BirthdayRepository, current: CharacterRepository,
                                            name: Option<string>, datePhrase: string -> string)
    requires legacy.characters == current.characters
    ensures var l := BirthdayReply(legacy, name, datePhrase);
      var c := BirthdayReplies.BirthdayReply(current, name, datePhrase);
      && l.lookedUp == c.lookedUp
      && l.reply.embed.Some? == c.reply.embed.Some?
      && (l.reply.embed.Some? ==>
            && l.reply.text == c.reply.text
            && l.reply.embed.value.title == c.reply.embed.value.title
            && l.reply.embed.value.description == c.reply.embed.value.description
            && l.reply.embed.value.thumbnail == c.reply.embed.value.thumbnail)
  {
  }
}
