/** The `birthday` command of `BirthdayCommand`: the reply for a character
    name, chosen by conditionals, with a special line for two characters. */
module BirthdayReplies {
  import opened Wrappers
  import opened Text
  import opened Characters
  import opened Colors
  import opened CharacterStore

  const HerBirthday := "Her birthday is"
  const MyBirthday := "My birthday is"
  const AnnoyingBirthday := "Jum! That annoying woman birthday is"

  /** `_special_message_birthday`: the default line, replaced by the
      claudine line, then by the maya line; the later test wins. */
  function SpecialMessage(name: string): (m: string)
    ensures Contains(Lower(name), "maya") ==> m == AnnoyingBirthday
    ensures !Contains(Lower(name), "maya") && Contains(Lower(name), "claudine") ==> m == MyBirthday
    ensures !Contains(Lower(name), "maya") && !Contains(Lower(name), "claudine") ==> m == HerBirthday
  {
    var message := HerBirthday;
    var message := if Contains(Lower(name), "claudine") then MyBirthday else message;
    if Contains(Lower(name), "maya") then AnnoyingBirthday else message
  }

  /** The line depends on the name only up to case. */
  lemma SpecialMessageIgnoresCase(name: string)
    ensures SpecialMessage(Lower(name)) == SpecialMessage(name)
  {
    LowerIdempotent(name);
  }

  /** A name that starts with "claudine" in any case and has no y gets the
      bot's own line. */
  lemma OwnLine(name: string)
    requires |name| >= 8 && forall i :: 0 <= i < 8 ==> LowerChar(name[i]) == "claudine"[i]
    requires 'y' !in name && 'Y' !in name
    ensures SpecialMessage(name) == MyBirthday
  {
    LowerPrefix(name, "claudine");
    LowerLacksLetter(name, 'y');
    NotContained(Lower(name), "maya", 2);
  }

  /** A name with neither a c nor a y in any case gets the default line. */
  lemma DefaultLine(name: string)
    requires 'y' !in name && 'Y' !in name && 'c' !in name && 'C' !in name
    ensures SpecialMessage(name) == HerBirthday
  {
    LowerLacksLetter(name, 'y');
    NotContained(Lower(name), "maya", 2);
    LowerLacksLetter(name, 'c');
    NotContained(Lower(name), "claudine", 0);
  }

  /** The bot's own character gets her line. */
  lemma ClaudineGetsHerLine()
    ensures SpecialMessage("Claudine Saijo") == MyBirthday
  {
    OwnLine("Claudine Saijo");
  }

  /** The rival gets the annoyed line. */
  lemma MayaGetsTheAnnoyedLine()
    ensures SpecialMessage("Maya Tendo") == AnnoyingBirthday
  {
    var name := "Maya Tendo";
    forall i | 0 <= i < 4 ensures LowerChar(name[i]) == "maya"[i] { }
    LowerPrefix(name, "maya");
  }

  /** Another character gets the default line. */
  lemma KarenGetsTheDefaultLine()
    ensures SpecialMessage("Karen Aijo") == HerBirthday
  {
    DefaultLine("Karen Aijo");
  }

  /** A Discord embed: title, description, colour and thumbnail url. */
  datatype Embed = Embed(title: string, description: string, color: (int, int, int), thumbnail: string)

  /** A message sent back: its text and at most one embed. */
  datatype Reply = Reply(text: string, embed: Option<Embed>)

  const Prompt := "Méchante va! - Please specify the name of the girl."

  /** `"Je suis désolé, I don't know who '{0}' is".format(name)` */
  function UnknownReply(name: string): string {
    "Je suis désolé, I don't know who '" + name + "' is"
  }

  /** `'Birthday of {0}'` and `'{0} {1}'` of the special line and the printed date. */
  function BirthdayEmbed(c: Character, color: (int, int, int), datePhrase: string -> string): Embed {
    var message := SpecialMessage(c.name) + " " + datePhrase(c.birthday);
    Embed("Birthday of " + c.name, message, color, c.portrait)
  }

  /** What the command does: the name it looked up, if any, and the reply. */
  datatype Exchange = Exchange(lookedUp: Option<string>, reply: Reply)

  /** `birthday(ctx, name)`. `datePhrase` stands for `convert_date_to_str`,
      which prints a `DD/MM` string as month name and day. */
  function BirthdayReply(repository: CharacterRepository, name: Option<string>,
                         datePhrase: string -> string): (r: Exchange)
    ensures name.None? ==> r == Exchange(None, Reply(Prompt, None))
    ensures name.Some? ==> r.lookedUp == name
    ensures name.Some? && repository.GetCharacterByName(name.value).None? ==>
      r.reply == Reply(UnknownReply(name.value), None)
    ensures name.Some? && repository.GetCharacterByName(name.value).Some? ==>
      var c := repository.GetCharacterByName(name.value).value;
      && r.reply.embed == Some(BirthdayEmbed(c, c.color.Rgb(), datePhrase))
      && r.reply.text == r.reply.embed.value.description
  {
    if name.None? then Exchange(None, Reply(Prompt, None))
    else
      var character := repository.GetCharacterByName(name.value);
      if character.Some? then
        var embed := BirthdayEmbed(character.value, character.value.color.Rgb(), datePhrase);
        Exchange(name, Reply(embed.description, Some(embed)))
      else
        Exchange(name, Reply(UnknownReply(name.value), None))
  }

  /** An embed is sent exactly when a character was found, and it shows that
      character's name, portrait and colour. */
  lemma EmbedOnlyWhenFound(repository: CharacterRepository, name: string, datePhrase: string -> string)
    ensures var r := BirthdayReply(repository, Some(name), datePhrase);
      && (r.reply.embed.Some? <==> exists k :: 0 <= k < |repository.characters| &&
                                                NameMatches(name, repository.characters[k]))
      && (r.reply.embed.Some? ==>
            exists k :: 0 <= k < |repository.characters| &&
                        NameMatches(name, repository.characters[k]) &&
                        r.reply.embed.value.title == "Birthday of " + repository.characters[k].name &&
                        r.reply.embed.value.thumbnail == repository.characters[k].portrait &&
                        r.reply.embed.value.color == repository.characters[k].color.Rgb())
  {
  }
}
