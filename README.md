# kuro-bot in Dafny

A model of the logic inside kuro-bot. kuro-bot is a Discord bot for the
Revue Starlight community. It answers birthday queries about the characters,
lists the current events of the Re LIVE game, and lets guild admins choose
which channel gets birthday or event announcements. The model covers:

- **The announcement configuration store.** This is `ServerRepository` with
  `Server`, `Channel` and `ChannelType`.
  - `Server` is a class whose two channel bindings are overwritten in place.
  - The repository is a class holding the list of server objects and an
    abstract store file, `ServerFile`.
  - `create_server` (find or create, then replace or append) and the
    save/load/reload cycle are methods. Their post-states are stated through
    the snapshot functions `Upsert`, `ReplaceOrAppend` and `LoadServers`, and
    the lemmas about those functions prove the properties.
- **The configuration command.** This is the guard ladder of
  `__configure_announcement`: admin check, channel name, role, channel. The
  store changes only once the ladder reaches `Configure`.
- **The read-through repositories** for characters, events and equips, plus
  the older birthday repository. Each one loads once from the Karthuria
  client and turns an HTTPError into an empty collection. Each lookup is
  specified by a scan function: the first case-insensitive name match, the
  first exact birthday match, the first id match compared as strings, and an
  order-keeping filter.
- **The Karthuria client.** `get_characters` filters the `chara.json` records
  on `birth_day != 0`, and `convert_to_character` picks the name. HTTP is a
  function from URL to `(ok, body)`, and JSON is a datatype.
- **The records.**
  - `Character` is built from its fields, with the zero-padded birthday.
  - `Color` and `School` are lookup tables.
  - `Event`, `Challenge` and `Boss` are one class, `Events.Event`, with a kind
    tag, so each gets its own icon template. Each has setters.
- **The `current_events` command.** The three name-completion loops rename
  the records in place. One embed field is built per kind present.
- **The two birthday commands.** These are the current one and the legacy
  one at the repository root. Each has the special-line rule for `claudine`
  and `maya`, and chooses its reply by conditionals.

Python behaviour the model writes out:

- A dict subscript raises KeyError, and subscripting a non-dict raises
  TypeError.
- `json` keeps the last of duplicate keys, and a dict iterates in
  first-insertion order.
- Truthiness is modelled, and `bool` counts as an `int`.
- `in` is modelled on dicts and strings.
- `str(int)` is modelled.
- `datetime(1, month, day)` rejects 29 February.

The code is followed where it and its tests or comments disagree:

- `get_character_birthday` compares with `==`, so the test's `'1/8'` never
  matches the stored `'01/08'` (`CharacterStore.UnpaddedDateNeverMatches`).
- `add_birthday_channel` overwrites a binding that is already set, despite
  its comment.
- A missing `birthday_channel` key raises KeyError. The empty-string check
  uses `.get`, but the next line subscripts the dict.
- `src/command/birthday/birthday.py:13` calls `CharacterRepository()` without
  the client it requires. The model gives the command a repository, as the
  other commands get theirs from the initializer.

Files:

- wrappers, text, json: Option/Result, string helpers, JSON values.
- channel_type, server, server_repository, configuration: the configuration
  store and its command.
- color, school, legacy_school, character: records and lookup tables.
- client, character_repository, birthday_repository, event_model,
  event_repository, equip_repository: the client and the repositories.
- event_command, birthday_command, legacy_birthday_command: the commands.

## Model

| member | source | states |
|---|---|---|
| ChannelTypes.FromValue | src/command/configuration/model/channel_type.py:10-11 | looking a kind up by value finds a kind with exactly that value, and nothing only for a string that is neither key |
| ChannelTypes.ValueRoundTrip | src/command/configuration/model/channel_type.py:10-11 | every kind is found by its own JSON key, so the two keys are distinct |
| ChannelTypes.Other | src/command/configuration/model/channel_type.py:10-11 | each of the two kinds has another kind different from it |
| ServerModel.ServerInfo.WithChannel | src/command/configuration/model/server.py:23-37 | setting the binding of one kind sets that binding and keeps the id, the name and the other kind's binding |
| ServerModel.Server.constructor | src/command/configuration/model/server.py:17-21 | a new server holds the given id and name, and each binding that is not supplied is absent |
| ServerModel.Server.AddBirthdayChannel | src/command/configuration/model/server.py:23-29 | the birthday binding becomes the channel whether or not one was set; the id, the name and the event binding are unchanged |
| ServerModel.Server.AddEventChannel | src/command/configuration/model/server.py:31-37 | the event binding becomes the channel unconditionally; everything else is unchanged |
| ServerModel.SetterDispatchTotal | src/command/configuration/repository/server_repository.py:48 | the setter name `add_<value>` of every kind names an existing setter, and that setter sets that kind |
| ServerStore.ServerFile.constructor | src/command/configuration/repository/server_repository.py:16-17 | the store file starts with the given contents and writability |
| ServerStore.ServerFile.Write | src/command/configuration/repository/server_repository.py:71-74 | a write replaces the whole file, or raises FileNotFoundError and leaves the file as it was |
| ServerStore.ConvertToDict | src/command/configuration/repository/server_repository.py:129-144 | the dict holds the server's id and name, and each binding as its channel dict or `''` when absent |
| ServerStore.ConvertToServer | src/command/configuration/repository/server_repository.py:104-126 | a non-dict raises TypeError and a missing `server_id` KeyError; a decoded server takes its id and name from the dict, and a binding is absent exactly when its entry is `''` |
| ServerStore.DictsOf | src/command/configuration/repository/server_repository.py:71 | the written list has one dict per server, in list order |
| ServerStore.ConvertRoundTrip | src/command/configuration/repository/server_repository.py:104-144 | decoding the dict written for any server gives back its id, name and both bindings |
| ServerStore.ChannelEntryRoundTrip | src/command/configuration/repository/server_repository.py:114-124 | a binding written as `''` or as a channel dict reads back as the same binding |
| ServerStore.AbsentOnlyForEmptyString | src/command/configuration/repository/server_repository.py:114-117 | a binding reads as absent exactly when its entry is the string `''`; a missing key raises KeyError and `null` raises TypeError |
| ServerStore.DecodeStep | src/command/configuration/repository/server_repository.py:85-86 | one loop iteration: a converted entry is prepended to the rest, a TypeError ends the list, any other error escapes |
| ServerStore.DecodeServersPrefix | src/command/configuration/repository/server_repository.py:81-92 | the loaded list is the convertible prefix of the file: entry by entry what each entry converts to, cut at the first entry raising TypeError |
| ServerStore.DecodeServersEscape | src/command/configuration/repository/server_repository.py:81-92 | an exception that escapes the load is the one raised by some entry, and every entry before it converted |
| ServerStore.LoadAfterWrite | src/command/configuration/repository/server_repository.py:71-86 | whatever a successful save writes loads back as the same list |
| ServerStore.FindById | src/command/configuration/repository/server_repository.py:26-28 | the result is absent exactly when no server has the id, and otherwise is a listed server with that id |
| ServerStore.FindByIdFirst | src/command/configuration/repository/server_repository.py:26-28 | the lookup returns the server at the first index that has the id |
| ServerStore.FindByIdIndex | src/command/configuration/repository/server_repository.py:26-28 | a found server sits at an index before which no server has the id |
| ServerStore.ReplaceAll | src/command/configuration/repository/server_repository.py:64-68 | every entry with the id is replaced, every other entry is kept, and the length is kept |
| ServerStore.UpsertNewServer | src/command/configuration/repository/server_repository.py:46-50 | for a new id, one server is appended with the given name and only the requested binding, and the entries before it are unchanged |
| ServerStore.UpsertExistingServer | src/command/configuration/repository/server_repository.py:42-49 | for a known id, the length is kept and the server gets the binding; it keeps its stored name and its other binding, and entries with other ids are unchanged |
| ServerStore.UpsertOthersUntouched | src/command/configuration/repository/server_repository.py:61-70 | servers with any other id are found exactly as before |
| ServerStore.UpsertLength | src/command/configuration/repository/server_repository.py:61-70 | the list grows by one exactly when the id was new |
| ServerStore.UpsertLastCallWins | src/command/configuration/repository/server_repository.py:42-50 | configuring a kind twice keeps only the second channel |
| ServerStore.ReplaceAllTwice | src/command/configuration/repository/server_repository.py:64-68 | replacing by the same id twice leaves only the second replacement |
| ServerStore.ReplaceAllAppended | src/command/configuration/repository/server_repository.py:64-70 | after appending to a list without the id, replacing by that id replaces only the appended entry |
| ServerStore.ReplaceOrAppendIgnoresSameId | src/command/configuration/repository/server_repository.py:61-70 | replace-or-append depends only on the entries with other ids and on the positions of the id |
| ServerStore.ReplacedList | src/command/configuration/repository/server_repository.py:61-70 | the scan's replaced list, with the server appended when none was found, is replace-or-append |
| ServerStore.ScannedInfos | src/command/configuration/repository/server_repository.py:61-70 | the same, over server objects: the saved object is in the list, and every listed object is either it or was listed before |
| ServerStore.ServerRepository.FromLoaded | src/command/configuration/repository/server_repository.py:16-18 | the repository holds the file and the given server objects |
| ServerStore.ServerRepository.Open | src/command/configuration/repository/server_repository.py:16-18 | the list starts as what the file loads to, and an error escaping the load escapes the constructor |
| ServerStore.ServerRepository.LoadFrom | src/command/configuration/repository/server_repository.py:76-92 | a missing or undecodable file gives the empty list; otherwise the result is fresh server objects for the convertible prefix, or the escaping error |
| ServerStore.ServerRepository.FindServerById | src/command/configuration/repository/server_repository.py:20-28 | returns the object at the first position holding the id, with that entry's info, or None exactly when no server has it |
| ServerStore.ServerRepository.ScanReplace | src/command/configuration/repository/server_repository.py:62-68 | the indexed loop replaces every entry with the id and sets `found` exactly when there was one |
| ServerStore.ServerRepository.SavedList | src/command/configuration/repository/server_repository.py:61-70 | the new list is replace-or-append of the old one with the server |
| ServerStore.ServerRepository.SaveServer | src/command/configuration/repository/server_repository.py:52-74 | the list becomes replace-or-append with the server; the file then holds the whole list, or keeps its old contents when the write fails, and the change stays in memory |
| ServerStore.ServerRepository.Persist | src/command/configuration/repository/server_repository.py:71-74 | the file holds the dicts of the current list, or is unchanged when it cannot be written; the list is untouched |
| ServerStore.ServerRepository.ServerFor | src/command/configuration/repository/server_repository.py:42-47 | the server used is the first listed one with the id, or a fresh one with the given name and no bindings |
| ServerStore.ApplySetter | src/command/configuration/repository/server_repository.py:48-49 | the setter named by the kind's value overwrites exactly that kind's binding |
| ServerStore.SaveAfterConfigure | src/command/configuration/repository/server_repository.py:42-50 | saving the configured server onto a list where only entries with its id changed gives `Upsert` of the list before |
| ServerStore.ServerRepository.CreateServer | src/command/configuration/repository/server_repository.py:30-50 | the list becomes `Upsert` of the old list, and the file holds it when the write succeeds |
| ServerStore.ServerRepository.ReloadServers | src/command/configuration/repository/server_repository.py:94-101 | the list becomes exactly what the file loads to now, dropping changes that were only in memory; an escaping error leaves the list and is returned |
| Configuration.KindOf | src/command/configuration/configuration.py:21-46 | `birthday_announcements` configures the birthday kind and `events_announcements` the event kind |
| Configuration.ResolveRole | src/command/configuration/configuration.py:69 | without a role argument the guild's default role is used, otherwise the named role is looked up |
| Configuration.Decide | src/command/configuration/configuration.py:60-84 | each outcome comes with its exact condition, in order: not an admin; then no channel name; then role not found (before the channel check); then channel not found; otherwise Configure with the found channel and role |
| Configuration.LogRole | src/command/configuration/configuration.py:76 | `@everyone` is echoed without its `@`, and any other role name unchanged |
| Configuration.KindLabel | src/command/configuration/configuration.py:79 | the label is `Event` exactly for the event kind |
| Configuration.NotAConfirmation | src/command/configuration/configuration.py:80 | a reply not opening with `F` is not the `Fait!` confirmation |
| Configuration.ApologyIsNotAConfirmation | src/command/configuration/configuration.py:72 | an apology is never a confirmation |
| Configuration.ConfirmationIsConfirmation | src/command/configuration/configuration.py:80-81 | the confirmation reply opens with `Fait! - ` |
| Configuration.ConfirmationOnlyWhenConfigured | src/command/configuration/configuration.py:60-84 | the reply is a confirmation exactly when `create_server` is called, for the Configure outcome |
| Configuration.RefusalIsNotAConfirmation | src/command/configuration/configuration.py:60-84 | the not-admin, missing-name, role and channel replies are never confirmations |
| Configuration.ConfigureAnnouncement | src/command/configuration/configuration.py:48-84 | the reply is the outcome's message; the store is upserted with the guild, the found channel, the kind and the role id only for Configure, and the file then holds the new list when writable; otherwise the list and the file are unchanged. Whether the file is writable never changes |
| Configuration.Announcements | src/command/configuration/configuration.py:21-46 | each command runs the ladder for its own kind, with the same effect on the list and the file as `__configure_announcement` |
| Colors.Color.Rgb | src/karthuria/model/color.py:9-35 | every rgb component lies in 0..255 |
| Colors.Color.Str | src/karthuria/model/color.py:45-46 | `str` of a member is a name that looks the member up again |
| Colors.FromName | src/karthuria/model/color.py:9-40 | a found member's value is exactly the queried name |
| Colors.NameRoundTrip | src/karthuria/model/color.py:9-40 | every member is found by its own full name |
| Colors.NamesDistinct | src/karthuria/model/color.py:9-35 | the 27 names are distinct, so lookup by name is a function |
| Schools.School.StrAsWritten | src/karthuria/model/school.py:24-25 | `str` of a school raises TypeError, because `__str__` returns an int |
| Schools.School.Str | src/karthuria/model/school.py:24-25 | corrected `str`: the decimal id, which looks the member up again |
| Schools.FromId | src/karthuria/model/school.py:10-19 | lookup by id is defined exactly on 1..5 and returns the member with that id |
| Schools.IdRoundTrip | src/karthuria/model/school.py:10-14 | every member is found by its id, so the ids are distinct |
| Schools.StrInjective | src/karthuria/model/school.py:24-25 | the corrected `str` of two schools agree exactly when they are the same school |
| Schools.SeishoStrCheck | tests/karthuria/test_client.py:29 | the test's right-hand side is `"1"`; its left-hand side raises as written and equals `"1"` when corrected |
| LegacySchools.FromId | karthuria/model/school.py:5-14 | the legacy lookup is defined exactly on 1..5 and returns the member with that id |
| LegacySchools.AgreesWithSchools | karthuria/model/school.py:5-9 | the legacy table has the same ids, with the same descriptions, as the current one |
| Characters.AsInt | src/karthuria/model/character.py:15 | a JSON value is usable as a date part exactly when it is an int or a bool |
| Characters.DaysInMonth | src/karthuria/model/character.py:15 | months have 28 to 31 days, and February has 28 in year 1 |
| Characters.Birthday | src/karthuria/model/character.py:15 | the birthday is five characters with `/` in the middle |
| Characters.BirthdayRoundTrip | src/karthuria/model/character.py:15 | reading the day and the month back from the birthday string gives the originals |
| Characters.BirthdayInjective | src/karthuria/model/character.py:15 | two valid dates give the same birthday string exactly when they are equal |
| Characters.PortraitInjective | src/karthuria/model/character.py:17 | with the same url, two ids give the same portrait exactly when they are equal |
| Characters.DetailsFrom | src/karthuria/model/character.py:19-23 | a falsy `detailed_info` leaves no details; a truthy one decodes exactly when its `introduction`, `cv`, `likes` and `dislikes` entries all have an `'en'` entry, and the description, seiyuu, likes and dislikes are those four entries |
| Characters.DatePart | src/karthuria/model/character.py:14 | a `datetime` argument converts exactly when it is an int or a bool within the range of a C `int`; otherwise TypeError for a non-integer and OverflowError for an integer out of range |
| Characters.NewCharacter | src/karthuria/model/character.py:12-23 | construction succeeds exactly when the date is valid, the school id and the name are members, and the details decode. It then holds the padded birthday, that school, that colour, the portrait for the id and the details. The month is converted before the day: a non-int part raises TypeError, and an int beyond a C `int` raises OverflowError. An impossible date, an unknown school and an unknown colour name raise ValueError |
| Characters.LeapDayRejected | src/karthuria/model/character.py:15 | 29 February is refused with ValueError |
| Characters.ClaudineFixture | src/karthuria/model/character.py:12-18 | Claudine Saijo, born 1/8 with school 1, has birthday `01/08`, school Seisho, colour (254, 153, 82) and no details |
| Client.CharacterPathInjective | src/karthuria/client.py:46 | different ids give different detail paths |
| Client.DictKeys | src/karthuria/client.py:32 | iterating a JSON object visits each key once, and exactly the keys it has |
| Client.DictKeysInFirstOrder | src/karthuria/client.py:32 | the keys come in the order of their first appearance: a key listed before another occurs in the object before any occurrence of the other |
| Client.In | src/karthuria/client.py:65 | `in` tests the keys of a dict and substrings of a string, and raises TypeError on a number, a bool or None |
| Client.ConvertToCharacter | src/karthuria/client.py:57-72 | the name comes from `basic_info['name_ruby']['ja']` when that key is present, else from `detailed_info`; the id is `charaID`, the portrait uses the empty url, the birthday is the padded `birth_day`/`birth_month` of `basic_info` and the school the member of its `school_id`, and the details come from `detailed_info`; a non-dict `basic_info` raises |
| Client.NoNameWithoutDetails | src/karthuria/client.py:65 | without `name_ruby` and without details, conversion raises TypeError |
| Client.Entry | src/karthuria/client.py:33-35 | each record contributes at most one character, and none exactly when its birth day is 0 |
| Client.CollectStep | src/karthuria/client.py:32-35 | one iteration: the entry of the key, followed by the rest |
| Client.GetCharacters | src/karthuria/client.py:20-37 | the loop's result is the specification `CharactersFrom` of the response, so a non-ok response gives HTTPError |
| Client.CollectKeepsBorn | src/karthuria/client.py:31-35 | every kept character comes from a record with a nonzero birth day, and every such record's character is kept |
| Client.GetCharacter | src/karthuria/client.py:39-54 | a non-ok response raises HTTPError; a result means `basicInfo` and `info` were present, with its details taken from `info` |
| Client.ClaudineConverts | tests/conftest.py:262-274 | the fixture's basic info converts to Claudine Saijo of Seisho, born `01/08` |
| Client.SampleKeys | tests/conftest.py:261-290 | the fixture's keys are `104` then `803` |
| Client.SampleBasic104 | tests/conftest.py:262-275 | record 104's basic info is the Claudine fixture |
| Client.SampleEntry803 | tests/conftest.py:276-289 | record 803, with birth day 0, is dropped |
| Client.EntryOfBasic | src/karthuria/client.py:33-35 | a record with a nonzero birth day that converts contributes exactly its character |
| Client.SampleEntry104 | tests/conftest.py:262-275 | record 104 contributes Claudine |
| Client.CollectSample | tests/karthuria/test_client.py:16-29 | the fixture's response gives exactly one character |
| Client.CollectPair | src/karthuria/client.py:32-35 | over two keys, a kept record followed by a dropped one gives the kept character alone |
| Client.CharactersSampleKeepsOne | tests/karthuria/test_client.py:16-29 | the fixture's response gives exactly one character: Claudine Saijo of Seisho, born `01/08` |
| CharacterStore.Matching | src/karthuria/repository/character_repository.py:35 | the comprehension keeps exactly the characters whose lowered name contains the lowered query |
| CharacterStore.MatchingStartsWithFirst | src/karthuria/repository/character_repository.py:35-37 | the comprehension's head is the first matching character in list order |
| CharacterStore.FirstByName | src/karthuria/repository/character_repository.py:28-37 | the lookup finds nothing exactly when no name matches, and otherwise finds the first match |
| CharacterStore.MatchingHead | src/karthuria/repository/character_repository.py:35-37 | the comprehension is empty exactly when nothing matches, and otherwise starts with the first match |
| CharacterStore.EmptyQueryFindsFirst | src/karthuria/repository/character_repository.py:35-37 | an empty query finds the first character of a non-empty list |
| CharacterStore.QueryCaseIgnored | src/karthuria/repository/character_repository.py:35 | the lookup ignores the case of the query |
| CharacterStore.MatchingQueryCase | src/karthuria/repository/character_repository.py:35 | the comprehension ignores the case of the query |
| CharacterStore.FirstBornOn | src/karthuria/repository/character_repository.py:45-47 | finds nothing exactly when no birthday equals the date, and otherwise finds the first character born on it |
| CharacterStore.UnpaddedDateNeverMatches | src/karthuria/repository/character_repository.py:46 | a date that is not 5 characters, such as `1/8`, never matches a stored birthday |
| CharacterStore.FirstOfAugustIsPadded | src/karthuria/model/character.py:15 | 1 August is stored as `01/08`, not `1/8` |
| CharacterStore.CharacterRepository.FromLoaded | src/karthuria/repository/character_repository.py:16-18 | the repository holds the client and the loaded characters, which `get_characters` returns as they are |
| CharacterStore.CharacterRepository.Open | src/karthuria/repository/character_repository.py:49-61 | the characters are the client's list, an HTTPError leaves them empty, and any other error escapes |
| CharacterStore.CharacterRepository.GetCharacterBirthday | src/karthuria/repository/character_repository.py:39-47 | with no birthday match, nothing is fetched and the result is None; otherwise the details are fetched once, for the first match's id, and the result is that fetch |
| Events.TemplatesDiffer | src/karthuria/model/event.py:9-49 | the three icon templates differ at a fixed position |
| Events.IconStartsWithTemplate | src/karthuria/model/event.py:16 | an icon url starts with its kind's template |
| Events.IconsOfKindsDiffer | src/karthuria/model/event.py:9-53 | records of different kinds never share an icon url |
| Events.IconInjective | src/karthuria/model/event.py:16 | within a kind, two ids share an icon exactly when they are equal |
| Events.Event.constructor | src/karthuria/model/event.py:11-16 | an event holds its id, name and dates as given, with the banner icon for its id |
| Events.Event.Challenge | src/karthuria/model/event.py:35-38 | a challenge holds its fields and rarity as given, with the challenge icon for its id |
| Events.Event.Boss | src/karthuria/model/event.py:51-55 | a boss holds its fields, rarity and hp percentage, with the enemy icon, and never a start date |
| Events.Event.SetStartDate | src/karthuria/model/event.py:18-19 | replaces only the start date |
| Events.Event.SetEndDate | src/karthuria/model/event.py:21-22 | replaces only the end date |
| Events.Event.SetName | src/karthuria/model/event.py:24-25 | replaces only the name |
| Events.Event.SetRarity | src/karthuria/model/event.py:40-41 | replaces only the rarity of a challenge or boss |
| Events.Event.SetHpPercentage | src/karthuria/model/event.py:60-61 | replaces only the hp percentage of a boss |
| EventStore.IntAndStrKeysAgree | src/karthuria/repository/event_repository.py:27 | an int id and its decimal string match the same events |
| EventStore.IntKeysMatchWhenEqual | src/karthuria/repository/event_repository.py:27 | two int ids match exactly when they are equal |
| EventStore.NameByIdFirst | src/karthuria/repository/event_repository.py:19-28 | the lookup gives None when no event's id matches, and otherwise the name of the first event whose id matches |
| EventStore.NameByIdUsesStr | src/karthuria/repository/event_repository.py:26-28 | ids with the same string form get the same name |
| EventStore.GetCurrentEvents | src/karthuria/repository/event_repository.py:30-42 | the client's dict passes through, an HTTPError gives the empty dict, and any other error escapes |
| EventStore.EventRepository.FromLoaded | src/karthuria/repository/event_repository.py:15-17 | the repository holds the loaded events |
| EventStore.EventRepository.Open | src/karthuria/repository/event_repository.py:53-65 | the events are the client's list, and an HTTPError leaves them empty |
| EventStore.EventRepository.GetEventNameById | src/karthuria/repository/event_repository.py:19-28 | the loop returns the specification `NameById` of the events |
| EventStore.EventRepository.ReloadEvents | src/karthuria/repository/event_repository.py:44-51 | the events become the fresh load in client order, or empty after an HTTPError; another error leaves them and is returned |
| EquipStore.EquipsOf | src/karthuria/repository/equip_repository.py:27-28 | keeps exactly the equips whose character list contains the id |
| EquipStore.EquipsOfAppend | src/karthuria/repository/equip_repository.py:27-28 | the filter keeps the original order |
| EquipStore.EquipsByCharacterId | src/karthuria/repository/equip_repository.py:19-30 | None exactly when no equip matches, and otherwise the non-empty filtered list |
| EquipStore.UnassignedNeverFound | src/karthuria/repository/equip_repository.py:28 | an equip whose character list is None never matches |
| EquipStore.EquipRepository.FromLoaded | src/karthuria/repository/equip_repository.py:15-17 | the repository holds the loaded equips |
| EquipStore.EquipRepository.Open | src/karthuria/repository/equip_repository.py:32-44 | the equips are the client's list; after an HTTPError they are empty and every query gives None |
| BirthdayStore.BirthdayRepository.FromLoaded | src/command/birthday/repository/birthday_repository.py:18-21 | the repository holds the client and the loaded characters, which `get_characters` returns as they are |
| BirthdayStore.BirthdayRepository.Open | src/command/birthday/repository/birthday_repository.py:42-54 | the characters are the client's list, an HTTPError leaves them empty, and any other error escapes |
| Wrappers.CatchHttpError | src/karthuria/repository/character_repository.py:55-61 | a result passes through, an HTTPError becomes the fallback, and exactly the other errors escape unchanged |
| EventCommand.PlaceholderOnlyWhenNotFound | src/command/event/event.py:82-83 | an event no record matches gets `NN`; otherwise it gets the name of the first record with its id, or `NN` when that record has no name |
| EventCommand.NameEvent | src/command/event/event.py:81-84 | one event is renamed from the repository, and its other fields are unchanged |
| EventCommand.CompleteEvents | src/command/event/event.py:73-85 | returns the same objects in the same order, each renamed from the repository or `NN`, with nothing else changed |
| EventCommand.CompleteChallenges | src/command/event/event.py:87-100 | the same objects in order, each named after its dress or `NN` |
| EventCommand.CompleteBosses | src/command/event/event.py:102-115 | the same objects in order, each named after its enemy or `NN` |
| EventCommand.Fields | src/command/event/event.py:49-69 | there are at most three fields |
| EventCommand.TitlesOfFields | src/command/event/event.py:49-69 | the field titles are those of the present kinds, in the order events, challenges, bosses |
| EventCommand.FieldsFollowKeys | src/command/event/event.py:49-69 | a kind's field is present exactly when its key is; the count is the number of keys present, and the empty dict gives no field |
| EventCommand.EventsBlock | src/command/event/event.py:48-54 | with `'events'` present, its records are listed under `Events` and each carries its repository name or `NN`; only names change; without it there is no field |
| EventCommand.ChallengesBlock | src/command/event/event.py:56-61 | with `'challenges'` present, its records are listed under `Challenges Revue` and each carries its dress's name or `NN`; only names change |
| EventCommand.BossesBlock | src/command/event/event.py:63-68 | with `'bosses'` present, its records are listed under `Score Attack Revue` and each carries its enemy's name or `NN`; only names change |
| EventCommand.CurrentEventsFields | src/command/event/event.py:47-69 | an error escaping the fetch propagates; otherwise the fields are those of the fetched dict. Every boss carries its enemy's name or `NN`, every challenge that is not also a boss its dress's name or `NN`, and every event in neither list its repository name or `NN`; only names change |
| BirthdayReplies.SpecialMessage | src/command/birthday/birthday.py:42-56 | a name containing `maya` in any case gets the annoyed line, even with `claudine`; otherwise `claudine` gets the bot's own line; otherwise the default |
| BirthdayReplies.SpecialMessageIgnoresCase | src/command/birthday/birthday.py:52-55 | the line does not depend on the case of the name |
| BirthdayReplies.OwnLine | src/command/birthday/birthday.py:52-53 | a name starting with `claudine` in any case and without a y gets `My birthday is` |
| BirthdayReplies.DefaultLine | src/command/birthday/birthday.py:51-55 | a name with neither a c nor a y gets `Her birthday is` |
| BirthdayReplies.ClaudineGetsHerLine | src/command/birthday/birthday.py:52-53 | Claudine Saijo gets `My birthday is` |
| BirthdayReplies.MayaGetsTheAnnoyedLine | src/command/birthday/birthday.py:54-55 | Maya Tendo gets the annoyed line |
| BirthdayReplies.KarenGetsTheDefaultLine | src/command/birthday/birthday.py:51 | Karen Aijo gets the default line |
| BirthdayReplies.BirthdayReply | src/command/birthday/birthday.py:16-39 | no name gives the prompt with no lookup; an unknown name gives the apology with no embed; a found character gives an embed with her name, special line, date, colour and portrait, and the same text |
| BirthdayReplies.EmbedOnlyWhenFound | src/command/birthday/birthday.py:28-39 | an embed is sent exactly when some character matches, and it shows a matching character's name, portrait and colour |
| LegacyBirthdayReplies.SpecialMessage | command/birthday/birthday.py:41-47 | the legacy line is one of the three lines |
| LegacyBirthdayReplies.SpecialMessagesAgree | command/birthday/birthday.py:41-47 | the legacy rule gives every name the same line as the current rule |
| LegacyBirthdayReplies.FixedColorIsClaudines | command/birthday/birthday.py:34 | the fixed embed colour (254, 153, 82) is Claudine's colour |
| LegacyBirthdayReplies.BirthdayReply | command/birthday/birthday.py:16-38 | no name gives the prompt; an unknown name gives the shorter apology with no embed; a found character gets an embed in the fixed colour |
| LegacyBirthdayReplies.LegacyDiffersOnlyInApologyAndColor | command/birthday/birthday.py:28-38 | over the same characters, both commands look up the same name and send an embed in the same cases, with the same text, title, description and portrait |

## Left out

- File and settings I/O. The store file is the abstract `ServerFile`: there is
  no file, or there is one `json.load` rejects, or there is one holding a JSON
  value, and it is writable or not. Logging is not modelled.
- ServerStore.ServerFile.Write: only FileNotFoundError is modelled. A
  TypeError from `json.dump` cannot occur for the dicts the model writes.
- ServerStore.ConvertToServer: a field of the wrong JSON type raises
  TypeError. Python would store the value in the object instead.
- Characters.NewCharacter: a non-int `charaID` raises TypeError. Python would
  store it as is.
- Discord itself:
  - `ctx.send`, embeds, `get_rol`, `get_channel_by_name`, permissions and
    colours are not modelled.
  - The command sees an `Invocation` value and lookup functions.
  - A reply is a value that holds its text and optional embed.
- The HTTP transport. `requests.get` is a function from url to `(ok, body)`,
  and `response.json()` decode errors are not modelled.
  - `get_events`, `get_current_events` and `get_equips` are not part of this
    model: their results, or the failures they raise, are given to the
    repositories.
  - Client.CharactersFrom: a non-dict `chara.json` body that is a non-empty
    list or string raises TypeError, and an empty one gives the empty list.
    A string fails with TypeError at the first subscript. A list is indexed
    with its own items, so the Python raises IndexError, KeyError or
    TypeError depending on the items. No non-empty list succeeds. The model
    collapses those three exceptions into TypeError.
  - `src/karthuria/client.py` defines only `get_characters` and
    `get_character`. The `get_events`, `get_current_events` and `get_equips`
    that the event and equip repositories call are absent from that file.
    The repositories are modelled against the client interface they call,
    which the tests replace with a mock.
- The dress and enemy repositories are total lookup functions returning an
  Option. Their own error handling is not part of this model.
- EventStore.EventRecord: the repository holds event names and ids as values.
  Aliasing between its list and the current-event objects is not modelled.
- Timestamps are opaque integers. `datetime.fromtimestamp` is not modelled.
- The text of the `current_events` embed is not modelled: bullets, end-date
  formatting and the description. The field entries stand for it.
- The date printing of the birthday reply is a parameter `datePhrase`.
  - The current command imports `convert_date_to_str`.
  - The legacy command imports it from `utils/date_utils.py`, which defines
    only `convert_date_to_day_and_month`, so that import fails.
- Text.Lower, CharacterStore.NameMatches, BirthdayReplies.SpecialMessage:
  only ASCII case mapping is modelled. Python's `str.lower` maps Unicode
  letters too, and some of them change length: the Kelvin sign lowers to
  `k`, and `İ` lowers to two characters. A query such as `\u212Aaren`
  finds Karen in Python but nothing in the model.
- LegacyBirthdayReplies.SpecialMessage: its own contract only says which
  lines it can return. The full rule is carried over by
  `SpecialMessagesAgree`.
- The `get_characters` accessors of both character repositories are the
  const field `characters`, which is set once by the constructor.
- `Dress`, `Equip` and `Enemy` are datatypes, so they hold their constructor
  arguments as given.
  - The test fixture `Dress(1, 'Dress Test', 5)` passes three arguments to a
    four-argument constructor.
  - The fixture `Character(104, 'Claudine Saijo', 1, 8, 1, detailed_info)`
    passes `detailed_info` as `portrait_url`.
  - Neither fixture is modelled.
- The `str` of the legacy `School` has the same defect as the current one
  (karthuria/model/school.py:19-20). Only the current table models `str`.
- Not part of this model:
  - the love command (random choices);
  - the initializer singleton;
  - process start-up;
  - the date utilities;
  - the Discord utilities.

## Findings

| source | as written | input that shows it | evidently intended | confidence | as-written member | corrected member |
|---|---|---|---|---|---|---|
| src/karthuria/model/school.py:24-25 | `__str__` returns `self.value`, an int, so `str(school)` raises TypeError | `str(School.SEISHO)`, as in tests/karthuria/test_client.py:29 | `__str__` returns the id as a string, `"1"` for SEISHO | not executed | Schools.School.StrAsWritten, Schools.SeishoStrCheck | Schools.School.Str, Schools.StrInjective |
