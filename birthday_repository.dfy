/** `BirthdayRepository`, the older character store behind the legacy birthday
    command: it reads the API endpoint from the settings file and looks
    characters up by name like `CharacterRepository`. */
module BirthdayStore {
  import opened Wrappers
  import opened Characters
  import opened Client
  import opened CharacterStore

  class BirthdayRepository {
    const client: KarthuriaClient
    /** Loaded once by the constructor; `get_characters` returns it as it is. */
    const characters: seq<Character>

    constructor FromLoaded(client: KarthuriaClient, characters: seq<Character>)
      ensures this.client == client && this.characters == characters
    {
      this.client := client;
      this.characters := characters;
    }

    /** `BirthdayRepository()`: the client is built from the `karthuria_api`
        setting, which is given here as the client; an HTTPError while loading
        leaves the list empty and any other exception escapes. */
    static method Open(client: KarthuriaClient) returns (r: Result<BirthdayRepository>)
      ensures var loaded := CatchHttpError(CharactersFrom(client.get(client.endpoint + CharactersPath)), []);
        && (r.Ok? <==> loaded.Ok?)
        && (r.Ok? ==> fresh(r.value) && r.value.client == client && r.value.characters == loaded.value)
        && (r.Raised? ==> r.error == loaded.error)
    {
      var fetched := GetCharacters(client);
      var loaded := CatchHttpError(fetched, []);
      if loaded.Raised? {
        return Raised(loaded.error);
      }
      var repository := new BirthdayRepository.FromLoaded(client, loaded.value);
      return Ok(repository);
    }

    /** The first case-insensitive substring match, as in `CharacterRepository`. */
    function GetCharacterByName(name: string): Option<Character> {
      FirstByName(characters, name)
    }
  }
}
