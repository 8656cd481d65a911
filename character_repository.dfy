/** `CharacterRepository`: the characters loaded once from the client, looked up
    by name and by birthday. */
module CharacterStore {
  import opened Wrappers
  import opened Text
  import opened Json
  import opened Characters
  import opened Client

  /** `name.lower() in character.name.lower()` */
  predicate NameMatches(query: string, c: Character) {
    Contains(Lower(c.name), Lower(query))
  }

  /** The comprehension of `get_character_by_name`: the matching characters in list order. */
  function Matching(characters: seq<Character>, query: string): (r: seq<Character>)
    ensures |r| <= |characters|
    ensures forall c :: c in r <==> c in characters && NameMatches(query, c)
  {
    if characters == [] then []
    else
      var rest := Matching(characters[1..], query);
      if NameMatches(query, characters[0]) then [characters[0]] + rest else rest
  }

  /** The first comprehension result is the first matching character. */
  lemma {:induction false} MatchingStartsWithFirst(characters: seq<Character>, query: string, k: int)
    requires 0 <= k < |characters| && NameMatches(query, characters[k])
    requires forall j :: 0 <= j < k ==> !NameMatches(query, characters[j])
    ensures |Matching(characters, query)| > 0 && Matching(characters, query)[0] == characters[k]
  {
    if k > 0 {
      MatchingStartsWithFirst(characters[1..], query, k - 1);
    }
  }

  /** `get_character_by_name`: the first character, in list order, whose
      lower-cased name contains the lower-cased query; None when there is none. */
  function FirstByName(characters: seq<Character>, query: string): (r: Option<Character>)
    ensures r.None? <==> forall i :: 0 <= i < |characters| ==> !NameMatches(query, characters[i])
    ensures r.Some? ==> exists k :: 0 <= k < |characters| && characters[k] == r.value &&
                                    NameMatches(query, characters[k]) &&
                                    forall j :: 0 <= j < k ==> !NameMatches(query, characters[j])
  {
    var result := Matching(characters, query);
    MatchingHead(characters, query);
    if |result| > 0 then Some(result[0]) else None
  }

  /** The comprehension is empty when nothing matches, and otherwise starts with
      the character at the first matching index. */
  lemma {:induction false} MatchingHead(characters: seq<Character>, query: string)
    ensures |Matching(characters, query)| == 0 ==>
      forall i :: 0 <= i < |characters| ==> !NameMatches(query, characters[i])
    ensures |Matching(characters, query)| > 0 ==>
      exists k :: 0 <= k < |characters| && characters[k] == Matching(characters, query)[0] &&
                  NameMatches(query, characters[k]) &&
                  forall j :: 0 <= j < k ==> !NameMatches(query, characters[j])
  {
    if characters != [] {
      MatchingHead(characters[1..], query);
      if !NameMatches(query, characters[0]) && |Matching(characters[1..], query)| > 0 {
        var rest := characters[1..];
        var k :| 0 <= k < |rest| && rest[k] == Matching(rest, query)[0] &&
                 NameMatches(query, rest[k]) &&
                 forall j :: 0 <= j < k ==> !NameMatches(query, rest[j]);
        assert characters[k + 1] == rest[k];
        forall j | 0 <= j < k + 1
          ensures !NameMatches(query, characters[j])
        {
          if j > 0 {
            assert characters[j] == rest[j - 1];
          }
        }
      } else if !NameMatches(query, characters[0]) {
        forall i | 0 <= i < |characters|
          ensures !NameMatches(query, characters[i])
        {
          if i > 0 {
            assert characters[i] == characters[1..][i - 1];
          }
        }
      }
    }
  }

  /** The empty query is contained in every name: it finds the first character. */
  lemma EmptyQueryFindsFirst(characters: seq<Character>)
    requires |characters| > 0
    ensures FirstByName(characters, "") == Some(characters[0])
  {
    ContainsEmpty(Lower(characters[0].name));
    assert NameMatches("", characters[0]);
    MatchingStartsWithFirst(characters, "", 0);
  }

  /** The lookup ignores the case of the query. */
  lemma QueryCaseIgnored(characters: seq<Character>, query: string)
    ensures FirstByName(characters, Lower(query)) == FirstByName(characters, query)
  {
    LowerIdempotent(query);
    assert forall c :: NameMatches(Lower(query), c) == NameMatches(query, c);
    assert Matching(characters, Lower(query)) == Matching(characters, query) by {
      MatchingQueryCase(characters, query);
    }
  }

  lemma {:induction false} MatchingQueryCase(characters: seq<Character>, query: string)
    ensures Matching(characters, Lower(query)) == Matching(characters, query)
  {
    LowerIdempotent(query);
    if characters != [] {
      MatchingQueryCase(characters[1..], query);
    }
  }

  /** The first character whose birthday string equals `date`. */
  function FirstBornOn(characters: seq<Character>, date: string): (r: Option<Character>)
    ensures r.None? <==> forall i :: 0 <= i < |characters| ==> characters[i].birthday != date
    ensures r.Some? ==> exists k :: 0 <= k < |characters| && characters[k] == r.value &&
                                    characters[k].birthday == date &&
                                    forall j :: 0 <= j < k ==> characters[j].birthday != date
  {
    if characters == [] then None
    else if characters[0].birthday == date then Some(characters[0])
    else
      var r := FirstBornOn(characters[1..], date);
      if r.Some? then
        var k :| 0 <= k < |characters[1..]| && characters[1..][k] == r.value &&
                 characters[1..][k].birthday == date &&
                 forall j :: 0 <= j < k ==> characters[1..][j].birthday != date;
        assert characters[k + 1] == r.value;
        assert forall j :: 0 <= j < k + 1 ==> characters[j].birthday != date by {
          forall j | 0 < j < k + 1 ensures characters[j].birthday != date {
            assert characters[j] == characters[1..][j - 1];
          }
        }
        r
      else
        assert forall j :: 0 < j < |characters| ==> characters[j] == characters[1..][j - 1];
        r
  }

  /** Every birthday a constructed character carries is the five-character `DD/MM`
      form, so a date written otherwise, such as `'1/8'`, matches no character. */
  lemma UnpaddedDateNeverMatches(characters: seq<Character>, date: string)
    requires forall i :: 0 <= i < |characters| ==> |characters[i].birthday| == 5
    requires |date| != 5
    ensures FirstBornOn(characters, date).None?
  {
  }

  /** The 1 August birthday is stored as `'01/08'`, never as `'1/8'`. */
  lemma FirstOfAugustIsPadded()
    ensures Birthday(1, 8) == "01/08"
    ensures Birthday(1, 8) != "1/8"
  {
    assert Pad2(1) == "01" && Pad2(8) == "08";
  }

  class CharacterRepository {
    const client: KarthuriaClient
    /** Loaded once by the constructor; `get_characters` returns it as it is. */
    const characters: seq<Character>

    constructor FromLoaded(client: KarthuriaClient, characters: seq<Character>)
      ensures this.client == client && this.characters == characters
    {
      this.client := client;
      this.characters := characters;
    }

    /** `CharacterRepository(client)`: loads the characters through the client. */
    static method Open(client: KarthuriaClient) returns (r: Result<CharacterRepository>)
      ensures var loaded := CatchHttpError(CharactersFrom(client.get(client.endpoint + CharactersPath)), []);
        && (r.Ok? <==> loaded.Ok?)
        && (r.Ok? ==> r.value.client == client && r.value.characters == loaded.value)
        && (r.Raised? ==> r.error == loaded.error)
    {
      var fetched := GetCharacters(client);
      var loaded := CatchHttpError(fetched, []);
      if loaded.Raised? {
        return Raised(loaded.error);
      }
      var repository := new CharacterRepository.FromLoaded(client, loaded.value);
      return Ok(repository);
    }

    function GetCharacterByName(name: string): Option<Character> {
      FirstByName(characters, name)
    }

    /** `get_character_birthday(date)`: the scan stops at the first character
      whose birthday equals `date` and fetches that character's details by id;
      with no match nothing is fetched and the result is None. `fetchedId` is
      the id the detail fetch was made with. */
    method GetCharacterBirthday(date: string) returns (r: Result<Option<Character>>, fetchedId: Option<int>)
      ensures FirstBornOn(characters, date).None? ==> fetchedId.None? && r == Ok(None)
      ensures FirstBornOn(characters, date).Some? ==>
        var id := FirstBornOn(characters, date).value.id;
        && fetchedId == Some(id)
        && r == (match GetCharacter(client, id)
                 case Ok(c) => Ok(Some(c))
                 case Raised(e) => Raised(e))
    {
      var i := 0;
      while i < |characters|
        invariant 0 <= i <= |characters|
        invariant FirstBornOn(characters, date) == FirstBornOn(characters[i..], date)
      {
        assert characters[i..][1..] == characters[i + 1..];
        if characters[i].birthday == date {
          var detailed := GetCharacter(client, characters[i].id);
          fetchedId := Some(characters[i].id);
          match detailed
          case Ok(c) =>
            return Ok(Some(c)), fetchedId;
          case Raised(e) =>
            return Raised(e), fetchedId;
        }
        i := i + 1;
      }
      return Ok(None), None;
    }
  }
}
