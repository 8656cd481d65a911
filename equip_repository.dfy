/** `EquipRepository`: the equips loaded once from the client, filtered by character. */
module EquipStore {
  import opened Wrappers
  import opened Characters

  /** `equip.characters is not None and character_id in equip.characters` */
  predicate WornBy(equip: Equip, characterId: int) {
    equip.characters.Some? && characterId in equip.characters.value
  }

  /** The comprehension: the equips worn by the character, in list order. */
  function EquipsOf(equips: seq<Equip>, characterId: int): (r: seq<Equip>)
    ensures |r| <= |equips|
    ensures forall e :: e in r <==> e in equips && WornBy(e, characterId)
  {
    if equips == [] then []
    else
      var rest := EquipsOf(equips[1..], characterId);
      if WornBy(equips[0], characterId) then [equips[0]] + rest else rest
  }

  /** The filter keeps the order of its input: filtering a concatenation is
      concatenating the filtered parts. */
  lemma {:induction false} EquipsOfAppend(a: seq<Equip>, b: seq<Equip>, characterId: int)
    ensures EquipsOf(a + b, characterId) == EquipsOf(a, characterId) + EquipsOf(b, characterId)
  {
    if a == [] {
      assert a + b == b;
    } else {
      assert (a + b)[1..] == a[1..] + b;
      EquipsOfAppend(a[1..], b, characterId);
    }
  }

  /** `get_equips_by_character_id`: the matching equips, or None rather than an empty list. */
  function EquipsByCharacterId(equips: seq<Equip>, characterId: int): (r: Option<seq<Equip>>)
    ensures r.None? <==> forall i :: 0 <= i < |equips| ==> !WornBy(equips[i], characterId)
    ensures r.Some? ==> r.value == EquipsOf(equips, characterId) && |r.value| > 0
  {
    var result := EquipsOf(equips, characterId);
    if |result| > 0 then
      assert result[0] in result;
      Some(result)
    else
      assert forall i :: 0 <= i < |equips| ==> equips[i] !in result;
      None
  }

  /** An equip with no character list is never found. */
  lemma UnassignedNeverFound(equips: seq<Equip>, equipId: int, characterId: int)
    ensures EquipsOf(equips + [Equip(equipId, None)], characterId) == EquipsOf(equips, characterId)
  {
    EquipsOfAppend(equips, [Equip(equipId, None)], characterId);
    assert EquipsOf([Equip(equipId, None)], characterId) == [];
    assert EquipsOf(equips, characterId) + [] == EquipsOf(equips, characterId);
  }

  /** `client.get_equips()` is not part of this model: its result is given to `Open`. */
  class EquipRepository {
    const equips: seq<Equip>

    constructor FromLoaded(equips: seq<Equip>)
      ensures this.equips == equips
    {
      this.equips := equips;
    }

    /** `EquipRepository(client)`: an HTTPError while loading leaves no equips,
        so every query then gives None. */
    static method Open(fetched: Result<seq<Equip>>) returns (r: Result<EquipRepository>)
      ensures r.Ok? <==> CatchHttpError(fetched, []).Ok?
      ensures r.Ok? ==> fresh(r.value) && r.value.equips == CatchHttpError(fetched, []).value
      ensures r.Raised? ==> r.error == fetched.error
      ensures fetched == Raised(HttpError) ==> r.Ok? && forall id :: EquipsByCharacterId(r.value.equips, id).None?
    {
      var loaded := CatchHttpError(fetched, []);
      if loaded.Raised? {
        return Raised(loaded.error);
      }
      var repository := new EquipRepository.FromLoaded(loaded.value);
      return Ok(repository);
    }

    function GetEquipsByCharacterId(characterId: int): Option<seq<Equip>> {
      EquipsByCharacterId(equips, characterId)
    }
  }
}
