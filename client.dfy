/** `KarthuriaClient`: the two calls to the Karthuria API and `convert_to_character`. */
module Client {
  import opened Wrappers
  import opened Text
  import opened Json
  import opened Characters
  import opened Schools

  /** What `requests.get` gives back: whether it is `ok`, and the body `json()` decodes. */
  datatype Response = Response(ok: bool, body: Json)

  /** `KarthuriaClient(endpoint)`; `get` stands for `requests.get`. */
  datatype KarthuriaClient = KarthuriaClient(endpoint: string, get: string -> Response)

  const CharactersPath := "/chara.json"

  /** `'/chara/{0}.json'.format(chara_id)` */
  function CharacterPath(charaId: int): string {
    "/chara/" + DecimalString(charaId) + ".json"
  }

  /** Different ids are fetched from different paths. */
  lemma CharacterPathInjective(a: int, b: int)
    ensures CharacterPath(a) == CharacterPath(b) <==> a == b
  {
    if CharacterPath(a) == CharacterPath(b) {
      var sa, sb := DecimalString(a), DecimalString(b);
      assert CharacterPath(a) == "/chara/" + (sa + ".json");
      assert CharacterPath(b) == "/chara/" + (sb + ".json");
      assert sa + ".json" == sb + ".json" by {
        assert ("/chara/" + (sa + ".json"))[7..] == sa + ".json";
        assert ("/chara/" + (sb + ".json"))[7..] == sb + ".json";
      }
      assert sa == (sa + ".json")[..|sa|];
      assert sb == (sb + ".json")[..|sb|];
      DecimalStringInjective(a, b);
    }
  }

  /** The keys of a decoded JSON object in iteration order: each key once, where it first appears. */
  function DictKeys(fields: seq<(string, Json)>): (keys: seq<string>)
    ensures forall k :: k in keys <==> Get(fields, k).Some?
    ensures forall i, j :: 0 <= i < j < |keys| ==> keys[i] != keys[j]
  {
    if fields == [] then []
    else
      var rest := DictKeys(fields[..|fields| - 1]);
      var key := fields[|fields| - 1].0;
      if key in rest then rest else rest + [key]
  }

  /** A key is listed exactly when some field carries it. */
  lemma KeyListed(fields: seq<(string, Json)>, k: string)
    ensures k in DictKeys(fields) <==> exists p :: 0 <= p < |fields| && fields[p].0 == k
  {
    GetFound(fields, k);
  }

  /** The keys come in the order of their first appearance: a key listed
      before another appears in the fields before any occurrence of the other. */
  lemma {:induction false} DictKeysInFirstOrder(fields: seq<(string, Json)>, i: int, j: int, q: int)
    requires 0 <= i < j < |DictKeys(fields)|
    requires 0 <= q < |fields| && fields[q].0 == DictKeys(fields)[j]
    ensures exists p :: 0 <= p < q && fields[p].0 == DictKeys(fields)[i]
  {
    var n := |fields| - 1;
    var init := fields[..n];
    var rest := DictKeys(init);
    var key := fields[n].0;
    assert forall m :: 0 <= m < n ==> init[m] == fields[m];
    if j < |rest| {
      var q' := q;
      if q == n {
        KeyListed(init, rest[j]);
        var r :| 0 <= r < n && init[r].0 == rest[j];
        q' := r;
      }
      DictKeysInFirstOrder(init, i, j, q');
    } else {
      KeyListed(init, rest[i]);
      KeyListed(init, key);
    }
  }

  /** Python's `key in value` for a decoded JSON value: a dict tests its keys,
      a list its items, a string its substrings; None, numbers and booleans raise TypeError. */
  function In(key: string, v: Json): (r: Result<bool>)
    ensures v.JObj? ==> r == Ok(Get(v.fields, key).Some?)
    ensures v.JStr? ==> r == Ok(Contains(v.s, key))
    ensures (v.JNull? || v.JInt? || v.JBool?) <==> r == Raised(TypeError)
  {
    match v
    case JObj(fields) => Ok(Get(fields, key).Some?)
    case JArr(items) => Ok(JStr(key) in items)
    case JStr(s) => Ok(Contains(s, key))
    case _ => Raised(TypeError)
  }

  /** `info['name_ruby']['ja']` */
  function RubyName(info: Json): Result<Json> {
    var ruby :- Subscript(info, "name_ruby");
    Subscript(ruby, "ja")
  }

  /** `convert_to_character(basic_info, detailed_info)`: the name is read from
      `basic_info` when it has a `'name_ruby'` entry and from `detailed_info`
      otherwise; the portrait base url is the empty string. */
  function ConvertToCharacter(basic: Json, detailed: Json): (r: Result<Character>)
    ensures r.Ok? ==> In("name_ruby", basic).Ok?
    ensures r.Ok? && In("name_ruby", basic) == Ok(true) ==> RubyName(basic) == Ok(JStr(r.value.name))
    ensures r.Ok? && In("name_ruby", basic) == Ok(false) ==> RubyName(detailed) == Ok(JStr(r.value.name))
    ensures r.Ok? ==> Subscript(basic, "charaID") == Ok(JInt(r.value.id))
    ensures r.Ok? ==> r.value.portrait == Portrait("", r.value.id)
    ensures r.Ok? ==>
      var day, month, school := Subscript(basic, "birth_day"), Subscript(basic, "birth_month"),
                                Subscript(basic, "school_id");
      && day.Ok? && month.Ok? && school.Ok?
      && AsInt(day.value).Some? && AsInt(month.value).Some?
      && ValidDate(AsInt(month.value).value, AsInt(day.value).value)
      && r.value.birthday == Birthday(AsInt(day.value).value, AsInt(month.value).value)
      && Some(r.value.school) == FromId(AsInt(school.value).GetOr(0))
    ensures r.Ok? ==> Ok(r.value.details) == DetailsFrom(detailed)
    ensures !basic.JObj? ==> r.Raised?
  {
    var hasRuby :- In("name_ruby", basic);
    var name :- if hasRuby then RubyName(basic) else RubyName(detailed);
    var charaId :- Subscript(basic, "charaID");
    var birthDay :- Subscript(basic, "birth_day");
    var birthMonth :- Subscript(basic, "birth_month");
    var schoolId :- Subscript(basic, "school_id");
    NewCharacter(charaId, name, birthDay, birthMonth, schoolId, "", detailed)
  }

  /** A basic record without a `'name_ruby'` entry and no detailed record raises
      TypeError: `None['name_ruby']`. */
  lemma NoNameWithoutDetails(fields: seq<(string, Json)>)
    requires Get(fields, "name_ruby").None?
    ensures ConvertToCharacter(JObj(fields), JNull) == Raised(TypeError)
  {
  }

  /** Python's `value != 0` is false: the integer zero, or `false`. */
  predicate IsZero(v: Json) {
    v == JInt(0) || v == JBool(false)
  }

  /** `characters_json[character]['basicInfo']` */
  function BasicInfo(characters: Json, key: string): Result<Json> {
    var entry :- Subscript(characters, key);
    Subscript(entry, "basicInfo")
  }

  /** `basic_info['birth_day']` of one entry. */
  function BirthDay(characters: Json, key: string): Result<Json> {
    var basic :- BasicInfo(characters, key);
    Subscript(basic, "birth_day")
  }

  /** One entry of `chara.json`: no character when its `birth_day` is zero,
      otherwise the one `convert_to_character(basic_info)` builds. */
  function Entry(characters: Json, key: string): (r: Result<seq<Character>>)
    ensures r.Ok? ==> |r.value| <= 1
    ensures r.Ok? ==> BirthDay(characters, key).Ok? && (r.value == [] <==> IsZero(BirthDay(characters, key).value))
  {
    var basic :- BasicInfo(characters, key);
    var birthDay :- Subscript(basic, "birth_day");
    if IsZero(birthDay) then Ok([])
    else
      var c :- ConvertToCharacter(basic, JNull);
      Ok([c])
  }

  /** The loop of `get_characters` over the keys from the first: the characters
      in key order, or the first exception an entry raises. */
  function Collect(characters: Json, keys: seq<string>): Result<seq<Character>> {
    if keys == [] then Ok([])
    else
      var head :- Entry(characters, keys[0]);
      Prepend(head, Collect(characters, keys[1..]))
  }

  /** What `get_characters` returns for a response: HTTPError when it is not ok;
      the characters of a dict body; nothing for an empty list or string; and
      TypeError for None, a number, a boolean or any other list or string. */
  function CharactersFrom(response: Response): Result<seq<Character>> {
    if !response.ok then Raised(HttpError)
    else match response.body
      case JObj(fields) => Collect(response.body, DictKeys(fields))
      case JArr(items) => if items == [] then Ok([]) else Raised(TypeError)
      case JStr(s) => if s == [] then Ok([]) else Raised(TypeError)
      case _ => Raised(TypeError)
  }

  lemma CollectStep(characters: Json, keys: seq<string>, i: int)
    requires 0 <= i < |keys|
    ensures Collect(characters, keys[i..]) ==
      match Entry(characters, keys[i])
      case Ok(head) => Prepend(head, Collect(characters, keys[i + 1..]))
      case Raised(e) => Raised(e)
  {
    assert keys[i..][0] == keys[i];
    assert keys[i..][1..] == keys[i + 1..];
  }

  /** `get_characters()`: fetches `chara.json` and keeps, in key order, the
      characters whose `birth_day` is not zero. */
  method GetCharacters(client: KarthuriaClient) returns (r: Result<seq<Character>>)
    ensures r == CharactersFrom(client.get(client.endpoint + CharactersPath))
  {
    var response := client.get(client.endpoint + CharactersPath);
    if !response.ok {
      return Raised(HttpError);
    }
    if !response.body.JObj? {
      return CharactersFrom(response);
    }
    var charactersJson := response.body;
    var keys := DictKeys(charactersJson.fields);
    var list: seq<Character> := [];
    var i := 0;
    PrependNothing(Collect(charactersJson, keys));
    while i < |keys|
      invariant 0 <= i <= |keys|
      invariant Prepend(list, Collect(charactersJson, keys[i..])) == Collect(charactersJson, keys)
    {
      CollectStep(charactersJson, keys, i);
      var entry := Subscript(charactersJson, keys[i]);
      if entry.Raised? {
        return Raised(entry.error);
      }
      var basicInfo := Subscript(entry.value, "basicInfo");
      if basicInfo.Raised? {
        return Raised(basicInfo.error);
      }
      var birthDay := Subscript(basicInfo.value, "birth_day");
      if birthDay.Raised? {
        return Raised(birthDay.error);
      }
      if !IsZero(birthDay.value) {
        var character := ConvertToCharacter(basicInfo.value, JNull);
        if character.Raised? {
          return Raised(character.error);
        }
        PrependAppend(list, character.value, Collect(charactersJson, keys[i + 1..]));
        list := list + [character.value];
      } else {
        PrependNothing(Collect(charactersJson, keys[i + 1..]));
      }
      i := i + 1;
    }
    PrependOk(list, []);
    return Ok(list);
  }

  /** The loaded list holds exactly the characters of the entries whose
      `birth_day` is not zero: every character comes from such an entry, and
      every entry was read without an exception and contributed its character. */
  lemma {:induction false} CollectKeepsBorn(characters: Json, keys: seq<string>)
    ensures Collect(characters, keys).Ok? ==>
      var xs := Collect(characters, keys).value;
      && |xs| <= |keys|
      && (forall c :: c in xs ==> exists k :: k in keys && Entry(characters, k) == Ok([c]))
      && (forall k :: k in keys ==> Entry(characters, k).Ok? &&
                                    forall c :: c in Entry(characters, k).value ==> c in xs)
    ensures Collect(characters, keys).Raised? ==>
      exists k :: k in keys && Entry(characters, k) == Raised(Collect(characters, keys).error)
  {
    if keys != [] {
      CollectKeepsBorn(characters, keys[1..]);
      var head := Entry(characters, keys[0]);
      if head.Ok? {
        var rest := Collect(characters, keys[1..]);
        if rest.Ok? {
          var xs := Collect(characters, keys).value;
          assert xs == head.value + rest.value;
          forall c | c in xs
            ensures exists k :: k in keys && Entry(characters, k) == Ok([c])
          {
            if c in head.value {
              assert head.value == [c];
              assert keys[0] in keys;
            } else {
              assert c in rest.value;
              var k :| k in keys[1..] && Entry(characters, k) == Ok([c]);
              assert k in keys;
            }
          }
          forall k | k in keys
            ensures Entry(characters, k).Ok? && forall c :: c in Entry(characters, k).value ==> c in xs
          {
            if k != keys[0] {
              assert k in keys[1..];
            }
          }
        }
      } else {
        assert keys[0] in keys;
      }
    }
  }

  /** `get_character(chara_id)`: fetches `chara/<id>.json` and converts its
      `basicInfo` with its `info` as the detailed record. */
  function GetCharacter(client: KarthuriaClient, charaId: int): (r: Result<Character>)
    ensures !client.get(client.endpoint + CharacterPath(charaId)).ok ==> r == Raised(HttpError)
    ensures r.Ok? ==>
      var body := client.get(client.endpoint + CharacterPath(charaId)).body;
      && Subscript(body, "basicInfo").Ok? && Subscript(body, "info").Ok?
      && Ok(r.value.details) == DetailsFrom(Subscript(body, "info").value)
  {
    var response := client.get(client.endpoint + CharacterPath(charaId));
    if !response.ok then Raised(HttpError)
    else
      var basicInfo :- Subscript(response.body, "basicInfo");
      var info :- Subscript(response.body, "info");
      ConvertToCharacter(basicInfo, info)
  }

  /** The `chara.json` sample: Claudine Saijo (id 104), and an entry 803 with no birthday. */
  function CharactersSample(): Json {
    var ruby := JObj([("ja", JStr("Claudine Saijo")), ("en", JStr(""))]);
    var unnamed := JObj([("ja", JStr("")), ("en", JStr(""))]);
    JObj([
      ("104", JObj([("basicInfo", JObj([("charaID", JInt(104)), ("birth_day", JInt(1)), ("birth_month", JInt(8)),
                                        ("school_id", JInt(1)), ("name_ruby", ruby)]))])),
      ("803", JObj([("basicInfo", JObj([("charaID", JInt(803)), ("birth_day", JInt(0)), ("birth_month", JInt(0)),
                                        ("school_id", JInt(0)), ("name_ruby", unnamed)]))]))])
  }

  function ClaudineBasic(): seq<(string, Json)> {
    [("charaID", JInt(104)), ("birth_day", JInt(1)), ("birth_month", JInt(8)),
     ("school_id", JInt(1)), ("name_ruby", JObj([("ja", JStr("Claudine Saijo")), ("en", JStr(""))]))]
  }

  lemma ClaudineConverts()
    ensures ConvertToCharacter(JObj(ClaudineBasic()), JNull) ==
            NewCharacter(JInt(104), JStr("Claudine Saijo"), JInt(1), JInt(8), JInt(1), "", JNull)
  {
    var bf := ClaudineBasic();
    GetLast(bf, "name_ruby", 4);
    GetLast(bf, "charaID", 0);
    GetLast(bf, "birth_day", 1);
    GetLast(bf, "birth_month", 2);
    GetLast(bf, "school_id", 3);
    var ruby := [("ja", JStr("Claudine Saijo")), ("en", JStr(""))];
    GetLast(ruby, "ja", 0);
  }

  lemma SampleKeys()
    ensures DictKeys(CharactersSample().fields) == ["104", "803"]
  {
    var f := CharactersSample().fields;
    assert f[..1][..0] == [];
    assert DictKeys(f[..1]) == ["104"];
  }

  lemma SampleBasic104()
    ensures BasicInfo(CharactersSample(), "104") == Ok(JObj(ClaudineBasic()))
  {
    var f := CharactersSample().fields;
    GetLast(f, "104", 0);
    GetLast(f[0].1.fields, "basicInfo", 0);
  }

  lemma SampleEntry803()
    ensures Entry(CharactersSample(), "803") == Ok([])
  {
    var f := CharactersSample().fields;
    GetLast(f, "803", 1);
    var e2 := f[1].1.fields;
    GetLast(e2, "basicInfo", 0);
    GetLast(e2[0].1.fields, "birth_day", 1);
  }

  /** An entry whose `basicInfo` is known and whose `birth_day` is not zero
      yields the character that record converts to. */
  lemma EntryOfBasic(characters: Json, key: string, basic: Json)
    requires BasicInfo(characters, key) == Ok(basic)
    requires Subscript(basic, "birth_day").Ok? && !IsZero(Subscript(basic, "birth_day").value)
    requires ConvertToCharacter(basic, JNull).Ok?
    ensures Entry(characters, key) == Ok([ConvertToCharacter(basic, JNull).value])
  {
  }

  /** The Claudine Saijo the sample's entry 104 converts to. */
  function SampleClaudine(): Character {
    var r := NewCharacter(JInt(104), JStr("Claudine Saijo"), JInt(1), JInt(8), JInt(1), "", JNull);
    if r.Ok? then r.value else Character(0, "", "", Schools.Seisho, "", Colors.Claudine, None)
  }

  lemma SampleEntry104()
    ensures Entry(CharactersSample(), "104") == Ok([SampleClaudine()])
  {
    var basic := JObj(ClaudineBasic());
    assert BasicInfo(CharactersSample(), "104") == Ok(basic) by {
      SampleBasic104();
    }
    assert Subscript(basic, "birth_day") == Ok(JInt(1)) by {
      GetLast(ClaudineBasic(), "birth_day", 1);
    }
    assert ConvertToCharacter(basic, JNull) == Ok(SampleClaudine()) by {
      ClaudineConverts();
      ClaudineFixture();
    }
    EntryOfBasic(CharactersSample(), "104", basic);
  }

  /** On the sample, only Claudine Saijo is kept, with her school and birthday. */
  lemma CharactersSampleKeepsOne()
    ensures CharactersFrom(Response(true, CharactersSample())) == Ok([SampleClaudine()])
    ensures SampleClaudine().name == "Claudine Saijo"
    ensures SampleClaudine().school == Schools.Seisho
    ensures SampleClaudine().birthday == "01/08"
  {
    CollectSample();
    ClaudineFixture();
  }

  lemma CollectSample()
    ensures CharactersFrom(Response(true, CharactersSample())) == Ok([SampleClaudine()])
  {
    var body := CharactersSample();
    assert CharactersFrom(Response(true, body)) == Collect(body, ["104", "803"]) by {
      SampleKeys();
    }
    SampleEntry803();
    SampleEntry104();
    CollectPair(body, "104", "803", SampleClaudine());
  }

  lemma CollectPair(characters: Json, k1: string, k2: string, c: Character)
    requires Entry(characters, k1) == Ok([c]) && Entry(characters, k2) == Ok([])
    ensures Collect(characters, [k1, k2]) == Ok([c])
  {
    var keys := [k1, k2];
    CollectStep(characters, keys, 1);
    assert keys[2..] == [];
    assert keys[1..] == [k2];
    assert Collect(characters, keys[1..]) == Prepend([], Ok([]));
    PrependNothing<Character>(Ok([]));
    CollectStep(characters, keys, 0);
    assert keys[0..] == keys;
    PrependOk([c], []);
  }
}
