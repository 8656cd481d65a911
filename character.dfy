/** `Character` and the plain records `Dress`, `Equip` and `Enemy`. */
module Characters {
  import opened Wrappers
  import opened Text
  import opened Json
  import opened Colors
  import opened Schools

  /** The `'en'` entries of a detailed record, stored as given. */
  datatype Details = Details(description: Json, seiyuu: Json, likes: Json, dislikes: Json)

  /** A constructed character. `details` is None when no truthy detailed record was given. */
  datatype Character = Character(id: int, name: string, birthday: string, school: School,
                                 portrait: string, color: Color, details: Option<Details>)

  datatype Dress = Dress(dressId: int, name: string, rarity: int, character: int)
  datatype Equip = Equip(equipId: int, characters: Option<seq<int>>)
  datatype Enemy = Enemy(enemyId: int, name: string, rarity: int, icon: int)

  /** A JSON number as a Python integer; `true` and `false` count as 1 and 0. */
  function AsInt(v: Json): (r: Option<int>)
    ensures r.Some? <==> v.JInt? || v.JBool?
  {
    match v
    case JInt(i) => Some(i)
    case JBool(b) => Some(if b then 1 else 0)
    case _ => None
  }

  /** Python truthiness of a decoded JSON value. */
  predicate Truthy(v: Json) {
    match v
    case JNull => false
    case JBool(b) => b
    case JInt(i) => i != 0
    case JStr(s) => s != ""
    case JArr(items) => items != []
    case JObj(fields) => fields != []
  }

  /** Days in a month of year 1, which is not a leap year. */
  function DaysInMonth(month: int): (n: int)
    requires 1 <= month <= 12
    ensures 28 <= n <= 31
    ensures month == 2 ==> n == 28
  {
    if month == 2 then 28
    else if month == 4 || month == 6 || month == 9 || month == 11 then 30
    else 31
  }

  /** What `datetime(1, month, day)` accepts. */
  predicate ValidDate(month: int, day: int) {
    1 <= month <= 12 && 1 <= day <= DaysInMonth(month)
  }

  /** The range of a C `int`, which `datetime`'s integer arguments are converted to. */
  const CIntMin := -0x8000_0000
  const CIntMax := 0x7fff_ffff

  predicate InCInt(n: int) {
    CIntMin <= n <= CIntMax
  }

  /** The conversion of one `datetime` argument: TypeError for a non-integer,
      OverflowError for an integer a C `int` cannot hold. */
  function DatePart(v: Json): (r: Result<int>)
    ensures AsInt(v).None? <==> r == Raised(TypeError)
    ensures AsInt(v).Some? && !InCInt(AsInt(v).value) <==> r == Raised(OverflowError)
    ensures r.Ok? <==> AsInt(v).Some? && InCInt(AsInt(v).value)
    ensures r.Ok? ==> r.value == AsInt(v).value
  {
    match AsInt(v)
    case None => Raised(TypeError)
    case Some(n) => if InCInt(n) then Ok(n) else Raised(OverflowError)
  }

  /** `datetime(1, month, day).strftime('%d/%m')` */
  function Birthday(day: int, month: int): (s: string)
    requires ValidDate(month, day)
    ensures |s| == 5 && s[2] == '/'
  {
    Pad2(day) + "/" + Pad2(month)
  }

  /** The day and month a birthday string was printed from. */
  function BirthdayFields(s: string): (int, int)
    requires |s| == 5
  {
    (ParseTwoDigits(s[..2]), ParseTwoDigits(s[3..]))
  }

  /** The birthday string gives back the day and the month, so two characters
      share a birthday string exactly when they share day and month. */
  lemma BirthdayRoundTrip(day: int, month: int)
    requires ValidDate(month, day)
    ensures BirthdayFields(Birthday(day, month)) == (day, month)
  {
    var s := Birthday(day, month);
    assert s[..2] == Pad2(day);
    assert s[3..] == Pad2(month);
  }

  lemma BirthdayInjective(d1: int, m1: int, d2: int, m2: int)
    requires ValidDate(m1, d1) && ValidDate(m2, d2)
    ensures Birthday(d1, m1) == Birthday(d2, m2) <==> d1 == d2 && m1 == m2
  {
    BirthdayRoundTrip(d1, m1);
    BirthdayRoundTrip(d2, m2);
  }

  const PortraitPath := "/res/ui/images/archive/archive_chara/select/chara_portrait_"

  /** The portrait template filled with the base url and the id. */
  function Portrait(portraitUrl: string, id: int): string {
    portraitUrl + PortraitPath + DecimalString(id) + ".png"
  }

  /** Different ids give different portraits under the same base url. */
  lemma PortraitInjective(url: string, a: int, b: int)
    ensures Portrait(url, a) == Portrait(url, b) <==> a == b
  {
    if Portrait(url, a) == Portrait(url, b) {
      var sa, sb := DecimalString(a), DecimalString(b);
      var p := url + PortraitPath;
      assert Portrait(url, a) == p + (sa + ".png");
      assert Portrait(url, b) == p + (sb + ".png");
      assert sa + ".png" == sb + ".png" by {
        assert (p + (sa + ".png"))[|p|..] == sa + ".png";
        assert (p + (sb + ".png"))[|p|..] == sb + ".png";
      }
      assert |sa| == |sb|;
      assert sa == (sa + ".png")[..|sa|];
      assert sb == (sb + ".png")[..|sb|];
      DecimalStringInjective(a, b);
    }
  }

  /** `detailed_info[key]['en']` */
  function EnText(detailed: Json, key: string): Result<Json> {
    var entry :- Subscript(detailed, key);
    Subscript(entry, "en")
  }

  /** The detail fields: absent for a falsy record, otherwise the four `'en'` texts. */
  function DetailsFrom(detailed: Json): (r: Result<Option<Details>>)
    ensures !Truthy(detailed) ==> r == Ok(None)
    ensures Truthy(detailed) ==>
      (r.Ok? <==> EnText(detailed, "introduction").Ok? && EnText(detailed, "cv").Ok? &&
                  EnText(detailed, "likes").Ok? && EnText(detailed, "dislikes").Ok?)
    ensures Truthy(detailed) && r.Ok? ==>
      && r.value.Some?
      && Ok(r.value.value.description) == EnText(detailed, "introduction")
      && Ok(r.value.value.seiyuu) == EnText(detailed, "cv")
      && Ok(r.value.value.likes) == EnText(detailed, "likes")
      && Ok(r.value.value.dislikes) == EnText(detailed, "dislikes")
  {
    if !Truthy(detailed) then Ok(None)
    else
      var description :- EnText(detailed, "introduction");
      var seiyuu :- EnText(detailed, "cv");
      var likes :- EnText(detailed, "likes");
      var dislikes :- EnText(detailed, "dislikes");
      Ok(Some(Details(description, seiyuu, likes, dislikes)))
  }

  /** `Character(chara_id, name, birth_day, birth_month, school_id, portrait_url, detailed_info)`,
      checking in the constructor's order: the date (its month, then its day), the school, the portrait id,
      the colour, then the details. */
  function NewCharacter(charaId: Json, name: Json, birthDay: Json, birthMonth: Json, schoolId: Json,
                        portraitUrl: string, detailed: Json): (r: Result<Character>)
    ensures DatePart(birthMonth).Raised? ==> r == Raised(DatePart(birthMonth).error)
    ensures DatePart(birthMonth).Ok? && DatePart(birthDay).Raised? ==> r == Raised(DatePart(birthDay).error)
    ensures (DatePart(birthDay).Ok? && DatePart(birthMonth).Ok? &&
             !ValidDate(AsInt(birthMonth).value, AsInt(birthDay).value)) ==> r == Raised(ValueError)
    ensures (AsInt(birthDay).Some? && AsInt(birthMonth).Some? &&
             ValidDate(AsInt(birthMonth).value, AsInt(birthDay).value) &&
             (AsInt(schoolId).None? || FromId(AsInt(schoolId).value).None?)) ==> r == Raised(ValueError)
    ensures (AsInt(birthDay).Some? && AsInt(birthMonth).Some? &&
             ValidDate(AsInt(birthMonth).value, AsInt(birthDay).value) &&
             AsInt(schoolId).Some? && FromId(AsInt(schoolId).value).Some? && charaId.JInt? &&
             (!name.JStr? || FromName(name.s).None?)) ==> r == Raised(ValueError)
    ensures r.Ok? ==>
      && AsInt(birthDay).Some? && AsInt(birthMonth).Some?
      && ValidDate(AsInt(birthMonth).value, AsInt(birthDay).value)
      && r.value.birthday == Birthday(AsInt(birthDay).value, AsInt(birthMonth).value)
      && Some(r.value.school) == FromId(AsInt(schoolId).GetOr(0))
      && charaId == JInt(r.value.id)
      && name == JStr(r.value.name) && r.value.color.Name() == r.value.name
      && r.value.portrait == Portrait(portraitUrl, r.value.id)
      && Ok(r.value.details) == DetailsFrom(detailed)
    ensures r.Ok? <==>
      && AsInt(birthDay).Some? && AsInt(birthMonth).Some?
      && ValidDate(AsInt(birthMonth).value, AsInt(birthDay).value)
      && AsInt(schoolId).Some? && FromId(AsInt(schoolId).value).Some?
      && charaId.JInt?
      && name.JStr? && FromName(name.s).Some?
      && DetailsFrom(detailed).Ok?
  {
    var month :- DatePart(birthMonth);
    var day :- DatePart(birthDay);
    if !ValidDate(month, day) then Raised(ValueError)
    else
      var birthday := Birthday(day, month);
      var schoolValue := AsInt(schoolId);
      if schoolValue.None? || FromId(schoolValue.value).None? then Raised(ValueError)
      else if !charaId.JInt? then Raised(TypeError)
      else
        var color := if name.JStr? then FromName(name.s) else None;
        if color.None? then Raised(ValueError)
        else
          var details :- DetailsFrom(detailed);
          Ok(Character(charaId.i, name.s, birthday, FromId(schoolValue.value).value,
                       Portrait(portraitUrl, charaId.i), color.value, details))
  }

  /** 29 February does not exist in year 1, so such a birthday is refused. */
  lemma LeapDayRejected(charaId: Json, name: Json, schoolId: Json, portraitUrl: string, detailed: Json)
    ensures NewCharacter(charaId, name, JInt(29), JInt(2), schoolId, portraitUrl, detailed) == Raised(ValueError)
  {
  }

  /** The repository fixture: Claudine Saijo, born 1 August, of Seisho. */
  lemma ClaudineFixture()
    ensures var r := NewCharacter(JInt(104), JStr("Claudine Saijo"), JInt(1), JInt(8), JInt(1), "", JNull);
      && r.Ok?
      && r.value.birthday == "01/08"
      && r.value.school == Seisho
      && r.value.color == Claudine && r.value.color.Rgb() == (254, 153, 82)
      && r.value.details.None?
  {
    NameRoundTrip(Claudine);
    var b := Birthday(1, 8);
    assert b == Pad2(1) + "/" + Pad2(8);
    assert Pad2(1) == "01" && Pad2(8) == "08";
  }
}
