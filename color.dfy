/** `Color`: the representative colour of each girl. The member value is the
    girl's full name; `rgb` is the tuple given beside it. */
module Colors {
  import opened Wrappers

  datatype Color =
    | Karen
    | Hikari
    | Mahiru
    | Claudine
    | Maya
    | Junna
    | Nana
    | Futaba
    | Kaoruko
    | Tamao
    | Ichie
    | Fumi
    | Rui
    | Yuyuko
    | Aruru
    | Misora
    | Lalafin
    | Tsukasa
    | Shizuha
    | Akira
    | Michiru
    | MeiFan
    | Shiori
    | Yachiyo
    | Koharu
    | Suzu
    | Hisame
  {
    /** The member value, which is also what `str` returns. */
    function Name(): string {
      match this
      case Karen => "Karen Aijo"
      case Hikari => "Hikari Kagura"
      case Mahiru => "Mahiru Tsuyuzaki"
      case Claudine => "Claudine Saijo"
      case Maya => "Maya Tendo"
      case Junna => "Junna Hoshimi"
      case Nana => "Nana Daiba"
      case Futaba => "Futaba Isurugi"
      case Kaoruko => "Kaoruko Hanayagi"
      case Tamao => "Tamao Tomoe"
      case Ichie => "Ichie Otonashi"
      case Fumi => "Fumi Yumeoji"
      case Rui => "Rui Akikaze"
      case Yuyuko => "Yuyuko Tanaka"
      case Aruru => "Aruru Otsuki"
      case Misora => "Misora Kano"
      case Lalafin => "Lalafin Nonomiya"
      case Tsukasa => "Tsukasa Ebisu"
      case Shizuha => "Shizuha Kocho"
      case Akira => "Akira Yukishiro"
      case Michiru => "Michiru Otori"
      case MeiFan => "MeiFan Liu"
      case Shiori => "Shiori Yumeoji"
      case Yachiyo => "Yachiyo Tsuruhime"
      case Koharu => "Koharu Yanagi"
      case Suzu => "Suzu Minase"
      case Hisame => "Hisame Honami"
    }

    /** `rgb`: the member's (red, green, blue) tuple. */
    function Rgb(): (rgb: (int, int, int))
      ensures 0 <= rgb.0 <= 255 && 0 <= rgb.1 <= 255 && 0 <= rgb.2 <= 255
    {
      match this
      case Karen => (251, 84, 87)
      case Hikari => (98, 145, 233)
      case Mahiru => (97, 191, 153)
      case Claudine => (254, 153, 82)
      case Maya => (171, 167, 172)
      case Junna => (141, 188, 219)
      case Nana => (216, 173, 66)
      case Futaba => (140, 103, 170)
      case Kaoruko => (224, 134, 150)
      case Tamao => (198, 153, 238)
      case Ichie => (246, 181, 230)
      case Fumi => (180, 220, 132)
      case Rui => (98, 202, 138)
      case Yuyuko => (236, 118, 138)
      case Aruru => (218, 188, 72)
      case Misora => (112, 195, 228)
      case Lalafin => (249, 122, 185)
      case Tsukasa => (240, 161, 81)
      case Shizuha => (97, 204, 170)
      case Akira => (186, 191, 218)
      case Michiru => (255, 188, 71)
      case MeiFan => (236, 138, 243)
      case Shiori => (112, 217, 219)
      case Yachiyo => (233, 99, 161)
      case Koharu => (212, 49, 78)
      case Suzu => (34, 151, 115)
      case Hisame => (221, 211, 97)
    }

    /** `__str__` returns the member value. */
    function Str(): (s: string)
      ensures FromName(s) == Some(this)
    {
      NameRoundTrip(this);
      Name()
    }
  }

  /** `Color(name)`: the member whose value is `name`, or None (ValueError).
      The search first narrows on the initial letter. */
  function FromName(name: string): (r: Option<Color>)
    ensures r.Some? ==> r.value.Name() == name
  {
    if |name| == 0 then None else
    var initial := name[0];
    if initial < 'L' then
      if initial < 'H' then
        if initial < 'C' then
          if name == Aruru.Name() then Some(Aruru)
          else if name == Akira.Name() then Some(Akira)
          else None
        else
          if initial < 'F' then
            if name == Claudine.Name() then Some(Claudine)
            else None
          else
            if name == Futaba.Name() then Some(Futaba)
            else if name == Fumi.Name() then Some(Fumi)
            else None
      else
        if initial < 'J' then
          if initial < 'I' then
            if name == Hikari.Name() then Some(Hikari)
            else if name == Hisame.Name() then Some(Hisame)
            else None
          else
            if name == Ichie.Name() then Some(Ichie)
            else None
        else
          if initial < 'K' then
            if name == Junna.Name() then Some(Junna)
            else None
          else
            if name == Karen.Name() then Some(Karen)
            else if name == Kaoruko.Name() then Some(Kaoruko)
            else if name == Koharu.Name() then Some(Koharu)
            else None
    else
      if initial < 'R' then
        if initial < 'M' then
          if name == Lalafin.Name() then Some(Lalafin)
          else None
        else
          if initial < 'N' then
            if name == Mahiru.Name() then Some(Mahiru)
            else if name == Maya.Name() then Some(Maya)
            else if name == Misora.Name() then Some(Misora)
            else if name == Michiru.Name() then Some(Michiru)
            else if name == MeiFan.Name() then Some(MeiFan)
            else None
          else
            if name == Nana.Name() then Some(Nana)
            else None
      else
        if initial < 'T' then
          if initial < 'S' then
            if name == Rui.Name() then Some(Rui)
            else None
          else
            if name == Shizuha.Name() then Some(Shizuha)
            else if name == Shiori.Name() then Some(Shiori)
            else if name == Suzu.Name() then Some(Suzu)
            else None
        else
          if initial < 'Y' then
            if name == Tamao.Name() then Some(Tamao)
            else if name == Tsukasa.Name() then Some(Tsukasa)
            else None
          else
            if name == Yuyuko.Name() then Some(Yuyuko)
            else if name == Yachiyo.Name() then Some(Yachiyo)
            else None
  }

  /** Every member is found by its own value. */
  lemma NameRoundTrip(c: Color)
    ensures FromName(c.Name()) == Some(c)
  {
    if c == Aruru || c == Akira || c == Claudine || c == Futaba || c == Fumi {
      RoundTripACF(c);
    } else if c == Hikari || c == Hisame || c == Ichie || c == Junna || c == Karen || c == Kaoruko || c == Koharu {
      RoundTripHIJK(c);
    } else if c == Lalafin || c == Mahiru || c == Maya || c == Misora || c == Michiru || c == MeiFan || c == Nana {
      RoundTripLMN(c);
    } else {
      RoundTripRSTY(c);
    }
  }

  /** The round trip for the members whose initials fall in one quarter of the search. */
  lemma RoundTripACF(c: Color)
    requires c == Aruru || c == Akira || c == Claudine || c == Futaba || c == Fumi
    ensures FromName(c.Name()) == Some(c)
  {
  }

  lemma RoundTripHIJK(c: Color)
    requires c == Hikari || c == Hisame || c == Ichie || c == Junna || c == Karen || c == Kaoruko || c == Koharu
    ensures FromName(c.Name()) == Some(c)
  {
  }

  lemma RoundTripLMN(c: Color)
    requires c == Lalafin || c == Mahiru || c == Maya || c == Misora || c == Michiru || c == MeiFan || c == Nana
    ensures FromName(c.Name()) == Some(c)
  {
  }

  lemma RoundTripRSTY(c: Color)
    requires c == Rui || c == Shizuha || c == Shiori || c == Suzu || c == Tamao || c == Tsukasa || c == Yuyuko || c == Yachiyo
    ensures FromName(c.Name()) == Some(c)
  {
  }

  lemma NamesDistinct(c: Color, d: Color)
    ensures c.Name() == d.Name() <==> c == d
  {
    NameRoundTrip(c);
    NameRoundTrip(d);
  }
}
