/** `Event` and its subclasses `Challenge` and `Boss`: one class whose `kind`
    says which of the three constructors made it. */
module Events {
  import opened Wrappers
  import opened Text

  datatype EventKind = PlainEvent | ChallengeEvent | BossEvent

  const AssetsUrl := "https://api.karen.makoo.eu/api/assets/"
  const JpRes := "jp/res/"
  const WwResEn := "ww/res_en/res/"
  const EventBannerUrl := AssetsUrl + WwResEn + "event_permanent/banner/event_banner_"
  const ChallengeIconUrl := AssetsUrl + JpRes + "item_root/large/1_"
  const EnemyIconUrl := AssetsUrl + JpRes + "icon/enemy/"

  /** The icon template of each kind, filled with the id. */
  function IconUrl(kind: EventKind, id: int): string {
    IconTemplate(kind) + DecimalString(id) + ".png"
  }

  /** The template an icon of that kind starts with. */
  function IconTemplate(kind: EventKind): string {
    match kind
    case PlainEvent => EventBannerUrl
    case ChallengeEvent => ChallengeIconUrl
    case BossEvent => EnemyIconUrl
  }

  /** The templates differ right after the assets url (`ww` against `jp`) and,
      between the challenge and the boss, at the second letter after `jp/res/` (`item_root` against `icon`). */
  lemma TemplatesDiffer(k1: EventKind, k2: EventKind)
    requires k1 != k2
    ensures var i := if k1 == PlainEvent || k2 == PlainEvent then |AssetsUrl| else |AssetsUrl| + |JpRes| + 1;
      i < |IconTemplate(k1)| && i < |IconTemplate(k2)| && IconTemplate(k1)[i] != IconTemplate(k2)[i]
  {
    var n := |AssetsUrl|;
    var m := |AssetsUrl| + |JpRes| + 1;
    assert EventBannerUrl == AssetsUrl + (WwResEn + "event_permanent/banner/event_banner_");
    assert EventBannerUrl[n] == WwResEn[0];
    assert ChallengeIconUrl == AssetsUrl + (JpRes + "item_root/large/1_");
    assert EnemyIconUrl == AssetsUrl + (JpRes + "icon/enemy/");
    assert ChallengeIconUrl[n] == JpRes[0] && EnemyIconUrl[n] == JpRes[0];
    assert ChallengeIconUrl[m] == "item_root/large/1_"[1] == 't';
    assert EnemyIconUrl[m] == "icon/enemy/"[1] == 'c';
    assert WwResEn == "ww/res_en/res/" && "ww/res_en/res/"[0] == 'w';
    assert JpRes == "jp/res/" && "jp/res/"[0] == 'j';
  }

  /** Each kind's icon is its template followed by the id. */
  lemma IconStartsWithTemplate(kind: EventKind, id: int)
    ensures IconTemplate(kind) <= IconUrl(kind, id)
  {
    assert IconUrl(kind, id) == IconTemplate(kind) + (DecimalString(id) + ".png");
  }

  /** The three templates tell the kinds apart: no icon of one kind is an icon of another. */
  lemma IconsOfKindsDiffer(k1: EventKind, id1: int, k2: EventKind, id2: int)
    requires k1 != k2
    ensures IconUrl(k1, id1) != IconUrl(k2, id2)
  {
    TemplatesDiffer(k1, k2);
    IconStartsWithTemplate(k1, id1);
    IconStartsWithTemplate(k2, id2);
  }

  /** Within one kind, different ids give different icons. */
  lemma IconInjective(kind: EventKind, a: int, b: int)
    ensures IconUrl(kind, a) == IconUrl(kind, b) <==> a == b
  {
    if IconUrl(kind, a) == IconUrl(kind, b) {
      var t, sa, sb := IconTemplate(kind), DecimalString(a), DecimalString(b);
      assert IconUrl(kind, a) == t + (sa + ".png");
      assert IconUrl(kind, b) == t + (sb + ".png");
      assert sa + ".png" == sb + ".png" by {
        assert (t + (sa + ".png"))[|t|..] == sa + ".png";
        assert (t + (sb + ".png"))[|t|..] == sb + ".png";
      }
      assert sa == (sa + ".png")[..|sa|];
      assert sb == (sb + ".png")[..|sb|];
      DecimalStringInjective(a, b);
    }
  }

  /** An event record. Timestamps are kept as the integers `datetime.fromtimestamp`
      was given; None stands for a date that was never set. `rarity` is set only
      by the challenge and boss constructors, `hpPercentage` only by the boss one. */
  class Event {
    const kind: EventKind
    const eventId: int
    const icon: string
    var name: Option<string>
    var startDate: Option<int>
    var endDate: Option<int>
    var rarity: Option<int>
    var hpPercentage: Option<string>

    /** `Event(event_id, end_date, name, start_date)` */
    constructor (eventId: int, endDate: Option<int>, name: Option<string>, startDate: Option<int>)
      ensures kind == PlainEvent && this.eventId == eventId && icon == IconUrl(PlainEvent, eventId)
      ensures this.name == name && this.startDate == startDate && this.endDate == endDate
      ensures rarity.None? && hpPercentage.None?
    {
      kind := PlainEvent;
      this.eventId := eventId;
      this.name := name;
      this.startDate := startDate;
      this.endDate := endDate;
      icon := IconUrl(PlainEvent, eventId);
      rarity := None;
      hpPercentage := None;
    }

    /** `Challenge(challenge_id, end_date, name, rarity, start_date)`: the
        challenge icon replaces the banner the base constructor chose. */
    constructor Challenge(challengeId: int, endDate: Option<int>, name: Option<string>,
                          rarity: Option<int>, startDate: Option<int>)
      ensures kind == ChallengeEvent && eventId == challengeId && icon == IconUrl(ChallengeEvent, challengeId)
      ensures this.name == name && this.startDate == startDate && this.endDate == endDate
      ensures this.rarity == rarity && hpPercentage.None?
    {
      kind := ChallengeEvent;
      eventId := challengeId;
      this.name := name;
      this.startDate := startDate;
      this.endDate := endDate;
      icon := IconUrl(ChallengeEvent, challengeId);
      this.rarity := rarity;
      hpPercentage := None;
    }

    /** `Boss(boss_id, end_date, name, rarity, hp_percentage)`: a boss never has a start date. */
    constructor Boss(bossId: int, endDate: Option<int>, name: Option<string>,
                     rarity: Option<int>, hpPercentage: Option<string>)
      ensures kind == BossEvent && eventId == bossId && icon == IconUrl(BossEvent, bossId)
      ensures this.name == name && startDate.None? && this.endDate == endDate
      ensures this.rarity == rarity && this.hpPercentage == hpPercentage
    {
      kind := BossEvent;
      eventId := bossId;
      this.name := name;
      startDate := None;
      this.endDate := endDate;
      icon := IconUrl(BossEvent, bossId);
      this.rarity := rarity;
      this.hpPercentage := hpPercentage;
    }

    method SetStartDate(startDate: int)
      modifies this
      ensures this.startDate == Some(startDate)
      ensures name == old(name) && endDate == old(endDate)
      ensures rarity == old(rarity) && hpPercentage == old(hpPercentage)
    {
      this.startDate := Some(startDate);
    }

    method SetEndDate(endDate: int)
      modifies this
      ensures this.endDate == Some(endDate)
      ensures name == old(name) && startDate == old(startDate)
      ensures rarity == old(rarity) && hpPercentage == old(hpPercentage)
    {
      this.endDate := Some(endDate);
    }

    method SetName(name: string)
      modifies this
      ensures this.name == Some(name)
      ensures startDate == old(startDate) && endDate == old(endDate)
      ensures rarity == old(rarity) && hpPercentage == old(hpPercentage)
    {
      this.name := Some(name);
    }

    /** Only challenges and bosses have `set_rarity`. */
    method SetRarity(rarity: Option<int>)
      requires kind != PlainEvent
      modifies this
      ensures this.rarity == rarity
      ensures name == old(name) && startDate == old(startDate) && endDate == old(endDate)
      ensures hpPercentage == old(hpPercentage)
    {
      this.rarity := rarity;
    }

    /** Only bosses have `set_hp_percentage`. */
    method SetHpPercentage(hpPercentage: Option<string>)
      requires kind == BossEvent
      modifies this
      ensures this.hpPercentage == hpPercentage
      ensures name == old(name) && startDate == old(startDate) && endDate == old(endDate)
      ensures rarity == old(rarity)
    {
      this.hpPercentage := hpPercentage;
    }
  }
}
