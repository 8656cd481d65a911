/** `School`: the schools of the franchise. The member value is the integer
    id alone; the description is kept beside it. */
module Schools {
  import opened Wrappers
  import opened Text

  datatype School = Seisho | Rinmeikan | Frontier | Siegfeld | Seiran
  {
    /** The member value: the school id. */
    function Value(): int {
      match this
      case Seisho => 1
      case Rinmeikan => 2
      case Frontier => 3
      case Siegfeld => 4
      case Seiran => 5
    }

    /** `description` */
    function Description(): string {
      match this
      case Seisho => "Seisho Music Academy 99th Class"
      case Rinmeikan => "Rinmeikan Girls School"
      case Frontier => "Frontier School of Arts"
      case Siegfeld => "Siegfeld Institute of Music"
      case Seiran => "Seiran General Art Institute"
    }

    /** `str(school)` as the enum defines it: `__str__` hands back the integer
        value, and Python's `str` rejects a non-string result with TypeError. */
    function StrAsWritten(): (r: Result<string>)
      ensures r.Raised? && r.error == TypeError
    {
      Raised(TypeError)
    }

    /** `str(school)` with `__str__` returning `str(self.value)`: the id in decimal. */
    function Str(): (s: string)
      ensures s == DecimalString(Value())
      ensures FromStr(s) == Some(this)
    {
      match this
      case Seisho => "1"
      case Rinmeikan => "2"
      case Frontier => "3"
      case Siegfeld => "4"
      case Seiran => "5"
    }
  }

  /** `School(school_id)`: the member with that id, or None (ValueError). */
  function FromId(id: int): (r: Option<School>)
    ensures r.Some? <==> 1 <= id <= 5
    ensures r.Some? ==> r.value.Value() == id
  {
    if id == 1 then Some(Seisho)
    else if id == 2 then Some(Rinmeikan)
    else if id == 3 then Some(Frontier)
    else if id == 4 then Some(Siegfeld)
    else if id == 5 then Some(Seiran)
    else None
  }

  /** The member whose corrected `str` is `s`. */
  function FromStr(s: string): Option<School> {
    if s == "1" then Some(Seisho)
    else if s == "2" then Some(Rinmeikan)
    else if s == "3" then Some(Frontier)
    else if s == "4" then Some(Siegfeld)
    else if s == "5" then Some(Seiran)
    else None
  }

  /** Every member is found by its own id, so the ids are distinct. */
  lemma IdRoundTrip(s: School)
    ensures FromId(s.Value()) == Some(s)
  {
  }

  /** Two members print alike only if they are the same member. */
  lemma StrInjective(a: School, b: School)
    ensures a.Str() == b.Str() <==> a == b
  {
    DecimalStringInjective(a.Value(), b.Value());
  }

  /** The client test's check `str(character.school) == str(School.SEISHO.value)`:
      the right-hand side is `"1"`, the left-hand side raises as written and is
      `"1"` once `__str__` returns a string. */
  lemma SeishoStrCheck()
    ensures DecimalString(Seisho.Value()) == "1"
    ensures Seisho.StrAsWritten().Raised?
    ensures Seisho.Str() == DecimalString(Seisho.Value())
  {
  }
}
