/** The older copy of the `School` table at the repository root. */
module LegacySchools {
  import opened Wrappers
  import Schools

  datatype School = Seisho | Rinmeikan | Frontier | Siegfeld | Seiran
  {
    /** The member value: the school id. */
    function Value(): int {
      match this
      case Seisho => 1
      case Rinmeikan => 2
      case Frontier => 3
      case Siegfeld => 4
      case Seiran => 5
    }

    /** `description` */
    function Description(): string {
      match this
      case Seisho => "Seisho Music Academy 99th Class"
      case Rinmeikan => "Rinmeikan Girls School"
      case Frontier => "Frontier School of Arts"
      case Siegfeld => "Siegfeld Institute of Music"
      case Seiran => "Seiran General Art Institute"
    }
  }

  /** `School(school_id)`: the member with that id, or None (ValueError). */
  function FromId(id: int): (r: Option<School>)
    ensures r.Some? <==> 1 <= id <= 5
    ensures r.Some? ==> r.value.Value() == id
  {
    if id == 1 then Some(Seisho)
    else if id == 2 then Some(Rinmeikan)
    else if id == 3 then Some(Frontier)
    else if id == 4 then Some(Siegfeld)
    else if id == 5 then Some(Seiran)
    else None
  }

  /** The two tables agree: the same ids are members, with the same descriptions. */
  lemma AgreesWithSchools(id: int)
    ensures FromId(id).Some? <==> Schools.FromId(id).Some?
    ensures FromId(id).Some? ==> FromId(id).value.Description() == Schools.FromId(id).value.Description()
  {
  }
}
