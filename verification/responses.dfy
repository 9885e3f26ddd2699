/**
 The questionnaire answers the report page reads from the session: a
 12-tuple that is unpacked into named fields, and the per-category view of
 those fields used by the comparison chart and table.
 */
module Responses {
  import opened Wrappers
  import opened Categories

  /** Number of answers the questionnaire stores. */
  const Arity: nat := 12

  /** Position of the gender code in the stored tuple; gender has no comparison category. */
  const GenderIndex: nat := 1

  /** The twelve answers, named in the order the page unpacks them. */
  datatype ResponseSet = ResponseSet(
    age: real,
    gender: real,
    parentalDegree: real,
    studyTime: real,
    absences: real,
    tutoring: real,
    support: real,
    extracurricular: real,
    sports: real,
    music: real,
    volunteering: real,
    performance: real)
  {
    /** The answers as the stored tuple. */
    function ToSeq(): (s: seq<real>)
      ensures |s| == Arity
      ensures s[GenderIndex] == gender && s[Arity - 1] == performance
    {
      [age, gender, parentalDegree, studyTime, absences, tutoring, support,
       extracurricular, sports, music, volunteering, performance]
    }

    /** The answer that a comparison category stands for. */
    function ValueOf(c: Category): real
    {
      match c
      case Age => age
      case ParentalEducation => parentalDegree
      case WeeklyStudyTime => studyTime
      case Absences => absences
      case ParentalSupport => support
      case Tutoring => tutoring
      case Gpa => performance
      case Sports => sports
      case Music => music
      case Volunteering => volunteering
      case Extracurricular => extracurricular
    }
  }

  /** Where in the stored tuple the answer for a category sits. */
  function FieldIndex(c: Category): (i: nat)
    ensures i < Arity && i != GenderIndex
    ensures forall rs: ResponseSet {:trigger rs.ValueOf(c)} :: rs.ToSeq()[i] == rs.ValueOf(c)
  {
    match c
    case Age => 0
    case ParentalEducation => 2
    case WeeklyStudyTime => 3
    case Absences => 4
    case Tutoring => 5
    case ParentalSupport => 6
    case Extracurricular => 7
    case Sports => 8
    case Music => 9
    case Volunteering => 10
    case Gpa => 11
  }

  /** The tuple positions the categories read, listed in category order. */
  function FieldsInOrder(): seq<nat>
  {
    seq(|Order|, k requires 0 <= k < |Order| => FieldIndex(Order[k]))
  }

  /** The categories read every stored answer except gender, each exactly once:
      FieldsInOrder is a permutation of the tuple positions other than gender's. */
  lemma FieldsInOrderPermutation()
    ensures |FieldsInOrder()| == Arity - 1
    ensures forall i :: 0 <= i < Arity && i != GenderIndex <==> i in FieldsInOrder()
    ensures forall j, k :: 0 <= j < k < |FieldsInOrder()| ==> FieldsInOrder()[j] != FieldsInOrder()[k]
  {
    assert FieldsInOrder() == [0, 2, 3, 4, 6, 5, 11, 8, 9, 10, 7];
  }

  /** Tuple unpacking: succeeds exactly on twelve answers, and the named fields
      are the answers in order; any other length is the malformed-data error. */
  function Unpack(s: seq<real>): (r: Option<ResponseSet>)
    ensures r.Some? <==> |s| == Arity
    ensures r.Some? ==> r.value.ToSeq() == s
  {
    if |s| != Arity then None
    else Some(ResponseSet(s[0], s[1], s[2], s[3], s[4], s[5], s[6], s[7], s[8], s[9], s[10], s[11]))
  }

  /** Unpacking the tuple of a response set gives back that response set. */
  lemma UnpackRoundTrip(rs: ResponseSet)
    ensures Unpack(rs.ToSeq()) == Some(rs)
  {
  }
}
