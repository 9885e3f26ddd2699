/**
 Conversion of the Swiss 1..6 grade to the US 4-point GPA the classifier was
 trained on, and assembly of the classifier's 12-feature input vector.
 */
module Grading {
  import opened Wrappers
  import opened Categories
  import opened Responses

  /** Swiss grade to US GPA: the grade's position on the Swiss scale, stretched over 2..4;
      not clamped. */
  function SwissToUsGpa(swissGrade: real): (r: real)
    ensures r == 2.0 + 2.0 * Normalize(swissGrade, Gpa)
  {
    2.0 + ((swissGrade - 1.0) / 5.0) * 2.0
  }

  /** The inverse conversion, from a US GPA back to the Swiss grade. */
  function UsGpaToSwiss(usGpa: real): (g: real)
    ensures SwissToUsGpa(g) == usGpa
  {
    1.0 + (usGpa - 2.0) * 5.0 / 2.0
  }

  /** The conversion loses nothing: UsGpaToSwiss undoes it. */
  lemma SwissToUsGpaInvertible(swissGrade: real)
    ensures UsGpaToSwiss(SwissToUsGpa(swissGrade)) == swissGrade
  {
  }

  /** The Swiss anchors: 1 becomes 2, 6 becomes 4, and 5 becomes 3.6. */
  lemma SwissToUsGpaAnchors()
    ensures SwissToUsGpa(1.0) == 2.0
    ensures SwissToUsGpa(6.0) == 4.0
    ensures SwissToUsGpa(5.0) == 3.6
  {
  }

  /** The conversion is strictly increasing, so it preserves the ranking of grades. */
  lemma SwissToUsGpaStrictlyIncreasing(g: real, h: real)
    ensures g < h <==> SwissToUsGpa(g) < SwissToUsGpa(h)
  {
  }

  /** The conversion is not clamped: grades outside 1..6 land outside 2..4, and only they do. */
  lemma SwissToUsGpaUnclamped(g: real)
    ensures g < 1.0 <==> SwissToUsGpa(g) < 2.0
    ensures g > 6.0 <==> SwissToUsGpa(g) > 4.0
  {
  }

  /** Number of features the classifier expects. */
  const FeatureCount: nat := 12

  /** The classifier's input row: the stored answers in their stored order, with the last
      one, the Swiss grade, replaced by its US GPA. */
  function FeatureVector(rs: ResponseSet): (v: seq<real>)
    ensures |v| == FeatureCount == |rs.ToSeq()|
    ensures v[..FeatureCount - 1] == rs.ToSeq()[..FeatureCount - 1]
    ensures v[FeatureCount - 1] == SwissToUsGpa(rs.performance)
  {
    [rs.age, rs.gender, rs.parentalDegree, rs.studyTime, rs.absences, rs.tutoring, rs.support,
     rs.extracurricular, rs.sports, rs.music, rs.volunteering, SwissToUsGpa(rs.performance)]
  }

  /** Starting from a well-formed stored tuple, the feature vector is that tuple with its
      last entry converted to a US GPA and every other entry left as stored. */
  lemma FeatureVectorOfStoredTuple(s: seq<real>)
    requires |s| == Arity
    ensures Unpack(s).Some?
    ensures FeatureVector(Unpack(s).value) == s[Arity - 1 := SwissToUsGpa(s[Arity - 1])]
  {
  }
}
