/**
 The "Deviation From Averages" half of the report: the two normalised
 series of the radar chart, closed into loops, and the table of signed raw
 differences between the user's answers and the dataset averages.
 */
module Comparison {
  import opened Categories
  import opened Responses

  /** The user's answers for the radar chart, listed as the chart builds them. */
  function UserValues(rs: ResponseSet): (r: seq<real>)
    ensures |r| == |Order|
    ensures forall i :: 0 <= i < |Order| ==> r[i] == rs.ValueOf(Order[i])
  {
    [rs.age, rs.parentalDegree, rs.studyTime, rs.absences, rs.support, rs.tutoring,
     rs.performance, rs.sports, rs.music, rs.volunteering, rs.extracurricular]
  }

  /** The radar's user values are the stored answers without gender, permuted into
      category order: the entry at point i is the stored answer at FieldsInOrder()[i]. */
  lemma UserValuesPermuteResponses(rs: ResponseSet)
    ensures |UserValues(rs)| == |FieldsInOrder()|
    ensures forall i :: 0 <= i < |Order| ==> UserValues(rs)[i] == rs.ToSeq()[FieldsInOrder()[i]]
    ensures multiset(UserValues(rs)) + multiset{rs.gender} == multiset(rs.ToSeq())
  {
    var t := rs.ToSeq();
    var head, mid, tail := [rs.age], [rs.parentalDegree, rs.studyTime, rs.absences],
                           [rs.sports, rs.music, rs.volunteering];
    assert t == head + [rs.gender] + mid + [rs.tutoring] + [rs.support] + [rs.extracurricular]
                + tail + [rs.performance];
    assert UserValues(rs) == head + mid + [rs.support] + [rs.tutoring] + [rs.performance]
                             + tail + [rs.extracurricular];
  }

  /** Pairs each value with the category at the same position and normalises it;
      like a zip, it stops at the shorter of the two lists. */
  function NormalizeAlong(values: seq<real>, cats: seq<Category>): seq<real>
  {
    var n := if |values| <= |cats| then |values| else |cats|;
    seq(n, i requires 0 <= i < n => Normalize(values[i], cats[i]))
  }

  /** Closes a chart trace by repeating its first point at the end. */
  function CloseLoop<T>(s: seq<T>): (r: seq<T>)
    requires |s| > 0
    ensures |r| == |s| + 1
    ensures r[..|s|] == s && r[|s|] == r[0]
  {
    s + [s[0]]
  }

  /** The data behind the radar chart: categories and the two normalised series. */
  datatype RadarChart = RadarChart(categories: seq<Category>, user: seq<real>, average: seq<real>)

  /** Builds the radar chart: every point i below the last is category Order[i] with the
      user's answer and the dataset average for it, both normalised with that category's
      bounds; the last point of every list repeats its first, so all three stay aligned. */
  function Radar(rs: ResponseSet): (r: RadarChart)
    ensures |r.categories| == |r.user| == |r.average| == |Order| + 1
    ensures forall i :: 0 <= i < |Order| ==>
      && r.categories[i] == Order[i]
      && r.user[i] == Normalize(rs.ValueOf(Order[i]), Order[i])
      && r.average[i] == Normalize(AverageOf(Order[i]), Order[i])
    ensures r.categories[|Order|] == r.categories[0]
    ensures r.user[|Order|] == r.user[0]
    ensures r.average[|Order|] == r.average[0]
  {
    var user := NormalizeAlong(UserValues(rs), Order);
    var average := NormalizeAlong(AverageValues, Order);
    RadarChart(CloseLoop(Order), CloseLoop(user), CloseLoop(average))
  }

  /** Closing the loop only appends: each list of the radar is its unclosed list plus its first element. */
  lemma RadarIsClosedLoop(rs: ResponseSet)
    ensures Radar(rs).categories == Order + [Order[0]]
    ensures Radar(rs).user == NormalizeAlong(UserValues(rs), Order) + [Radar(rs).user[0]]
    ensures Radar(rs).average == NormalizeAlong(AverageValues, Order) + [Radar(rs).average[0]]
  {
  }

  /** One row of the difference table. */
  datatype DifferenceRow = DifferenceRow(feature: Category, difference: real)

  /** The user's answers for the difference table, listed as the table builds them. */
  function TableUserValues(rs: ResponseSet): (r: seq<real>)
    ensures r == UserValues(rs)
  {
    [rs.age, rs.parentalDegree, rs.studyTime, rs.absences, rs.support, rs.tutoring,
     rs.performance, rs.sports, rs.music, rs.volunteering, rs.extracurricular]
  }

  /** The dataset averages as the difference table lists them. */
  const TableAverages: seq<real> :=
    [16.46864548, 1.746237458, 9.771991919, 14.54138796, 2.122074, 0.301421,
     4.0, 0.303512, 0.196906, 0.157191, 0.383361]

  /** The difference table: row i names category Order[i] and holds the user's raw answer
      for it minus its dataset average, signed and in the category's own units. */
  function DifferenceTable(rs: ResponseSet): (t: seq<DifferenceRow>)
    ensures |t| == |Order|
    ensures forall i :: 0 <= i < |Order| ==>
      && t[i].feature == Order[i]
      && t[i].difference == rs.ValueOf(Order[i]) - AverageOf(Order[i])
  {
    var user := TableUserValues(rs);
    assert TableAverages == AverageValues;
    seq(|user|, i requires 0 <= i < |user| => DifferenceRow(Order[i], user[i] - TableAverages[i]))
  }

  /** Table row i and radar point i describe the same category; the row's raw difference
      is the gap between the radar's two points scaled back by the category's range, so it is
      positive, zero or negative exactly when the user's point lies outside, on or inside
      the average's. */
  lemma RadarAndTableAligned(rs: ResponseSet)
    ensures forall i :: 0 <= i < |Order| ==>
      && DifferenceTable(rs)[i].feature == Radar(rs).categories[i]
      && DifferenceTable(rs)[i].difference
           == (Radar(rs).user[i] - Radar(rs).average[i]) * (MaxValue(Order[i]) - MinValue(Order[i]))
      && (DifferenceTable(rs)[i].difference > 0.0 <==> Radar(rs).user[i] > Radar(rs).average[i])
      && (DifferenceTable(rs)[i].difference == 0.0 <==> Radar(rs).user[i] == Radar(rs).average[i])
  {
    forall i | 0 <= i < |Order| {
      RowMatchesPoint(rs, i);
    }
  }

  /** The alignment of one table row with one radar point. */
  lemma RowMatchesPoint(rs: ResponseSet, i: nat)
    requires i < |Order|
    ensures DifferenceTable(rs)[i].feature == Radar(rs).categories[i]
    ensures DifferenceTable(rs)[i].difference
            == (Radar(rs).user[i] - Radar(rs).average[i]) * (MaxValue(Order[i]) - MinValue(Order[i]))
    ensures DifferenceTable(rs)[i].difference > 0.0 <==> Radar(rs).user[i] > Radar(rs).average[i]
    ensures DifferenceTable(rs)[i].difference == 0.0 <==> Radar(rs).user[i] == Radar(rs).average[i]
  {
    var c := Order[i];
    var v, a := rs.ValueOf(c), AverageOf(c);
    var r, t := Radar(rs), DifferenceTable(rs);
    assert r.user[i] == Normalize(v, c) && r.average[i] == Normalize(a, c);
    assert t[i].difference == v - a;
    NormalizeDifference(c, v, a);
  }
}
