/**
 The eleven comparison categories of the report page, their fixed
 (min, max) bounds, the dataset averages, and the min-max normaliser that
 puts a raw value of a category on the radar chart's common scale.
 */
module Categories {

  /** One comparison category: every questionnaire answer except gender. */
  datatype Category =
    | Age
    | ParentalEducation
    | WeeklyStudyTime
    | Absences
    | ParentalSupport
    | Tutoring
    | Gpa
    | Sports
    | Music
    | Volunteering
    | Extracurricular

  /** The category list, in the order shared by the radar chart and the difference table. */
  const Order: seq<Category> :=
    [Age, ParentalEducation, WeeklyStudyTime, Absences, ParentalSupport,
     Tutoring, Gpa, Sports, Music, Volunteering, Extracurricular]

  /** The label the page shows for a category; it is also the key of the bounds tables. */
  function Name(c: Category): string
  {
    match c
    case Age => "Age"
    case ParentalEducation => "Parental Education"
    case WeeklyStudyTime => "Weekly Study Time"
    case Absences => "Absences"
    case ParentalSupport => "Parental Support"
    case Tutoring => "Tutoring"
    case Gpa => "GPA"
    case Sports => "Sports"
    case Music => "Music"
    case Volunteering => "Volunteering"
    case Extracurricular => "Extracurricular Activities"
  }

  /** Lower bound of a category, taken from the dataset. */
  function MinValue(c: Category): real
  {
    match c
    case Age => 15.0
    case Gpa => 1.0
    case _ => 0.0
  }

  /** Upper bound of a category, taken from the dataset. */
  function MaxValue(c: Category): real
  {
    match c
    case Age => 18.0
    case ParentalEducation => 4.0
    case WeeklyStudyTime => 25.0
    case Absences => 30.0
    case ParentalSupport => 4.0
    case Gpa => 6.0
    case _ => 1.0
  }

  /** The dataset averages, positionally aligned with Order. */
  const AverageValues: seq<real> :=
    [16.46864548, 1.746237458, 9.771991919, 14.54138796, 2.122074, 0.301421,
     4.0, 0.303512, 0.196906, 0.157191, 0.383361]

  /** Position of a category in Order. */
  function IndexOf(c: Category): (i: nat)
    ensures i < |Order| && Order[i] == c
  {
    match c
    case Age => 0
    case ParentalEducation => 1
    case WeeklyStudyTime => 2
    case Absences => 3
    case ParentalSupport => 4
    case Tutoring => 5
    case Gpa => 6
    case Sports => 7
    case Music => 8
    case Volunteering => 9
    case Extracurricular => 10
  }

  /** The dataset average of a category, read positionally from AverageValues. */
  function AverageOf(c: Category): real
  {
    AverageValues[IndexOf(c)]
  }

  /** Order lists every category exactly once, and IndexOf inverts it. */
  lemma OrderEnumeratesCategories()
    ensures |Order| == |AverageValues| == 11
    ensures forall c: Category :: c in Order
    ensures forall i, j :: 0 <= i < j < |Order| ==> Order[i] != Order[j]
    ensures forall i :: 0 <= i < |Order| ==> IndexOf(Order[i]) == i
  {
    forall c: Category ensures c in Order {
      assert Order[IndexOf(c)] == c;
    }
  }

  /** Distinct categories have distinct names, so the name-keyed bounds tables are per category. */
  lemma NamesDistinct(c: Category, d: Category)
    ensures Name(c) == Name(d) <==> c == d
  {
  }

  /** Every category's bounds are a proper interval, so Normalize never divides by zero. */
  lemma BoundsWellFormed(c: Category)
    ensures MinValue(c) < MaxValue(c)
  {
  }

  /** Every dataset average lies within its category's bounds. */
  lemma AveragesWithinBounds()
    ensures forall i :: 0 <= i < |Order| ==>
      MinValue(Order[i]) <= AverageValues[i] <= MaxValue(Order[i])
  {
  }

  /** Min-max normalisation of a raw value of category c; deliberately not clamped. */
  function Normalize(value: real, c: Category): (r: real)
    ensures r * (MaxValue(c) - MinValue(c)) + MinValue(c) == value
  {
    (value - MinValue(c)) / (MaxValue(c) - MinValue(c))
  }

  /** The inverse of Normalize: the raw value that lands at position x of the scale. */
  function Denormalize(x: real, c: Category): (v: real)
    ensures Normalize(v, c) == x
  {
    MinValue(c) + x * (MaxValue(c) - MinValue(c))
  }

  /** Normalize and Denormalize undo each other in both directions. */
  lemma NormalizeRoundTrip(value: real, x: real, c: Category)
    ensures Denormalize(Normalize(value, c), c) == value
    ensures Normalize(Denormalize(x, c), c) == x
  {
  }

  /** A category's minimum maps to 0 and its maximum to 1. */
  lemma NormalizeEndpoints(c: Category)
    ensures Normalize(MinValue(c), c) == 0.0
    ensures Normalize(MaxValue(c), c) == 1.0
  {
  }

  /** Normalize is strictly increasing: it preserves and reflects the order of raw values. */
  lemma NormalizeStrictlyIncreasing(c: Category, v: real, w: real)
    ensures v < w <==> Normalize(v, c) < Normalize(w, c)
  {
  }

  /** A raw difference is the normalised difference scaled by the category's range; in
      particular it has the same sign. */
  lemma NormalizeDifference(c: Category, v: real, w: real)
    ensures v - w == (Normalize(v, c) - Normalize(w, c)) * (MaxValue(c) - MinValue(c))
    ensures v - w > 0.0 <==> Normalize(v, c) > Normalize(w, c)
    ensures v - w == 0.0 <==> Normalize(v, c) == Normalize(w, c)
  {
  }

  /** Normalize is not clamped: a value is below, inside or above its bounds exactly
      when its image is below, inside or above [0, 1]. */
  lemma NormalizeUnclamped(c: Category, v: real)
    ensures v < MinValue(c) <==> Normalize(v, c) < 0.0
    ensures v > MaxValue(c) <==> Normalize(v, c) > 1.0
    ensures MinValue(c) <= v <= MaxValue(c) <==> 0.0 <= Normalize(v, c) <= 1.0
  {
  }

  /** The GPA average 4 sits at 0.6 of the Swiss 1..6 scale. */
  lemma GpaAverageNormalizesToSixTenths()
    ensures Normalize(AverageOf(Gpa), Gpa) == 0.6
  {
  }
}
