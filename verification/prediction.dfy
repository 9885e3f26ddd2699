/**
 The "Grade Prediction" half of the report: labelling the classifier's
 probability vector with grade bands and selecting the top prediction.
 */
module Prediction {
  import opened Wrappers

  /** A grade band label: most bands are ranges written as text, one is a bare number. */
  datatype GradeLabel = Band(text: string) | Bare(grade: nat)

  /** Class index to grade band; index 2 is the bare number 4, not a range. */
  const GradeMapping: map<int, GradeLabel> :=
    map[0 := Band("5.5-6"), 1 := Band("4.5-5"), 2 := Bare(4), 3 := Band("3-4"), 4 := Band("1-3")]

  /** Number of grade bands, one per classifier class. */
  const BandCount: nat := 5

  /** The mapping covers exactly the class indices 0..4, and index 2 is the bare grade 4. */
  lemma GradeMappingShape()
    ensures GradeMapping.Keys == {0, 1, 2, 3, 4}
    ensures GradeMapping[2] == Bare(4)
    ensures forall k :: k in GradeMapping && k != 2 ==> GradeMapping[k].Band?
  {
  }

  /** A decimal digit character. */
  function Digit(d: nat): char
    requires d < 10
  {
    "0123456789"[d]
  }

  /** The value of a decimal digit character. */
  function DigitValue(ch: char): int
  {
    if '0' <= ch <= '9' then ch as int - '0' as int else -1
  }

  /** The decimal numeral of a natural number, as Python formats an int. */
  function DecimalString(n: nat): (s: string)
    ensures |s| > 0
    ensures forall i :: 0 <= i < |s| ==> 0 <= DigitValue(s[i]) < 10
    ensures ParseDecimal(s) == n
    ensures |s| == 1 || s[0] != '0'
    decreases n
  {
    if n < 10 then [Digit(n)] else DecimalString(n / 10) + [Digit(n % 10)]
  }

  /** Reads a string of decimal digits back as a number. */
  function ParseDecimal(s: string): int
  {
    if |s| == 0 then 0 else 10 * ParseDecimal(s[..|s| - 1]) + DigitValue(s[|s| - 1])
  }

  /** The text a grade label is shown as: a range as written, a bare grade as its numeral. */
  function LabelText(l: GradeLabel): string
  {
    match l
    case Band(t) => t
    case Bare(g) => DecimalString(g)
  }

  /** The pie-chart label for a grade band: the "Grade: " prefix followed by the band's text,
      a bare grade's text is its canonical numeral, which reads back as the grade. */
  function PieLabel(l: GradeLabel): (r: string)
    ensures |r| >= |"Grade: "| && r[..|"Grade: "|] == "Grade: "
    ensures l.Band? ==> r[|"Grade: "|..] == l.text
    ensures l.Bare? ==> r[|"Grade: "|..] == DecimalString(l.grade)
  {
    "Grade: " + LabelText(l)
  }

  /** The labels of the probability pie: one per probability, in index order, each naming
      the band of its index. Fails, like the page's dictionary lookup, when there are more
      probabilities than bands. */
  function MappedLabels(prob: seq<real>): (r: Option<seq<string>>)
    ensures r.Some? <==> |prob| <= BandCount
    ensures r.Some? ==> |r.value| == |prob|
    ensures r.Some? ==> forall j :: 0 <= j < |prob| ==> j in GradeMapping && r.value[j] == PieLabel(GradeMapping[j])
  {
    if |prob| > BandCount then None
    else Some(seq(|prob|, j requires 0 <= j < |prob| => PieLabel(GradeMapping[j])))
  }

  /** The pie labels the page shows for the five bands. */
  lemma PieLabelsOfFiveBands()
    ensures MappedLabels([0.2, 0.2, 0.2, 0.2, 0.2])
         == Some(["Grade: 5.5-6", "Grade: 4.5-5", "Grade: 4", "Grade: 3-4", "Grade: 1-3"])
  {
    var p := [0.2, 0.2, 0.2, 0.2, 0.2];
    var r := MappedLabels(p).value;
    assert DecimalString(4) == "4";
    assert PieLabel(Bare(4)) == "Grade: 4";
    assert r[0] == "Grade: 5.5-6" && r[1] == "Grade: 4.5-5" && r[2] == "Grade: 4";
    assert r[3] == "Grade: 3-4" && r[4] == "Grade: 1-3";
    assert r == ["Grade: 5.5-6", "Grade: 4.5-5", "Grade: 4", "Grade: 3-4", "Grade: 1-3"];
  }

  /** k is the first index holding the largest probability. */
  predicate IsFirstArgMax(prob: seq<real>, k: int)
  {
    && 0 <= k < |prob|
    && (forall j :: 0 <= j < |prob| ==> prob[j] <= prob[k])
    && (forall j :: 0 <= j < k ==> prob[j] < prob[k])
  }

  /** There is at most one first-occurrence argmax. */
  lemma FirstArgMaxUnique(prob: seq<real>, k: int, m: int)
    requires IsFirstArgMax(prob, k) && IsFirstArgMax(prob, m)
    ensures k == m
  {
    assert prob[k] == prob[m];
  }

  /** The argmax of the first n probabilities, scanning left to right and moving only
      on a strictly larger value, so ties keep the earliest index. */
  function ArgMaxPrefix(prob: seq<real>, n: nat): (k: nat)
    requires 0 < n <= |prob|
    ensures IsFirstArgMax(prob[..n], k)
    decreases n
  {
    if n == 1 then 0
    else
      var k := ArgMaxPrefix(prob, n - 1);
      assert prob[..n - 1] == prob[..n][..n - 1];
      if prob[n - 1] > prob[k] then n - 1 else k
  }

  /** The index of the first largest probability of a non-empty vector. */
  function ArgMax(prob: seq<real>): (k: nat)
    requires |prob| > 0
    ensures IsFirstArgMax(prob, k)
  {
    assert prob[..|prob|] == prob;
    ArgMaxPrefix(prob, |prob|)
  }

  /** The selected top prediction with the labels of the pie chart. */
  datatype TopPrediction = TopPrediction(
    index: nat,
    probability: real,
    grade: GradeLabel,
    labels: seq<string>)

  /** Labels the probability vector and picks the top prediction. Fails exactly when the
      vector is empty (no argmax) or longer than the band table (no label). On success the
      index is the first argmax, the probability is the entry there, and the grade is that
      index's band. */
  function Top(prob: seq<real>): (r: Option<TopPrediction>)
    ensures r.Some? <==> 0 < |prob| <= BandCount
    ensures r.Some? ==>
      && IsFirstArgMax(prob, r.value.index)
      && r.value.probability == prob[r.value.index]
      && r.value.index in GradeMapping
      && r.value.grade == GradeMapping[r.value.index]
      && MappedLabels(prob) == Some(r.value.labels)
  {
    match MappedLabels(prob)
    case None => None
    case Some(labels) =>
      if |prob| == 0 then None
      else
        var k := ArgMax(prob);
        Some(TopPrediction(k, prob[k], GradeMapping[k], labels))
  }

  /** The worked example: the largest of [0.1, 0.05, 0.6, 0.2, 0.05] is at index 2, the bare grade 4. */
  lemma TopOfWorkedExample()
    ensures Top([0.1, 0.05, 0.6, 0.2, 0.05]).Some?
    ensures Top([0.1, 0.05, 0.6, 0.2, 0.05]).value.index == 2
    ensures Top([0.1, 0.05, 0.6, 0.2, 0.05]).value.grade == Bare(4)
  {
  }

  /** On a tie the earlier band wins. */
  lemma TopTieKeepsFirst()
    ensures Top([0.4, 0.4, 0.2]).Some?
    ensures Top([0.4, 0.4, 0.2]).value.index == 0
    ensures Top([0.4, 0.4, 0.2]).value.grade == Band("5.5-6")
  {
  }
}
