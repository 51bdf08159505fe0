/** Assessment quizzes: the six definitions compiled into the client, the
    score (sum of the chosen option positions, normalised against a fixed
    3 points per question and rounded half-up), the choice of a result
    category, and the question wizard that collects the answers. */
module Assessment {
  import opened Text

  /** A question is known by its id; only its number of options matters to
      the rules (the chosen option's position is its points). */
  datatype Question = Question(id: int, optionCount: nat)

  /** A result category covers the inclusive percentage range [low, high]. */
  datatype Category = Category(low: int, high: int, title: string)

  datatype Definition = Definition(key: string, title: string, questions: seq<Question>, categories: seq<Category>)

  /** What the result screen shows. */
  datatype Outcome = Outcome(title: string, score: int)

  /** Points assumed for the last option of any question (four options, 0-3). */
  const PointsPerQuestion := 3

  // ---------------------------------------------------------------------------
  // Definitions
  // ---------------------------------------------------------------------------

  function Ids(qs: seq<Question>): set<int>
  {
    set i | 0 <= i < |qs| :: qs[i].id
  }

  predicate AscendingIds(qs: seq<Question>)
  {
    forall i, j :: 0 <= i < j < |qs| ==> qs[i].id < qs[j].id
  }

  predicate WellFormed(d: Definition)
  {
    && |d.questions| > 0
    && |d.categories| > 0
    && AscendingIds(d.questions)
    && (forall i :: 0 <= i < |d.questions| ==> d.questions[i].optionCount > 0)
  }

  /** The categories' ranges follow each other without gap or overlap and
      cover exactly 0..100. */
  predicate PartitionsPercent(cats: seq<Category>)
  {
    && |cats| > 0
    && cats[0].low == 0
    && cats[|cats| - 1].high == 100
    && (forall i :: 0 <= i < |cats| ==> cats[i].low <= cats[i].high)
    && (forall i :: 0 <= i < |cats| - 1 ==> cats[i + 1].low == cats[i].high + 1)
  }

  /** Questions numbered 1..n, each with `options` options. */
  function UniformQuestions(n: nat, options: nat): (qs: seq<Question>)
    ensures |qs| == n
    ensures forall i :: 0 <= i < n ==> qs[i] == Question(i + 1, options)
  {
    seq(n, i requires 0 <= i < n => Question(i + 1, options))
  }

  // ---------------------------------------------------------------------------
  // The six shipped assessments
  // ---------------------------------------------------------------------------

  /** "shadow-self": 10 questions of 4 options each. */
  function ShadowSelf(): (d: Definition)
    ensures WellFormed(d) && PartitionsPercent(d.categories)
  {
    Definition("shadow-self", "Shadow Self Discovery", UniformQuestions(10, 4), [
      Category(0, 25, "Shadow Awareness Beginner"),
      Category(26, 50, "Shadow Explorer"),
      Category(51, 75, "Shadow Integrator"),
      Category(76, 100, "Shadow Master")
    ])
  }

  /** "love-language": 8 questions of 5 options each. */
  function LoveLanguage(): (d: Definition)
    ensures WellFormed(d) && PartitionsPercent(d.categories)
  {
    Definition("love-language", "Love Language Profile", UniformQuestions(8, 5), [
      Category(0, 20, "Words of Affirmation"),
      Category(21, 40, "Receiving Gifts"),
      Category(41, 60, "Quality Time"),
      Category(61, 80, "Acts of Service"),
      Category(81, 100, "Physical Touch")
    ])
  }

  /** "life-purpose": 10 questions of 5 options each. */
  function LifePurpose(): (d: Definition)
    ensures WellFormed(d) && PartitionsPercent(d.categories)
  {
    Definition("life-purpose", "Life Purpose Compass", UniformQuestions(10, 5), [
      Category(0, 25, "The Healer"),
      Category(26, 50, "The Creator"),
      Category(51, 75, "The Builder"),
      Category(76, 100, "The Connector")
    ])
  }

  /** "emotional-iq": 10 questions of 4 options each. */
  function EmotionalIq(): (d: Definition)
    ensures WellFormed(d) && PartitionsPercent(d.categories)
  {
    Definition("emotional-iq", "Emotional Intelligence", UniformQuestions(10, 4), [
      Category(0, 25, "EQ Novice"),
      Category(26, 50, "EQ Learner"),
      Category(51, 75, "EQ Proficient"),
      Category(76, 100, "EQ Expert")
    ])
  }

  /** "inner-child": 8 questions of 5 options each. */
  function InnerChild(): (d: Definition)
    ensures WellFormed(d) && PartitionsPercent(d.categories)
  {
    Definition("inner-child", "Inner Child Healing", UniformQuestions(8, 5), [
      Category(0, 25, "Wounded Inner Child"),
      Category(26, 50, "Healing Inner Child"),
      Category(51, 75, "Integrating Inner Child"),
      Category(76, 100, "Healed Inner Child")
    ])
  }

  /** "authenticity": 8 questions of 4 options each. */
  function Authenticity(): (d: Definition)
    ensures WellFormed(d) && PartitionsPercent(d.categories)
  {
    Definition("authenticity", "Authenticity Score", UniformQuestions(8, 4), [
      Category(0, 25, "Masked Self"),
      Category(26, 50, "Emerging Self"),
      Category(51, 75, "Growing Authenticity"),
      Category(76, 100, "Authentic Self")
    ])
  }
  function Shipped(): seq<Definition>
  {
    [ShadowSelf(), LoveLanguage(), LifePurpose(), EmotionalIq(), InnerChild(), Authenticity()]
  }

  /** Looking a definition up by its route id; an unknown id finds none. */
  function Lookup(key: string): (r: Option<Definition>)
    ensures r.Some? ==> r.value in Shipped() && r.value.key == key
    ensures r.None? ==> forall d :: d in Shipped() ==> d.key != key
  {
    LookupIn(Shipped(), key)
  }

  function LookupIn(ds: seq<Definition>, key: string): (r: Option<Definition>)
    ensures r.Some? ==> r.value in ds && r.value.key == key
    ensures r.None? ==> forall d :: d in ds ==> d.key != key
  {
    if ds == [] then None
    else if ds[0].key == key then Some(ds[0])
    else LookupIn(ds[1..], key)
  }

  /** Every shipped definition is well formed and its categories partition
      0..100. */
  lemma ShippedWellFormed(d: Definition)
    requires d in Shipped()
    ensures WellFormed(d) && PartitionsPercent(d.categories)
  {
  }

  // ---------------------------------------------------------------------------
  // Score
  // ---------------------------------------------------------------------------

  /** The smallest key of a non-empty set: JavaScript enumerates the integer
      keys of an object in ascending order. */
  function MinKey(keys: set<int>): (k: int)
    requires keys != {}
    ensures k in keys && forall j :: j in keys ==> k <= j
  {
    assert exists k :: k in keys && forall j :: j in keys ==> k <= j by {
      var m := MinOf(keys);
    }
    var k :| k in keys && forall j :: j in keys ==> k <= j;
    k
  }

  lemma {:induction false} MinOf(keys: set<int>) returns (m: int)
    requires keys != {}
    ensures m in keys && forall j :: j in keys ==> m <= j
    decreases |keys|
  {
    if forall x :: x !in keys {
      assert false;
    }
    var x :| x in keys;
    var rest := keys - {x};
    if rest == {} {
      m := x;
      forall j | j in keys ensures m <= j {
        assert j !in rest;
      }
    } else {
      var r := MinOf(rest);
      m := if x < r then x else r;
      forall j | j in keys ensures m <= j {
        if j != x { assert j in rest; }
      }
    }
  }

  /** `Object.values(answers).reduce((sum, val) => sum + val, 0)`. */
  function MapSum(m: map<int, int>): int
    decreases |m|
  {
    if m == map[] then 0
    else
      var k := MinKey(m.Keys);
      assert |(m - {k}).Keys| < |m.Keys| by {
        assert (m - {k}).Keys == m.Keys - {k};
      }
      m[k] + MapSum(m - {k})
  }

  /** The points of the answers, counted question by question. */
  function Points(qs: seq<Question>, answers: map<int, int>): int
  {
    if qs == [] then 0
    else (if qs[0].id in answers then answers[qs[0].id] else 0) + Points(qs[1..], answers)
  }

  /** When every answer belongs to a question (ids ascending), summing the
      answer map's values is summing the answers question by question. */
  lemma {:induction false} MapSumIsPoints(qs: seq<Question>, answers: map<int, int>)
    requires AscendingIds(qs)
    requires answers.Keys <= Ids(qs)
    ensures MapSum(answers) == Points(qs, answers)
  {
    if qs == [] {
      assert answers.Keys == {};
      assert answers == map[];
    } else {
      var q := qs[0];
      assert Ids(qs) == {q.id} + Ids(qs[1..]) by {
        forall x | x in Ids(qs) ensures x in {q.id} + Ids(qs[1..]) {
          var i :| 0 <= i < |qs| && qs[i].id == x;
          if i > 0 { assert qs[1..][i - 1].id == x; }
        }
      }
      assert q.id !in Ids(qs[1..]);
      if q.id in answers {
        var k := MinKey(answers.Keys);
        assert k == q.id by {
          forall x | x in answers.Keys ensures q.id <= x {
            var i :| 0 <= i < |qs| && qs[i].id == x;
          }
        }
        var rest := answers - {q.id};
        assert rest.Keys <= Ids(qs[1..]);
        MapSumIsPoints(qs[1..], rest);
        PointsIgnoresOthers(qs[1..], answers, rest);
      } else {
        MapSumIsPoints(qs[1..], answers);
      }
    }
  }

  /** Points only look at the answers to the questions asked. */
  lemma {:induction false} PointsIgnoresOthers(qs: seq<Question>, a: map<int, int>, b: map<int, int>)
    requires forall i :: 0 <= i < |qs| ==> (qs[i].id in a <==> qs[i].id in b)
    requires forall i :: 0 <= i < |qs| && qs[i].id in a ==> a[qs[i].id] == b[qs[i].id]
    ensures Points(qs, a) == Points(qs, b)
  {
    if qs != [] {
      PointsIgnoresOthers(qs[1..], a, b);
    }
  }

  /** The percentage: `Math.round(totalPoints / (n * 3) * 100)`, computed
      exactly. The result is the integer nearest to 100 * total / (3 * n),
      halves rounding up. */
  function Score(total: int, n: int): (r: int)
    requires n > 0
    ensures 6 * n * r <= 200 * total + 3 * n < 6 * n * (r + 1)
    ensures total >= 0 ==> r >= 0
  {
    var num := 200 * total + 3 * n;
    var r := num / (6 * n);
    assert num == 6 * n * r + num % (6 * n);
    r
  }

  /** The score is determined by its rounding property, so the integer
      formula and `Math.round` of the exact quotient agree. */
  lemma ScoreUnique(total: int, n: int, r: int)
    requires n > 0
    requires 6 * n * r <= 200 * total + 3 * n < 6 * n * (r + 1)
    ensures Score(total, n) == r
  {
    var m, x, s := 6 * n, 200 * total + 3 * n, Score(total, n);
    if s < r {
      MulMono(m, s + 1, r);
    } else if s > r {
      MulMono(m, r + 1, s);
    }
  }

  // ---------------------------------------------------------------------------
  // Category
  // ---------------------------------------------------------------------------

  predicate InRange(c: Category, score: int)
  {
    c.low <= score <= c.high
  }

  /** `resultCategories.find(...)`: the position of the first category whose
      range contains the score. */
  function FindCategory(cats: seq<Category>, score: int): (r: Option<nat>)
    ensures r.Some? ==> r.value < |cats| && InRange(cats[r.value], score)
    ensures r.Some? ==> forall j :: 0 <= j < r.value ==> !InRange(cats[j], score)
    ensures r.None? <==> forall j :: 0 <= j < |cats| ==> !InRange(cats[j], score)
  {
    if cats == [] then None
    else if InRange(cats[0], score) then Some(0)
    else
      match FindCategory(cats[1..], score)
      case None => None
      case Some(k) => Some(k + 1)
  }

  /** The first matching category, or the last category when none matches. */
  function Categorize(cats: seq<Category>, score: int): (c: Category)
    requires |cats| > 0
    ensures c in cats
    ensures (exists j :: 0 <= j < |cats| && InRange(cats[j], score)) ==>
      exists i :: 0 <= i < |cats| && c == cats[i] && InRange(c, score)
        && forall j :: 0 <= j < i ==> !InRange(cats[j], score)
    ensures (forall j :: 0 <= j < |cats| ==> !InRange(cats[j], score)) ==> c == cats[|cats| - 1]
  {
    match FindCategory(cats, score)
    case Some(i) => cats[i]
    case None => cats[|cats| - 1]
  }

  /** With ranges that partition 0..100, a score lies in some category
      exactly when it is in 0..100, and never in two. */
  lemma PartitionExactlyOne(cats: seq<Category>, score: int)
    requires PartitionsPercent(cats)
    ensures (exists i :: 0 <= i < |cats| && InRange(cats[i], score)) <==> 0 <= score <= 100
    ensures forall i, j :: 0 <= i < j < |cats| && InRange(cats[i], score) ==> !InRange(cats[j], score)
  {
    RangesAscend(cats);
    if 0 <= score <= 100 {
      var i := LastStartingAtOrBelow(cats, score);
      assert InRange(cats[i], score) by {
        if i < |cats| - 1 {
          assert cats[i + 1].low > score;
          RangesAscendFrom(cats, i, i + 1);
        }
      }
    }
  }

  /** The position of the last category whose lower bound is at most `score`. */
  function LastStartingAtOrBelow(cats: seq<Category>, score: int): (i: nat)
    requires PartitionsPercent(cats) && 0 <= score
    ensures i < |cats| && cats[i].low <= score
    ensures i < |cats| - 1 ==> cats[i + 1].low > score
  {
    LastStartingFrom(cats, score, 0)
  }

  function LastStartingFrom(cats: seq<Category>, score: int, from: nat): (i: nat)
    requires PartitionsPercent(cats) && from < |cats| && cats[from].low <= score
    ensures from <= i < |cats| && cats[i].low <= score
    ensures i < |cats| - 1 ==> cats[i + 1].low > score
    decreases |cats| - from
  {
    if from + 1 < |cats| && cats[from + 1].low <= score then LastStartingFrom(cats, score, from + 1)
    else from
  }

  /** Partitioning ranges are strictly ordered: an earlier range ends below
      the start of every later one. */
  lemma {:induction false} RangesAscend(cats: seq<Category>)
    requires PartitionsPercent(cats)
    ensures forall i, j :: 0 <= i < j < |cats| ==> cats[i].high < cats[j].low
    ensures forall i :: 0 <= i < |cats| ==> 0 <= cats[i].low && cats[i].high <= 100
  {
    forall i, j | 0 <= i < j < |cats| ensures cats[i].high < cats[j].low {
      RangesAscendFrom(cats, i, j);
    }
    forall i | 0 <= i < |cats| ensures 0 <= cats[i].low && cats[i].high <= 100 {
      if i > 0 { RangesAscendFrom(cats, 0, i); }
      if i < |cats| - 1 { RangesAscendFrom(cats, i, |cats| - 1); }
    }
  }

  lemma {:induction false} RangesAscendFrom(cats: seq<Category>, i: nat, j: nat)
    requires PartitionsPercent(cats) && i < j < |cats|
    ensures cats[i].high < cats[j].low
    decreases j - i
  {
    if j > i + 1 {
      RangesAscendFrom(cats, i, j - 1);
    }
  }

  /** For a shipped definition the fallback to the last category fires exactly
      for scores outside 0..100, that is (scores being non-negative) above 100. */
  lemma FallbackOnlyAbove100(d: Definition, score: int)
    requires d in Shipped()
    ensures FindCategory(d.categories, score).None? <==> score < 0 || score > 100
  {
    ShippedWellFormed(d);
    PartitionExactlyOne(d.categories, score);
  }

  // ---------------------------------------------------------------------------
  // Result
  // ---------------------------------------------------------------------------

  /** `calculateResult`: the score of the answers and its category. When
      the answers are to the definition's questions, the sum over the
      answer record is the points counted question by question. */
  function Evaluate(d: Definition, answers: map<int, int>): (o: Outcome)
    requires WellFormed(d)
    ensures answers.Keys <= Ids(d.questions) ==> o.score == Score(Points(d.questions, answers), |d.questions|)
    ensures o.title == Categorize(d.categories, o.score).title
  {
    if answers.Keys <= Ids(d.questions) then
      MapSumIsPoints(d.questions, answers);
      Outcome(Categorize(d.categories, Score(MapSum(answers), |d.questions|)).title, Score(MapSum(answers), |d.questions|))
    else
      var score := Score(MapSum(answers), |d.questions|);
      Outcome(Categorize(d.categories, score).title, score)
  }

  /** Every answer lies among its question's options. */
  predicate AnswersInRange(qs: seq<Question>, answers: map<int, int>)
  {
    && answers.Keys <= Ids(qs)
    && forall i :: 0 <= i < |qs| && qs[i].id in answers ==> 0 <= answers[qs[i].id] < qs[i].optionCount
  }

  /** Each question contributes at most its last option's position. */
  lemma {:induction false} PointsBounds(qs: seq<Question>, answers: map<int, int>, k: nat)
    requires forall i :: 0 <= i < |qs| ==> qs[i].optionCount == k + 1
    requires forall i :: 0 <= i < |qs| && qs[i].id in answers ==> 0 <= answers[qs[i].id] <= k
    ensures 0 <= Points(qs, answers) <= k * |qs|
  {
    if qs != [] {
      PointsBounds(qs[1..], answers, k);
    }
  }

  /** Answering option `k` everywhere scores `k` points per question. */
  lemma {:induction false} PointsAllSame(qs: seq<Question>, answers: map<int, int>, k: int)
    requires forall i :: 0 <= i < |qs| ==> qs[i].id in answers && answers[qs[i].id] == k
    ensures Points(qs, answers) == k * |qs|
  {
    if qs != [] {
      PointsAllSame(qs[1..], answers, k);
    }
  }

  /** The answer set choosing option `k` for every question. */
  function AllAnswered(qs: seq<Question>, k: int): (m: map<int, int>)
    ensures m.Keys == Ids(qs)
    ensures forall id :: id in m ==> m[id] == k
  {
    map id | id in Ids(qs) :: k
  }

  /** All-first answers score 0 and put the user in the first category. */
  lemma AllFirstScoresZero(d: Definition)
    requires d in Shipped()
    ensures Evaluate(d, AllAnswered(d.questions, 0)).score == 0
    ensures Evaluate(d, AllAnswered(d.questions, 0)).title == d.categories[0].title
  {
    ShippedWellFormed(d);
    AllFirstFirstCategory(d);
  }

  lemma AllFirstFirstCategory(d: Definition)
    requires WellFormed(d) && PartitionsPercent(d.categories)
    ensures Evaluate(d, AllAnswered(d.questions, 0)).score == 0
    ensures Evaluate(d, AllAnswered(d.questions, 0)).title == d.categories[0].title
  {
    var a := AllAnswered(d.questions, 0);
    MapSumIsPoints(d.questions, a);
    PointsAllSame(d.questions, a, 0);
    ScoreUnique(0, |d.questions|, 0);
  }

  /** More points never give a lower score. */
  lemma ScoreMonotone(t1: int, t2: int, n: int)
    requires n > 0 && t1 <= t2
    ensures Score(t1, n) <= Score(t2, n)
  {
    var s1, s2 := Score(t1, n), Score(t2, n);
    if s1 > s2 {
      MulMono(6 * n, s2 + 1, s1);
    }
  }

  /** On a definition of four-option questions every answer set scores
      between 0 and 100, and all-last answers score exactly 100. */
  lemma FourOptionScoresAtMost100(d: Definition, answers: map<int, int>)
    requires WellFormed(d)
    requires forall i :: 0 <= i < |d.questions| ==> d.questions[i].optionCount == 4
    requires AnswersInRange(d.questions, answers)
    ensures 0 <= Evaluate(d, answers).score <= 100
    ensures Evaluate(d, AllAnswered(d.questions, 3)).score == 100
  {
    var n := |d.questions|;
    PointsBounds(d.questions, answers, 3);
    ScoreMonotone(Points(d.questions, answers), 3 * n, n);
    ScoreUnique(3 * n, n, 100);
    var a := AllAnswered(d.questions, 3);
    PointsAllSame(d.questions, a, 3);
  }

  /** The denominator stays at 3 points per question: on a definition of
      five-option questions scores reach 133, and all-last answers score
      exactly 133, above every shipped range. */
  lemma FiveOptionScoresAbove100(d: Definition, answers: map<int, int>)
    requires WellFormed(d)
    requires forall i :: 0 <= i < |d.questions| ==> d.questions[i].optionCount == 5
    requires AnswersInRange(d.questions, answers)
    ensures 0 <= Evaluate(d, answers).score <= 133
    ensures Evaluate(d, AllAnswered(d.questions, 4)).score == 133
  {
    var n := |d.questions|;
    PointsBounds(d.questions, answers, 4);
    ScoreMonotone(Points(d.questions, answers), 4 * n, n);
    ScoreUnique(4 * n, n, 133);
    var a := AllAnswered(d.questions, 4);
    PointsAllSame(d.questions, a, 4);
  }

  /** On the shipped five-option assessments all-last answers fall outside
      every range and get the last category through the fallback. */
  lemma FiveOptionAllLastFallsBack(d: Definition)
    requires d == LoveLanguage() || d == LifePurpose() || d == InnerChild()
    ensures Evaluate(d, AllAnswered(d.questions, 4)).score == 133
    ensures FindCategory(d.categories, 133).None?
    ensures Evaluate(d, AllAnswered(d.questions, 4)).title == d.categories[|d.categories| - 1].title
  {
    assert d in Shipped();
    ShippedWellFormed(d);
    FiveOptionScoresAbove100(d, map[]);
    FallbackOnlyAbove100(d, 133);
  }

  // ---------------------------------------------------------------------------
  // The question wizard
  // ---------------------------------------------------------------------------

  /** The assessment page's state: whether the quiz has started, the question
      cursor, the answers by question id, and the result once computed. */
  class Wizard {
    const def: Definition
    var hasStarted: bool
    var currentQuestion: nat
    var answers: map<int, int>
    var isComplete: bool
    var isSubmitting: bool
    var result: Option<Outcome>

    ghost predicate Valid()
      reads this
    {
      && WellFormed(def)
      && currentQuestion < |def.questions|
      && AnswersInRange(def.questions, answers)
    }

    constructor (d: Definition)
      requires WellFormed(d)
      ensures Valid() && def == d
      ensures !hasStarted && currentQuestion == 0 && answers == map[]
      ensures !isComplete && !isSubmitting && result == None
    {
      def := d;
      hasStarted, currentQuestion, answers := false, 0, map[];
      isComplete, isSubmitting, result := false, false, None;
    }

    method Start()
      requires Valid()
      modifies this`hasStarted
      ensures Valid() && hasStarted
    {
      hasStarted := true;
    }

    /** `handleAnswer`: store the chosen option under the current question's
        id, overwriting an earlier choice and leaving the others alone. */
    method Answer(optionIndex: int)
      requires Valid()
      requires 0 <= optionIndex < def.questions[currentQuestion].optionCount
      modifies this`answers
      ensures Valid()
      ensures answers == old(answers)[def.questions[currentQuestion].id := optionIndex]
      ensures forall id :: id != def.questions[currentQuestion].id ==>
        (id in answers <==> id in old(answers)) && (id in answers ==> answers[id] == old(answers)[id])
    {
      var q := def.questions[currentQuestion];
      answers := answers[q.id := optionIndex];
      assert forall i :: 0 <= i < |def.questions| && i != currentQuestion ==> def.questions[i].id != q.id;
    }

    /** Whether the Next button is enabled: the current question has an
        answer and no result is being computed. */
    function CanGoNext(): (b: bool)
      reads this
      requires Valid()
      ensures b <==> def.questions[currentQuestion].id in answers && !isSubmitting
    {
      def.questions[currentQuestion].id in answers && !isSubmitting
    }

    /** `handleNext`: advance before the last question; on the last one,
        compute and show the result (the 1.5 s delay is not modelled). */
    method Next()
      requires Valid()
      modifies this`currentQuestion, this`isComplete, this`isSubmitting, this`result
      ensures Valid()
      ensures old(currentQuestion) < |def.questions| - 1 ==>
        currentQuestion == old(currentQuestion) + 1 && result == old(result)
        && isComplete == old(isComplete) && isSubmitting == old(isSubmitting)
      ensures old(currentQuestion) == |def.questions| - 1 ==>
        currentQuestion == old(currentQuestion) && result == Some(Evaluate(def, answers))
        && isComplete && !isSubmitting
    {
      if currentQuestion < |def.questions| - 1 {
        currentQuestion := currentQuestion + 1;
      } else {
        isSubmitting := true;
        result := Some(Evaluate(def, answers));
        isComplete := true;
        isSubmitting := false;
      }
    }

    /** `handleBack`: step back unless at the first question. */
    method Back()
      requires Valid()
      modifies this`currentQuestion
      ensures Valid()
      ensures currentQuestion == if old(currentQuestion) > 0 then old(currentQuestion) - 1 else 0
    {
      if currentQuestion > 0 {
        currentQuestion := currentQuestion - 1;
      }
    }

    /** `handleRetake`: back to the start screen with no answers and no result. */
    method Retake()
      requires Valid()
      modifies this`hasStarted, this`currentQuestion, this`answers, this`isComplete, this`result
      ensures Valid()
      ensures !hasStarted && currentQuestion == 0 && answers == map[] && !isComplete && result == None
      ensures isSubmitting == old(isSubmitting)
    {
      hasStarted, currentQuestion, answers, isComplete, result := false, 0, map[], false, None;
    }
  }
}
