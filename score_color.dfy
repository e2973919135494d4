/**
 * The colour class of the dashboard's final score (`getScoreColor`):
 * a four-way threshold classifier on the 1000-point scale. Each band's
 * lower bound is inclusive.
 */
module ScoreColor {

  /** The four display classes, ordered Red < Yellow < Blue < Green. */
  datatype Band = Red | Yellow | Blue | Green {

    /** Position of the band in the order Red < Yellow < Blue < Green. */
    function Rank(): nat
    {
      match this
      case Red => 0
      case Yellow => 1
      case Blue => 2
      case Green => 3
    }

    /** The Tailwind text-colour class the dashboard puts on the score. */
    function ClassName(): string
    {
      match this
      case Red => "text-red-500"
      case Yellow => "text-yellow-500"
      case Blue => "text-blue-500"
      case Green => "text-green-500"
    }
  }

  const GreenFrom: int := 750
  const BlueFrom: int := 650
  const YellowFrom: int := 500

  /** The lower bounds of Yellow, Blue and Green, ascending. */
  const Thresholds: seq<int> := [YellowFrom, BlueFrom, GreenFrom]

  /** The if/return chain of `getScoreColor`, answering a band. */
  function ScoreBand(score: int): (b: Band)
    ensures b == Green <==> score >= 750
    ensures b == Blue <==> 650 <= score < 750
    ensures b == Yellow <==> 500 <= score < 650
    ensures b == Red <==> score < 500
  {
    if score >= GreenFrom then Green
    else if score >= BlueFrom then Blue
    else if score >= YellowFrom then Yellow
    else Red
  }

  /** `getScoreColor` itself: the class name for a score. */
  function GetScoreColor(score: int): (cls: string)
    ensures cls == "text-green-500" <==> score >= 750
    ensures cls == "text-blue-500" <==> 650 <= score < 750
    ensures cls == "text-yellow-500" <==> 500 <= score < 650
    ensures cls == "text-red-500" <==> score < 500
  {
    ScoreBand(score).ClassName()
  }

  /** Number of thresholds in `ts` that `score` reaches. */
  function CountReached(ts: seq<int>, score: int): (k: nat)
    ensures k <= |ts|
  {
    if ts == [] then 0
    else (if score >= ts[0] then 1 else 0) + CountReached(ts[1..], score)
  }

  /** Reference definition: a score's band is the number of thresholds it reaches. */
  lemma RankCountsThresholds(score: int)
    ensures ScoreBand(score).Rank() == CountReached(Thresholds, score)
  {
    var t1, t2 := Thresholds[1..], Thresholds[1..][1..];
    assert t1 == [BlueFrom, GreenFrom] && t2 == [GreenFrom] && t2[1..] == [];
    assert CountReached(t2, score) == if score >= GreenFrom then 1 else 0;
    assert CountReached(t1, score) == (if score >= BlueFrom then 1 else 0) + CountReached(t2, score);
  }

  /** Each band starts exactly at its threshold: the lower bound is inclusive. */
  lemma Boundaries()
    ensures ScoreBand(750) == Green && ScoreBand(749) == Blue
    ensures ScoreBand(650) == Blue && ScoreBand(649) == Yellow
    ensures ScoreBand(500) == Yellow && ScoreBand(499) == Red
  {
  }

  /** A higher score never gets a lower band. */
  lemma Monotone(s: int, t: int)
    requires s <= t
    ensures ScoreBand(s).Rank() <= ScoreBand(t).Rank()
  {
  }

  /** Distinct bands have distinct class names, so the class identifies the band. */
  lemma ClassNameInjective(b: Band, c: Band)
    ensures b.ClassName() == c.ClassName() <==> b == c
  {
    if b != c {
      assert b.ClassName()[5] != c.ClassName()[5] || b.ClassName()[6] != c.ClassName()[6];
    }
  }
}
