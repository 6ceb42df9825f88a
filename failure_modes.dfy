/**
  The failure-type table of the ball-mill generator, the mill's tendency
  adjustment of its weights, their normalisation, and the categorical
  draws (`np.random.choice(..., p=...)`) that pick a failure type and a
  severity from a uniform sample.
 */
module FailureModes {

  /** The five keys of the failure-type table, in table order. */
  datatype FailureType = BearingFeed | BearingDischarge | LinerWear | MotorElectrical | Lubrication
  {
    /** The key string the generator stores in `failure_type` and `tipo_falla`. */
    function Name(): string
    {
      match this
      case BearingFeed => "bearing_feed"
      case BearingDischarge => "bearing_discharge"
      case LinerWear => "liner_wear"
      case MotorElectrical => "motor_electrical"
      case Lubrication => "lubrication"
    }

    /** The generator's test `'bearing' in failure_type`, which `BearingKeys` proves to hold
        exactly for these two keys. */
    predicate IsBearing()
    {
      this == BearingFeed || this == BearingDischarge
    }
  }

  /** Python's substring test `sub in s`. */
  function Contains(s: string, sub: string): (r: bool)
    ensures r ==> |sub| <= |s|
    decreases |s|
  {
    |sub| <= |s| && (s[..|sub|] == sub || Contains(s[1..], sub))
  }

  /** `sub` occurs in `s` starting at offset `k`. */
  predicate OccursAtOffset(s: string, sub: string, k: int)
  {
    0 <= k && k + |sub| <= |s| && s[k..k + |sub|] == sub
  }

  /** `sub in s` holds exactly when `sub` occurs in `s` at some offset. */
  lemma {:induction false} ContainsIffOccurs(s: string, sub: string)
    ensures Contains(s, sub) <==> exists k :: OccursAtOffset(s, sub, k)
    decreases |s|
  {
    if |sub| <= |s| {
      if s[..|sub|] == sub {
        assert OccursAtOffset(s, sub, 0);
      } else {
        assert |s| > 0;
        ContainsIffOccurs(s[1..], sub);
        if Contains(s[1..], sub) {
          var k :| OccursAtOffset(s[1..], sub, k);
          assert s[k + 1..k + 1 + |sub|] == s[1..][k..k + |sub|];
          assert OccursAtOffset(s, sub, k + 1);
        }
        if exists k :: OccursAtOffset(s, sub, k) {
          var k :| OccursAtOffset(s, sub, k);
          assert k != 0;
          assert s[1..][k - 1..k - 1 + |sub|] == s[k..k + |sub|];
          assert OccursAtOffset(s[1..], sub, k - 1);
        }
      }
    }
  }

  /** `sub in s` holds when `sub` occurs at offset `k`. */
  lemma {:induction false} ContainsAt(s: string, sub: string, k: nat)
    requires k + |sub| <= |s| && s[k..k + |sub|] == sub
    ensures Contains(s, sub)
    decreases k
  {
    if k > 0 {
      assert s[1..][k - 1..k - 1 + |sub|] == s[k..k + |sub|];
      ContainsAt(s[1..], sub, k - 1);
    }
  }

  /** `sub` does not occur in `s` when it differs from the head of `s` at some position `j`
      and does not occur in the tail. */
  lemma NoMatchHere(s: string, sub: string, j: nat)
    requires j < |sub| && j < |s| && s[j] != sub[j]
    requires !Contains(s[1..], sub)
    ensures !Contains(s, sub)
  {
    if |sub| <= |s| {
      assert s[..|sub|][j] != sub[j];
    }
  }

  /** `sub` does not occur in a string that lacks its first character. */
  lemma {:induction false} NoFirstChar(s: string, sub: string)
    requires |sub| > 0 && sub[0] !in s
    ensures !Contains(s, sub)
    decreases |s|
  {
    if |sub| <= |s| {
      assert s[..|sub|][0] == s[0];
      NoFirstChar(s[1..], sub);
    }
  }

  lemma LinerWearIsNotBearing()
    ensures !Contains(LinerWear.Name(), "bearing")
  {
    NoFirstChar(LinerWear.Name(), "bearing");
  }

  lemma MotorElectricalIsNotBearing()
    ensures !Contains(MotorElectrical.Name(), "bearing")
  {
    NoFirstChar(MotorElectrical.Name(), "bearing");
  }

  lemma LubricationIsNotBearing()
    ensures !Contains(Lubrication.Name(), "bearing")
  {
    var s := Lubrication.Name();
    NoFirstChar(s[3..], "bearing");
    NoMatchHere(s[2..], "bearing", 1);
    NoMatchHere(s[1..], "bearing", 0);
    NoMatchHere(s, "bearing", 0);
  }

  lemma BearingFeedIsBearing()
    ensures Contains(BearingFeed.Name(), "bearing")
  {
    ContainsAt(BearingFeed.Name(), "bearing", 0);
  }

  lemma BearingDischargeIsBearing()
    ensures Contains(BearingDischarge.Name(), "bearing")
  {
    ContainsAt(BearingDischarge.Name(), "bearing", 0);
  }

  /** Exactly the two bearing keys contain the word "bearing". */
  lemma BearingKeys(t: FailureType)
    ensures Contains(t.Name(), "bearing") <==> t.IsBearing()
  {
    match t
    case BearingFeed => BearingFeedIsBearing();
    case BearingDischarge => BearingDischargeIsBearing();
    case LinerWear => LinerWearIsNotBearing();
    case MotorElectrical => MotorElectricalIsNotBearing();
    case Lubrication => LubricationIsNotBearing();
  }

  /** The failure-type table's keys, in the order `list(failure_types.keys())` yields them. */
  const FailureTypes: seq<FailureType> := [BearingFeed, BearingDischarge, LinerWear, MotorElectrical, Lubrication]

  /** The literature-based weights of the table, before any adjustment. */
  const BaseWeights: seq<real> := [0.35, 0.35, 0.20, 0.05, 0.05]

  /** Sum of a sequence of reals, accumulated from the front as `sum` and `cumsum` do. */
  function Sum(s: seq<real>): real
  {
    if |s| == 0 then 0.0 else Sum(s[..|s| - 1]) + s[|s| - 1]
  }

  predicate Positive(s: seq<real>)
  {
    forall i :: 0 <= i < |s| ==> s[i] > 0.0
  }

  predicate NonNegative(s: seq<real>)
  {
    forall i :: 0 <= i < |s| ==> s[i] >= 0.0
  }

  /** Whether a mill's `failure_tendency` makes failure type `t` more likely. */
  predicate Favoured(tendency: string, t: FailureType)
  {
    || (tendency == "bearings" && (t == BearingFeed || t == BearingDischarge))
    || (tendency == "liners" && t == LinerWear)
    || (tendency == "lubrication" && t == Lubrication)
  }

  /** The table after the tendency adjustment: bearing weights times 1.5, liner wear times 2
      or lubrication times 3, depending on the mill; any other tendency leaves the table as is. */
  function TendencyWeights(tendency: string): (w: seq<real>)
    ensures |w| == |FailureTypes| && Positive(w)
    ensures forall i :: 0 <= i < |w| ==> w[i] >= BaseWeights[i]
    ensures forall i :: 0 <= i < |w| ==> (w[i] > BaseWeights[i] <==> Favoured(tendency, FailureTypes[i]))
  {
    if tendency == "bearings" then [0.35 * 1.5, 0.35 * 1.5, 0.20, 0.05, 0.05]
    else if tendency == "liners" then [0.35, 0.35, 0.20 * 2.0, 0.05, 0.05]
    else if tendency == "lubrication" then [0.35, 0.35, 0.20, 0.05, 0.05 * 3.0]
    else BaseWeights
  }

  /** Every weight divided by the total. */
  function Normalize(w: seq<real>): (p: seq<real>)
    requires Positive(w) && |w| > 0
    ensures |p| == |w| && Positive(p)
    ensures forall i :: 0 <= i < |w| ==> p[i] * Sum(w) == w[i]
    ensures Sum(p) == 1.0
  {
    SumPositive(w);
    var total := Sum(w);
    var p := seq(|w|, i requires 0 <= i < |w| => w[i] / total);
    SumScaled(w, p, total);
    assert Sum(p) == total / total == 1.0;
    p
  }

  lemma {:induction false} SumPositive(w: seq<real>)
    requires Positive(w) && |w| > 0
    ensures Sum(w) > 0.0
    decreases |w|
  {
    if |w| > 1 {
      SumPositive(w[..|w| - 1]);
    }
  }

  /** Dividing every element by `c` divides the sum by `c`. */
  lemma {:induction false} SumScaled(w: seq<real>, p: seq<real>, c: real)
    requires c != 0.0 && |p| == |w|
    requires forall i :: 0 <= i < |w| ==> p[i] == w[i] / c
    ensures Sum(p) == Sum(w) / c
    decreases |w|
  {
    if |w| > 0 {
      SumScaled(w[..|w| - 1], p[..|p| - 1], c);
    }
  }

  lemma SumOfThree(p: seq<real>)
    requires |p| == 3
    ensures Sum(p) == p[0] + p[1] + p[2]
  {
    assert p[..3] == p && p[..3][..2] == p[..2];
    assert p[..2][..1] == p[..1] && p[..1][..0] == [];
    assert Sum(p[..1]) == p[0];
    assert Sum(p[..2]) == p[0] + p[1];
  }

  lemma SumOfFive(p: seq<real>)
    requires |p| == 5
    ensures Sum(p) == p[0] + p[1] + p[2] + p[3] + p[4]
  {
    assert p[..5] == p && p[..5][..4] == p[..4] && p[..4][..3] == p[..3];
    SumOfThree(p[..3]);
  }

  /** The total of the adjusted table: 1.35 for "bearings", 1.2 for "liners", 1.1 for
      "lubrication" and 1 for any other tendency. */
  lemma TendencyTotal(tendency: string)
    ensures Sum(TendencyWeights(tendency)) ==
      if tendency == "bearings" then 1.35
      else if tendency == "liners" then 1.2
      else if tendency == "lubrication" then 1.1
      else 1.0
  {
    SumOfFive(TendencyWeights(tendency));
  }

  /** The tendency-adjusted, normalised failure-type probabilities of one mill. After
      normalisation a type ends above its table weight exactly when the tendency favours it. */
  function FailureTypeProbabilities(tendency: string): (p: seq<real>)
    ensures TypeDistribution(p) && Positive(p)
    ensures forall i :: 0 <= i < |p| ==> (p[i] > BaseWeights[i] <==> Favoured(tendency, FailureTypes[i]))
    ensures forall i, j ::
      (0 <= i < |p| && 0 <= j < |p| && BaseWeights[i] == BaseWeights[j]
       && Favoured(tendency, FailureTypes[i]) && !Favoured(tendency, FailureTypes[j])) ==> p[i] > p[j]
  {
    var w := TendencyWeights(tendency);
    var p := Normalize(w);
    TendencyTotal(tendency);
    p
  }

  /** Inverse-CDF pick from position `i` on: the first index whose cumulative weight exceeds `u`,
      as `cdf.searchsorted(u, side='right')` does inside `np.random.choice`. */
  function Pick(p: seq<real>, u: real, i: nat): (r: nat)
    requires NonNegative(p) && i < |p|
    requires Sum(p[..i]) <= u < Sum(p)
    ensures i <= r < |p|
    ensures Sum(p[..r]) <= u < Sum(p[..r + 1])
    decreases |p| - i
  {
    if i == |p| - 1 then
      assert p[..i + 1] == p;
      i
    else if u < Sum(p[..i + 1]) then i
    else Pick(p, u, i + 1)
  }

  /** `np.random.choice(range(|p|), p=p)` driven by the uniform sample `u`. The chosen
      index always has positive probability. */
  function Categorical(p: seq<real>, u: real): (r: nat)
    requires NonNegative(p) && |p| > 0 && Sum(p) == 1.0
    requires 0.0 <= u < 1.0
    ensures r < |p|
    ensures Sum(p[..r]) <= u < Sum(p[..r]) + p[r]
    ensures p[r] > 0.0
  {
    assert p[..0] == [];
    var r := Pick(p, u, 0);
    assert p[..r + 1][..r] == p[..r];
    r
  }

  /** A probability vector over the failure-type table. */
  predicate TypeDistribution(p: seq<real>)
  {
    |p| == |FailureTypes| && NonNegative(p) && Sum(p) == 1.0
  }

  /** The failure type drawn with probabilities `p` (the normalised table) from the uniform
      sample `u`; it is never a type of probability zero. */
  function DrawFailureType(p: seq<real>, u: real): (t: FailureType)
    requires TypeDistribution(p)
    requires 0.0 <= u < 1.0
    ensures exists i :: 0 <= i < |p| && FailureTypes[i] == t && p[i] > 0.0
  {
    var i := Categorical(p, u);
    FailureTypes[i]
  }

  /** Severity probabilities of levels 1, 2 and 3, conditioned on the failure type. */
  function SeverityProbabilities(t: FailureType): (p: seq<real>)
    ensures |p| == 3 && Positive(p) && Sum(p) == 1.0
  {
    var p := if t in [BearingFeed, BearingDischarge] then [0.1, 0.6, 0.3]
    else if t == LinerWear then [0.3, 0.6, 0.1]
    else [0.5, 0.4, 0.1];
    SumOfThree(p);
    p
  }

  /** The severity (1 minor, 2 moderate, 3 critical) drawn for type `t` from the uniform sample `u`. */
  function DrawSeverity(t: FailureType, u: real): (s: int)
    requires 0.0 <= u < 1.0
    ensures 1 <= s <= 3
  {
    1 + Categorical(SeverityProbabilities(t), u)
  }
}
