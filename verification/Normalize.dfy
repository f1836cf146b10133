/**
 * Normalization of an engine's raw answers: exactly the requested keys, distributions over exactly
 * the options or levels, renormalized, with the choice and the score recomputed. Probabilities are
 * reals; the entropy formula is an arbitrary function, clamped into [0, 1] as the source clamps it.
 */
module Normalize {
  import opened Prelude

  datatype Json =
    | JNull
    | JBool(b: bool)
    | JNum(n: real)
    | JStr(s: string)
    | JArr(items: seq<Json>)
    | JObj(fields: map<string, Json>)

  datatype Question = Noul | Choice(options: seq<string>) | Score(levels: nat)

  datatype Answer =
    | NoulAnswer(p: real)
    | ChoiceAnswer(choice: string, byOption: map<string, real>, confidence: real)
    | ScoreAnswer(score: real, byLevel: seq<real>, confidence: real, levels: nat)

  datatype Format = Jev | LlmJson

  type Entropy = seq<real> -> real

  const PROBABILITY_SUM_TOLERANCE: real := 0.02
  const SCORE_MATCH_TOLERANCE: real := 0.02
  const BOUNDARY_EPSILON: real := 0.000000001

  function Abs(x: real): real { if x < 0.0 then -x else x }

  /** The expected level: the sum of i times p_i. */
  function ExpectedLevel(ps: seq<real>): real {
    if ps == [] then 0.0
    else ExpectedLevel(ps[..|ps| - 1]) + (|ps| - 1) as real * ps[|ps| - 1]
  }

  function Scaled(ps: seq<real>, scale: real): seq<real>
    requires scale != 0.0
  {
    seq(|ps|, i requires 0 <= i < |ps| => ps[i] / scale)
  }

  predicate Distinct(keys: seq<string>) {
    forall i, j :: 0 <= i < j < |keys| ==> keys[i] != keys[j]
  }

  function KeySet(keys: seq<string>): set<string> {
    set k | k in keys
  }

  /** A number in [0, 1]. */
  predicate Probability(v: Json) {
    v.JNum? && 0.0 <= v.n <= 1.0
  }

  predicate NearOne(sum: real) {
    Abs(sum - 1.0) <= PROBABILITY_SUM_TOLERANCE + BOUNDARY_EPSILON
  }

  ghost predicate ValidDistribution(v: Json, keys: seq<string>) {
    && v.JObj? && v.fields.Keys == KeySet(keys)
    && (forall k :: k in keys ==> Probability(v.fields[k]))
    && NearOne(Sum(Raw(v, keys)))
  }

  function Raw(v: Json, keys: seq<string>): seq<real> {
    seq(|keys|, i requires 0 <= i < |keys| =>
      if v.JObj? && keys[i] in v.fields && v.fields[keys[i]].JNum? then v.fields[keys[i]].n else 0.0)
  }

  /** `ps` is a probability distribution. */
  ghost predicate IsDistribution(ps: seq<real>) {
    && (forall i :: 0 <= i < |ps| ==> 0.0 <= ps[i] <= 1.0)
    && Sum(ps) == 1.0
  }

  lemma DivAdds(a: real, b: real, scale: real)
    requires scale != 0.0
    ensures (a + b) / scale == a / scale + b / scale
  {
  }

  lemma DivBetween(x: real, s: real)
    requires 0.0 <= x <= s && s > 0.0
    ensures 0.0 <= x / s <= 1.0
  {
    assert x / s * s == x;
  }

  lemma {:induction false} SumScales(ps: seq<real>, scale: real)
    requires scale != 0.0
    ensures Sum(Scaled(ps, scale)) == Sum(ps) / scale
  {
    if ps != [] {
      var n := |ps| - 1;
      SumScales(ps[..n], scale);
      assert Scaled(ps, scale)[..n] == Scaled(ps[..n], scale);
      DivAdds(Sum(ps[..n]), ps[n], scale);
    }
  }

  lemma {:induction false} PartIsAtMostSum(ps: seq<real>, i: nat)
    requires i < |ps| && forall j :: 0 <= j < |ps| ==> ps[j] >= 0.0
    ensures ps[i] <= Sum(ps)
  {
    var n := |ps| - 1;
    SumIsNonNegative(ps[..n]);
    if i < n {
      PartIsAtMostSum(ps[..n], i);
    }
  }

  lemma {:induction false} SumIsNonNegative(ps: seq<real>)
    requires forall j :: 0 <= j < |ps| ==> ps[j] >= 0.0
    ensures Sum(ps) >= 0.0
  {
    if ps != [] {
      SumIsNonNegative(ps[..|ps| - 1]);
    }
  }

  lemma NearOneIsPositive(sum: real)
    requires NearOne(sum)
    ensures sum > 0.0 && sum / sum == 1.0
  {
  }

  /** Renormalizing a tolerable vector of probabilities makes it a distribution. */
  lemma RenormalizedIsDistribution(ps: seq<real>)
    requires forall i :: 0 <= i < |ps| ==> 0.0 <= ps[i] <= 1.0
    requires NearOne(Sum(ps))
    ensures Sum(ps) > 0.0 && IsDistribution(Scaled(ps, Sum(ps)))
  {
    hide Sum, NearOne, ExpectedLevel;
    var s := Sum(ps);
    NearOneIsPositive(s);
    SumScales(ps, s);
    forall i | 0 <= i < |ps|
      ensures 0.0 <= Scaled(ps, s)[i] <= 1.0
    {
      PartIsAtMostSum(ps, i);
      DivBetween(ps[i], s);
    }
  }

  lemma {:induction false} DistinctKeyCount(keys: seq<string>)
    requires Distinct(keys)
    ensures |KeySet(keys)| == |keys|
  {
    if keys != [] {
      var n := |keys| - 1;
      DistinctKeyCount(keys[..n]);
      assert KeySet(keys) == KeySet(keys[..n]) + {keys[n]};
    }
  }

  /** The probabilities under `keys`, in that order; none when one is missing or no probability. */
  method ReadAll(m: map<string, Json>, keys: seq<string>) returns (ok: bool, raw: seq<real>)
    ensures ok <==> forall j :: 0 <= j < |keys| ==> keys[j] in m && Probability(m[keys[j]])
    ensures ok ==> raw == Raw(JObj(m), keys)
  {
    raw := [];
    var i := 0;
    while i < |keys|
      invariant 0 <= i <= |keys| && |raw| == i
      invariant forall j :: 0 <= j < i ==> keys[j] in m && Probability(m[keys[j]]) && raw[j] == m[keys[j]].n
    {
      if keys[i] !in m || !Probability(m[keys[i]]) {
        return false, raw;
      }
      raw := raw + [m[keys[i]].n];
      i := i + 1;
    }
    ok := true;
  }

  method Total(raw: seq<real>) returns (sum: real)
    ensures sum == Sum(raw)
  {
    sum := 0.0;
    var i := 0;
    while i < |raw|
      invariant 0 <= i <= |raw|
      invariant sum == Sum(raw[..i])
    {
      assert raw[..i + 1][..i] == raw[..i];
      sum := sum + raw[i];
      i := i + 1;
    }
    assert raw[..i] == raw;
  }

  lemma ValidMeansExactlyReadable(v: Json, keys: seq<string>)
    requires v.JObj? && Distinct(keys)
    ensures ValidDistribution(v, keys) <==>
      && (forall j :: 0 <= j < |keys| ==> keys[j] in v.fields && Probability(v.fields[keys[j]]))
      && |v.fields| == |keys| && NearOne(Sum(Raw(v, keys)))
  {
    hide NearOne, Sum, Raw;
    DistinctKeyCount(keys);
    assert |v.fields| == |v.fields.Keys|;
    if v.fields.Keys == KeySet(keys) {
      AllKeysPresent(v.fields, keys);
    }
    if (forall j :: 0 <= j < |keys| ==> keys[j] in v.fields) && |v.fields| == |keys| {
      assert KeySet(keys) <= v.fields.Keys;
      SameSizeSubset(KeySet(keys), v.fields.Keys);
    }
  }

  /** Exactly `keys`, each in [0, 1], summing to one within the tolerance; then renormalized. */
  method Distribution(v: Json, keys: seq<string>) returns (r: Option<seq<real>>, raw: seq<real>)
    requires Distinct(keys)
    ensures r.Some? <==> ValidDistribution(v, keys)
    ensures r.Some? ==>
      && raw == Raw(v, keys) && Sum(raw) > 0.0
      && r.value == Scaled(raw, Sum(raw)) && IsDistribution(r.value)
  {
    hide NearOne, IsDistribution, Scaled, Sum, KeySet;
    raw := [];
    if !v.JObj? {
      return None, raw;
    }
    ValidMeansExactlyReadable(v, keys);
    hide ValidDistribution;
    var ok, values := ReadAll(v.fields, keys);
    if !ok || |v.fields| != |keys| {
      return None, raw;
    }
    raw := values;
    var sum := Total(raw);
    if !NearOne(sum) {
      return None, raw;
    }
    RenormalizedIsDistribution(raw);
    r := Some(Scaled(raw, sum));
  }

  // ----- The choice and the score -----

  /** `i` holds the largest value, and is the first to. */
  predicate FirstArgmax(ps: seq<real>, i: nat) {
    && i < |ps|
    && (forall j :: 0 <= j < |ps| ==> ps[j] <= ps[i])
    && (forall j :: 0 <= j < i ==> ps[j] < ps[i])
  }

  method Argmax(ps: seq<real>) returns (best: nat)
    requires ps != []
    ensures FirstArgmax(ps, best)
  {
    best := 0;
    var i := 1;
    while i < |ps|
      invariant 1 <= i <= |ps| && best < i
      invariant forall j :: 0 <= j < i ==> ps[j] <= ps[best]
      invariant forall j :: 0 <= j < best ==> ps[j] < ps[best]
    {
      if ps[i] > ps[best] {
        best := i;
      }
      i := i + 1;
    }
  }

  /** The first argmax is one position, and renormalizing does not move it. */
  lemma ArgmaxSurvivesRenormalizing(ps: seq<real>, scale: real, i: nat, j: nat)
    requires scale > 0.0 && FirstArgmax(ps, i) && FirstArgmax(Scaled(ps, scale), j)
    ensures i == j
  {
    assert ps[i] / scale * scale == ps[i] && ps[j] / scale * scale == ps[j];
    assert Scaled(ps, scale)[i] == ps[i] / scale && Scaled(ps, scale)[j] == ps[j] / scale;
    assert ps[i] <= ps[j] && ps[j] <= ps[i];
  }

  lemma {:induction false} ExpectedLevelBounds(ps: seq<real>)
    requires forall i :: 0 <= i < |ps| ==> ps[i] >= 0.0
    ensures 0.0 <= ExpectedLevel(ps)
    ensures ps != [] ==> ExpectedLevel(ps) <= (|ps| - 1) as real * Sum(ps)
  {
    if ps != [] {
      var n := |ps| - 1;
      ExpectedLevelBounds(ps[..n]);
      SumIsNonNegative(ps[..n]);
      if n > 0 {
        assert (n - 1) as real * Sum(ps[..n]) <= n as real * Sum(ps[..n]);
      }
      assert n as real * Sum(ps) == n as real * Sum(ps[..n]) + n as real * ps[n];
    }
  }

  function ByOption(options: seq<string>, ps: seq<real>): map<string, real>
    requires |options| == |ps| && Distinct(options)
  {
    map i | 0 <= i < |options| :: options[i] := ps[i]
  }

  function EntropyConfidence(h: Entropy, ps: seq<real>): real {
    if |ps| < 2 then 1.0 else MinR(1.0, MaxR(0.0, h(ps)))
  }

  /** String(n) of a natural number. */
  function Decimal(n: nat): (s: string)
    ensures s != []
  {
    var digit := ('0' as int + n % 10) as char;
    if n < 10 then [digit] else Decimal(n / 10) + [digit]
  }

  /** The key of a level is its number in decimal digits. */
  lemma DecimalIs(n: nat)
    ensures n < 10 ==> Decimal(n) == ["0123456789"[n]]
    ensures n >= 10 ==> Decimal(n) == Decimal(n / 10) + ["0123456789"[n % 10]]
  {
    var digits := "0123456789";
    assert forall i :: 0 <= i < 10 ==> digits[i] == ('0' as int + i) as char;
  }

  lemma {:induction false} DecimalIsInjective(a: nat, b: nat)
    requires Decimal(a) == Decimal(b)
    ensures a == b
  {
    var x, y := Decimal(a), Decimal(b);
    assert x[|x| - 1] == y[|y| - 1];
    assert a % 10 == b % 10;
    if a >= 10 && b >= 10 {
      assert Decimal(a / 10) == x[..|x| - 1] == y[..|y| - 1] == Decimal(b / 10);
      DecimalIsInjective(a / 10, b / 10);
    }
  }

  function LevelKeys(levels: nat): seq<string> {
    seq(levels, (i: nat) requires i < levels => Decimal(i))
  }

  lemma LevelKeysAreDistinct(levels: nat)
    ensures Distinct(LevelKeys(levels))
  {
    forall i, j | 0 <= i < j < levels
      ensures LevelKeys(levels)[i] != LevelKeys(levels)[j]
    {
      if Decimal(i) == Decimal(j) {
        DecimalIsInjective(i, j);
      }
    }
  }

  /** How far a sum of probabilities and a reported score may be off. */
  lemma TolerancesAre(sum: real, v: Json, levels: seq<string>)
    ensures NearOne(sum) <==> 0.98 - 0.000000001 <= sum <= 1.02 + 0.000000001
    ensures var raw := Raw(Own(v, "probabilities"), levels);
      ScoreMatches(v, levels) <==>
        && Sum(raw) != 0.0 && Has(v, "score") && v.fields["score"].JNum?
        && (Within(v.fields["score"].n, ExpectedLevel(raw), 0.020000001)
            || Within(v.fields["score"].n, ExpectedLevel(Scaled(raw, Sum(raw))), 0.020000001))
  {
    hide Sum, ExpectedLevel, Scaled, Raw;
  }

  predicate Within(a: real, b: real, gap: real) {
    b - gap <= a <= b + gap
  }

  // ----- Answers -----

  /** The distribution an answer reports, in the order of the options. */
  function OptionValues(a: Answer, options: seq<string>): seq<real>
    requires a.ChoiceAnswer?
  {
    seq(|options|, i requires 0 <= i < |options| =>
      if options[i] in a.byOption then a.byOption[options[i]] else 0.0)
  }

  /** What an accepted answer to `q` guarantees, whatever the engine sent. */
  ghost predicate Sound(q: Question, a: Answer) {
    match q
    case Noul => a.NoulAnswer? && 0.0 <= a.p <= 1.0
    case Choice(options) =>
      && a.ChoiceAnswer? && 0.0 <= a.confidence <= 1.0
      && a.byOption.Keys == KeySet(options)
      && IsDistribution(OptionValues(a, options))
      && (exists i: nat :: FirstArgmax(OptionValues(a, options), i) && a.choice == options[i])
    case Score(levels) =>
      && a.ScoreAnswer? && 0.0 <= a.confidence <= 1.0
      && a.levels == levels == |a.byLevel|
      && IsDistribution(a.byLevel)
      && a.score == ExpectedLevel(a.byLevel)
      && 0.0 <= a.score <= (levels - 1) as real
  }

  function KeysOf(q: Question): seq<string> {
    match q
    case Noul => []
    case Choice(options) => options
    case Score(levels) => LevelKeys(levels)
  }

  /** Options come from the keys of an object, so they are distinct. */
  predicate WellPosed(q: Question) {
    q.Choice? ==> Distinct(q.options)
  }

  function Own(v: Json, key: string): Json {
    if v.JObj? && key in v.fields then v.fields[key] else JNull
  }

  predicate Has(v: Json, key: string) {
    v.JObj? && key in v.fields
  }

  function TypeName(q: Question): string {
    match q
    case Noul => "noul"
    case Choice(_) => "choice"
    case Score(_) => "score"
  }

  /** The reported score agrees with the levels, before or after renormalizing. */
  predicate ScoreMatches(v: Json, levels: seq<string>) {
    var raw := Raw(Own(v, "probabilities"), levels);
    Has(v, "score") && v.fields["score"].JNum? && Sum(raw) != 0.0 &&
    MinR(Abs(v.fields["score"].n - ExpectedLevel(Scaled(raw, Sum(raw)))),
         Abs(v.fields["score"].n - ExpectedLevel(raw))) <= SCORE_MATCH_TOLERANCE + BOUNDARY_EPSILON
  }

  predicate ConfidenceFits(v: Json) {
    !Has(v, "confidence") || v.fields["confidence"] == JNull || Probability(v.fields["confidence"])
  }

  /** Exactly which raw answers are accepted. */
  ghost predicate Acceptable(f: Format, v: Json, q: Question) {
    v.JObj? &&
    match f
    case Jev =>
      && Own(v, "type") == JStr(TypeName(q))
      && (match q
          case Noul => Probability(Own(v, "noul"))
          case Choice(options) =>
            && ValidDistribution(Own(v, "probabilities"), options)
            && (Has(v, "choice") ==> v.fields["choice"].JStr? && v.fields["choice"].s in options)
            && ConfidenceFits(v)
          case Score(levels) =>
            && ValidDistribution(Own(v, "probabilities"), LevelKeys(levels))
            && ScoreMatches(v, LevelKeys(levels))
            && ConfidenceFits(v))
    case LlmJson =>
      match q
      case Noul => v.fields.Keys == {"p"} && Probability(v.fields["p"])
      case _ => v.fields.Keys == {"probabilities"} && ValidDistribution(v.fields["probabilities"], KeysOf(q))
  }

  /** An object of exactly these keys, its values numbers in [0, 1] that sum to one, more or less. */
  ghost predicate Spread(v: Json, keys: seq<string>) {
    && v.JObj? && (forall k :: k in v.fields <==> k in keys)
    && (forall k :: k in keys ==> InUnit(v.fields[k]))
    && 0.98 - 0.000000001 <= Sum(Raw(v, keys)) <= 1.02 + 0.000000001
  }

  predicate InUnit(v: Json) {
    v.JNum? && v.n >= 0.0 && v.n <= 1.0
  }

  /**
   * Which answers are accepted. Jev names its type; a yes or no comes as a number in [0, 1], anything
   * else as a spread over the options or levels, with a choice among the options if there is one, a
   * score that fits the levels, and a confidence in [0, 1] if there is one. The LLM sends just the number
   * or just the spread.
   */
  lemma AcceptedExactly(v: Json, q: Question)
    ensures q.Noul? ==>
      && (Acceptable(Jev, v, q) <==>
            Has(v, "type") && v.fields["type"] == JStr("noul") && Has(v, "noul") && InUnit(v.fields["noul"]))
      && (Acceptable(LlmJson, v, q) <==> v.JObj? && v.fields.Keys == {"p"} && InUnit(v.fields["p"]))
    ensures !q.Noul? ==>
      && (Acceptable(LlmJson, v, q) <==>
            v.JObj? && v.fields.Keys == {"probabilities"} && Spread(v.fields["probabilities"], KeysOf(q)))
      && (Acceptable(Jev, v, q) <==>
            && Has(v, "type") && v.fields["type"] == JStr(if q.Choice? then "choice" else "score")
            && Has(v, "probabilities") && Spread(v.fields["probabilities"], KeysOf(q))
            && (q.Choice? && Has(v, "choice") ==> exists o :: o in q.options && v.fields["choice"] == JStr(o))
            && (q.Score? ==> ScoreMatches(v, KeysOf(q)))
            && (Has(v, "confidence") && v.fields["confidence"] != JNull ==> InUnit(v.fields["confidence"])))
  {
    hide Raw, Sum, ScoreMatches, LevelKeys;
    SpreadIsValid(Own(v, "probabilities"), KeysOf(q));
    if q.Choice? && Has(v, "choice") && v.fields["choice"].JStr? {
      assert v.fields["choice"] == JStr(v.fields["choice"].s);
    }
  }

  lemma SpreadIsValid(v: Json, keys: seq<string>)
    ensures Spread(v, keys) <==> ValidDistribution(v, keys)
  {
    hide Raw, Sum;
    if v.JObj? {
      assert v.fields.Keys == KeySet(keys) <==> forall k :: k in v.fields <==> k in keys;
    }
  }

  /** Where the probability of a yes is sent. */
  function YesField(f: Format): string {
    match f
    case Jev => "noul"
    case LlmJson => "p"
  }

  /** The number sent under `key`. */
  function Number(v: Json, key: string): real {
    if v.JObj? && key in v.fields && v.fields[key].JNum? then v.fields[key].n else 0.0
  }

  /** The confidence is the engine's own when it sent one, otherwise that of the entropy. */
  ghost predicate ConfidenceIs(f: Format, v: Json, h: Entropy, ps: seq<real>, confidence: real) {
    confidence == if f == Jev && Has(v, "confidence") && v.fields["confidence"].JNum? then v.fields["confidence"].n
                  else if |ps| < 2 then 1.0
                  else if h(ps) < 0.0 then 0.0
                  else if h(ps) > 1.0 then 1.0
                  else h(ps)
  }

  /**
   * An answer says what the engine sent: the very probability of a yes; of each option or level the
   * probability sent for it, as a share of the sum of those sent.
   */
  ghost predicate Conveys(f: Format, v: Json, q: Question, h: Entropy, a: Answer) {
    var sent := Own(v, "probabilities");
    match q
    case Noul => a.NoulAnswer? && a.p == Number(v, YesField(f))
    case Choice(options) =>
      && a.ChoiceAnswer?
      && ConfidenceIs(f, v, h, OptionValues(a, options), a.confidence)
      && (forall k :: k in options ==>
            k in a.byOption && Sum(Raw(sent, options)) != 0.0
            && a.byOption[k] == Number(sent, k) / Sum(Raw(sent, options)))
    case Score(levels) =>
      && a.ScoreAnswer? && |a.byLevel| == levels
      && ConfidenceIs(f, v, h, a.byLevel, a.confidence)
      && (forall i :: 0 <= i < levels ==>
            Sum(Raw(sent, LevelKeys(levels))) != 0.0
            && a.byLevel[i] == Number(sent, Decimal(i)) / Sum(Raw(sent, LevelKeys(levels))))
  }

  /** A distribution built of what was sent conveys it. */
  lemma ChoiceConveys(f: Format, v: Json, options: seq<string>, h: Entropy, ps: seq<real>, a: Answer)
    requires Distinct(options) && a.ChoiceAnswer? && a.byOption.Keys == KeySet(options)
    requires Sum(Raw(Own(v, "probabilities"), options)) != 0.0
    requires ps == Scaled(Raw(Own(v, "probabilities"), options), Sum(Raw(Own(v, "probabilities"), options)))
    requires OptionValues(a, options) == ps && ConfidenceIs(f, v, h, ps, a.confidence)
    ensures Conveys(f, v, Choice(options), h, a)
  {
    hide Sum, Own, ConfidenceIs;
    var sent := Own(v, "probabilities");
    forall k | k in options
      ensures k in a.byOption && a.byOption[k] == Number(sent, k) / Sum(Raw(sent, options))
    {
      var i :| 0 <= i < |options| && options[i] == k;
      assert k in KeySet(options);
      assert OptionValues(a, options)[i] == a.byOption[k];
      assert Raw(sent, options)[i] == Number(sent, k);
    }
  }

  lemma ScoreConveys(f: Format, v: Json, levels: nat, h: Entropy, ps: seq<real>, a: Answer)
    requires a.ScoreAnswer? && a.byLevel == ps && |ps| == levels
    requires Sum(Raw(Own(v, "probabilities"), LevelKeys(levels))) != 0.0
    requires ps == Scaled(Raw(Own(v, "probabilities"), LevelKeys(levels)),
                          Sum(Raw(Own(v, "probabilities"), LevelKeys(levels))))
    requires ConfidenceIs(f, v, h, ps, a.confidence)
    ensures Conveys(f, v, Score(levels), h, a)
  {
    hide Sum, Own, ConfidenceIs, Decimal;
    var sent := Own(v, "probabilities");
    forall i | 0 <= i < levels
      ensures a.byLevel[i] == Number(sent, Decimal(i)) / Sum(Raw(sent, LevelKeys(levels)))
    {
      assert LevelKeys(levels)[i] == Decimal(i);
      assert Raw(sent, LevelKeys(levels))[i] == Number(sent, Decimal(i));
    }
  }

  method ChoiceOf(options: seq<string>, ps: seq<real>, confidence: real) returns (a: Answer)
    requires Distinct(options) && |options| == |ps| && IsDistribution(ps) && 0.0 <= confidence <= 1.0
    ensures Sound(Choice(options), a)
    ensures OptionValues(a, options) == ps && a.confidence == confidence
  {
    DistributionIsNonempty(ps);
    var best := Argmax(ps);
    a := ChoiceAnswer(options[best], ByOption(options, ps), confidence);
    assert OptionValues(a, options) == ps;
    assert a.byOption.Keys == KeySet(options);
  }

  lemma DistributionIsNonempty(ps: seq<real>)
    requires IsDistribution(ps)
    ensures ps != []
  {
  }

  method ScoreOf(ps: seq<real>, confidence: real) returns (a: Answer)
    requires IsDistribution(ps) && 0.0 <= confidence <= 1.0
    ensures Sound(Score(|ps|), a) && a.byLevel == ps && a.confidence == confidence
  {
    ExpectedLevelBounds(ps);
    DistributionIsNonempty(ps);
    a := ScoreAnswer(ExpectedLevel(ps), ps, confidence, |ps|);
  }

  method NormalizeAnswer(f: Format, v: Json, q: Question, h: Entropy) returns (r: Option<Answer>)
    requires WellPosed(q)
    ensures r.Some? <==> Acceptable(f, v, q)
    ensures r.Some? ==> Sound(q, r.value) && Conveys(f, v, q, h, r.value)
  {
    hide Sum, IsDistribution, FirstArgmax;
    LevelKeysAreDistinct(if q.Score? then q.levels else 0);
    if f == Jev {
      r := NormalizeJevAnswer(v, q, h);
    } else {
      r := NormalizeLlmAnswer(v, q, h);
    }
  }

  method NormalizeJevAnswer(v: Json, q: Question, h: Entropy) returns (r: Option<Answer>)
    requires WellPosed(q) && Distinct(KeysOf(q))
    ensures r.Some? <==> Acceptable(Jev, v, q)
    ensures r.Some? ==> Sound(q, r.value) && Conveys(Jev, v, q, h, r.value)
  {
    hide Sum, IsDistribution, FirstArgmax, ValidDistribution, Scaled, Raw;
    if !v.JObj? || Own(v, "type") != JStr(TypeName(q)) {
      return None;
    }
    if q.Noul? {
      var p := Own(v, "noul");
      return if Probability(p) then Some(NoulAnswer(p.n)) else None;
    }
    var ps, raw := Distribution(Own(v, "probabilities"), KeysOf(q));
    if ps.None? {
      return None;
    }
    if q.Choice? {
      if Has(v, "choice") && !(v.fields["choice"].JStr? && v.fields["choice"].s in q.options) {
        return None;
      }
    } else if !ScoreMatches(v, KeysOf(q)) {
      return None;
    }
    if !ConfidenceFits(v) {
      return None;
    }
    var confidence :=
      if Has(v, "confidence") && v.fields["confidence"].JNum? then v.fields["confidence"].n
      else EntropyConfidence(h, ps.value);
    ShareLength(Own(v, "probabilities"), KeysOf(q));
    if q.Choice? {
      var a := ChoiceOf(q.options, ps.value, confidence);
      ChoiceConveys(Jev, v, q.options, h, ps.value, a);
      r := Some(a);
    } else {
      var a := ScoreOf(ps.value, confidence);
      ScoreConveys(Jev, v, q.levels, h, ps.value, a);
      r := Some(a);
    }
  }

  lemma ShareLength(v: Json, keys: seq<string>)
    ensures Sum(Raw(v, keys)) != 0.0 ==> |Scaled(Raw(v, keys), Sum(Raw(v, keys)))| == |keys|
  {
    hide Sum;
  }

  method NormalizeLlmAnswer(v: Json, q: Question, h: Entropy) returns (r: Option<Answer>)
    requires WellPosed(q) && Distinct(KeysOf(q))
    ensures r.Some? <==> Acceptable(LlmJson, v, q)
    ensures r.Some? ==> Sound(q, r.value) && Conveys(LlmJson, v, q, h, r.value)
  {
    hide Sum, IsDistribution, FirstArgmax, ValidDistribution, Scaled, Raw;
    var field := if q.Noul? then "p" else "probabilities";
    if !v.JObj? || field !in v.fields {
      return None;
    }
    OnlyKey(v.fields, field);
    if |v.fields| != 1 {
      return None;
    }
    var value := v.fields[field];
    if q.Noul? {
      return if Probability(value) then Some(NoulAnswer(value.n)) else None;
    }
    var ps, raw := Distribution(value, KeysOf(q));
    if ps.None? {
      return None;
    }
    ShareLength(Own(v, "probabilities"), KeysOf(q));
    var confidence := EntropyConfidence(h, ps.value);
    if q.Choice? {
      var a := ChoiceOf(q.options, ps.value, confidence);
      ChoiceConveys(LlmJson, v, q.options, h, ps.value, a);
      r := Some(a);
    } else {
      var a := ScoreOf(ps.value, confidence);
      ScoreConveys(LlmJson, v, q.levels, h, ps.value, a);
      r := Some(a);
    }
  }

  lemma OnlyKey(m: map<string, Json>, k: string)
    requires k in m
    ensures |m| == 1 <==> m.Keys == {k}
  {
    if |m| == 1 {
      SameSizeSubset({k}, m.Keys);
    }
    assert |m| == |m.Keys|;
  }

  // ----- A response -----

  datatype Entry = Entry(key: string, question: Question)

  function EntryKeys(qs: seq<Entry>): seq<string> {
    seq(|qs|, i requires 0 <= i < |qs| => qs[i].key)
  }

  ghost predicate AcceptableResponse(f: Format, raw: Json, qs: seq<Entry>) {
    && raw.JObj? && raw.fields.Keys == KeySet(EntryKeys(qs))
    && (forall i :: 0 <= i < |qs| ==>
          qs[i].key in raw.fields && Acceptable(f, raw.fields[qs[i].key], qs[i].question))
  }

  lemma KeySetGrows(keys: seq<string>, i: nat)
    requires i < |keys|
    ensures KeySet(keys[..i + 1]) == KeySet(keys[..i]) + {keys[i]}
    ensures keys[i] in KeySet(keys)
  {
    assert keys[..i + 1] == keys[..i] + [keys[i]];
  }

  method HasExactly(m: map<string, Json>, keys: seq<string>) returns (exact: bool)
    requires Distinct(keys)
    ensures exact <==> m.Keys == KeySet(keys)
  {
    hide KeySet;
    var i := 0;
    NoKeys(keys);
    while i < |keys|
      invariant 0 <= i <= |keys|
      invariant KeySet(keys[..i]) <= m.Keys
    {
      KeySetGrows(keys, i);
      if keys[i] !in m {
        return false;
      }
      i := i + 1;
    }
    assert keys[..i] == keys;
    DistinctKeyCount(keys);
    assert |m| == |m.Keys|;
    exact := |m| == |keys|;
    if exact {
      SameSizeSubset(KeySet(keys), m.Keys);
    }
  }

  lemma NoKeys(keys: seq<string>)
    ensures KeySet(keys[..0]) == {}
  {
  }

  /**
   * A response is accepted exactly when it answers the requested keys, no fewer and no more, each
   * acceptably; and then there is one sound answer per requested key.
   */
  method NormalizeAnswers(f: Format, raw: Json, qs: seq<Entry>, h: Entropy)
    returns (r: Option<map<string, Answer>>)
    requires Distinct(EntryKeys(qs)) && forall e :: e in qs ==> WellPosed(e.question)
    ensures r.Some? <==> AcceptableResponse(f, raw, qs)
    ensures r.Some? ==>
      && r.value.Keys == KeySet(EntryKeys(qs))
      && (forall i :: 0 <= i < |qs| ==>
            qs[i].key in r.value && Sound(qs[i].question, r.value[qs[i].key])
            && Conveys(f, raw.fields[qs[i].key], qs[i].question, h, r.value[qs[i].key]))
  {
    hide Acceptable, Sound, Conveys, KeySet;
    var keys := EntryKeys(qs);
    if !raw.JObj? {
      return None;
    }
    var exact := HasExactly(raw.fields, keys);
    if !exact {
      return None;
    }
    AllKeysPresent(raw.fields, keys);
    NoKeys(keys);
    var answers: map<string, Answer> := map[];
    var i := 0;
    while i < |qs|
      invariant 0 <= i <= |qs|
      invariant answers.Keys == KeySet(keys[..i])
      invariant forall j :: 0 <= j < i ==> Acceptable(f, raw.fields[keys[j]], qs[j].question)
      invariant forall j :: 0 <= j < i ==> keys[j] in answers && Sound(qs[j].question, answers[keys[j]])
      invariant forall j :: 0 <= j < i ==>
        keys[j] in answers && Conveys(f, raw.fields[keys[j]], qs[j].question, h, answers[keys[j]])
    {
      var a := NormalizeAnswer(f, raw.fields[keys[i]], qs[i].question, h);
      if a.None? {
        return None;
      }
      KeySetGrows(keys, i);
      answers := answers[keys[i] := a.value];
      i := i + 1;
    }
    assert keys[..i] == keys;
    r := Some(answers);
  }

  lemma AllKeysPresent(m: map<string, Json>, keys: seq<string>)
    requires m.Keys == KeySet(keys)
    ensures forall j :: 0 <= j < |keys| ==> keys[j] in m
  {
    forall j | 0 <= j < |keys| ensures keys[j] in m {
      assert keys[j] in KeySet(keys);
    }
  }
}
