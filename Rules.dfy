/**
 * The rules runTest and submitDiagnosis apply: how a test result comes out,
 * and how a diagnosis changes money and reputation.
 */
module Rules {
  import opened Utilities
  import opened Catalog
  import opened Cases

  // ----- test results (runTest) -----

  /** The chance that a test the disease does not define comes back positive anyway. */
  const FALSE_POSITIVE_RATE: real := 0.08

  /** Math.random() < testInfo.rate when the disease defines the test, Math.random() < 0.08 otherwise. */
  function IsPositive(d: Disease, key: string, u: Unit): (positive: bool) {
    if key in d.tests then u < d.tests[key].rate else u < FALSE_POSITIVE_RATE
  }

  /** The result runTest records for test `key` on a patient with disease d. */
  function ResultFor(d: Disease, key: string, u: Unit, now: int): (r: TestResult)
    ensures r.testName == TestDefFor(key).name && r.cost == TestDefFor(key).cost
    ensures r.timestamp == now
  {
    var def := TestDefFor(key);
    var positive := IsPositive(d, key, u);
    var text :=
      if !positive then NoFindings
      else if key in d.tests && d.tests[key].positive != "" then Finding(d.tests[key].positive)
      else Abnormal(def.name);
    TestResult(positive, def.name, def.cost, text, now)
  }

  /**
   * A defined test is positive exactly for draws below its detection rate, an
   * undefined one exactly for draws below 0.08; a result reports a finding
   * exactly when it is positive.
   */
  lemma ResultPositiveIff(d: Disease, key: string, u: Unit, now: int)
    ensures key in d.tests ==> (ResultFor(d, key, u, now).positive <==> u < d.tests[key].rate)
    ensures key !in d.tests ==> (ResultFor(d, key, u, now).positive <==> u < FALSE_POSITIVE_RATE)
    ensures ResultFor(d, key, u, now).positive <==> !ResultFor(d, key, u, now).text.NoFindings?
  {
  }

  /**
   * A positive result quotes the disease's own finding when it has one, and
   * otherwise reads "<test name> abnormal"; a finding text is never invented.
   */
  lemma ResultTextChoice(d: Disease, key: string, u: Unit, now: int)
    requires ResultFor(d, key, u, now).positive
    ensures key in d.tests && d.tests[key].positive != "" ==>
      ResultFor(d, key, u, now).text == Finding(d.tests[key].positive)
    ensures !(key in d.tests && d.tests[key].positive != "") ==>
      ResultFor(d, key, u, now).text == Abnormal(TestDefFor(key).name)
    ensures ResultFor(d, key, u, now).text.Finding? ==>
      key in d.tests && ResultFor(d, key, u, now).text.text == d.tests[key].positive
  {
  }

  /** A smaller draw is positive whenever a larger one is: each outcome is a threshold on the draw. */
  lemma PositiveIsThreshold(d: Disease, key: string, u: Unit, v: Unit, now: int)
    requires u <= v && ResultFor(d, key, v, now).positive
    ensures ResultFor(d, key, u, now).positive
  {
  }

  /** Every detection rate in the catalog is a probability between 0.4 and 0.95. */
  lemma CatalogRatesAreProbabilities(k: nat, key: string)
    requires k < |DISEASES| && key in DISEASES[k].tests
    ensures 0.4 <= DISEASES[k].tests[key].rate <= 0.95
  {
    if k == 0 {} else if k == 1 {} else if k == 2 {} else if k == 3 {} else if k == 4 {} else {}
  }

  // ----- scoring (submitDiagnosis) -----

  const EXPECTED_TESTS: int := 3
  const BONUS_PER_TEST: int := 5
  const PENALTY: int := 15
  const REPUTATION_GAIN: int := 5
  const REPUTATION_LOSS: int := 8
  const MAX_REPUTATION: int := 100

  /** Math.max(0, Math.round((3 - testsUsed) * 5)); the product is an integer, so round changes nothing. */
  function EfficiencyBonus(testsUsed: nat): (b: nat)
  {
    Max(0, (EXPECTED_TESTS - testsUsed) * BONUS_PER_TEST)
  }

  /** The bonus is 15, 10, 5 for 0, 1, 2 tests and 0 from 3 tests on. */
  lemma BonusTable(testsUsed: nat)
    ensures EfficiencyBonus(0) == 15 && EfficiencyBonus(1) == 10 && EfficiencyBonus(2) == 5
    ensures testsUsed >= 3 ==> EfficiencyBonus(testsUsed) == 0
  {
  }

  /** Running more tests never raises the bonus, and the bonus never goes below zero. */
  lemma BonusNonIncreasing(m: nat, n: nat)
    requires m <= n
    ensures 0 <= EfficiencyBonus(n) <= EfficiencyBonus(m) <= EfficiencyBonus(0)
  {
  }

  /** The two numbers a diagnosis changes. */
  datatype Standing = Standing(money: int, reputation: int)

  /** What the session keeps true of them: no debt, reputation within [0, 100]. */
  predicate InRange(s: Standing) {
    s.money >= 0 && 0 <= s.reputation <= MAX_REPUTATION
  }

  /** Correct diagnosis: money += reward + bonus; reputation = min(100, reputation + 5). */
  function AfterCorrect(s: Standing, reward: nat, testsUsed: nat): (r: Standing)
    ensures r.money >= s.money + reward
    ensures r.reputation >= Min(s.reputation, MAX_REPUTATION)
  {
    Standing(s.money + reward + EfficiencyBonus(testsUsed), Min(MAX_REPUTATION, s.reputation + REPUTATION_GAIN))
  }

  /** Incorrect diagnosis: money = max(0, money - 15); reputation = max(0, reputation - 8). */
  function AfterIncorrect(s: Standing): (r: Standing)
    ensures r.money <= Max(s.money, 0) && r.money >= 0
    ensures r.reputation <= Max(s.reputation, 0) && r.reputation >= 0
  {
    Standing(Max(0, s.money - PENALTY), Max(0, s.reputation - REPUTATION_LOSS))
  }

  /** A correct diagnosis earns the reward plus 15, 10, 5 or 0 and gains up to 5 reputation, capped at 100. */
  lemma CorrectDiagnosisGain(s: Standing, reward: nat, testsUsed: nat)
    requires InRange(s)
    ensures AfterCorrect(s, reward, testsUsed).money - s.money == reward + EfficiencyBonus(testsUsed)
    ensures reward <= AfterCorrect(s, reward, testsUsed).money - s.money <= reward + 15
    ensures AfterCorrect(s, reward, testsUsed).reputation == Min(100, s.reputation + 5)
    ensures s.reputation <= AfterCorrect(s, reward, testsUsed).reputation <= s.reputation + 5
  {
  }

  /** An incorrect diagnosis loses exactly min(15, money) and min(8, reputation). */
  lemma IncorrectDiagnosisLoss(s: Standing)
    requires InRange(s)
    ensures s.money - AfterIncorrect(s).money == Min(PENALTY, s.money)
    ensures AfterIncorrect(s).reputation == Max(0, s.reputation - 8)
    ensures s.reputation - AfterIncorrect(s).reputation == Min(REPUTATION_LOSS, s.reputation)
  {
  }

  /** Scoring, either way, keeps money non-negative and reputation within [0, 100]. */
  lemma ScoringKeepsRange(s: Standing, reward: nat, testsUsed: nat)
    requires InRange(s)
    ensures InRange(AfterCorrect(s, reward, testsUsed))
    ensures InRange(AfterIncorrect(s))
  {
  }

  /** Parvovirus (reward 80) diagnosed with no tests from 100/50: 195/55; with four tests: 180/55. */
  lemma ParvovirusScenarios()
    ensures DISEASES[0].name == "Parvovirus" && DISEASES[0].treatment.reward == 80
    ensures AfterCorrect(Standing(100, 50), DISEASES[0].treatment.reward, 0) == Standing(195, 55)
    ensures AfterCorrect(Standing(100, 50), DISEASES[0].treatment.reward, 4) == Standing(180, 55)
  {
  }

  /** A wrong diagnosis with 10 money and 50 reputation leaves 0 and 42. */
  lemma IncorrectScenario()
    ensures AfterIncorrect(Standing(10, 50)) == Standing(0, 42)
  {
  }
}
