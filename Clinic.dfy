/**
 * The session state of the clinic (the `state` object of script.js) and the
 * operations that change it: seeding the waiting room, generating cases,
 * calling the next customer, running a test, submitting a diagnosis and
 * finishing a treatment.
 *
 * Each method is proved against the specification functions of Cases and
 * Rules, and keeps the session invariant Valid().
 */
module Session {
  import opened Utilities
  import opened Catalog
  import opened Cases
  import opened Rules
  import opened Seeding

  const START_MONEY: int := 100
  const START_REPUTATION: int := 50
  const OPENING_CASES: nat := 5
  const RESEED_CASES: nat := 3

  /** Which message callNextCustomer logs; a reseed is complete unless a generation threw. */
  datatype CallOutcome = PatientStillActive | Reseeded(complete: bool) | Called(patient: Case)

  /** Which message runTest logs. */
  datatype TestOutcome = NoPatient | NotEnoughMoney | Ran(result: TestResult)

  /** Which feedback submitDiagnosis shows. */
  datatype DiagnosisOutcome =
    | NoPatientToDiagnose
    | NoSelection
    | Correct(earned: int, treatment: string)
    | Incorrect(penalty: int, actual: string)

  /** An array holding the elements of s. */
  method ToArray(s: seq<string>) returns (a: array<string>)
    ensures fresh(a) && a[..] == s
  {
    a := new string[|s|](i requires 0 <= i < |s| => s[i]);
  }

  class Clinic {
    var money: int
    var reputation: int
    var waiting: seq<Case>
    var current: Option<Case>
    /** state.diseases: the catalog, whose symptom lists case generation reorders in place. */
    var diseases: seq<Disease>

    /** No debt, reputation in [0, 100], a catalog holding the loaded diseases with symptom lists of the loaded lengths, and well-formed cases. */
    ghost predicate Valid()
      reads this
    {
      InRange(Standing(money, reputation)) && CasesValid()
    }

    /** The catalog keeps the loaded ids, names, species, tests, treatments and symptom-list lengths, and every case's disease and species come from it. */
    ghost predicate CasesValid()
      reads this`diseases, this`waiting, this`current
    {
      SameCatalog(diseases) &&
      (forall c :: c in waiting ==> WellFormedCase(c)) &&
      (current.Some? ==> WellFormedCase(current.value))
    }

    /**
     * The clinic as init() leaves it: money 100, reputation 50, and
     * seedWaitingRoom(5), which stops at the first Rabbit draw.
     */
    constructor (draws: seq<CaseDraws>)
      requires |draws| == OPENING_CASES && AllDrawsSuffice(draws)
      ensures Valid()
      ensures money == START_MONEY && reputation == START_REPUTATION && current == None
      ensures Seeded(waiting, diseases) == SeedFrom(Seeded([], DISEASES), draws, Completed(draws, OPENING_CASES))
    {
      money := START_MONEY;
      reputation := START_REPUTATION;
      waiting := [];
      current := None;
      diseases := DISEASES;
      new;
      LoadedCatalogIsSame();
      var complete := SeedWaitingRoom(OPENING_CASES, draws);
    }

    /**
     * seedWaitingRoom(n): pushes freshly generated cases onto the waiting
     * queue, n of them unless a generation throws, which keeps the cases pushed
     * before it and leaves the loop; completed says whether all n were pushed.
     */
    method SeedWaitingRoom(n: nat, draws: seq<CaseDraws>) returns (completed: bool)
      requires Valid()
      requires |draws| == n && AllDrawsSuffice(draws)
      modifies this`waiting, this`diseases
      ensures Valid()
      ensures completed <==> Completed(draws, n) == n
      ensures Seeded(waiting, diseases) == SeedFrom(old(Seeded(waiting, diseases)), draws, Completed(draws, n))
      ensures unchanged(this`money, this`reputation, this`current)
    {
      ghost var start := Seeded(waiting, diseases);
      var i := 0;
      completed := true;
      while i < n && completed
        invariant 0 <= i <= n
        invariant SeededAfter(start, draws, i)
        invariant !completed ==> i < n && !Supported(draws[i].species)
        decreases n - i, completed
      {
        completed := SeedStep(start, draws, i);
        if completed {
          i := i + 1;
        }
      }
      RunEnds(start, draws, n, i, completed);
    }

    /** The session is valid and its queue and catalog are what i successful generations from start leave. */
    ghost predicate SeededAfter(start: Seeded, draws: seq<CaseDraws>, i: nat)
      reads this
    {
      Valid() && SameCatalog(start.catalog) && i <= |draws| &&
      (forall j :: 0 <= j < i ==> CaseDrawsOk(draws[j])) &&
      Seeded(waiting, diseases) == SeedFrom(start, draws, i)
    }

    /** One turn of seedWaitingRoom's loop, after i completed generations: pushed unless generation i throws. */
    method SeedStep(ghost start: Seeded, draws: seq<CaseDraws>, i: nat) returns (pushed: bool)
      requires i < |draws| && AllDrawsSuffice(draws)
      requires SeededAfter(start, draws, i)
      modifies this`waiting, this`diseases
      ensures SeededAfter(start, draws, if pushed then i + 1 else i)
      ensures !pushed ==> !Supported(draws[i].species)
    {
      pushed := AdmitCustomer(draws[i]);
      if pushed {
        DrawsOkStep(draws, i);
        SeedFromStep(start, draws, i);
      }
    }

    /**
     * Generates one case and pushes it onto the waiting queue (script.js:146):
     * pushed unless the generation throws on a Rabbit draw, which leaves the
     * queue and the catalog as they were.
     */
    method AdmitCustomer(b: CaseDraws) returns (pushed: bool)
      requires Valid() && DrawsSuffice(b.symptoms)
      modifies this`waiting, this`diseases
      ensures Valid()
      ensures pushed <==> Supported(b.species)
      ensures pushed ==> Seeded(waiting, diseases) == Admit(old(Seeded(waiting, diseases)), b)
      ensures !pushed ==> waiting == old(waiting) && diseases == old(diseases)
    {
      var c := GenerateCustomer(b);
      if c.None? {
        return false;
      }
      PushKeepsWellFormed(waiting, c.value);
      waiting := waiting + [c.value];
      return true;
    }

    /**
     * generateCustomer(): picks species, disease, symptoms, id and names,
     * reordering the disease's symptoms. For a Rabbit the filter leaves
     * nothing, and the code throws before changing anything (None here).
     */
    method GenerateCustomer(b: CaseDraws) returns (c: Option<Case>)
      requires SameCatalog(diseases) && DrawsSuffice(b.symptoms)
      modifies this`diseases
      ensures SameCatalog(diseases)
      ensures c.Some? <==> Supported(b.species)
      ensures c.Some? ==> WellFormedCase(c.value)
      ensures c.Some? ==> c.value == Generate(old(diseases), b).patient
      ensures c.Some? ==> diseases == Generate(old(diseases), b).catalog
      ensures c.None? ==> diseases == old(diseases)
    {
      var petType := PET_TYPES[Rand(0, |PET_TYPES| - 1, b.species)];
      assert petType == PickSpecies(b.species);
      SupportedIff(diseases, b.species);
      var possible := Compatible(diseases, petType);
      if possible == [] {
        return None;
      }
      var k := possible[Rand(0, |possible| - 1, b.disease)];
      assert k == PickDisease(diseases, petType, b.disease);
      ghost var g := Generate(diseases, b);
      var observed := GenerateObservedSymptoms(k, b.symptoms);
      var owner := CUSTOMER_NAMES[Rand(0, |CUSTOMER_NAMES| - 1, b.owner)];
      var petName := PET_NAMES[Rand(0, |PET_NAMES| - 1, b.petName)];
      var patient := Case("cust_" + b.idSuffix, owner, petName, petType, k, observed, map[], false);
      assert patient == g.patient;
      return Some(patient);
    }

    /**
     * generateObservedSymptoms(disease): shuffles the disease's own symptom
     * list, takes 2 or 3 of them, maybe adds noise from the rest of the
     * catalog, and shuffles the combination.
     */
    method GenerateObservedSymptoms(k: nat, d: SymptomDraws) returns (observed: seq<string>)
      requires SameCatalog(diseases) && k < |diseases| && DrawsSuffice(d)
      modifies this`diseases
      ensures observed == Observe(old(diseases), k, d).observed
      ensures diseases == Observe(old(diseases), k, d).catalog
    {
      CatalogSizes(diseases);
      var numTrue := Rand(2, 3, d.numTrue);
      var shuffled := ReorderSymptoms(k, d.symptomShuffle);
      CatalogSizes(diseases);
      var trueSymptoms := Take(shuffled, numTrue);
      assert |trueSymptoms| <= 3;
      var otherSymptoms := Without(AllSymptoms(diseases), trueSymptoms);
      observed := AddNoise(trueSymptoms, otherSymptoms, d);
    }

    /**
     * The second half of generateObservedSymptoms: with chance 0.4 pick 0 to 2
     * symptoms of a shuffled copy of the pool, then shuffle them in with the
     * true symptoms.
     */
    static method AddNoise(trueSymptoms: seq<string>, pool: seq<string>, d: SymptomDraws) returns (observed: seq<string>)
      requires |trueSymptoms| <= 3 && |pool| <= SYMPTOM_TOTAL && DrawsSuffice(d)
      ensures observed == Shuffle(trueSymptoms + Noise(pool, d), d.finalShuffle)
    {
      var numNoise := if d.noiseChance < NOISE_CHANCE then Rand(0, 2, d.noiseCount) else 0;
      var noisePool := ShuffledCopy(pool, d.noiseShuffle);
      var noise := Take(noisePool, numNoise);
      assert |trueSymptoms + noise| <= MOST_SYMPTOMS;
      observed := ShuffledCopy(trueSymptoms + noise, d.finalShuffle);
    }

    /** shuffleArray(disease.symptoms): reorders the symptom list of the disease at k in the catalog itself. */
    method ReorderSymptoms(k: nat, ds: seq<Unit>) returns (shuffled: seq<string>)
      requires SameCatalog(diseases) && k < |diseases|
      requires |ds| >= SwapCount(|diseases[k].symptoms|)
      modifies this`diseases
      ensures shuffled == Shuffle(old(diseases)[k].symptoms, ds)
      ensures diseases == old(diseases)[k := old(diseases)[k].(symptoms := shuffled)]
      ensures SameCatalog(diseases)
    {
      var symptoms := ToArray(diseases[k].symptoms);
      var a := ShuffleArray(symptoms, ds);
      shuffled := a[..];
      ShufflePermutes(old(diseases)[k].symptoms, ds);
      ReorderingKeepsCatalog(diseases, k, shuffled);
      diseases := diseases[k := diseases[k].(symptoms := shuffled)];
    }

    /** shuffleArray applied to a fresh array holding s. */
    static method ShuffledCopy(s: seq<string>, ds: seq<Unit>) returns (r: seq<string>)
      requires |ds| >= SwapCount(|s|)
      ensures r == Shuffle(s, ds)
    {
      var a := ToArray(s);
      a := ShuffleArray(a, ds);
      r := a[..];
    }

    /**
     * callNextCustomer(): refuses while a patient is current; otherwise takes
     * the head of the queue, or, when the queue is empty, seeds three new cases
     * (fewer when a generation throws) and leaves no patient current.
     */
    method CallNextCustomer(draws: seq<CaseDraws>) returns (outcome: CallOutcome)
      requires Valid()
      requires current.None? && waiting == [] ==> |draws| == RESEED_CASES && AllDrawsSuffice(draws)
      modifies this
      ensures Valid()
      ensures money == old(money) && reputation == old(reputation)
      ensures old(current).Some? ==>
        outcome == PatientStillActive &&
        current == old(current) && waiting == old(waiting) && diseases == old(diseases)
      ensures old(current).None? && old(waiting) == [] ==>
        outcome == Reseeded(Completed(draws, RESEED_CASES) == RESEED_CASES) && current == None &&
        Seeded(waiting, diseases) == SeedFrom(Seeded([], old(diseases)), draws, Completed(draws, RESEED_CASES)) &&
        |waiting| == Completed(draws, RESEED_CASES)
      ensures old(current).None? && old(waiting) != [] ==>
        outcome == Called(old(waiting)[0]) && current == Some(old(waiting)[0]) &&
        waiting == old(waiting)[1..] && diseases == old(diseases)
    {
      if current.Some? {
        return PatientStillActive;
      }
      if waiting == [] {
        var complete := SeedWaitingRoom(RESEED_CASES, draws);
        return Reseeded(complete);
      }
      var next := waiting[0];
      waiting := waiting[1..];
      current := Some(next);
      outcome := Called(next);
    }

    /**
     * runTest(testKey): with a patient and enough money, charges the test's
     * cost (10 for an unknown key) and records the result under testKey,
     * replacing any earlier result for that key.
     */
    method RunTest(key: string, u: Unit, now: int) returns (outcome: TestOutcome)
      requires Valid()
      modifies this
      ensures Valid()
      ensures waiting == old(waiting) && reputation == old(reputation) && diseases == old(diseases)
      ensures old(current).None? ==>
        outcome == NoPatient && money == old(money) && current == old(current)
      ensures old(current).Some? && old(money) < TestDefFor(key).cost ==>
        outcome == NotEnoughMoney && money == old(money) && current == old(current)
      ensures old(current).Some? && old(money) >= TestDefFor(key).cost ==>
        var c := old(current).value;
        var r := ResultFor(diseases[c.disease], key, u, now);
        outcome == Ran(r) &&
        money == old(money) - TestDefFor(key).cost &&
        current == Some(c.(testsRun := c.testsRun[key := r]))
      ensures old(current).Some? && old(money) >= TestDefFor(key).cost ==>
        var before := old(current).value.testsRun;
        var after := current.value.testsRun;
        key in after && outcome.Ran? && after[key] == outcome.result &&
        after.Keys == before.Keys + {key} &&
        forall other :: other in before && other != key ==> after[other] == before[other]
    {
      if current.None? {
        return NoPatient;
      }
      var c := current.value;
      var testDef := TestDefFor(key);
      if money < testDef.cost {
        return NotEnoughMoney;
      }
      money := money - testDef.cost;
      var disease := diseases[c.disease];
      var positive := if key in disease.tests then u < disease.tests[key].rate else u < FALSE_POSITIVE_RATE;
      var text;
      if positive {
        text := if key in disease.tests && disease.tests[key].positive != ""
          then Finding(disease.tests[key].positive) else Abnormal(testDef.name);
      } else {
        text := NoFindings;
      }
      var result := TestResult(positive, testDef.name, testDef.cost, text, now);
      current := Some(c.(testsRun := c.testsRun[key := result]));
      outcome := Ran(result);
    }

    /**
     * submitDiagnosis(): with a patient and a selection, rewards a correct
     * diagnosis with the treatment's reward plus the efficiency bonus and +5
     * reputation (capped at 100), or penalises a wrong one by 15 money and 8
     * reputation (both floored at 0). The patient stays current.
     */
    method SubmitDiagnosis(selected: string) returns (outcome: DiagnosisOutcome)
      requires Valid()
      modifies this
      ensures Valid()
      ensures current == old(current) && waiting == old(waiting) && diseases == old(diseases)
      ensures old(current).None? || selected == "" ==>
        money == old(money) && reputation == old(reputation) &&
        outcome == (if old(current).None? then NoPatientToDiagnose else NoSelection)
      ensures old(current).Some? && selected != "" ==>
        var c := old(current).value;
        var was := Standing(old(money), old(reputation));
        if selected == diseases[c.disease].id then
          outcome.Correct? &&
          Standing(money, reputation) == AfterCorrect(was, diseases[c.disease].treatment.reward, |c.testsRun|)
        else
          outcome.Incorrect? && Standing(money, reputation) == AfterIncorrect(was)
    {
      if current.None? {
        return NoPatientToDiagnose;
      }
      if selected == "" {
        return NoSelection;
      }
      var c := current.value;
      var found := FindDisease(diseases, selected);
      var correct := selected == diseases[c.disease].id;
      if correct {
        FindOwnId(diseases, c.disease);
        var disease := diseases[found.value];
        var testsUsed := |c.testsRun|;
        var earned := disease.treatment.reward + EfficiencyBonus(testsUsed);
        money := money + earned;
        reputation := Min(MAX_REPUTATION, reputation + REPUTATION_GAIN);
        outcome := Correct(earned, disease.treatment.name);
      } else {
        money := Max(0, money - PENALTY);
        reputation := Max(0, reputation - REPUTATION_LOSS);
        outcome := Incorrect(PENALTY, diseases[c.disease].name);
      }
    }

    /**
     * finishTreatment(): with a patient, clears it and pushes one freshly
     * generated case onto the waiting queue. On a Rabbit draw the generation
     * throws after the patient is cleared, and nothing is pushed.
     */
    method FinishTreatment(b: CaseDraws) returns (completed: bool)
      requires Valid()
      requires current.Some? ==> DrawsSuffice(b.symptoms)
      modifies this`current, this`waiting, this`diseases
      ensures Valid()
      ensures money == old(money) && reputation == old(reputation)
      ensures completed <==> old(current).None? || Supported(b.species)
      ensures old(current).None? ==>
        current == None && waiting == old(waiting) && diseases == old(diseases)
      ensures old(current).Some? ==> current == None
      ensures old(current).Some? && Supported(b.species) ==>
        Seeded(waiting, diseases) == Admit(Seeded(old(waiting), old(diseases)), b)
      ensures old(current).Some? && !Supported(b.species) ==>
        waiting == old(waiting) && diseases == old(diseases)
    {
      if current.None? {
        return true;
      }
      current := None;
      completed := AdmitCustomer(b);
    }
  }
}
