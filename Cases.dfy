/**
 * Patient cases and how they are generated (generateCustomer and
 * generateObservedSymptoms in script.js), as functions of the catalog and
 * of the values Math.random() returns.
 *
 * Generating a case shuffles the chosen disease's symptom list in place, so
 * each generator returns the reordered catalog beside its result.
 */
module Cases {
  import opened Utilities
  import opened Catalog

  const CUSTOMER_NAMES: seq<string> :=
    ["Alex", "Jamie", "Taylor", "Jordan", "Morgan", "Casey", "Riley", "Sam", "Charlie", "Dana"]

  const PET_NAMES: seq<string> :=
    ["Buddy", "Mittens", "Nibbles", "Coco", "Rex", "Luna", "Bella", "Ollie", "Simba", "Daisy"]

  /** Which message a test result carries. */
  datatype ResultText = Finding(text: string) | Abnormal(testName: string) | NoFindings

  /** One entry of a case's testsRun map; `testName` and `cost` form the "Used ..." prefix of its text. */
  datatype TestResult = TestResult(positive: bool, testName: string, cost: nat, text: ResultText, timestamp: int)

  /** A patient: `disease` is the position of its (shared) disease in the catalog. */
  datatype Case = Case(
    id: string,
    owner: string,
    petName: string,
    petType: Species,
    disease: nat,
    observedSymptoms: seq<string>,
    testsRun: map<string, TestResult>,
    called: bool)

  /** A case refers to a catalog disease that its pet's species can have. */
  ghost predicate WellFormedCase(c: Case) {
    c.disease < |DISEASES| && c.petType in DISEASES[c.disease].petTypes
  }

  /** Pushing a well-formed case onto well-formed cases leaves only well-formed cases. */
  lemma PushKeepsWellFormed(a: seq<Case>, c: Case)
    requires forall x :: x in a ==> WellFormedCase(x)
    requires WellFormedCase(c)
    ensures forall x :: x in a + [c] ==> WellFormedCase(x)
  {
    forall x | x in a + [c] ensures WellFormedCase(x) {
      assert x in a || x == c;
    }
  }

  // ----- choosing species and disease -----

  /** The species generateCustomer draws: the entry of the species list at rand(0, 2) (script.js:153). */
  function PickSpecies(u: Unit): (sp: Species)
    ensures sp in PET_TYPES
  {
    PET_TYPES[Rand(0, |PET_TYPES| - 1, u)]
  }

  function CompatibleFrom(ds: seq<Disease>, sp: Species, from: nat): (r: seq<nat>)
    ensures forall k :: k in r <==> from <= k < |ds| && (sp in ds[k].petTypes || |ds[k].petTypes| == 0)
    ensures forall i, j :: 0 <= i < j < |r| ==> r[i] < r[j]
    decreases |ds| - from
  {
    if from >= |ds| then []
    else
      var rest := CompatibleFrom(ds, sp, from + 1);
      assert forall j :: 0 <= j < |rest| ==> rest[j] in rest;
      if sp in ds[from].petTypes || |ds[from].petTypes| == 0 then [from] + rest else rest
  }

  /**
   * state.diseases.filter(d => d.petTypes.includes(petType) || d.petTypes.length === 0),
   * as the positions of the admitted diseases, in catalog order.
   */
  function Compatible(ds: seq<Disease>, sp: Species): (r: seq<nat>)
    ensures forall k :: k in r <==> 0 <= k < |ds| && (sp in ds[k].petTypes || |ds[k].petTypes| == 0)
    ensures forall i, j :: 0 <= i < j < |r| ==> r[i] < r[j]
  {
    CompatibleFrom(ds, sp, 0)
  }

  lemma {:induction false} CompatibleFromSamePetTypes(ds: seq<Disease>, es: seq<Disease>, sp: Species, from: nat)
    requires |ds| == |es|
    requires forall k :: 0 <= k < |ds| ==> ds[k].petTypes == es[k].petTypes
    ensures CompatibleFrom(ds, sp, from) == CompatibleFrom(es, sp, from)
    decreases |ds| - from
  {
    if from < |ds| {
      CompatibleFromSamePetTypes(ds, es, sp, from + 1);
    }
  }

  /** Reordering symptoms does not change which diseases a species admits. */
  lemma CompatibleInSameCatalog(ds: seq<Disease>, sp: Species)
    requires SameCatalog(ds)
    ensures Compatible(ds, sp) == Compatible(DISEASES, sp)
  {
    CompatibleFromSamePetTypes(ds, DISEASES, sp, 0);
  }

  /**
   * No disease lists Rabbit and none has an empty petTypes, so a Rabbit is
   * admitted by no disease: the filter leaves nothing to pick from.
   */
  lemma RabbitHasNoDisease(ds: seq<Disease>)
    requires SameCatalog(ds)
    ensures Compatible(ds, Rabbit) == []
  {
    CompatibleInSameCatalog(ds, Rabbit);
    var r := Compatible(DISEASES, Rabbit);
    if r != [] {
      assert r[0] in r;
      PetTypesOfCatalog(r[0]);
    }
  }

  /** In the catalog, a species is admitted by exactly the diseases that list it. */
  lemma CompatibleAt(ds: seq<Disease>, sp: Species, k: nat)
    requires SameCatalog(ds) && k < |ds|
    ensures k in Compatible(ds, sp) <==> sp in DISEASES[k].petTypes
  {
    PetTypesOfCatalog(k);
  }

  /** Every disease admits a Dog; a Cat is admitted by all but Parvovirus and Kennel Cough. */
  lemma DogAndCatHaveDiseases(ds: seq<Disease>)
    requires SameCatalog(ds)
    ensures forall k :: 0 <= k < |ds| ==> k in Compatible(ds, Dog)
    ensures forall k :: 0 <= k < |ds| ==> (k in Compatible(ds, Cat) <==> k != 0 && k != 4)
  {
    forall k | 0 <= k < |ds|
      ensures k in Compatible(ds, Dog) && (k in Compatible(ds, Cat) <==> k != 0 && k != 4)
    {
      DogAndCatAt(ds, k);
    }
  }

  lemma DogAndCatAt(ds: seq<Disease>, k: nat)
    requires SameCatalog(ds) && k < |ds|
    ensures k in Compatible(ds, Dog) && (k in Compatible(ds, Cat) <==> k != 0 && k != 4)
  {
    CompatibleAt(ds, Dog, k);
    CompatibleAt(ds, Cat, k);
    PetTypesOfCatalog(k);
  }

  /** rand(0, 2) picks Rabbit, the last species, exactly for draws of at least 2/3. */
  lemma RabbitDraws(u: Unit)
    ensures PickSpecies(u) == Rabbit <==> u >= 2.0 / 3.0
  {
    var r := Rand(0, 2, u);
    RandIsFloor(0, 2, u);
    assert r == (u * 3.0).Floor;
    if u < 2.0 / 3.0 {
      assert u * 3.0 < 2.0;
      assert r < 2;
    } else {
      assert u * 3.0 >= 2.0;
      assert r == 2;
    }
  }

  /**
   * The species draws below 2/3: those for which rand(0, 2) does not pick
   * Rabbit, and so (SupportedIff) exactly those for which the filter leaves a
   * disease to pick.
   */
  predicate Supported(u: Unit) {
    u < 2.0 / 3.0
  }

  /** The filter leaves a disease to pick exactly when the species draw is below 2/3, i.e. not Rabbit. */
  lemma SupportedIff(ds: seq<Disease>, u: Unit)
    requires SameCatalog(ds)
    ensures Supported(u) <==> Compatible(ds, PickSpecies(u)) != []
    ensures Supported(u) <==> PickSpecies(u) != Rabbit
  {
    RabbitHasNoDisease(ds);
    CompatibleAt(ds, Dog, 1);
    CompatibleAt(ds, Cat, 1);
    PetTypesOfCatalog(1);
    RabbitDraws(u);
  }

  // ----- symptoms -----

  /** The symptom lists of all diseases, in catalog order, joined into one list (script.js:178). */
  function AllSymptoms(ds: seq<Disease>): (all: seq<string>)
  {
    if ds == [] then [] else ds[0].symptoms + AllSymptoms(ds[1..])
  }

  /** The pool holds exactly the symptoms of the catalog's diseases. */
  lemma {:induction false} AllSymptomsMembers(ds: seq<Disease>)
    ensures forall k, x :: 0 <= k < |ds| && x in ds[k].symptoms ==> x in AllSymptoms(ds)
    ensures forall x :: x in AllSymptoms(ds) ==> exists k :: 0 <= k < |ds| && x in ds[k].symptoms
  {
    if ds != [] {
      AllSymptomsMembers(ds[1..]);
      assert forall k :: 1 <= k < |ds| ==> ds[k] == ds[1..][k - 1];
    }
  }

  lemma {:induction false} AllSymptomsLength(ds: seq<Disease>, es: seq<Disease>)
    requires |ds| == |es|
    requires forall k :: 0 <= k < |ds| ==> |ds[k].symptoms| == |es[k].symptoms|
    ensures |AllSymptoms(ds)| == |AllSymptoms(es)|
  {
    if ds != [] {
      AllSymptomsLength(ds[1..], es[1..]);
    }
  }

  /** The catalog lists 25 symptoms in all (Hair loss twice), at most 5 per disease. */
  const SYMPTOM_TOTAL: nat := 25
  const MOST_SYMPTOMS: nat := 5

  lemma SymptomCountOfCatalog(k: nat)
    requires k < |DISEASES|
    ensures |DISEASES[k].symptoms| == if k == 0 then 5 else 4
  {
    if k == 0 {} else if k == 1 {} else if k == 2 {} else if k == 3 {} else if k == 4 {} else {}
  }

  lemma LoadedSymptomTotal()
    ensures |AllSymptoms(DISEASES)| == SYMPTOM_TOTAL
  {
    assert DISEASES[1..][1..][1..][1..][1..][1..] == [];
    assert |AllSymptoms(DISEASES[1..][1..][1..][1..][1..])| == 4;
    assert |AllSymptoms(DISEASES[1..][1..][1..][1..])| == 8;
    assert |AllSymptoms(DISEASES[1..][1..][1..])| == 12;
    assert |AllSymptoms(DISEASES[1..][1..])| == 16;
    assert |AllSymptoms(DISEASES[1..])| == 20;
  }

  lemma CatalogSizes(ds: seq<Disease>)
    requires SameCatalog(ds)
    ensures |AllSymptoms(ds)| == SYMPTOM_TOTAL
    ensures forall k :: 0 <= k < |ds| ==> |ds[k].symptoms| <= MOST_SYMPTOMS
  {
    forall k | 0 <= k < |ds| ensures |ds[k].symptoms| == |DISEASES[k].symptoms| <= MOST_SYMPTOMS {
      SymptomCountOfCatalog(k);
    }
    AllSymptomsLength(ds, DISEASES);
    LoadedSymptomTotal();
  }

  /** The elements of s that are not in t, in their order in s (script.js:178). */
  function Without(s: seq<string>, t: seq<string>): (r: seq<string>)
    ensures |r| <= |s|
  {
    if s == [] then [] else if s[0] in t then Without(s[1..], t) else [s[0]] + Without(s[1..], t)
  }

  /** The filter keeps exactly the elements of s that are not in t. */
  lemma {:induction false} WithoutMembers(s: seq<string>, t: seq<string>)
    ensures forall x :: x in Without(s, t) <==> x in s && x !in t
  {
    if s != [] {
      WithoutMembers(s[1..], t);
      assert forall x :: x in s <==> x == s[0] || x in s[1..];
    }
  }

  lemma ReorderingKeepsCatalog(ds: seq<Disease>, k: nat, s: seq<string>)
    requires SameCatalog(ds) && k < |ds|
    requires |s| == |ds[k].symptoms|
    ensures SameCatalog(ds[k := ds[k].(symptoms := s)])
  {
  }

  /** The values Math.random() returns while generateObservedSymptoms runs, by call site. */
  datatype SymptomDraws = SymptomDraws(
    numTrue: Unit,              // rand(2, 3)
    symptomShuffle: seq<Unit>,  // shuffleArray(disease.symptoms)
    noiseChance: Unit,          // Math.random() < 0.4
    noiseCount: Unit,           // rand(0, 2), only drawn when the chance succeeds
    noiseShuffle: seq<Unit>,    // shuffleArray(otherSymptoms)
    finalShuffle: seq<Unit>)    // shuffleArray([...trueSymptoms, ...noise])

  /** Enough draws for every shuffle, whatever the catalog's order and the other draws. */
  predicate DrawsSuffice(d: SymptomDraws) {
    |d.symptomShuffle| >= SwapCount(MOST_SYMPTOMS) &&
    |d.noiseShuffle| >= SwapCount(SYMPTOM_TOTAL) &&
    |d.finalShuffle| >= SwapCount(3 + 2)
  }

  const NOISE_CHANCE: real := 0.4

  /** The number of noise symptoms: rand(0, 2) when the draw is below 0.4, and none otherwise (script.js:179). */
  function NoiseCount(d: SymptomDraws): (n: nat)
    ensures n <= 2
    ensures d.noiseChance >= NOISE_CHANCE ==> n == 0
  {
    if d.noiseChance < NOISE_CHANCE then Rand(0, 2, d.noiseCount) else 0
  }

  /** What generateObservedSymptoms computes, and the catalog it leaves behind. */
  datatype Observation = Observation(
    catalog: seq<Disease>,
    trueSymptoms: seq<string>,
    pool: seq<string>,
    noise: seq<string>,
    observed: seq<string>)

  /** The true symptoms: the first rand(2, 3) symptoms of the disease's shuffled list, or all of them when fewer (script.js:175-176). */
  function TrueSymptoms(shuffled: seq<string>, d: SymptomDraws): (t: seq<string>)
    ensures |t| == Min(Rand(2, 3, d.numTrue), |shuffled|) <= 3
    ensures t == shuffled[..|t|]
  {
    Take(shuffled, Rand(2, 3, d.numTrue))
  }

  /** The noise: the first NoiseCount(d) symptoms of the shuffled pool, or all of them when fewer (script.js:180). */
  function Noise(pool: seq<string>, d: SymptomDraws): (n: seq<string>)
    requires |d.noiseShuffle| >= SwapCount(|pool|)
    ensures |n| <= NoiseCount(d) <= 2
    ensures forall x :: x in n ==> x in pool
  {
    var shuffled := Shuffle(pool, d.noiseShuffle);
    ShuffleSameElements(pool, d.noiseShuffle);
    ShufflePermutes(pool, d.noiseShuffle);
    Take(shuffled, NoiseCount(d))
  }

  /** generateObservedSymptoms(disease) for the disease at position k. */
  function Observe(ds: seq<Disease>, k: nat, d: SymptomDraws): (o: Observation)
    requires SameCatalog(ds) && k < |ds|
    requires DrawsSuffice(d)
  {
    CatalogSizes(ds);
    var shuffled := Shuffle(ds[k].symptoms, d.symptomShuffle);
    ShufflePermutes(ds[k].symptoms, d.symptomShuffle);
    var catalog := ds[k := ds[k].(symptoms := shuffled)];
    ReorderingKeepsCatalog(ds, k, shuffled);
    CatalogSizes(catalog);
    var trueSymptoms := TrueSymptoms(shuffled, d);
    var pool := Without(AllSymptoms(catalog), trueSymptoms);
    var noise := Noise(pool, d);
    Observation(catalog, trueSymptoms, pool, noise, Shuffle(trueSymptoms + noise, d.finalShuffle))
  }

  /** The catalog changes only in the chosen disease's symptom order. */
  lemma ObserveReordersOnlyThatDisease(ds: seq<Disease>, k: nat, d: SymptomDraws)
    requires SameCatalog(ds) && k < |ds| && DrawsSuffice(d)
    ensures var o := Observe(ds, k, d);
      SameCatalog(o.catalog) && |o.catalog| == |ds| &&
      o.catalog[k] == ds[k].(symptoms := o.catalog[k].symptoms) &&
      multiset(o.catalog[k].symptoms) == multiset(ds[k].symptoms) &&
      forall j :: 0 <= j < |ds| && j != k ==> o.catalog[j] == ds[j]
  {
    CatalogSizes(ds);
    ShufflePermutes(ds[k].symptoms, d.symptomShuffle);
  }

  /**
   * The true symptoms are the first min(numTrue, |symptoms|) of the shuffled
   * symptom list, with numTrue in {2, 3}: at least min(2, |symptoms|) of them,
   * all symptoms of the disease.
   */
  lemma TrueSymptomsArePrefixOfShuffle(ds: seq<Disease>, k: nat, d: SymptomDraws)
    requires SameCatalog(ds) && k < |ds| && DrawsSuffice(d)
    ensures var o := Observe(ds, k, d);
      |o.trueSymptoms| == Min(Rand(2, 3, d.numTrue), |ds[k].symptoms|) &&
      o.trueSymptoms == o.catalog[k].symptoms[..|o.trueSymptoms|] &&
      Min(2, |ds[k].symptoms|) <= |o.trueSymptoms| <= 3 &&
      forall x :: x in o.trueSymptoms ==> x in ds[k].symptoms
  {
    CatalogSizes(ds);
    ShufflePermutes(ds[k].symptoms, d.symptomShuffle);
    ShuffleSameElements(ds[k].symptoms, d.symptomShuffle);
  }

  /**
   * The noise is at most two symptoms of the pool, none of them a true symptom,
   * and there is none at all when the 0.4 chance fails.
   */
  lemma NoiseBounds(ds: seq<Disease>, k: nat, d: SymptomDraws)
    requires SameCatalog(ds) && k < |ds| && DrawsSuffice(d)
    ensures var o := Observe(ds, k, d);
      |o.noise| <= 2 &&
      (d.noiseChance >= NOISE_CHANCE ==> o.noise == []) &&
      (forall x :: x in o.noise ==> x in o.pool && x !in o.trueSymptoms) &&
      forall x :: x in o.noise ==> x in AllSymptoms(ds)
  {
    var o := Observe(ds, k, d);
    CatalogSizes(ds);
    ShufflePermutes(ds[k].symptoms, d.symptomShuffle);
    ReorderingKeepsCatalog(ds, k, o.catalog[k].symptoms);
    CatalogSizes(o.catalog);
    ShuffleSameElements(o.pool, d.noiseShuffle);
    ShuffleSameElements(ds[k].symptoms, d.symptomShuffle);
    WithoutMembers(AllSymptoms(o.catalog), o.trueSymptoms);
    AllSymptomsMembers(o.catalog);
    AllSymptomsMembers(ds);
    forall x | x in o.noise ensures x in AllSymptoms(ds) {
      assert x in AllSymptoms(o.catalog);
      var j :| 0 <= j < |o.catalog| && x in o.catalog[j].symptoms;
      if j == k {
        assert x in ds[k].symptoms;
      } else {
        assert x in ds[j].symptoms;
      }
    }
  }

  /**
   * The noise pool is every catalog symptom that is not a true symptom, so it
   * holds the chosen disease's own unchosen symptoms too, not only other
   * diseases' symptoms.
   */
  lemma PoolHoldsOwnUnchosenSymptoms(ds: seq<Disease>, k: nat, d: SymptomDraws)
    requires SameCatalog(ds) && k < |ds| && DrawsSuffice(d)
    ensures var o := Observe(ds, k, d);
      (forall x :: x in o.pool <==> x in AllSymptoms(o.catalog) && x !in o.trueSymptoms) &&
      forall x :: x in ds[k].symptoms && x !in o.trueSymptoms ==> x in o.pool
  {
    var o := Observe(ds, k, d);
    CatalogSizes(ds);
    ShufflePermutes(ds[k].symptoms, d.symptomShuffle);
    ShuffleSameElements(ds[k].symptoms, d.symptomShuffle);
    WithoutMembers(AllSymptoms(o.catalog), o.trueSymptoms);
    AllSymptomsMembers(o.catalog);
    forall x | x in ds[k].symptoms && x !in o.trueSymptoms ensures x in o.pool {
      assert x in o.catalog[k].symptoms;
    }
  }

  /** The observed symptoms are a permutation of the true symptoms followed by the noise. */
  lemma ObservedIsPermutation(ds: seq<Disease>, k: nat, d: SymptomDraws)
    requires SameCatalog(ds) && k < |ds| && DrawsSuffice(d)
    ensures var o := Observe(ds, k, d);
      |o.observed| == |o.trueSymptoms| + |o.noise| &&
      multiset(o.observed) == multiset(o.trueSymptoms + o.noise) &&
      forall x :: x in o.trueSymptoms ==> x in o.observed
  {
    var o := Observe(ds, k, d);
    CatalogSizes(ds);
    ShufflePermutes(ds[k].symptoms, d.symptomShuffle);
    TrueSymptomsArePrefixOfShuffle(ds, k, d);
    NoiseBounds(ds, k, d);
    ShufflePermutes(o.trueSymptoms + o.noise, d.finalShuffle);
    ShuffleSameElements(o.trueSymptoms + o.noise, d.finalShuffle);
  }

  // ----- whole cases -----

  /** The values Math.random() returns while generateCustomer runs, in call order. */
  datatype CaseDraws = CaseDraws(
    species: Unit,          // rand(0, petTypes.length - 1)
    disease: Unit,          // rand(0, possible.length - 1)
    symptoms: SymptomDraws, // generateObservedSymptoms(disease)
    idSuffix: string,       // Math.random().toString(36).slice(2, 9), kept opaque
    owner: Unit,            // rand(0, custNames.length - 1)
    petName: Unit)          // rand(0, petNames.length - 1)

  /**
   * generateCustomer can only complete when the species draw leaves a disease
   * to pick (it fails for Rabbit), and the shuffles have their draws.
   */
  predicate CaseDrawsOk(b: CaseDraws) {
    Supported(b.species) && DrawsSuffice(b.symptoms)
  }

  datatype Generated = Generated(patient: Case, catalog: seq<Disease>)

  /** The disease generateCustomer picks: the compatible position at an index drawn uniformly from the filtered list (script.js:156). */
  function PickDisease(ds: seq<Disease>, sp: Species, u: Unit): (k: nat)
    requires Compatible(ds, sp) != []
    ensures k in Compatible(ds, sp)
  {
    var possible := Compatible(ds, sp);
    possible[Rand(0, |possible| - 1, u)]
  }

  /** Every disease the species admits is the one picked for some value of the draw. */
  lemma EveryCompatibleDiseaseCanBePicked(ds: seq<Disease>, sp: Species, k: nat)
    requires k in Compatible(ds, sp)
    ensures exists u: Unit :: PickDisease(ds, sp, u) == k
  {
    var possible := Compatible(ds, sp);
    var i :| 0 <= i < |possible| && possible[i] == k;
    RandReachesEveryValue(0, |possible| - 1, i);
    var u: Unit := (i - 0) as real / (|possible| - 1 - 0 + 1) as real;
    assert PickDisease(ds, sp, u) == k;
  }

  /** generateCustomer(): a new case, and the catalog with its disease's symptoms reordered. */
  function Generate(ds: seq<Disease>, b: CaseDraws): (g: Generated)
    requires SameCatalog(ds) && CaseDrawsOk(b)
    ensures SameCatalog(g.catalog)
    ensures WellFormedCase(g.patient) && g.patient.testsRun == map[]
  {
    var sp := PickSpecies(b.species);
    SupportedIff(ds, b.species);
    var k := PickDisease(ds, sp, b.disease);
    CompatibleAt(ds, sp, k);
    var o := Observe(ds, k, b.symptoms);
    ObserveReordersOnlyThatDisease(ds, k, b.symptoms);
    var owner := CUSTOMER_NAMES[Rand(0, |CUSTOMER_NAMES| - 1, b.owner)];
    var petName := PET_NAMES[Rand(0, |PET_NAMES| - 1, b.petName)];
    Generated(Case("cust_" + b.idSuffix, owner, petName, sp, k, o.observed, map[], false), o.catalog)
  }

  /**
   * The new case's species is the drawn one, its disease one the species
   * admits (any of them can be drawn), its names come from the two name
   * lists, it has no results and has not been called, and its symptoms and
   * the new catalog are those generateObservedSymptoms produces for its disease.
   */
  lemma GenerateFacts(ds: seq<Disease>, b: CaseDraws)
    requires SameCatalog(ds) && CaseDrawsOk(b)
    ensures var g := Generate(ds, b);
      g.patient.petType == PickSpecies(b.species) && g.patient.petType != Rabbit &&
      g.patient.disease == PickDisease(ds, g.patient.petType, b.disease) &&
      g.patient.disease in Compatible(ds, g.patient.petType) &&
      g.patient.id == "cust_" + b.idSuffix &&
      g.patient.owner in CUSTOMER_NAMES && g.patient.petName in PET_NAMES &&
      !g.patient.called &&
      var o := Observe(ds, g.patient.disease, b.symptoms);
      g.patient.observedSymptoms == o.observed && g.catalog == o.catalog
  {
    SupportedIff(ds, b.species);
  }
}
