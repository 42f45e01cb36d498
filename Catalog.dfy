/**
 * The static catalog: the diseases a patient can have and the diagnostic
 * tests the clinic offers (DISEASES and TESTS in script.js).
 */
module Catalog {
  import opened Utilities

  datatype Species = Dog | Cat | Rabbit

  /** The species a customer's pet can be, in the order rand picks from. */
  const PET_TYPES: seq<Species> := [Dog, Cat, Rabbit]

  /** How a test responds to a disease: the finding it reports and the chance it is positive. */
  datatype TestInfo = TestInfo(positive: string, rate: real)

  datatype Treatment = Treatment(name: string, reward: nat)

  datatype Disease = Disease(
    id: string,
    name: string,
    petTypes: seq<Species>,
    symptoms: seq<string>,
    tests: map<string, TestInfo>,
    treatment: Treatment)

  datatype TestDef = TestDef(cost: nat, name: string)

  const DISEASES: seq<Disease> := [
    Disease("parvo", "Parvovirus", [Dog],
      ["Vomiting", "Bloody diarrhea", "Lethargy", "Loss of appetite", "Dehydration"],
      map["stool" := TestInfo("Parvo antigen detected", 0.9),
          "blood" := TestInfo("Low white blood cells", 0.7),
          "xray" := TestInfo("Dilated intestines", 0.6)],
      Treatment("IV fluids + Antiemetic + Isolation", 80)),
    Disease("mange", "Mange (mites)", [Dog, Cat],
      ["Severe itching", "Hair loss", "Red skin", "Scabs"],
      map["skin" := TestInfo("Mites observed on scraping", 0.85),
          "flea" := TestInfo("No fleas found", 0.6)],
      Treatment("Topical acaricide + medicated bath", 40)),
    Disease("flea_allergy", "Flea Allergy Dermatitis", [Dog, Cat],
      ["Itching", "Bite marks", "Hair loss", "Red bumps"],
      map["flea" := TestInfo("Fleas or flea dirt present", 0.9),
          "skin" := TestInfo("Secondary bacterial infection", 0.4)],
      Treatment("Flea control + anti inflammation", 35)),
    Disease("uti", "Urinary Tract Infection", [Dog, Cat],
      ["Straining to urinate", "Frequent urination", "Blood in urine", "Licking genitals"],
      map["urine" := TestInfo("Bacteria and blood in urine", 0.9),
          "blood" := TestInfo("Mildly raised white cells", 0.5)],
      Treatment("Antibiotics for UTI", 30)),
    Disease("kennel_cough", "Kennel Cough", [Dog],
      ["Dry hacking cough", "Gagging", "Low energy", "Mild fever"],
      map["xray" := TestInfo("Bronchial pattern", 0.5),
          "blood" := TestInfo("Slight inflammation markers", 0.4)],
      Treatment("Cough suppressant + rest", 25)),
    Disease("diabetes", "Diabetes Mellitus", [Dog, Cat],
      ["Increased thirst", "Increased urination", "Weight loss", "Increased appetite"],
      map["blood" := TestInfo("High blood glucose", 0.95),
          "urine" := TestInfo("Glucose in urine", 0.9)],
      Treatment("Insulin + diet management", 70))
  ]

  const TESTS: map<string, TestDef> := map[
    "blood" := TestDef(20, "Blood Test"),
    "stool" := TestDef(15, "Stool Test"),
    "skin" := TestDef(12, "Skin Scrape"),
    "xray" := TestDef(30, "X-Ray"),
    "flea" := TestDef(5, "Flea Check"),
    "urine" := TestDef(18, "Urine Analysis")
  ]

  /** The cost charged for a test key the table does not know. */
  const UNKNOWN_TEST_COST: nat := 10

  /** The test definition runTest charges for a key: the table's entry, or cost 10 named by the key itself (script.js:248). */
  function TestDefFor(key: string): (t: TestDef)
    ensures key in TESTS ==> t == TESTS[key]
    ensures key !in TESTS ==> t == TestDef(UNKNOWN_TEST_COST, key)
  {
    if key in TESTS then TESTS[key] else TestDef(UNKNOWN_TEST_COST, key)
  }

  /** Every test, known or not, costs between 5 and 30. */
  lemma TestCostRange(key: string)
    ensures 5 <= TestDefFor(key).cost <= 30
  {
    if key in TESTS {
      assert key in {"blood", "stool", "skin", "xray", "flea", "urine"};
    }
  }

  /**
   * The catalog invariant: the loaded diseases' ids, names, species, tests and
   * treatments in their loaded order, and each symptom list of its loaded
   * length. Generating a case shuffles one disease's symptom list in place, and
   * nothing else ever changes the catalog; that such a shuffle keeps the list's
   * symptoms is Cases.ObserveReordersOnlyThatDisease.
   */
  ghost predicate SameCatalog(ds: seq<Disease>) {
    |ds| == |DISEASES| &&
    forall k :: 0 <= k < |ds| ==>
      ds[k].id == DISEASES[k].id &&
      ds[k].name == DISEASES[k].name &&
      ds[k].petTypes == DISEASES[k].petTypes &&
      |ds[k].symptoms| == |DISEASES[k].symptoms| &&
      ds[k].tests == DISEASES[k].tests &&
      ds[k].treatment == DISEASES[k].treatment
  }

  lemma LoadedCatalogIsSame()
    ensures SameCatalog(DISEASES)
  {
  }

  /** Which species each disease admits: every one a Dog, all but Parvovirus and Kennel Cough a Cat, none a Rabbit. */
  lemma PetTypesOfCatalog(k: nat)
    requires k < |DISEASES|
    ensures DISEASES[k].petTypes == if k == 0 || k == 4 then [Dog] else [Dog, Cat]
  {
    if k == 0 {} else if k == 1 {} else if k == 2 {} else if k == 3 {} else if k == 4 {} else {}
  }

  /** The position of a catalog id in DISEASES, told apart by its first letter. */
  function IdPosition(id: string): (k: int)
  {
    if id == "" then -1
    else match id[0]
      case 'p' => 0
      case 'm' => 1
      case 'f' => 2
      case 'u' => 3
      case 'k' => 4
      case 'd' => 5
      case _ => -1
  }

  lemma IdPositionOfCatalog(k: nat)
    requires k < |DISEASES|
    ensures IdPosition(DISEASES[k].id) == k
  {
    if k == 0 {} else if k == 1 {} else if k == 2 {} else if k == 3 {} else if k == 4 {} else {}
  }

  /** The diseases' ids are pairwise distinct, in any reordering of the catalog. */
  lemma IdsUnique(ds: seq<Disease>, i: nat, j: nat)
    requires SameCatalog(ds)
    requires i < |ds| && j < |ds| && i != j
    ensures ds[i].id != ds[j].id
  {
    assert ds[i].id == DISEASES[i].id && ds[j].id == DISEASES[j].id;
    IdPositionOfCatalog(i);
    IdPositionOfCatalog(j);
  }

  /** The position of the first disease whose id is the one sought, or None when there is none: find at script.js:298. */
  function FindDisease(ds: seq<Disease>, id: string): (r: Option<nat>)
    ensures r.Some? ==> r.value < |ds| && ds[r.value].id == id
    ensures r.Some? ==> forall k :: 0 <= k < r.value ==> ds[k].id != id
    ensures r.None? ==> forall k :: 0 <= k < |ds| ==> ds[k].id != id
  {
    if ds == [] then None
    else if ds[0].id == id then Some(0)
    else match FindDisease(ds[1..], id)
      case None => None
      case Some(k) => Some(k + 1)
  }

  /** Looking up a disease's own id finds that disease. */
  lemma FindOwnId(ds: seq<Disease>, k: nat)
    requires SameCatalog(ds) && k < |ds|
    ensures FindDisease(ds, ds[k].id) == Some(k)
  {
    forall i | 0 <= i < k ensures ds[i].id != ds[k].id {
      IdsUnique(ds, i, k);
    }
    FindFirstMatch(ds, k);
  }

  /** The search stops at the first disease with the id sought. */
  lemma FindFirstMatch(ds: seq<Disease>, k: nat)
    requires k < |ds|
    requires forall i :: 0 <= i < k ==> ds[i].id != ds[k].id
    ensures FindDisease(ds, ds[k].id) == Some(k)
  {
  }
}
