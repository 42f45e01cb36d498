# Vet clinic simulator: engine model

This project models the game engine of a small browser game, a veterinary
clinic simulator written in JavaScript (`script.js`). Customers bring pets with
a hidden disease and a set of observed symptoms. The player calls the next
customer, runs paid diagnostic tests, submits a diagnosis, and is rewarded or
penalised in money and reputation. After treatment, a new customer joins the
waiting queue.

The model has six modules:

- `Utilities` covers `rand` and the in-place Fisher–Yates `shuffleArray`.
  - Every value `Math.random()` returns is a parameter of type `Unit`, a real in [0, 1).
  - `rand` is `floor(u * (hi - lo + 1)) + lo`, computed exactly.
  - `shuffleArray` is a method over an `array`, proved equal to the function `Shuffle`, which is proved to be a permutation.
- `Catalog` covers the constant tables `DISEASES` and `TESTS`, the test lookup with its fallback for unknown keys, and the `find` by disease id.
- `Cases` covers case generation (`generateCustomer`, `generateObservedSymptoms`).
  - Each is a function of the catalog and the draws.
  - Each returns the catalog as it leaves it: generating a case shuffles the chosen disease's own symptom list in place.
- `Seeding` covers the effect of pushing generated cases onto the waiting queue: one case (`Admit`) and a run of them (`SeedFrom`).
- `Rules` covers test outcomes and the scoring arithmetic of a diagnosis.
- `Session` holds the class `Clinic`.
  - Its fields are `money`, `reputation`, `waiting`, `current` and `diseases`, as in the `state` object.
  - Its methods are `init`, `seedWaitingRoom`, `generateCustomer`, `generateObservedSymptoms`, `callNextCustomer`, `runTest`, `submitDiagnosis` and `finishTreatment`.
  - Each method is proved against the functions above.
  - Each keeps the invariant `Valid()`: money at least 0, reputation in [0, 100], a catalog with the loaded ids, names, species, tests, treatments and symptom-list lengths, and every case referring to a disease its species can have.

The model follows what the code does in three places where the code's own
comments, or a helper it defines, suggest something else:

- **A Rabbit cannot be generated.** The comment at script.js:154 says a disease compatible with the species is chosen, "(if none, pick one)". The code only filters (script.js:155). No disease lists Rabbit and none has an empty species list, so a Rabbit gets nothing to pick, and `generateObservedSymptoms` then fails on an undefined disease (script.js:176).
  - `Cases.RabbitHasNoDisease` and `Cases.SupportedIff` prove this: a disease can be picked exactly when the species draw is below 2/3, i.e. the species is not Rabbit.
  - `Cases.Generate` is the successful generation and requires `CaseDrawsOk`. The session methods model the failure itself. `Session.Clinic.GenerateCustomer` returns `None` on a Rabbit draw, before anything changes.
  - A run of generations (`seedWaitingRoom`) keeps the cases pushed before the failing draw and stops there. `Seeding.Completed` is the number of generations that succeed.
  - `finishTreatment` has already cleared the current patient when its generation fails, so it then pushes nothing.
- **The chosen disease's own symptom list is shuffled in place.** The code passes `disease.symptoms` itself to `shuffleArray`, which shuffles in place (script.js:176), and `state.diseases` is the `DISEASES` array itself (script.js:111). The helper `shuffleCopy`, which shuffles a copy (script.js:379), is never called. So case generation reorders the catalog. Every later case and every later noise pool sees the new order.
- **The noise pool holds the disease's own unchosen symptoms.** The comment at script.js:177 speaks of "possible noise from other diseases". The code draws noise from all diseases' symptoms minus the chosen true ones (script.js:178).
  - `Cases.PoolHoldsOwnUnchosenSymptoms` states this.

## Model

| member | source | states |
|---|---|---|
| Utilities.Min | script.js:308 | Math.min is the smaller of its two arguments, one of them |
| Utilities.Max | script.js:323-324 | Math.max (also the bonus floor at script.js:305) is the larger of its two arguments, one of them |
| Utilities.Rand | script.js:369-371 | rand(lo, hi) returns a value in [lo, hi] |
| Utilities.RandIsFloor | script.js:369-371 | rand's result is exactly floor(u * (hi - lo + 1)) + lo |
| Utilities.RandReachesEveryValue | script.js:369-371 | every value of [lo, hi] is returned for some draw |
| Utilities.RandMonotone | script.js:369-371 | a larger draw never gives a smaller result |
| Utilities.ScaleIsProduct | script.js:370 | the repeated addition used for u * n equals the product |
| Utilities.FloorBelowIsFloor | script.js:370 | the count-down used by rand computes the floor of u * n |
| Utilities.Take | script.js:176 | slice(0, n) has length min(n, length) and keeps the leading elements |
| Utilities.Swap | script.js:375 | the destructuring swap exchanges positions i and j and changes nothing else |
| Utilities.SwapPermutes | script.js:375 | a swap keeps the multiset of elements |
| Utilities.FisherYates | script.js:373-376 | the swap loop from index i down to 1 keeps the length; FisherYatesPermutes proves it keeps the multiset |
| Utilities.Shuffle | script.js:372-378 | shuffleArray's result has its input's length; ShufflePermutes and ShuffleSameElements prove it is a permutation |
| Utilities.FisherYatesPermutes | script.js:373-376 | the swap loop from index i down to 1 keeps length and multiset |
| Utilities.ShufflePermutes | script.js:372-378 | shuffleArray's result is a permutation of its input: same length, same multiset |
| Utilities.ShuffleSameElements | script.js:372-378 | a shuffle holds exactly the elements of its input |
| Utilities.ShuffleArray | script.js:372-378 | shuffleArray changes the array in place into Shuffle of its old contents, with j = rand(0, i) in [0, i] for each i, and returns the same array |
| Catalog.TestDefFor | script.js:248 | TESTS[key] for a known key; cost 10 and the key as name for an unknown one |
| Catalog.TestCostRange | script.js:101-108 | every test, known or unknown, costs between 5 and 30 |
| Catalog.LoadedCatalogIsSame | script.js:30-98 | the loaded catalog satisfies the catalog invariant |
| Catalog.PetTypesOfCatalog | script.js:30-98 | Parvovirus and Kennel Cough admit only Dog; every other disease admits Dog and Cat; none admits Rabbit |
| Catalog.IdPositionOfCatalog | script.js:30-98 | each catalog id is told apart by its first letter |
| Catalog.IdsUnique | script.js:30-98 | disease ids are pairwise distinct in any catalog reordered by generation |
| Catalog.FindDisease | script.js:298 | find returns the first disease with the id sought, or nothing when no disease has it |
| Catalog.FindOwnId | script.js:298-299 | when the selection equals the patient's disease id, find returns that same disease |
| Catalog.FindFirstMatch | script.js:298 | find stops at the first match |
| Cases.PushKeepsWellFormed | script.js:146 | pushing a well-formed case keeps every queued case well-formed |
| Cases.PickSpecies | script.js:152-153 | the species is one of Dog, Cat and Rabbit; RabbitDraws says which draws pick Rabbit |
| Cases.CompatibleFrom | script.js:155 | the filter keeps exactly the positions of diseases that list the species or list none, in increasing order |
| Cases.Compatible | script.js:155 | the filter keeps exactly the positions of diseases that list the species or list none, in catalog order |
| Cases.CompatibleFromSamePetTypes | script.js:155 | the filter depends only on the diseases' species lists |
| Cases.CompatibleInSameCatalog | script.js:155 | a reordered catalog admits the same diseases for each species as the loaded one |
| Cases.RabbitHasNoDisease | script.js:155 | the filter leaves nothing for a Rabbit |
| Cases.CompatibleAt | script.js:155 | a species admits a catalog disease exactly when that disease lists it |
| Cases.DogAndCatHaveDiseases | script.js:155 | every disease admits a Dog; a Cat is admitted by all but Parvovirus and Kennel Cough |
| Cases.DogAndCatAt | script.js:155 | the same facts for one catalog position |
| Cases.RabbitDraws | script.js:153 | the species draw picks Rabbit exactly when it is at least 2/3 |
| Cases.SupportedIff | script.js:153-156 | the filter leaves a disease to pick exactly when the species is not Rabbit, i.e. when the draw is below 2/3 |
| Cases.AllSymptoms | script.js:178 | the flatMap of the symptom lists, whose members and length AllSymptomsMembers and AllSymptomsLength state |
| Cases.AllSymptomsMembers | script.js:178 | the flatMap holds exactly the symptoms of the catalog's diseases |
| Cases.AllSymptomsLength | script.js:178 | the flatMap's length depends only on the lengths of the symptom lists |
| Cases.SymptomCountOfCatalog | script.js:30-98 | Parvovirus lists 5 symptoms and every other disease 4 |
| Cases.LoadedSymptomTotal | script.js:30-98 | the catalog lists 25 symptoms in all |
| Cases.CatalogSizes | script.js:30-98 | any reordered catalog still lists 25 symptoms, at most 5 per disease |
| Cases.Without | script.js:178 | the filter is never longer than its input |
| Cases.WithoutMembers | script.js:178 | the filter keeps exactly the elements not among the true symptoms |
| Cases.ReorderingKeepsCatalog | script.js:176 | reordering one disease's symptoms keeps the catalog invariant |
| Cases.NoiseCount | script.js:179 | the number of noise symptoms is at most 2, and 0 when the 0.4 draw fails |
| Cases.TrueSymptoms | script.js:175-176 | the true symptoms are the first min(rand(2, 3), length) of the shuffled list, at most 3 |
| Cases.Noise | script.js:180 | the noise is at most NoiseCount symptoms, all from the pool |
| Cases.Observe | script.js:173-182 | generateObservedSymptoms as a function of the catalog and the draws; ObserveReordersOnlyThatDisease, TrueSymptomsArePrefixOfShuffle, NoiseBounds, PoolHoldsOwnUnchosenSymptoms and ObservedIsPermutation state what it returns |
| Cases.ObserveReordersOnlyThatDisease | script.js:176 | generation changes only the chosen disease's symptom order, keeps its multiset of symptoms, and keeps the catalog invariant |
| Cases.TrueSymptomsArePrefixOfShuffle | script.js:175-176 | the true symptoms are a prefix of a permutation of the disease's symptoms, min(numTrue, length) long with numTrue in {2, 3}, so at least min(2, length) |
| Cases.NoiseBounds | script.js:178-180 | at most 2 noise symptoms, none a true symptom, none when the 0.4 draw fails, all from the catalog |
| Cases.PoolHoldsOwnUnchosenSymptoms | script.js:178 | the noise pool is every catalog symptom that is not a true symptom, the chosen disease's unchosen ones included |
| Cases.ObservedIsPermutation | script.js:181 | the observed symptoms are a permutation of the true symptoms followed by the noise, and contain every true symptom |
| Cases.PickDisease | script.js:156 | the picked disease is one the species admits |
| Cases.EveryCompatibleDiseaseCanBePicked | script.js:155-156 | every disease the species admits is picked for some draw |
| Cases.Generate | script.js:151-171 | a generated case is well-formed with no test results, and the catalog keeps its invariant |
| Cases.GenerateFacts | script.js:151-171 | the case's species is the drawn one and never Rabbit; its disease is picked among those the species admits; its id is "cust_" plus the suffix; its names come from the two lists; it is not called; its symptoms and the new catalog are those of generateObservedSymptoms |
| Seeding.Completed | script.js:144-147 | how many of n generations succeed: every one before it draws a non-Rabbit species, and the one it stops at, if any, draws Rabbit |
| Seeding.CompletedIff | script.js:144-147 | all n generations succeed exactly when every species draw is below 2/3, i.e. none picks Rabbit |
| Seeding.CompletedAll | script.js:144-147 | a run whose draws are all usable completes all n generations |
| Seeding.CompletedStops | script.js:144-147 | a run whose first i draws are usable and whose next one draws Rabbit stops after i generations, whatever n is |
| Seeding.DrawsOkStep | script.js:145-146 | a non-Rabbit draw extends a run of usable draws by one |
| Seeding.RunEnds | script.js:144-147 | a loop that ends after i generations, completed or stopped by a throw on generation i, ends at Completed, and completed exactly when that is n |
| Seeding.PushKeepsFresh | script.js:146 | pushing a fresh, well-formed case keeps every case from a position on fresh and well-formed |
| Seeding.Admit | script.js:146 | pushing a generated case keeps the queue as a prefix, adds exactly one well-formed case with no results, and keeps the catalog invariant |
| Seeding.SeedFrom | script.js:144-149 | n pushes keep the queue as a prefix, add exactly n well-formed cases with no results, and keep the catalog invariant |
| Seeding.SeedFromStep | script.js:145-146 | one more successful generation is one more Admit after the earlier ones |
| Rules.ResultFor | script.js:248-277 | a result carries the test's name, its cost and the timestamp |
| Rules.ResultPositiveIff | script.js:259-267 | a defined test is positive exactly for draws below its rate, an undefined one for draws below 0.08; a result has a finding exactly when positive |
| Rules.ResultTextChoice | script.js:269-274 | a positive result quotes the disease's finding when it has one, and otherwise reads "<test name> abnormal" |
| Rules.IsPositive | script.js:259-267 | the outcome draw against the disease's rate, or 0.08 for a test it does not define; PositiveIsThreshold and ResultPositiveIff state it |
| Rules.PositiveIsThreshold | script.js:261-267 | a test's outcome is a threshold on the draw |
| Rules.CatalogRatesAreProbabilities | script.js:30-98 | every detection rate in the catalog lies in [0.4, 0.95] |
| Rules.EfficiencyBonus | script.js:305 | the bonus for the tests used, whose values BonusTable and BonusNonIncreasing state |
| Rules.BonusTable | script.js:305 | the efficiency bonus is 15, 10 and 5 for 0, 1 and 2 tests, and 0 from 3 tests on |
| Rules.BonusNonIncreasing | script.js:305 | more tests never raise the bonus, which stays in [0, 15] |
| Rules.AfterCorrect | script.js:303-308 | a correct diagnosis adds at least the reward, and reputation never drops below min(reputation, 100) |
| Rules.AfterIncorrect | script.js:320-324 | an incorrect diagnosis never raises money or reputation and leaves both non-negative |
| Rules.CorrectDiagnosisGain | script.js:303-308 | money grows by reward + bonus, between reward and reward + 15; reputation becomes min(100, reputation + 5) |
| Rules.IncorrectDiagnosisLoss | script.js:320-324 | money drops by exactly min(15, money) and reputation by exactly min(8, reputation) |
| Rules.ScoringKeepsRange | script.js:301-324 | either branch keeps money at least 0 and reputation in [0, 100] |
| Rules.ParvovirusScenarios | script.js:301-308 | Parvovirus diagnosed from 100/50 gives 195/55 with no tests and 180/55 with four |
| Rules.IncorrectScenario | script.js:320-324 | a wrong diagnosis from 10/50 leaves 0/42 |
| Session.ToArray | script.js:176 | a fresh array holding the given list |
| Session.Clinic.constructor | script.js:110-117 | init with the state of script.js:20-27: money 100, reputation 50, no patient, and the queue and catalog are SeedFrom the loaded catalog over the generations of seedWaitingRoom(5) that succeed (Completed: all five unless a species draw picks Rabbit, and then the ones before it) |
| Session.Clinic.SeedWaitingRoom | script.js:144-149 | the queue and catalog become SeedFrom of the old ones over the Completed(draws, n) generations that succeed before the first Rabbit draw; completed says whether all n succeeded; money, reputation and current are unchanged; the invariant is kept |
| Session.Clinic.SeedStep | script.js:145-146 | one turn of the loop: after i successful generations, generation i pushes its case unless it draws Rabbit, and then the queue and catalog stay as they were |
| Session.Clinic.AdmitCustomer | script.js:146 | a case is pushed exactly when the species draw is not Rabbit; then the queue and catalog become Admit of the old ones, and otherwise they are unchanged |
| Session.Clinic.GenerateCustomer | script.js:151-171 | a case comes back exactly when the species is not Rabbit; it and the new catalog are then those of Generate, and on a Rabbit draw, where the code throws, the catalog is unchanged |
| Session.Clinic.GenerateObservedSymptoms | script.js:173-182 | the symptoms and the new catalog are those of Observe |
| Session.Clinic.AddNoise | script.js:179-181 | the result is Shuffle of the true symptoms followed by Noise |
| Session.Clinic.ReorderSymptoms | script.js:176 | the chosen disease's symptom list is replaced in the catalog by its Shuffle, and nothing else changes |
| Session.Clinic.ShuffledCopy | script.js:180-181 | shuffling a fresh array gives Shuffle of the list |
| Session.Clinic.CallNextCustomer | script.js:193-207 | with a patient, nothing changes; with an empty queue, seedWaitingRoom(3) runs: the generations before the first Rabbit draw are queued (all 3 when none draws Rabbit, which the outcome reports) and no patient is current; otherwise the head of the queue becomes current and the queue becomes its tail; money and reputation never change |
| Session.Clinic.RunTest | script.js:244-280 | without a patient or without enough money, nothing changes; otherwise money drops by exactly the cost, and the result is recorded under the key, replacing any earlier one and keeping all other keys |
| Session.Clinic.SubmitDiagnosis | script.js:292-339 | without a patient or a selection, nothing changes; otherwise money and reputation become AfterCorrect or AfterIncorrect; the patient and its results are never touched |
| Session.Clinic.FinishTreatment | script.js:341-355 | without a patient, nothing changes; otherwise no patient is current, and one generated case is appended after the old queue by Admit unless its species draw is Rabbit, where the code throws after clearing the patient and nothing is appended; money and reputation are unchanged |

## Left out

- The DOM, rendering, `log`, `updateHUD`, `bindEvents` and `populateDiagnosisOptions` are presentation only. The diagnosis options list in `state` is never read by the engine.
- Disabling the urine test button is user-interface only, and `runTest` does not enforce it.
- Floating-point arithmetic: each `Math.random()` value is an exact real in [0, 1), and `rand` is exact real arithmetic without rounding.
- `Math.random().toString(36).slice(2, 9)` is an opaque string parameter (`idSuffix`). `Date.now()` is the parameter `now`.
- The result's HTML text: only which message is chosen is modelled (`Finding`, `Abnormal` or `NoFindings`), with the test's name and cost that form its "Used ..." prefix.
- The feedback HTML and the treatment buttons of `submitDiagnosis`; the two messages of `finishTreatment`, which is the only use of its `correct` argument.
- `shuffleCopy` and `randPick` are never called.
- Object keys inherited from the JavaScript prototype (such as `constructor`) as test keys: the test table and a disease's tests are maps holding only their listed keys.
- The `called` field of a case is kept but is never set, as in the code.
- The draws of one generated case are grouped in `CaseDraws` by call site. The order within a case is that of the code.
- Cases.Generate: it is the successful generation only, so it requires `CaseDrawsOk`; the failing Rabbit draw is modelled by the session methods (`GenerateCustomer` returns `None`, seeding stops at `Seeding.Completed`).
- Session.Clinic.constructor: when a generation of the opening seeding throws, init stops before `updateHUD` and `bindEvents` (script.js:114-115), so no button ever works. The model returns the partly seeded clinic and does not record that no further operation can be called.
- The error itself and the rendering it skips (`renderWaiting`, `renderCurrent`) are not modelled: a method that meets a Rabbit draw returns a flag instead of raising.
- Catalog.SameCatalog: the catalog invariant keeps only each symptom list's length. That generation keeps each list's symptoms is stated per generation by `Cases.ObserveReordersOnlyThatDisease`.
- Shared references: a case refers to its disease by its position in the catalog, and the in-place shuffle is a copy into an array and a write-back into the catalog field.
