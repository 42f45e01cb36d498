/**
 * Runs of case generations: seedWaitingRoom in script.js pushes n freshly
 * generated cases onto the waiting queue, each generation reordering the
 * catalog that the next one sees. A Rabbit draw makes generateCustomer throw,
 * which ends the run and keeps the cases pushed before it.
 */
module Seeding {
  import opened Utilities
  import opened Catalog
  import opened Cases

  /** The waiting queue and the catalog: the two parts of the state a generation touches. */
  datatype Seeded = Seeded(cases: seq<Case>, catalog: seq<Disease>)

  /** From position `from` on, the cases are well-formed and have no test results yet. */
  ghost predicate FreshFrom(cases: seq<Case>, from: nat) {
    forall j :: from <= j < |cases| ==> WellFormedCase(cases[j]) && cases[j].testsRun == map[]
  }

  lemma PushKeepsFresh(a: seq<Case>, b: seq<Case>, from: nat)
    requires |b| == |a| + 1 && b[..|a|] == a && from <= |a| && FreshFrom(a, from)
    requires WellFormedCase(b[|a|]) && b[|a|].testsRun == map[]
    ensures FreshFrom(b, from)
  {
    forall j | from <= j < |b| ensures WellFormedCase(b[j]) && b[j].testsRun == map[] {
      if j < |a| {
        assert b[j] == b[..|a|][j];
      }
    }
  }

  /**
   * A successful push of a generated case (script.js:146): the queue keeps its
   * cases and gains one well-formed case without results at the back.
   */
  function Admit(s: Seeded, b: CaseDraws): (r: Seeded)
    requires SameCatalog(s.catalog) && CaseDrawsOk(b)
    ensures SameCatalog(r.catalog)
    ensures |r.cases| == |s.cases| + 1 && r.cases[..|s.cases|] == s.cases
    ensures WellFormedCase(r.cases[|s.cases|]) && r.cases[|s.cases|].testsRun == map[]
  {
    var g := Generate(s.catalog, b);
    Seeded(s.cases + [g.patient], g.catalog)
  }

  /**
   * The state after the first n generations of a run from s, each seeing the
   * catalog the previous one left: the queue keeps its cases in front and
   * gains n well-formed cases without results behind them.
   */
  function SeedFrom(s: Seeded, draws: seq<CaseDraws>, n: nat): (r: Seeded)
    requires SameCatalog(s.catalog)
    requires n <= |draws|
    requires forall i :: 0 <= i < n ==> CaseDrawsOk(draws[i])
    ensures SameCatalog(r.catalog)
    ensures |r.cases| == |s.cases| + n && r.cases[..|s.cases|] == s.cases
    ensures FreshFrom(r.cases, |s.cases|)
    decreases n
  {
    if n == 0 then s
    else
      var prev := SeedFrom(s, draws, n - 1);
      var r := Admit(prev, draws[n - 1]);
      PrefixOfPrefix(s.cases, prev.cases, r.cases);
      PushKeepsFresh(prev.cases, r.cases, |s.cases|);
      r
  }

  /** One more generation extends a run by one Admit. */
  lemma SeedFromStep(s: Seeded, draws: seq<CaseDraws>, n: nat)
    requires SameCatalog(s.catalog)
    requires n < |draws|
    requires forall i :: 0 <= i <= n ==> CaseDrawsOk(draws[i])
    ensures SeedFrom(s, draws, n + 1) == Admit(SeedFrom(s, draws, n), draws[n])
  {
  }

  /** Every draw of a run of generations feeds the shuffles of its case. */
  predicate AllDrawsSuffice(draws: seq<CaseDraws>) {
    forall i :: 0 <= i < |draws| ==> DrawsSuffice(draws[i].symptoms)
  }

  /**
   * How many of the first n generations complete: generation stops at the first
   * Rabbit draw, whose exception leaves the rest of the run undone.
   */
  function Completed(draws: seq<CaseDraws>, n: nat): (m: nat)
    requires n <= |draws|
    ensures m <= n
    ensures forall i :: 0 <= i < m ==> Supported(draws[i].species)
    ensures m < n ==> !Supported(draws[m].species)
  {
    if n == 0 then 0
    else
      var m := Completed(draws, n - 1);
      if m == n - 1 && Supported(draws[n - 1].species) then n else m
  }

  /** A draw that picks a supported species extends a run of usable draws by one. */
  lemma DrawsOkStep(draws: seq<CaseDraws>, n: nat)
    requires n < |draws| && AllDrawsSuffice(draws) && Supported(draws[n].species)
    requires forall i :: 0 <= i < n ==> CaseDrawsOk(draws[i])
    ensures forall i :: 0 <= i <= n ==> CaseDrawsOk(draws[i])
  {
  }

  /** A run whose draws are all usable completes. */
  lemma CompletedAll(draws: seq<CaseDraws>, n: nat)
    requires n <= |draws|
    requires forall j :: 0 <= j < n ==> CaseDrawsOk(draws[j])
    ensures Completed(draws, n) == n
  {
  }

  /** A run whose first i draws are usable and whose next one throws stops at i, however long it was meant to be. */
  lemma CompletedStops(draws: seq<CaseDraws>, i: nat, n: nat)
    requires i < n <= |draws|
    requires forall j :: 0 <= j < i ==> CaseDrawsOk(draws[j])
    requires !Supported(draws[i].species)
    ensures Completed(draws, n) == i
  {
    var m := Completed(draws, n);
    if m < i {
      assert false;
    }
  }

  /** Where a run that got through i generations ends, completed or stopped by a throw on generation i. */
  lemma RunEnds(start: Seeded, draws: seq<CaseDraws>, n: nat, i: nat, completed: bool)
    requires SameCatalog(start.catalog) && |draws| == n && i <= n
    requires forall j :: 0 <= j < i ==> CaseDrawsOk(draws[j])
    requires completed ==> i == n
    requires !completed ==> i < n && !Supported(draws[i].species)
    ensures Completed(draws, n) == i
    ensures completed <==> Completed(draws, n) == n
  {
    if completed {
      CompletedAll(draws, n);
    } else {
      CompletedStops(draws, i, n);
    }
  }

  /** A run completes exactly when every species draw is below 2/3, i.e. none picks a Rabbit. */
  lemma CompletedIff(draws: seq<CaseDraws>, n: nat)
    requires n <= |draws|
    ensures Completed(draws, n) == n <==> forall i :: 0 <= i < n ==> Supported(draws[i].species)
    ensures Completed(draws, n) == n <==> forall i :: 0 <= i < n ==> PickSpecies(draws[i].species) != Rabbit
  {
    forall i | 0 <= i < n ensures Supported(draws[i].species) <==> PickSpecies(draws[i].species) != Rabbit {
      RabbitDraws(draws[i].species);
    }
  }
}
