/** The criminal database screen: a case-blind search over the criminal
    records and their crimes, and the two counts of the stats card. */
module CriminalDatabasePage {
  import opened Common
  import opened DataService

  /** Some crime of the record has a description the query occurs in,
      ignoring case. */
  predicate MentionsCrime(c: Criminal, query: string)
  {
    exists i :: 0 <= i < |c.crimes| && MatchesQuery(c.crimes[i].description, query)
  }

  /** The row test of `filteredCriminals`, evaluated as the screen does it,
      with `crimes.some(...)` for the last alternative. */
  function CriminalShown(c: Criminal, query: string): (b: bool)
    ensures b <==> || MatchesQuery(c.person.name, query)
                   || MatchesQuery(c.person.email, query)
                   || MatchesQuery(c.person.address.city, query)
                   || MatchesQuery(c.person.address.state, query)
                   || MentionsCrime(c, query)
  {
    || MatchesQuery(c.person.name, query)
    || MatchesQuery(c.person.email, query)
    || MatchesQuery(c.person.address.city, query)
    || MatchesQuery(c.person.address.state, query)
    || Any(c.crimes, (crime: Crime) => MatchesQuery(crime.description, query))
  }

  /** `filteredCriminals`: undefined while the list has not arrived;
      afterwards the records passing the row test. */
  function FilteredCriminals(criminals: Option<seq<Criminal>>, query: string): (r: Option<seq<Criminal>>)
    ensures r.Some? <==> criminals.Some?
    ensures criminals.Some? ==>
              && |r.value| <= |criminals.value|
              && (forall i :: 0 <= i < |r.value| ==> r.value[i] in criminals.value && CriminalShown(r.value[i], query))
              && (forall i :: 0 <= i < |criminals.value| && CriminalShown(criminals.value[i], query)
                    ==> criminals.value[i] in r.value)
  {
    match criminals
    case None => None
    case Some(cs) => Some(Filter(cs, (c: Criminal) => CriminalShown(c, query)))
  }

  /** The rows keep the order of the list. */
  lemma FilteredCriminalsKeepOrder(cs: seq<Criminal>, query: string)
    ensures IsSubsequence(FilteredCriminals(Some(cs), query).value, cs)
  {
    FilterIsSubsequence(cs, (c: Criminal) => CriminalShown(c, query));
  }

  /** An empty search box lists every record. */
  lemma EmptySearchListsEveryone(cs: seq<Criminal>)
    ensures FilteredCriminals(Some(cs), "") == Some(cs)
  {
    var p := (c: Criminal) => CriminalShown(c, "");
    forall i | 0 <= i < |cs|
      ensures p(cs[i])
    {
      EmptyQueryMatches(cs[i].person.name);
    }
    FilterKeepsAll(cs, p);
  }

  /** `criminals.reduce((total, criminal) => total + criminal.crimes.length, 0)`,
      folded from the left as `reduce` does: never below any single record's
      count, and zero exactly when no record lists a crime. */
  function TotalCrimes(cs: seq<Criminal>): (n: nat)
    ensures forall i :: 0 <= i < |cs| ==> |cs[i].crimes| <= n
    ensures n == 0 <==> forall i :: 0 <= i < |cs| ==> cs[i].crimes == []
    decreases |cs|
  {
    if cs == [] then 0
    else
      var init := cs[..|cs| - 1];
      assert forall i :: 0 <= i < |init| ==> init[i] == cs[i];
      TotalCrimes(init) + |cs[|cs| - 1].crimes|
  }

  /** The total over two lists laid end to end is the sum of their totals. */
  lemma {:induction false} TotalCrimesAppend(a: seq<Criminal>, b: seq<Criminal>)
    ensures TotalCrimes(a + b) == TotalCrimes(a) + TotalCrimes(b)
    decreases |b|
  {
    if b == [] {
      assert a + b == a;
    } else {
      var b' := b[..|b| - 1];
      assert (a + b)[..|a + b| - 1] == a + b';
      assert (a + b)[|a + b| - 1] == b[|b| - 1];
      TotalCrimesAppend(a, b');
    }
  }

  /** The number of crimes in the records, summed from the right: the
      reference the left fold of `reduce` is checked against. */
  function SumCrimes(cs: seq<Criminal>): nat
    decreases |cs|
  {
    if cs == [] then 0 else |cs[0].crimes| + SumCrimes(cs[1..])
  }

  /** The stats card's left fold is the sum of every record's crime count. */
  lemma {:induction false} TotalCrimesIsSum(cs: seq<Criminal>)
    ensures TotalCrimes(cs) == SumCrimes(cs)
    decreases |cs|
  {
    if cs != [] {
      TotalCrimesIsSum(cs[1..]);
      assert cs == [cs[0]] + cs[1..];
      TotalCrimesAppend([cs[0]], cs[1..]);
      assert [cs[0]][..0] == [];
    }
  }

  /** The two numbers of the stats card. */
  datatype CriminalStats = CriminalStats(totalCriminals: nat, totalCrimes: nat)

  /** `criminals?.length || 0` and the crime total, both zero while the list
      has not arrived. */
  function Stats(criminals: Option<seq<Criminal>>): (r: CriminalStats)
    ensures criminals.None? ==> r == CriminalStats(0, 0)
    ensures criminals.Some? ==> r.totalCriminals == |criminals.value|
    ensures criminals.Some? ==> r.totalCrimes == TotalCrimes(criminals.value)
  {
    match criminals
    case None => CriminalStats(0, 0)
    case Some(cs) => CriminalStats(|cs|, TotalCrimes(cs))
  }

  /** The seeded store holds one criminal record with two crimes. */
  lemma SeededStats()
    ensures Stats(Some(GetCriminals(Seeded))) == CriminalStats(1, 2)
  {
    assert GetCriminals(Seeded)[..0] == [];
  }
}
