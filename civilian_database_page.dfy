/** The civilian database screen: a case-blind search over the civilian
    records, an optional "criminals only" restriction, and three counts. */
module CivilianDatabasePage {
  import opened Common
  import opened DataService

  /** The text test: the query occurs, ignoring case, in the name, the e-mail
      address, the city, the state, or the job when the record has a
      (non-empty) one. */
  predicate TextMatches(c: Civilian, query: string)
  {
    || MatchesQuery(c.name, query)
    || MatchesQuery(c.email, query)
    || MatchesQuery(c.address.city, query)
    || MatchesQuery(c.address.state, query)
    || (c.job.Some? && c.job.value != "" && MatchesQuery(c.job.value, query))
  }

  /** The row test: with "criminals only" on, a record without a criminal
      flag is out whatever the query; otherwise the text test decides. */
  predicate CivilianShown(c: Civilian, query: string, showCriminals: bool)
  {
    if showCriminals && !c.isCriminal then false else TextMatches(c, query)
  }

  /** `filteredCivilians`: undefined while the list has not arrived;
      afterwards the records passing the row test. */
  function FilteredCivilians(civilians: Option<seq<Civilian>>, query: string, showCriminals: bool): (r: Option<seq<Civilian>>)
    ensures r.Some? <==> civilians.Some?
    ensures civilians.Some? ==>
              && |r.value| <= |civilians.value|
              && (forall i :: 0 <= i < |r.value| ==> r.value[i] in civilians.value && CivilianShown(r.value[i], query, showCriminals))
              && (forall i :: 0 <= i < |civilians.value| && CivilianShown(civilians.value[i], query, showCriminals)
                    ==> civilians.value[i] in r.value)
    ensures civilians.Some? && showCriminals ==> forall i :: 0 <= i < |r.value| ==> r.value[i].isCriminal
  {
    match civilians
    case None => None
    case Some(cs) => Some(Filter(cs, (c: Civilian) => CivilianShown(c, query, showCriminals)))
  }

  /** The rows keep the order of the list. */
  lemma FilteredCiviliansKeepOrder(cs: seq<Civilian>, query: string, showCriminals: bool)
    ensures IsSubsequence(FilteredCivilians(Some(cs), query, showCriminals).value, cs)
  {
    FilterIsSubsequence(cs, (c: Civilian) => CivilianShown(c, query, showCriminals));
  }

  /** With an empty search box and the checkbox off every record is listed. */
  lemma EmptySearchListsEveryone(cs: seq<Civilian>)
    ensures FilteredCivilians(Some(cs), "", false) == Some(cs)
  {
    var p := (c: Civilian) => CivilianShown(c, "", false);
    forall i | 0 <= i < |cs|
      ensures p(cs[i])
    {
      EmptyQueryMatches(cs[i].name);
    }
    FilterKeepsAll(cs, p);
  }

  predicate IsCriminalRecord(c: Civilian) { c.isCriminal }

  predicate IsClear(c: Civilian) { !c.isCriminal }

  /** Ticking "criminals only" narrows the unticked result to the flagged
      records, keeping their order. */
  lemma CriminalsOnlyNarrows(cs: seq<Civilian>, query: string)
    ensures FilteredCivilians(Some(cs), query, true).value
         == Filter(FilteredCivilians(Some(cs), query, false).value, IsCriminalRecord)
  {
    FilterTwice(cs, (c: Civilian) => CivilianShown(c, query, false), IsCriminalRecord,
                (c: Civilian) => CivilianShown(c, query, true));
  }

  /** The three numbers of the stats card. */
  datatype Stats = Stats(total: nat, clear: nat, criminal: nat)

  /** `civilians?.length || 0` and the two flag counts: every record is either
      clear or criminal, so the two counts add up to the total; a count is
      zero exactly when no record has that status; all three are zero while
      the list has not arrived. */
  function DatabaseStats(civilians: Option<seq<Civilian>>): (r: Stats)
    ensures r.clear + r.criminal == r.total
    ensures civilians.None? ==> r == Stats(0, 0, 0)
    ensures civilians.Some? ==> r.total == |civilians.value|
    ensures civilians.Some? ==> r.clear == |Filter(civilians.value, IsClear)|
    ensures civilians.Some? ==> r.criminal == |Filter(civilians.value, IsCriminalRecord)|
    ensures civilians.Some? ==> (r.criminal == 0 <==> forall i :: 0 <= i < |civilians.value| ==> !civilians.value[i].isCriminal)
    ensures civilians.Some? ==> (r.clear == 0 <==> forall i :: 0 <= i < |civilians.value| ==> civilians.value[i].isCriminal)
  {
    match civilians
    case None => Stats(0, 0, 0)
    case Some(cs) =>
      FilterSplitCount(cs, IsClear, IsCriminalRecord);
      var clear := Filter(cs, IsClear);
      var criminal := Filter(cs, IsCriminalRecord);
      assert criminal != [] ==> IsCriminalRecord(criminal[0]);
      assert clear != [] ==> IsClear(clear[0]);
      Stats(|cs|, |clear|, |criminal|)
  }

  /** Both seeded civilians are clear (the criminal records live in their
      own list), so the screen shows two civilians, two clear, no criminal. */
  lemma SeededStats()
    ensures DatabaseStats(Some(GetCivilians(Seeded))) == Stats(2, 2, 0)
  {
    var cs := GetCivilians(Seeded);
    FilterStep(cs, IsClear);
    FilterStep(cs[1..], IsClear);
    assert cs[1..][1..] == [];
    FilterStep(cs, IsCriminalRecord);
    FilterStep(cs[1..], IsCriminalRecord);
  }
}
