/** Two-pass greedy choice of the evidence a model is shown, under three caps. */
module Evidence {

  datatype Requirement = Requirement(candidate: nat, category: nat)

  /** `relevance` is the label's rank, 3 for anything unknown; `retrievedAt` is 0 when
      unknown; an empty `domain` means there is none. */
  datatype Item = Item(
    requirement: Requirement, pageExtract: bool, relevance: nat, retrievedAt: int, domain: string, excerptChars: nat)

  datatype Settings = Settings(maxItems: nat, maxPerRequirement: nat, maxTotalChars: nat, maxExcerptChars: nat)

  // ----------------------------------------------------------------- ranking

  function Rank(item: Item, gaps: set<Requirement>): (nat, nat, nat, int) {
    (if item.requirement in gaps then 0 else 1, if item.pageExtract then 0 else 1, item.relevance, -item.retrievedAt)
  }

  predicate NotAfter(a: Item, b: Item, gaps: set<Requirement>) {
    var x, y := Rank(a, gaps), Rank(b, gaps);
    x.0 < y.0 || (x.0 == y.0 && (x.1 < y.1 || (x.1 == y.1 && (x.2 < y.2 || (x.2 == y.2 && x.3 <= y.3)))))
  }

  /** The ranking key, field by field: evidence for a gap first, then extracts of pages,
      then the better relevance, then what was retrieved later. */
  lemma NotAfterMeans(a: Item, b: Item, gaps: set<Requirement>)
    ensures NotAfter(a, b, gaps) <==>
              if (a.requirement in gaps) != (b.requirement in gaps) then a.requirement in gaps
              else if a.pageExtract != b.pageExtract then a.pageExtract
              else if a.relevance != b.relevance then a.relevance < b.relevance
              else a.retrievedAt >= b.retrievedAt
  {
  }

  /** Stable: an item goes behind those of its own rank. */
  function InsertLast(ranked: seq<Item>, item: Item, gaps: set<Requirement>): (r: seq<Item>)
    ensures multiset(r) == multiset(ranked) + multiset{item}
  {
    if ranked == [] || NotAfter(ranked[|ranked| - 1], item, gaps) then ranked + [item]
    else
      assert ranked == ranked[..|ranked| - 1] + [ranked[|ranked| - 1]];
      InsertLast(ranked[..|ranked| - 1], item, gaps) + [ranked[|ranked| - 1]]
  }

  function Ranked(evidence: seq<Item>, gaps: set<Requirement>): (r: seq<Item>)
    ensures multiset(r) == multiset(evidence)
  {
    if evidence == [] then []
    else
      assert evidence == evidence[..|evidence| - 1] + [evidence[|evidence| - 1]];
      InsertLast(Ranked(evidence[..|evidence| - 1], gaps), evidence[|evidence| - 1], gaps)
  }

  predicate InRank(items: seq<Item>, gaps: set<Requirement>) {
    forall i, j | 0 <= i < j < |items| :: NotAfter(items[i], items[j], gaps)
  }

  lemma {:induction false} InsertKeepsRank(ranked: seq<Item>, item: Item, gaps: set<Requirement>)
    requires InRank(ranked, gaps)
    ensures InRank(InsertLast(ranked, item, gaps), gaps)
  {
    var n := |ranked| - 1;
    if ranked != [] && !NotAfter(ranked[n], item, gaps) {
      InsertKeepsRank(ranked[..n], item, gaps);
      var rest := InsertLast(ranked[..n], item, gaps);
      forall i | 0 <= i < |rest| ensures NotAfter(rest[i], ranked[n], gaps) {
        assert rest[i] in multiset(rest);
        assert rest[i] == item || rest[i] in ranked[..n];
      }
    } else if ranked != [] {
      forall i | 0 <= i <= n ensures NotAfter(ranked[i], item, gaps) {
        assert i == n || NotAfter(ranked[i], ranked[n], gaps);
      }
    }
  }

  lemma {:induction false} RankedInRank(evidence: seq<Item>, gaps: set<Requirement>)
    ensures InRank(Ranked(evidence, gaps), gaps)
  {
    if evidence != [] {
      RankedInRank(evidence[..|evidence| - 1], gaps);
      InsertKeepsRank(Ranked(evidence[..|evidence| - 1], gaps), evidence[|evidence| - 1], gaps);
    }
  }

  /** The items of one rank, in their order. */
  function OfRank(items: seq<Item>, rank: (nat, nat, nat, int), gaps: set<Requirement>): seq<Item> {
    if items == [] then []
    else
      var n := |items| - 1;
      OfRank(items[..n], rank, gaps) + (if Rank(items[n], gaps) == rank then [items[n]] else [])
  }

  lemma {:induction false} InsertIsStable(ranked: seq<Item>, item: Item, rank: (nat, nat, nat, int),
                                          gaps: set<Requirement>)
    ensures OfRank(InsertLast(ranked, item, gaps), rank, gaps) ==
            OfRank(ranked, rank, gaps) + (if Rank(item, gaps) == rank then [item] else [])
  {
    hide Rank, OfRank, NotAfter;
    var n := |ranked| - 1;
    if ranked == [] || NotAfter(ranked[n], item, gaps) {
      RankOfLast(ranked, item, rank, gaps);
    } else {
      var rest := InsertLast(ranked[..n], item, gaps);
      InsertIsStable(ranked[..n], item, rank, gaps);
      RankOfLast(rest, ranked[n], rank, gaps);
      RankOfLast(ranked[..n], ranked[n], rank, gaps);
      assert ranked == ranked[..n] + [ranked[n]];
      AfterHasAnotherRank(ranked[n], item, gaps);
    }
  }

  lemma RankOfLast(items: seq<Item>, last: Item, rank: (nat, nat, nat, int), gaps: set<Requirement>)
    ensures OfRank(items + [last], rank, gaps) ==
            OfRank(items, rank, gaps) + (if Rank(last, gaps) == rank then [last] else [])
  {
    assert (items + [last])[..|items|] == items;
  }

  lemma AfterHasAnotherRank(a: Item, b: Item, gaps: set<Requirement>)
    requires !NotAfter(a, b, gaps)
    ensures Rank(a, gaps) != Rank(b, gaps)
  {
  }

  /** Evidence of one rank stays in the order it came in. */
  lemma {:induction false} RankedIsStable(evidence: seq<Item>, rank: (nat, nat, nat, int), gaps: set<Requirement>)
    ensures OfRank(Ranked(evidence, gaps), rank, gaps) == OfRank(evidence, rank, gaps)
  {
    if evidence != [] {
      RankedIsStable(evidence[..|evidence| - 1], rank, gaps);
      InsertIsStable(Ranked(evidence[..|evidence| - 1], gaps), evidence[|evidence| - 1], rank, gaps);
    }
  }

  // ------------------------------------------------------------------- totals

  function Chars(item: Item, settings: Settings): nat {
    if item.excerptChars <= settings.maxExcerptChars then item.excerptChars else settings.maxExcerptChars
  }

  function Count(items: seq<Item>, chosen: seq<nat>, requirement: Requirement): nat
    requires InRange(items, chosen)
  {
    if chosen == [] then 0
    else
      var n := |chosen| - 1;
      Count(items, chosen[..n], requirement) + (if items[chosen[n]].requirement == requirement then 1 else 0)
  }

  /** The known domains a requirement has been given evidence from. */
  function Domains(items: seq<Item>, chosen: seq<nat>, requirement: Requirement): set<string>
    requires InRange(items, chosen)
  {
    if chosen == [] then {}
    else
      var n := |chosen| - 1;
      Domains(items, chosen[..n], requirement)
      + (if items[chosen[n]].requirement == requirement && items[chosen[n]].domain != "" then {items[chosen[n]].domain}
         else {})
  }

  lemma {:induction false} DomainSeen(items: seq<Item>, chosen: seq<nat>, i: nat)
    requires InRange(items, chosen) && i < |chosen| && items[chosen[i]].domain != ""
    ensures items[chosen[i]].domain in Domains(items, chosen, items[chosen[i]].requirement)
  {
    if i < |chosen| - 1 { DomainSeen(items, chosen[..|chosen| - 1], i); }
  }

  function Total(items: seq<Item>, chosen: seq<nat>, settings: Settings): nat
    requires InRange(items, chosen)
  {
    if chosen == [] then 0
    else var n := |chosen| - 1; Total(items, chosen[..n], settings) + Chars(items[chosen[n]], settings)
  }

  predicate InRange(items: seq<Item>, chosen: seq<nat>) { forall i | 0 <= i < |chosen| :: chosen[i] < |items| }

  predicate Distinct(chosen: seq<nat>) { forall i, j | 0 <= i < j < |chosen| :: chosen[i] != chosen[j] }

  /** No requirement twice from the same known domain. */
  predicate DomainsDistinct(items: seq<Item>, chosen: seq<nat>)
    requires InRange(items, chosen)
  {
    forall i, j | 0 <= i < j < |chosen| && items[chosen[i]].requirement == items[chosen[j]].requirement ::
      items[chosen[i]].domain == "" || items[chosen[i]].domain != items[chosen[j]].domain
  }

  /** The caps. The first item is exempt from the character cap. */
  ghost predicate WithinCaps(items: seq<Item>, chosen: seq<nat>, settings: Settings)
    requires InRange(items, chosen)
  {
    && |chosen| <= settings.maxItems
    && (forall requirement :: Count(items, chosen, requirement) <= settings.maxPerRequirement)
    && (|chosen| > 1 ==> Total(items, chosen, settings) <= settings.maxTotalChars)
  }

  /** Choosing this item too would break its requirement's cap or the character cap. */
  predicate Excluded(items: seq<Item>, chosen: seq<nat>, settings: Settings, item: Item)
    requires InRange(items, chosen)
  {
    || Count(items, chosen, item.requirement) >= settings.maxPerRequirement
    || (chosen != [] && Total(items, chosen, settings) + Chars(item, settings) > settings.maxTotalChars)
  }

  /** Nothing chosen for the item's requirement comes from its known domain. */
  predicate Fresh(items: seq<Item>, chosen: seq<nat>, item: Item)
    requires InRange(items, chosen)
  {
    item.domain == ""
    || forall i | 0 <= i < |chosen| && items[chosen[i]].requirement == item.requirement ::
         items[chosen[i]].domain != item.domain
  }

  lemma {:induction false} FreshIff(items: seq<Item>, chosen: seq<nat>, item: Item)
    requires InRange(items, chosen) && item.domain != ""
    ensures Fresh(items, chosen, item) <==> item.domain !in Domains(items, chosen, item.requirement)
  {
    if chosen != [] {
      var n := |chosen| - 1;
      FreshIff(items, chosen[..n], item);
      assert forall i | 0 <= i < n :: chosen[..n][i] == chosen[i];
    }
  }

  lemma NothingChosen(items: seq<Item>, settings: Settings, requirement: Requirement)
    ensures Count(items, [], requirement) == 0 && Domains(items, [], requirement) == {}
    ensures Total(items, [], settings) == 0
  {
  }

  lemma Appending(items: seq<Item>, chosen: seq<nat>, k: nat, settings: Settings)
    requires InRange(items, chosen) && k < |items|
    ensures InRange(items, chosen + [k])
    ensures forall requirement :: Count(items, chosen + [k], requirement)
                                  == Count(items, chosen, requirement)
                                      + (if items[k].requirement == requirement then 1 else 0)
    ensures forall requirement :: Domains(items, chosen + [k], requirement)
                                  == Domains(items, chosen, requirement)
                                     + (if items[k].requirement == requirement && items[k].domain != ""
                                        then {items[k].domain} else {})
    ensures Total(items, chosen + [k], settings) == Total(items, chosen, settings) + Chars(items[k], settings)
  {
    assert (chosen + [k])[..|chosen|] == chosen;
  }

  function Counted(counts: map<Requirement, nat>, requirement: Requirement): nat {
    if requirement in counts then counts[requirement] else 0
  }

  function Known(domains: map<Requirement, set<string>>, requirement: Requirement): set<string> {
    if requirement in domains then domains[requirement] else {}
  }

  /** The two dictionaries say what has been chosen for each requirement. */
  ghost predicate Tallied(items: seq<Item>, chosen: seq<nat>, counts: map<Requirement, nat>,
                          domains: map<Requirement, set<string>>)
    requires InRange(items, chosen)
  {
    && (forall requirement :: Count(items, chosen, requirement) == Counted(counts, requirement))
    && (forall requirement :: Domains(items, chosen, requirement) == Known(domains, requirement))
  }

  lemma TalliedAt(items: seq<Item>, chosen: seq<nat>, counts: map<Requirement, nat>,
                  domains: map<Requirement, set<string>>, requirement: Requirement)
    requires InRange(items, chosen) && Tallied(items, chosen, counts, domains)
    ensures Count(items, chosen, requirement) == Counted(counts, requirement)
    ensures Domains(items, chosen, requirement) == Known(domains, requirement)
  {
  }

  lemma TallyGrows(items: seq<Item>, chosen: seq<nat>, counts: map<Requirement, nat>,
                   domains: map<Requirement, set<string>>, k: nat, settings: Settings)
    requires InRange(items, chosen) && k < |items| && Tallied(items, chosen, counts, domains)
    ensures var (requirement, domain) := (items[k].requirement, items[k].domain);
            var more := counts[requirement := Counted(counts, requirement) + 1];
            && InRange(items, chosen + [k])
            && Tallied(items, chosen + [k], more,
                       if domain == "" then domains else domains[requirement := Known(domains, requirement) + {domain}])
  {
    hide Count, Domains, Total;
    Appending(items, chosen, k, settings);
  }

  lemma CapsKept(items: seq<Item>, chosen: seq<nat>, k: nat, settings: Settings)
    requires InRange(items, chosen) && k < |items| && Distinct(chosen) && k !in chosen && |chosen| < settings.maxItems
    requires WithinCaps(items, chosen, settings) && !Excluded(items, chosen, settings, items[k])
    ensures InRange(items, chosen + [k]) && Distinct(chosen + [k]) && WithinCaps(items, chosen + [k], settings)
    ensures Total(items, chosen + [k], settings) == Total(items, chosen, settings) + Chars(items[k], settings)
  {
    hide Count, Domains, Total;
    Appending(items, chosen, k, settings);
  }

  // ----------------------------------------------------------------- selection

  class Selector {
    const items: seq<Item>
    const settings: Settings
    var selected: seq<nat>
    var counts: map<Requirement, nat>
    var domains: map<Requirement, set<string>>
    var totalChars: nat

    ghost predicate Valid()
      reads this
    {
      && InRange(items, selected) && Distinct(selected) && WithinCaps(items, selected, settings)
      && totalChars == Total(items, selected, settings) && Tallied(items, selected, counts, domains)
    }

    constructor (items: seq<Item>, settings: Settings)
      ensures Valid() && this.items == items && this.settings == settings && selected == []
    {
      this.items, this.settings := items, settings;
      selected, counts, domains, totalChars := [], map[], map[], 0;
    }

    /** An item is added exactly when no cap, and in the first pass no domain it
        repeats, stands against it. */
    method TryAdd(k: nat, repeatDomain: bool) returns (added: bool)
      requires Valid() && k < |items| && k !in selected && |selected| < settings.maxItems
      modifies this`selected, this`counts, this`domains, this`totalChars
      ensures Valid()
      ensures selected == old(selected) + (if added then [k] else [])
      ensures added <==>
                && !Excluded(items, old(selected), settings, items[k])
                && (repeatDomain || Fresh(items, old(selected), items[k]))
      ensures !added && repeatDomain ==> Excluded(items, selected, settings, items[k])
      ensures added && !repeatDomain && DomainsDistinct(items, old(selected)) ==> DomainsDistinct(items, selected)
      ensures old(selected) == [] && settings.maxPerRequirement > 0 ==> added
    {
      hide Count, Total, Domains, DomainsDistinct, Tallied, WithinCaps, Counted, Known, Distinct, Fresh;
      FreshAt(items, selected, items[k]);
      NothingChosen(items, settings, items[k].requirement);
      var item := items[k];
      var count, seen := Counted(counts, item.requirement), Known(domains, item.requirement);
      TalliedAt(items, selected, counts, domains, item.requirement);
      if count >= settings.maxPerRequirement { return false; }
      if !repeatDomain && item.domain != "" && item.domain in seen { return false; }
      var chars := Chars(item, settings);
      if selected != [] && totalChars + chars > settings.maxTotalChars { return false; }
      CapsKept(items, selected, k, settings);
      TallyGrows(items, selected, counts, domains, k, settings);
      if !repeatDomain && DomainsDistinct(items, selected) { StaysDistinct(items, selected, k); }
      selected := selected + [k];
      counts := counts[item.requirement := count + 1];
      if item.domain != "" { domains := domains[item.requirement := seen + {item.domain}]; }
      totalChars := totalChars + chars;
      return true;
    }
  }

  lemma FreshAt(items: seq<Item>, chosen: seq<nat>, item: Item)
    requires InRange(items, chosen)
    ensures Fresh(items, chosen, item) <==>
              item.domain == "" || item.domain !in Domains(items, chosen, item.requirement)
    ensures chosen == [] ==> Fresh(items, chosen, item)
  {
    if item.domain != "" { FreshIff(items, chosen, item); }
  }

  lemma StaysDistinct(items: seq<Item>, chosen: seq<nat>, k: nat)
    requires InRange(items, chosen) && k < |items| && DomainsDistinct(items, chosen)
    requires items[k].domain == "" || items[k].domain !in Domains(items, chosen, items[k].requirement)
    ensures InRange(items, chosen + [k]) && DomainsDistinct(items, chosen + [k])
  {
    forall i | 0 <= i < |chosen| && items[chosen[i]].domain != ""
        && items[chosen[i]].requirement == items[k].requirement
      ensures items[chosen[i]].domain != items[k].domain
    {
      DomainSeen(items, chosen, i);
    }
  }

  /** What is excluded stays excluded as more is chosen. */
  lemma ExcludedStays(items: seq<Item>, chosen: seq<nat>, k: nat, settings: Settings, item: Item)
    requires InRange(items, chosen) && k < |items| && Excluded(items, chosen, settings, item)
    ensures InRange(items, chosen + [k]) && Excluded(items, chosen + [k], settings, item)
  {
    Appending(items, chosen, k, settings);
  }

  /** The selection, as positions in the ranked evidence: within every cap, no position
      twice, the first `firstPass` of them without a domain repeated for a requirement,
      and both passes maximal: with room for another item, everything the first pass left
      out would break a cap or repeat a domain, and everything left out in the end would
      break a cap. */
  method SelectPromptEvidence(evidence: seq<Item>, gaps: set<Requirement>, settings: Settings)
    returns (ranked: seq<Item>, chosen: seq<nat>, firstPass: nat)
    ensures multiset(ranked) == multiset(evidence) && InRank(ranked, gaps)
    ensures InRange(ranked, chosen) && Distinct(chosen) && WithinCaps(ranked, chosen, settings)
    ensures firstPass <= |chosen| && DomainsDistinct(ranked, chosen[..firstPass])
    ensures firstPass < settings.maxItems ==>
              forall k | 0 <= k < |ranked| && k !in chosen[..firstPass] ::
                Excluded(ranked, chosen[..firstPass], settings, ranked[k])
                || !Fresh(ranked, chosen[..firstPass], ranked[k])
    ensures |chosen| < settings.maxItems ==>
              forall k | 0 <= k < |ranked| && k !in chosen :: Excluded(ranked, chosen, settings, ranked[k])
    ensures evidence != [] && settings.maxItems > 0 && settings.maxPerRequirement > 0 ==> |chosen| > 0 && chosen[0] == 0
  {
    ranked := Ranked(evidence, gaps);
    RankedInRank(evidence, gaps);
    assert |multiset(ranked)| == |ranked| && |multiset(evidence)| == |evidence|;
    var selector := new Selector(ranked, settings);
    var deferred := FirstPass(selector);
    firstPass := |selector.selected|;
    ghost var first := selector.selected;
    SecondPass(selector, deferred);
    chosen := selector.selected;
    assert chosen[..firstPass] == first;
    if firstPass < settings.maxItems {
      forall k | 0 <= k < |ranked| && k !in first
        ensures Excluded(ranked, first, settings, ranked[k]) || !Fresh(ranked, first, ranked[k])
      {
        var j :| 0 <= j < |deferred| && deferred[j] == k;
      }
    }
    if |chosen| < settings.maxItems {
      forall k | 0 <= k < |ranked| && k !in chosen ensures Excluded(ranked, chosen, settings, ranked[k]) {
        assert forall i | 0 <= i < |first| :: chosen[i] == first[i];
        assert k in deferred;
        var j :| 0 <= j < |deferred| && deferred[j] == k;
      }
    }
  }

  predicate Covered(selected: seq<nat>, deferred: seq<nat>, n: nat) {
    && Distinct(deferred) && (forall i | 0 <= i < |selected| :: selected[i] < n)
    && (forall j | 0 <= j < |deferred| :: deferred[j] < n && deferred[j] !in selected)
    && (forall k | 0 <= k < n :: k in selected || k in deferred)
  }

  /** What the first pass puts off would break a cap or repeat a domain. */
  ghost predicate Barred(items: seq<Item>, chosen: seq<nat>, settings: Settings, deferred: seq<nat>)
    requires InRange(items, chosen)
  {
    forall j | 0 <= j < |deferred| ::
      deferred[j] < |items|
      && (Excluded(items, chosen, settings, items[deferred[j]]) || !Fresh(items, chosen, items[deferred[j]]))
  }

  lemma BarredSelected(items: seq<Item>, chosen: seq<nat>, settings: Settings, deferred: seq<nat>, k: nat)
    requires InRange(items, chosen) && Barred(items, chosen, settings, deferred) && k < |items|
    ensures InRange(items, chosen + [k]) && Barred(items, chosen + [k], settings, deferred)
  {
    forall j | 0 <= j < |deferred|
      ensures var item := items[deferred[j]];
              Excluded(items, chosen + [k], settings, item) || !Fresh(items, chosen + [k], item)
    {
      hide Excluded;
      var item := items[deferred[j]];
      if Excluded(items, chosen, settings, item) {
        ExcludedStays(items, chosen, k, settings, item);
      } else {
        var i :| 0 <= i < |chosen| && items[chosen[i]].requirement == item.requirement
                 && items[chosen[i]].domain == item.domain;
        assert (chosen + [k])[i] == chosen[i];
      }
    }
  }

  lemma BarredDeferred(items: seq<Item>, chosen: seq<nat>, settings: Settings, deferred: seq<nat>, k: nat)
    requires InRange(items, chosen) && Barred(items, chosen, settings, deferred) && k < |items|
    requires Excluded(items, chosen, settings, items[k]) || !Fresh(items, chosen, items[k])
    ensures Barred(items, chosen, settings, deferred + [k])
  {
    hide Excluded, Fresh;
  }

  lemma NothingBarred(items: seq<Item>, settings: Settings)
    ensures Barred(items, [], settings, [])
  {
  }

  lemma CoveredSelected(selected: seq<nat>, deferred: seq<nat>, k: nat)
    requires Covered(selected, deferred, k)
    ensures Covered(selected + [k], deferred, k + 1)
  {
    forall i | 0 <= i < k + 1 ensures i in selected + [k] || i in deferred {
      if i < k { assert i in selected || i in deferred; }
    }
  }

  lemma CoveredDeferred(selected: seq<nat>, deferred: seq<nat>, k: nat)
    requires Covered(selected, deferred, k)
    ensures Covered(selected, deferred + [k], k + 1)
  {
    forall i | 0 <= i < k + 1 ensures i in selected || i in deferred + [k] {
      if i < k { assert i in selected || i in deferred; }
    }
  }

  lemma NotCoveredYet(selected: seq<nat>, deferred: seq<nat>, k: nat)
    requires Covered(selected, deferred, k)
    ensures k !in selected
  {
  }

  /** The best-ranked item comes first. */
  predicate BestFirst(selected: seq<nat>) { selected != [] && selected[0] == 0 }

  lemma BestStaysFirst(selected: seq<nat>, k: nat)
    ensures BestFirst(selected) ==> BestFirst(selected + [k])
    ensures selected == [] && k == 0 ==> BestFirst(selected + [k])
  {
  }

  lemma NothingCovered(items: seq<Item>)
    ensures Covered([], [], 0) && DomainsDistinct(items, [])
  {
  }

  lemma CoveredMeans(selected: seq<nat>, deferred: seq<nat>, n: nat)
    requires Covered(selected, deferred, n)
    ensures Distinct(deferred) && forall j | 0 <= j < |deferred| :: deferred[j] < n && deferred[j] !in selected
  {
  }

  /** Fresh domains only; the rest is deferred. */
  method FirstPass(selector: Selector) returns (deferred: seq<nat>)
    requires selector.Valid() && selector.selected == []
    modifies selector
    ensures selector.Valid() && DomainsDistinct(selector.items, selector.selected)
    ensures Distinct(deferred) && forall j | 0 <= j < |deferred| ::
              deferred[j] < |selector.items| && deferred[j] !in selector.selected
    ensures |selector.selected| < selector.settings.maxItems ==> Covered(selector.selected, deferred, |selector.items|)
    ensures |selector.items| > 0 && selector.settings.maxItems > 0 && selector.settings.maxPerRequirement > 0 ==>
              BestFirst(selector.selected)
    ensures Barred(selector.items, selector.selected, selector.settings, deferred)
  {
    hide Count, Total, Domains, Excluded, WithinCaps, Tallied, Covered, DomainsDistinct, Distinct, BestFirst, Barred,
        Fresh;
    NothingCovered(selector.items);
    NothingBarred(selector.items, selector.settings);
    deferred := [];
    var k := 0;
    while k < |selector.items| && |selector.selected| < selector.settings.maxItems
      invariant 0 <= k <= |selector.items| && (k == 0 ==> selector.selected == [])
      invariant selector.Valid() && DomainsDistinct(selector.items, selector.selected)
      invariant Covered(selector.selected, deferred, k)
      invariant Barred(selector.items, selector.selected, selector.settings, deferred)
      invariant k > 0 && selector.settings.maxPerRequirement > 0 ==> BestFirst(selector.selected)
    {
      ghost var before := selector.selected;
      NotCoveredYet(before, deferred, k);
      BestStaysFirst(before, k);
      var added := selector.TryAdd(k, false);
      if added {
        CoveredSelected(before, deferred, k);
        BarredSelected(selector.items, before, selector.settings, deferred, k);
      } else {
        CoveredDeferred(before, deferred, k);
        assert selector.selected == before;
        BarredDeferred(selector.items, before, selector.settings, deferred, k);
        deferred := deferred + [k];
      }
      k := k + 1;
    }
    CoveredMeans(selector.selected, deferred, k);
  }

  /** Domain repeats fill what room is left. */
  method SecondPass(selector: Selector, deferred: seq<nat>)
    requires selector.Valid() && Distinct(deferred)
    requires forall j | 0 <= j < |deferred| :: deferred[j] < |selector.items| && deferred[j] !in selector.selected
    modifies selector
    ensures selector.Valid() && old(selector.selected) <= selector.selected
    ensures |selector.selected| < selector.settings.maxItems ==>
              forall j | 0 <= j < |deferred| :: deferred[j] in selector.selected
                || Excluded(selector.items, selector.selected, selector.settings, selector.items[deferred[j]])
  {
    hide Count, Total, Domains, Excluded, WithinCaps, DomainsDistinct;
    var j := 0;
    while j < |deferred| && |selector.selected| < selector.settings.maxItems
      invariant 0 <= j <= |deferred|
      invariant selector.Valid() && old(selector.selected) <= selector.selected
      invariant forall i | j <= i < |deferred| :: deferred[i] !in selector.selected
      invariant forall i | 0 <= i < j :: deferred[i] in selector.selected
                  || Excluded(selector.items, selector.selected, selector.settings, selector.items[deferred[i]])
    {
      ghost var before := selector.selected;
      var added := selector.TryAdd(deferred[j], true);
      assert forall i | 0 <= i < |before| :: selector.selected[i] == before[i];
      assert added ==> selector.selected[|before|] == deferred[j];
      forall i | 0 <= i <= j
        ensures deferred[i] in selector.selected
                  || Excluded(selector.items, selector.selected, selector.settings, selector.items[deferred[i]])
      {
        if deferred[i] in before {
          assert deferred[i] in selector.selected;
        } else if i < j {
          if added {
            ExcludedStays(selector.items, before, deferred[j], selector.settings, selector.items[deferred[i]]);
            assert selector.selected == before + [deferred[j]];
          } else {
            assert selector.selected == before;
          }
        }
      }
      j := j + 1;
    }
  }
}
