/**
 * The report browser (ReportView.tsx): the derived views over a report (the
 * authority chips, the filtered list, its grouping by authority, the totals
 * and the documents checklist) and the component state behind them (the tab,
 * the authority multi-select, the free-text query and the two progress maps
 * written through to storage).
 */
module ReportBrowser {
  import opened Types
  import opened Seqs
  import opened Text
  import opened Persistence

  /** The three tabs (ReportView.tsx:14). */
  datatype Tab = AllTab | CriticalTab | DocumentsTab

  // ---------------------------------------------------------------- the filter

  /** The tab condition: only the critical tab restricts the list. */
  predicate PassesTab(tab: Tab, r: RightCard)
  {
    tab != CriticalTab || r.priority == Critical
  }

  /** The authority condition: an empty selection lets every record through. */
  predicate PassesAuthorities(selected: seq<string>, r: RightCard)
  {
    |selected| == 0 || r.authority in selected
  }

  /** The text the free-text query is looked up in. */
  function SearchText(r: RightCard): string
  {
    r.authority + " " + r.description + " " + r.title + " " + r.location.GetOr("")
  }

  /** The query condition: an empty query lets every record through; otherwise a case-insensitive substring test. */
  predicate PassesQuery(query: string, r: RightCard)
  {
    query == "" || Contains(Lower(SearchText(r)), Lower(query))
  }

  predicate Matches(tab: Tab, selected: seq<string>, query: string, r: RightCard)
  {
    PassesTab(tab, r) && PassesAuthorities(selected, r) && PassesQuery(query, r)
  }

  function MatchesAll(tab: Tab, selected: seq<string>, query: string): RightCard -> bool
  {
    (r: RightCard) => Matches(tab, selected, query, r)
  }

  /** `filteredRights`. */
  function FilteredRights(rights: Report, tab: Tab, selected: seq<string>, query: string): Report
  {
    Filter(rights, MatchesAll(tab, selected, query))
  }

  /**
   * The filtered list is the order-preserving subsequence of the report made of
   * the records that meet all three conditions, each kept as often as it occurs.
   */
  lemma FilteredSpec(rights: Report, tab: Tab, selected: seq<string>, query: string, r: RightCard)
    ensures IsSubseq(FilteredRights(rights, tab, selected, query), rights)
    ensures r in FilteredRights(rights, tab, selected, query) <==>
      r in rights && PassesTab(tab, r) && PassesAuthorities(selected, r) && PassesQuery(query, r)
    ensures multiset(FilteredRights(rights, tab, selected, query))[r] ==
      if Matches(tab, selected, query, r) then multiset(rights)[r] else 0
  {
    FilterIsSubseq(rights, MatchesAll(tab, selected, query));
    FilterMembers(rights, MatchesAll(tab, selected, query), r);
    FilterCount(rights, MatchesAll(tab, selected, query), r);
  }

  /** With no filter set (the state a fresh view starts in) the whole report is listed. */
  lemma NoFilterKeepsAll(rights: Report, tab: Tab)
    requires tab != CriticalTab
    ensures FilteredRights(rights, tab, [], "") == rights
  {
    FilterKeepsAll(rights, MatchesAll(tab, [], ""));
  }

  /** The search test ignores the case of the query: lower-casing it first changes nothing. */
  lemma QueryIgnoresCase(query: string, r: RightCard)
    ensures PassesQuery(query, r) <==> PassesQuery(Lower(query), r)
  {
    LowerIdempotent(query);
  }

  /** A query found in a record's title, ignoring case, keeps that record as far as the query goes. */
  lemma QueryInTitle(query: string, r: RightCard)
    requires Contains(Lower(r.title), Lower(query))
    ensures PassesQuery(query, r)
  {
    var front := r.authority + " " + r.description + " ";
    var back := " " + r.location.GetOr("");
    assert SearchText(r) == front + r.title + back;
    LowerConcat(front + r.title, back);
    LowerConcat(front, r.title);
    ContainsInfix(Lower(front), Lower(r.title), Lower(back), Lower(query));
  }

  // ---------------------------------------------------------------- authorities

  /** `rights.map(r => r.authority)`. */
  function AuthorityColumn(rights: Report): (r: seq<string>)
    ensures |r| == |rights|
    ensures forall i | 0 <= i < |rights| :: r[i] == rights[i].authority
  {
    seq(|rights|, i requires 0 <= i < |rights| => rights[i].authority)
  }

  /** `authorities`: the distinct authorities of the report in first-occurrence order. */
  function Authorities(rights: Report): seq<string>
  {
    Distinct(AuthorityColumn(rights))
  }

  /**
   * Every authority of the report is listed, nothing else is, each exactly once,
   * and in the order in which the report first mentions them.
   */
  lemma AuthoritiesSpec(rights: Report, a: string, i: nat, j: nat)
    ensures a in Authorities(rights) <==> exists k :: 0 <= k < |rights| && rights[k].authority == a
    ensures NoDup(Authorities(rights))
    ensures i < j < |Authorities(rights)| ==>
      Authorities(rights)[i] in AuthorityColumn(rights) && Authorities(rights)[j] in AuthorityColumn(rights) &&
      FirstIndex(AuthorityColumn(rights), Authorities(rights)[i]) < FirstIndex(AuthorityColumn(rights), Authorities(rights)[j])
  {
    var col := AuthorityColumn(rights);
    DistinctMembers(col, a);
    if a in col {
      var k :| 0 <= k < |col| && col[k] == a;
      assert rights[k].authority == a;
    }
    DistinctNoDup(col);
    if i < j < |Authorities(rights)| {
      DistinctFirstOccurrenceOrder(col, i, j);
    }
  }

  // ---------------------------------------------------------------- grouping

  function AuthorityIs(a: string): RightCard -> bool
  {
    (r: RightCard) => r.authority == a
  }

  function AuthorityIn(keys: seq<string>): RightCard -> bool
  {
    (r: RightCard) => r.authority in keys
  }

  /** The group of authority `a`: its records, in list order. */
  function GroupOf(s: Report, a: string): Report
  {
    Filter(s, AuthorityIs(a))
  }

  /** A group is an order-preserving subsequence holding exactly the records of its authority. */
  lemma GroupSpec(s: Report, a: string, r: RightCard)
    ensures IsSubseq(GroupOf(s, a), s)
    ensures r in GroupOf(s, a) <==> r in s && r.authority == a
  {
    FilterIsSubseq(s, AuthorityIs(a));
    FilterMembers(s, AuthorityIs(a), r);
  }

  /** The groups laid out one after another in key order, as the page renders them. */
  function Flatten(keys: seq<string>, groups: map<string, Report>): Report
    requires forall k | k in keys :: k in groups
  {
    if keys == [] then [] else groups[keys[0]] + Flatten(keys[1..], groups)
  }

  /**
   * Laying out the groups of distinct keys gives the records whose authority is
   * one of the keys, each as often as the list holds it.
   */
  lemma {:induction false} FlattenCounts(s: Report, keys: seq<string>, groups: map<string, Report>)
    requires NoDup(keys)
    requires forall k | k in keys :: k in groups && groups[k] == GroupOf(s, k)
    ensures multiset(Flatten(keys, groups)) == multiset(Filter(s, AuthorityIn(keys)))
  {
    if keys == [] {
      assert forall r :: multiset(Filter(s, AuthorityIn(keys)))[r] == 0 by {
        forall r ensures multiset(Filter(s, AuthorityIn(keys)))[r] == 0 {
          FilterCount(s, AuthorityIn(keys), r);
        }
      }
    } else {
      var rest := keys[1..];
      assert NoDup(rest) by {
        forall i, j | 0 <= i < j < |rest| ensures rest[i] != rest[j] {
          assert rest[i] == keys[i + 1] && rest[j] == keys[j + 1];
        }
      }
      assert keys[0] !in rest by {
        forall j | 0 <= j < |rest| ensures rest[j] != keys[0] {
          assert rest[j] == keys[j + 1];
        }
      }
      FlattenCounts(s, rest, groups);
      forall r ensures multiset(Flatten(keys, groups))[r] == multiset(Filter(s, AuthorityIn(keys)))[r] {
        FilterCount(s, AuthorityIs(keys[0]), r);
        FilterCount(s, AuthorityIn(rest), r);
        FilterCount(s, AuthorityIn(keys), r);
        assert r.authority in keys <==> r.authority == keys[0] || r.authority in rest;
      }
    }
  }

  /** One more record adds its authority at the end, unless it is already listed. */
  lemma AuthoritiesSnoc(s: Report, r: RightCard)
    ensures Authorities(s + [r]) ==
      if r.authority in Authorities(s) then Authorities(s) else Authorities(s) + [r.authority]
  {
    var col := AuthorityColumn(s + [r]);
    assert col[..|col| - 1] == AuthorityColumn(s);
  }

  /** One more record joins the end of its own authority's group and of no other. */
  lemma GroupOfSnoc(s: Report, r: RightCard, a: string)
    ensures GroupOf(s + [r], a) == GroupOf(s, a) + (if r.authority == a then [r] else [])
  {
    FilterConcat(s, [r], AuthorityIs(a));
  }

  /** The groups of all the authorities of a list, laid out in order, are a permutation of the list. */
  lemma GroupsCoverAll(s: Report, keys: seq<string>, groups: map<string, Report>)
    requires keys == Authorities(s)
    requires forall k | k in keys :: k in groups && groups[k] == GroupOf(s, k)
    ensures multiset(Flatten(keys, groups)) == multiset(s)
  {
    DistinctNoDup(AuthorityColumn(s));
    forall r | r in s ensures r.authority in keys {
      var k :| 0 <= k < |s| && s[k] == r;
      assert AuthorityColumn(s)[k] == r.authority;
      DistinctMembers(AuthorityColumn(s), r.authority);
    }
    FlattenCounts(s, keys, groups);
    FilterKeepsAll(s, AuthorityIn(keys));
  }

  /** What the loop of `GroupByAuthority` keeps true about the records it has seen. */
  ghost predicate GroupsOf(seen: Report, keys: seq<string>, groups: map<string, Report>)
  {
    && keys == Authorities(seen)
    && (forall a :: a in groups <==> a in keys)
    && (forall a | a in groups :: groups[a] == GroupOf(seen, a))
    && (forall a | a !in groups :: GroupOf(seen, a) == [])
  }

  /** Pushing one more record onto its authority's group, creating the group first if needed, keeps the grouping exact. */
  lemma GroupStep(s: Report, i: nat, keys: seq<string>, groups: map<string, Report>,
                   keys': seq<string>, groups': map<string, Report>)
    requires i < |s| && GroupsOf(s[..i], keys, groups)
    requires keys' == if s[i].authority in groups then keys else keys + [s[i].authority]
    requires groups' == groups[s[i].authority := (if s[i].authority in groups then groups[s[i].authority] else []) + [s[i]]]
    ensures GroupsOf(s[..i + 1], keys', groups')
  {
    assert s[..i + 1] == s[..i] + [s[i]];
    StepKeys(s[..i], s[i], keys, groups, keys');
    StepGroups(s[..i], s[i], groups, groups');
  }

  lemma StepKeys(seen: Report, r: RightCard, keys: seq<string>, groups: map<string, Report>, keys': seq<string>)
    requires keys == Authorities(seen)
    requires forall a :: a in groups <==> a in keys
    requires keys' == if r.authority in groups then keys else keys + [r.authority]
    ensures keys' == Authorities(seen + [r])
    ensures forall a :: a in keys' <==> a in keys || a == r.authority
  {
    AuthoritiesSnoc(seen, r);
  }

  lemma StepGroups(seen: Report, r: RightCard, groups: map<string, Report>, groups': map<string, Report>)
    requires forall a | a in groups :: groups[a] == GroupOf(seen, a)
    requires forall a | a !in groups :: GroupOf(seen, a) == []
    requires groups' == groups[r.authority := (if r.authority in groups then groups[r.authority] else []) + [r]]
    ensures forall a | a in groups' :: groups'[a] == GroupOf(seen + [r], a)
    ensures forall a | a !in groups' :: GroupOf(seen + [r], a) == []
  {
    forall a ensures GroupOf(seen + [r], a) == GroupOf(seen, a) + (if r.authority == a then [r] else []) {
      GroupOfSnoc(seen, r, a);
    }
  }

  lemma GroupsOfNone(s: Report)
    ensures GroupsOf(s[..0], [], map[])
  {
    assert s[..0] == [];
  }

  /**
   * `groupedRights`: the reduce that pushes each record onto the array of its
   * authority, creating the array on the authority's first record. `keys` is the
   * object's key order, which is insertion order for authority names that are
   * not integer-like.
   */
  method GroupByAuthority(s: Report) returns (keys: seq<string>, groups: map<string, Report>)
    ensures keys == Authorities(s)
    ensures forall a :: a in groups <==> a in keys
    ensures forall a | a in groups :: groups[a] == GroupOf(s, a)
    ensures multiset(Flatten(keys, groups)) == multiset(s)
  {
    keys := [];
    groups := map[];
    var i := 0;
    GroupsOfNone(s);
    while i < |s|
      invariant 0 <= i <= |s|
      invariant GroupsOf(s[..i], keys, groups)
    {
      var r := s[i];
      ghost var keys0, groups0 := keys, groups;
      if r.authority !in groups {
        groups := groups[r.authority := []];
        keys := keys + [r.authority];
      }
      groups := groups[r.authority := groups[r.authority] + [r]];
      assert groups == groups0[r.authority := (if r.authority in groups0 then groups0[r.authority] else []) + [r]];
      GroupStep(s, i, keys0, groups0, keys, groups);
      i := i + 1;
    }
    assert s[..i] == s;
    GroupsCoverAll(s, keys, groups);
  }

  /** A record with only an id and an authority filled in. */
  function Card(id: string, authority: string): RightCard
  {
    RightCard(id, "", "", authority, Recommended, None, None, [], [], None, [], None, None, None, None, None, None)
  }

  lemma GroupOfThree(x: RightCard, y: RightCard, z: RightCard, a: string)
    ensures GroupOf([x, y, z], a) ==
      (if x.authority == a then [x] else []) + (if y.authority == a then [y] else []) +
      (if z.authority == a then [z] else [])
  {
    GroupOfSnoc([], x, a);
    assert [] + [x] == [x];
    GroupOfSnoc([x], y, a);
    assert [x] + [y] == [x, y];
    GroupOfSnoc([x, y], z, a);
    assert [x, y] + [z] == [x, y, z];
  }

  lemma AuthoritiesThree(x: RightCard, y: RightCard, z: RightCard)
    requires x.authority == z.authority != y.authority
    ensures Authorities([x, y, z]) == [x.authority, y.authority]
  {
    assert Authorities([x]) == [x.authority] by {
      AuthoritiesSnoc([], x);
      assert [] + [x] == [x];
    }
    assert Authorities([x, y]) == [x.authority, y.authority] by {
      AuthoritiesSnoc([x], y);
      assert [x] + [y] == [x, y];
    }
    AuthoritiesSnoc([x, y], z);
    assert [x, y] + [z] == [x, y, z];
  }

  /**
   * The grouped layout is a reordering of the list, not the list itself: with
   * authorities A, B, A the second A record is shown before the B record.
   */
  lemma GroupingReorders()
    ensures var s := [Card("1", "A"), Card("2", "B"), Card("3", "A")];
      && Authorities(s) == ["A", "B"]
      && GroupOf(s, "A") == [s[0], s[2]]
      && GroupOf(s, "B") == [s[1]]
      && GroupOf(s, "A") + GroupOf(s, "B") != s
  {
    var s := [Card("1", "A"), Card("2", "B"), Card("3", "A")];
    AuthoritiesThree(s[0], s[1], s[2]);
    GroupOfThree(s[0], s[1], s[2], "A");
    GroupOfThree(s[0], s[1], s[2], "B");
    assert (GroupOf(s, "A") + GroupOf(s, "B"))[1] != s[1];
  }

  // ---------------------------------------------------------------- totals and counters

  /** `r.numericValue || 0`. */
  function ValueOf(r: RightCard): int
  {
    r.numericValue.GetOr(0)
  }

  /** `totalValue`: the sum over the records, an absent value counting 0. */
  function TotalValue(s: Report): int
  {
    if s == [] then 0 else ValueOf(s[0]) + TotalValue(s[1..])
  }

  lemma {:induction false} TotalConcat(a: Report, b: Report)
    ensures TotalValue(a + b) == TotalValue(a) + TotalValue(b)
  {
    if a == [] {
      assert a + b == b;
    } else {
      assert (a + b)[1..] == a[1..] + b;
      TotalConcat(a[1..], b);
    }
  }

  function Not(p: RightCard -> bool): RightCard -> bool
  {
    (r: RightCard) => !p(r)
  }

  /** Any filter splits the total into what it keeps and what it hides: filtering never changes the sum of the report. */
  lemma {:induction false} TotalSplit(s: Report, p: RightCard -> bool)
    ensures TotalValue(Filter(s, p)) + TotalValue(Filter(s, Not(p))) == TotalValue(s)
  {
    if s != [] {
      TotalSplit(s[1..], p);
      var head := if p(s[0]) then [s[0]] else [];
      var other := if Not(p)(s[0]) then [s[0]] else [];
      TotalConcat(head, Filter(s[1..], p));
      TotalConcat(other, Filter(s[1..], Not(p)));
    }
  }

  /** Two records worth 3000 and 1500 and one without a value total 4500. */
  lemma TotalExample()
    ensures TotalValue([Card("1", "A").(numericValue := Some(3000)),
                        Card("2", "B").(numericValue := Some(1500)),
                        Card("3", "A")]) == 4500
  {
    var s := [Card("1", "A").(numericValue := Some(3000)),
              Card("2", "B").(numericValue := Some(1500)),
              Card("3", "A")];
    assert TotalValue(s[2..]) == 0 by { assert s[2..][1..] == []; }
    assert s[1..][1..] == s[2..];
    assert TotalValue(s[1..]) == 1500;
  }

  predicate IsCritical(r: RightCard)
  {
    r.priority == Critical
  }

  /** The urgent-tasks counter, over the whole report. */
  function CriticalCount(rights: Report): nat
  {
    |Filter(rights, (r: RightCard) => IsCritical(r))|
  }

  /** The urgent-tasks counter is the length of the critical tab with no authority or query filter. */
  lemma CriticalCountIsCriticalTab(rights: Report)
    ensures CriticalCount(rights) == |FilteredRights(rights, CriticalTab, [], "")|
  {
    FilterExt(rights, (r: RightCard) => IsCritical(r), MatchesAll(CriticalTab, [], ""));
  }

  predicate HasDocuments(r: RightCard)
  {
    |r.documentsToPrepare| > 0
  }

  /** The documents checklist: the records of the whole report that list a document. */
  function DocumentsList(rights: Report): Report
  {
    Filter(rights, (r: RightCard) => HasDocuments(r))
  }

  /** The checklist holds exactly the report's records with a document, in report order. */
  lemma DocumentsListSpec(rights: Report, r: RightCard)
    ensures r in DocumentsList(rights) <==> r in rights && |r.documentsToPrepare| > 0
    ensures IsSubseq(DocumentsList(rights), rights)
  {
    FilterMembers(rights, (r: RightCard) => HasDocuments(r), r);
    FilterIsSubseq(rights, (r: RightCard) => HasDocuments(r));
  }

  // ---------------------------------------------------------------- progress maps

  /** `m[k]` read as a boolean: an absent key reads false. */
  predicate Lookup(m: map<string, bool>, k: string)
  {
    k in m && m[k]
  }

  /** `{ ...m, [k]: !m[k] }`. */
  function Flip(m: map<string, bool>, k: string): map<string, bool>
  {
    m[k := !Lookup(m, k)]
  }

  /** A flip negates the reading of its key, records the key, and leaves every other entry alone. */
  lemma FlipSpec(m: map<string, bool>, k: string, other: string)
    ensures Lookup(Flip(m, k), k) == !Lookup(m, k)
    ensures Flip(m, k).Keys == m.Keys + {k}
    ensures other != k ==> (other in Flip(m, k) <==> other in m)
    ensures other != k && other in m ==> Flip(m, k)[other] == m[other]
  {
  }

  /** Flipping a key twice restores the reading of every key. */
  lemma FlipTwice(m: map<string, bool>, k: string, q: string)
    ensures Lookup(Flip(Flip(m, k), k), q) == Lookup(m, q)
  {
  }

  /** The progress key of action step `i` of record `id`. */
  function StepKey(id: string, i: nat): string
  {
    id + "-" + NatToString(i)
  }

  /** The progress key of document `i` of record `id`. */
  function DocKey(id: string, i: nat): string
  {
    id + "-doc-" + NatToString(i)
  }

  lemma NoDashInNumber(i: nat)
    ensures '-' !in NatToString(i)
  {
  }

  /** Distinct (record, step) pairs get distinct keys, even when record ids contain dashes. */
  lemma StepKeyInjective(a: string, i: nat, b: string, j: nat)
    requires StepKey(a, i) == StepKey(b, j)
    ensures a == b && i == j
  {
    NoDashInNumber(i);
    NoDashInNumber(j);
    assert StepKey(a, i) == a + ['-'] + NatToString(i);
    assert StepKey(b, j) == b + ['-'] + NatToString(j);
    SplitAtLastSeparator(a, NatToString(i), b, NatToString(j), '-');
    NatToStringInjective(i, j);
  }

  /** Distinct (record, document) pairs get distinct keys. */
  lemma DocKeyInjective(a: string, i: nat, b: string, j: nat)
    requires DocKey(a, i) == DocKey(b, j)
    ensures a == b && i == j
  {
    NoDashInNumber(i);
    NoDashInNumber(j);
    assert DocKey(a, i) == (a + "-doc") + ['-'] + NatToString(i);
    assert DocKey(b, j) == (b + "-doc") + ['-'] + NatToString(j);
    SplitAtLastSeparator(a + "-doc", NatToString(i), b + "-doc", NatToString(j), '-');
    assert a == (a + "-doc")[..|a|];
    assert b == (b + "-doc")[..|b|];
    NatToStringInjective(i, j);
  }

  /** The steps-done counter as the page computes it: the number of keys ever toggled. */
  function KeyCount(m: map<string, bool>): nat
  {
    |m.Keys|
  }

  /** The keys whose step is done. */
  function DoneKeys(m: map<string, bool>): set<string>
  {
    set k | k in m && m[k]
  }

  /** The number of steps done: the keys that read true. */
  function DoneCount(m: map<string, bool>): nat
  {
    |DoneKeys(m)|
  }

  /**
   * The counter as written counts a step checked and then unchecked: from no
   * progress, two presses on the same step show one step done where none is.
   */
  lemma KeyCountCountsUnchecked()
    ensures var m := Flip(Flip(map[], StepKey("r1", 0)), StepKey("r1", 0));
      KeyCount(m) == 1 && DoneCount(m) == 0
  {
    var k := StepKey("r1", 0);
    var m := Flip(Flip(map[], k), k);
    assert m == map[k := false];
    assert DoneKeys(m) == {};
  }

  /** A press adds a key the first time a step is pressed and never removes one. */
  lemma KeyCountFlip(m: map<string, bool>, k: string)
    ensures KeyCount(Flip(m, k)) == if k in m then KeyCount(m) else KeyCount(m) + 1
  {
    assert Flip(m, k).Keys == m.Keys + {k};
  }

  /** The page's counter never undercounts: it is the number of done steps plus the unchecked ones. */
  lemma DoneAtMostKeys(m: map<string, bool>)
    ensures DoneCount(m) <= KeyCount(m)
  {
    SubsetSize(DoneKeys(m), m.Keys);
  }

  lemma {:induction false} SubsetSize(a: set<string>, b: set<string>)
    requires a <= b
    ensures |a| <= |b|
  {
    if a != {} {
      var x :| x in a;
      SubsetSize(a - {x}, b - {x});
    }
  }

  /** Each press moves the corrected counter by exactly one, up when the step was not done and down when it was. */
  lemma DoneCountFlip(m: map<string, bool>, k: string)
    ensures DoneCount(Flip(m, k)) == if Lookup(m, k) then DoneCount(m) - 1 else DoneCount(m) + 1
  {
    if Lookup(m, k) {
      assert DoneKeys(Flip(m, k)) == DoneKeys(m) - {k};
    } else {
      assert DoneKeys(Flip(m, k)) == DoneKeys(m) + {k};
    }
  }

  /** Two presses on the same step give back the corrected count. */
  lemma DoneCountFlipTwice(m: map<string, bool>, k: string)
    ensures DoneCount(Flip(Flip(m, k), k)) == DoneCount(m)
  {
    DoneCountFlip(m, k);
    DoneCountFlip(Flip(m, k), k);
  }

  /** The progress map a mount reads back from storage; a missing or foreign value gives no progress. */
  function StoredFlags(entries: map<string, Blob>, key: string): map<string, bool>
  {
    if key in entries && entries[key].FlagsBlob? then entries[key].flags else map[]
  }

  // ---------------------------------------------------------------- the component

  /** The report browser component: its five pieces of state and the storage it writes through to. */
  class ReportView {
    const rights: Report
    const storage: Storage
    var activeTab: Tab
    var selectedAuthorities: seq<string>
    var query: string
    var checkedSteps: map<string, bool>
    var preparedDocs: map<string, bool>

    /** Mounting: all filters cleared, the progress maps read back from storage. */
    constructor (rights: Report, storage: Storage)
      ensures this.rights == rights && this.storage == storage
      ensures activeTab == AllTab && selectedAuthorities == [] && query == ""
      ensures checkedSteps == StoredFlags(storage.entries, ProgressKey)
      ensures preparedDocs == StoredFlags(storage.entries, DocsKey)
      ensures Synced()
    {
      this.rights := rights;
      this.storage := storage;
      activeTab := AllTab;
      selectedAuthorities := [];
      query := "";
      checkedSteps := StoredFlags(storage.entries, ProgressKey);
      preparedDocs := StoredFlags(storage.entries, DocsKey);
    }

    /** What a remount would read back from storage is the progress on screen. */
    ghost predicate Synced()
      reads this, storage
    {
      StoredFlags(storage.entries, ProgressKey) == checkedSteps &&
      StoredFlags(storage.entries, DocsKey) == preparedDocs
    }

    function Filtered(): Report
      reads this
    {
      FilteredRights(rights, activeTab, selectedAuthorities, query)
    }

    /** The authority chips, over the whole report. */
    function AuthorityChips(): seq<string>
      reads this
    {
      Authorities(rights)
    }

    /** Whether the documents checklist is shown instead of the grouped records. */
    predicate ShowsDocuments()
      reads this
    {
      activeTab == DocumentsTab
    }

    function Documents(): Report
      reads this
    {
      DocumentsList(rights)
    }

    function Total(): int
      reads this
    {
      TotalValue(rights)
    }

    function Urgent(): nat
      reads this
    {
      CriticalCount(rights)
    }

    /** The steps-done badge as the page computes it: every key ever toggled. */
    function StepsDone(): nat
      reads this
    {
      KeyCount(checkedSteps)
    }

    predicate StepChecked(id: string, i: nat)
      reads this
    {
      Lookup(checkedSteps, StepKey(id, i))
    }

    predicate DocPrepared(id: string, i: nat)
      reads this
    {
      Lookup(preparedDocs, DocKey(id, i))
    }

    /** The grouped records shown on the non-document tabs. */
    method Groups() returns (keys: seq<string>, groups: map<string, Report>)
      ensures keys == Authorities(Filtered())
      ensures forall a :: a in groups <==> a in keys
      ensures forall a | a in groups :: groups[a] == GroupOf(Filtered(), a)
      ensures multiset(Flatten(keys, groups)) == multiset(Filtered())
    {
      keys, groups := GroupByAuthority(Filtered());
    }

    /** `toggleStep`: flips one step and writes the whole progress map to storage. */
    method ToggleStep(id: string, i: nat)
      modifies this, storage
      ensures checkedSteps == Flip(old(checkedSteps), StepKey(id, i))
      ensures storage.entries == old(storage.entries)[ProgressKey := FlagsBlob(checkedSteps)]
      ensures StepChecked(id, i) == !old(StepChecked(id, i))
      ensures forall j: nat | j != i :: StepChecked(id, j) == old(StepChecked(id, j))
      ensures StepsDone() == if StepKey(id, i) in old(checkedSteps) then old(StepsDone()) else old(StepsDone()) + 1
      ensures StepsDone() >= old(StepsDone())
      ensures DoneCount(checkedSteps) == if old(StepChecked(id, i)) then DoneCount(old(checkedSteps)) - 1 else DoneCount(old(checkedSteps)) + 1
      ensures preparedDocs == old(preparedDocs) && activeTab == old(activeTab)
      ensures selectedAuthorities == old(selectedAuthorities) && query == old(query)
      ensures old(Synced()) ==> Synced()
    {
      KeyCountFlip(checkedSteps, StepKey(id, i));
      DoneCountFlip(checkedSteps, StepKey(id, i));
      checkedSteps := Flip(checkedSteps, StepKey(id, i));
      storage.Set(ProgressKey, FlagsBlob(checkedSteps));
      forall j: nat | j != i ensures StepKey(id, j) != StepKey(id, i) {
        if StepKey(id, j) == StepKey(id, i) {
          StepKeyInjective(id, j, id, i);
        }
      }
    }

    /** `toggleDoc`: flips one document and writes the whole map to storage. */
    method ToggleDoc(id: string, i: nat)
      modifies this, storage
      ensures preparedDocs == Flip(old(preparedDocs), DocKey(id, i))
      ensures storage.entries == old(storage.entries)[DocsKey := FlagsBlob(preparedDocs)]
      ensures DocPrepared(id, i) == !old(DocPrepared(id, i))
      ensures checkedSteps == old(checkedSteps) && activeTab == old(activeTab)
      ensures selectedAuthorities == old(selectedAuthorities) && query == old(query)
      ensures old(Synced()) ==> Synced()
    {
      preparedDocs := Flip(preparedDocs, DocKey(id, i));
      storage.Set(DocsKey, FlagsBlob(preparedDocs));
    }

    /** `toggleAuthority`: adds the authority when absent, removes it when present. */
    method ToggleAuthority(a: string)
      modifies this
      ensures selectedAuthorities == Toggle(old(selectedAuthorities), a)
      ensures a in selectedAuthorities <==> a !in old(selectedAuthorities)
      ensures forall b | b != a :: b in selectedAuthorities <==> b in old(selectedAuthorities)
      ensures activeTab == old(activeTab) && query == old(query)
      ensures checkedSteps == old(checkedSteps) && preparedDocs == old(preparedDocs)
      ensures AuthorityChips() == old(AuthorityChips())
    {
      selectedAuthorities := Toggle(selectedAuthorities, a);
      ToggleMembers(old(selectedAuthorities), a, a);
      forall b | b != a ensures b in selectedAuthorities <==> b in old(selectedAuthorities) {
        ToggleMembers(old(selectedAuthorities), a, b);
      }
    }

    /** `clearAuthorities`: every authority passes again. */
    method ClearAuthorities()
      modifies this
      ensures selectedAuthorities == []
      ensures forall r | r in rights :: r in Filtered() <==> PassesTab(activeTab, r) && PassesQuery(query, r)
      ensures activeTab == old(activeTab) && query == old(query)
      ensures checkedSteps == old(checkedSteps) && preparedDocs == old(preparedDocs)
    {
      selectedAuthorities := [];
      forall r | r in rights ensures r in Filtered() <==> PassesTab(activeTab, r) && PassesQuery(query, r) {
        FilteredSpec(rights, activeTab, [], query, r);
      }
    }

    /** A tab press. The totals, the counters and the checklist do not depend on it. */
    method SetTab(tab: Tab)
      modifies this
      ensures activeTab == tab
      ensures ShowsDocuments() <==> tab == DocumentsTab
      ensures AuthorityChips() == old(AuthorityChips())
      ensures selectedAuthorities == old(selectedAuthorities) && query == old(query)
      ensures checkedSteps == old(checkedSteps) && preparedDocs == old(preparedDocs)
      ensures Total() == old(Total()) && Urgent() == old(Urgent()) && Documents() == old(Documents())
    {
      activeTab := tab;
    }

    /** Typing in the search box. */
    method SetQuery(text: string)
      modifies this
      ensures query == text
      ensures AuthorityChips() == old(AuthorityChips()) && ShowsDocuments() == old(ShowsDocuments())
      ensures activeTab == old(activeTab) && selectedAuthorities == old(selectedAuthorities)
      ensures checkedSteps == old(checkedSteps) && preparedDocs == old(preparedDocs)
      ensures Total() == old(Total()) && Urgent() == old(Urgent()) && Documents() == old(Documents())
    {
      query := text;
    }
  }
}
