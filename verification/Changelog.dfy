/** Release notes: filing commits under categories, removing repeats, and counting. */
module Changelog {
  import opened Framing

  /** A parsed commit; title is its subject already formatted for display. */
  datatype Entry = Entry(kind: string, scope: string, title: string, breaking: bool, note: string, sha: string)

  datatype Category = Category(key: string, title: string, icon: string, short: string, types: seq<string>, hidden: bool)
  {
    predicate CatchAll() { "" in types }

    function Heading(): string {
      if icon == "" then title else icon + " " + title
    }
  }

  datatype Item = Item(title: string, scope: string, sha: string, breaking: bool, note: string)

  datatype Group = Group(key: string, title: string, icon: string, heading: string, items: seq<Item>)

  datatype Count = Count(key: string, short: string, n: nat)

  datatype Stats = Stats(bump: string, commits: nat, breaking: nat, counts: seq<Count>)

  const BREAKING := Category("breaking", "Breaking Changes", "⚠️", "Breaking", [], false)

  function NewItem(e: Entry, withNote: bool): Item {
    Item(e.title, e.scope, e.sha, e.breaking, if withNote then e.note else "")
  }

  function NewGroup(c: Category, items: seq<Item>): Group {
    Group(c.key, c.title, c.icon, c.Heading(), items)
  }

  // ---- Which category an entry is filed under

  function Claimed(categories: seq<Category>): set<string> {
    set i, j | 0 <= i < |categories| && 0 <= j < |categories[i].types| :: categories[i].types[j]
  }

  method ClaimedTypes(categories: seq<Category>) returns (claimed: set<string>)
    ensures claimed == Claimed(categories)
  {
    claimed := {};
    for i := 0 to |categories|
      invariant claimed == Claimed(categories[..i])
    {
      var c := categories[i];
      ghost var before := claimed;
      for j := 0 to |c.types|
        invariant claimed == before + set k | 0 <= k < j :: c.types[k]
      {
        claimed := claimed + {c.types[j]};
      }
      ClaimedOneMore(categories, i);
    }
    assert categories[..|categories|] == categories;
  }

  lemma ClaimedOneMore(categories: seq<Category>, i: nat)
    requires i < |categories|
    ensures Claimed(categories[..i + 1]) == Claimed(categories[..i]) + set k | 0 <= k < |categories[i].types| :: categories[i].types[k]
  {
    var shorter, longer, c := categories[..i], categories[..i + 1], categories[i];
    forall t | t in Claimed(shorter) ensures t in Claimed(longer) {
      var a, b :| 0 <= a < i && 0 <= b < |shorter[a].types| && t == shorter[a].types[b];
      assert longer[a].types[b] == t;
    }
    forall k | 0 <= k < |c.types| ensures c.types[k] in Claimed(longer) {
      assert longer[i].types[k] in Claimed(longer);
    }
    forall t | t in Claimed(longer) ensures t in Claimed(shorter) + set k | 0 <= k < |c.types| :: c.types[k] {
      var a, b :| 0 <= a <= i && 0 <= b < |longer[a].types| && t == longer[a].types[b];
      if a < i {
        assert shorter[a].types[b] == t;
      }
    }
  }

  predicate BelongsTo(e: Entry, c: Category, claimed: set<string>) {
    e.kind in c.types || (c.CatchAll() && e.kind !in claimed)
  }

  // ---- Items of one category, first mention only

  function Filed(entries: seq<Entry>, c: Category, claimed: set<string>): seq<Item> {
    if entries == [] then []
    else
      var rest := Filed(entries[..|entries| - 1], c, claimed);
      var e := entries[|entries| - 1];
      if BelongsTo(e, c, claimed) then rest + [NewItem(e, false)] else rest
  }

  function BreakingFiled(entries: seq<Entry>): seq<Item> {
    if entries == [] then []
    else
      var rest := BreakingFiled(entries[..|entries| - 1]);
      var e := entries[|entries| - 1];
      if e.breaking then rest + [NewItem(e, true)] else rest
  }

  function Key(i: Item): string {
    Framed(i.scope, i.title)
  }

  /** No earlier item says the same thing. */
  predicate IsFirst(items: seq<Item>, i: nat)
    requires i < |items|
  {
    forall j :: 0 <= j < i ==> Key(items[j]) != Key(items[i])
  }

  /** The indices of first mentions below n, in order. */
  function Firsts(items: seq<Item>, n: nat): seq<nat>
    requires n <= |items|
  {
    if n == 0 then []
    else Firsts(items, n - 1) + (if IsFirst(items, n - 1) then [n - 1] else [])
  }

  lemma {:induction false} FirstsAreFirsts(items: seq<Item>, n: nat)
    requires n <= |items|
    ensures forall k :: 0 <= k < |Firsts(items, n)| ==> Firsts(items, n)[k] < n && IsFirst(items, Firsts(items, n)[k])
    ensures forall k, l :: 0 <= k < l < |Firsts(items, n)| ==> Firsts(items, n)[k] < Firsts(items, n)[l]
    ensures forall i :: 0 <= i < n && IsFirst(items, i) ==> i in Firsts(items, n)
  {
    if n > 0 {
      FirstsAreFirsts(items, n - 1);
      assert IsFirst(items, n - 1) ==> Firsts(items, n)[|Firsts(items, n)| - 1] == n - 1;
    }
  }

  ghost predicate Deduped(items: seq<Item>, out: seq<Item>) {
    && |out| == |Firsts(items, |items|)|
    && forall k :: 0 <= k < |out| ==>
         Firsts(items, |items|)[k] < |items| && out[k] == items[Firsts(items, |items|)[k]]
  }

  /** Keeps exactly the first item of each key, in their order. */
  method Dedupe(items: seq<Item>) returns (out: seq<Item>)
    ensures Deduped(items, out)
  {
    if |items| < 2 {
      out := items;
      FirstsAreFirsts(items, |items|);
      assert |items| == 1 ==> IsFirst(items, 0) && Firsts(items, 1) == Firsts(items, 0) + [0];
      return;
    }
    var seen: set<string> := {};
    out := [];
    for i := 0 to |items|
      invariant seen == set k | 0 <= k < i :: Key(items[k])
      invariant |out| == |Firsts(items, i)|
      invariant forall k :: 0 <= k < |out| ==> Firsts(items, i)[k] < i && out[k] == items[Firsts(items, i)[k]]
    {
      var key := Key(items[i]);
      assert IsFirst(items, i) <==> key !in seen;
      if key in seen {
        continue;
      }
      seen := seen + {key};
      out := out + [items[i]];
    }
  }

  /** Framing the scope with a NUL is unambiguous, so items collapse only when scope and title are equal. */
  lemma KeyIdentifiesScopeAndTitle(a: Item, b: Item)
    requires NulFree(a.scope) && NulFree(b.scope)
    ensures Key(a) == Key(b) <==> a.scope == b.scope && a.title == b.title
  {
    FramesAreInjective(a.scope, a.title, b.scope, b.title);
  }

  // ---- Groups

  ghost predicate IsGroup(g: Group, c: Category, filed: seq<Item>) {
    g == NewGroup(c, g.items) && Deduped(filed, g.items)
  }

  method ItemsFor(entries: seq<Entry>, c: Category, claimed: set<string>) returns (items: seq<Item>)
    ensures Deduped(Filed(entries, c, claimed), items)
  {
    items := [];
    for i := 0 to |entries|
      invariant items == Filed(entries[..i], c, claimed)
    {
      assert entries[..i + 1][..i] == entries[..i];
      if BelongsTo(entries[i], c, claimed) {
        items := items + [NewItem(entries[i], false)];
      }
    }
    assert entries[..|entries|] == entries;
    items := Dedupe(items);
  }

  method BreakingItems(entries: seq<Entry>) returns (items: seq<Item>)
    ensures Deduped(BreakingFiled(entries), items)
  {
    items := [];
    for i := 0 to |entries|
      invariant items == BreakingFiled(entries[..i])
    {
      assert entries[..i + 1][..i] == entries[..i];
      if entries[i].breaking {
        items := items + [NewItem(entries[i], true)];
      }
    }
    assert entries[..|entries|] == entries;
    items := Dedupe(items);
  }

  /** The visible categories that have something filed under them, in layout order. */
  function Shown(entries: seq<Entry>, categories: seq<Category>, claimed: set<string>): seq<Category> {
    if categories == [] then []
    else
      var rest := Shown(entries, categories[..|categories| - 1], claimed);
      var c := categories[|categories| - 1];
      if !c.hidden && Filed(entries, c, claimed) != [] then rest + [c] else rest
  }

  ghost predicate GroupsOf(groups: seq<Group>, shown: seq<Category>, entries: seq<Entry>, claimed: set<string>) {
    && |groups| == |shown|
    && forall i :: 0 <= i < |groups| ==> IsGroup(groups[i], shown[i], Filed(entries, shown[i], claimed))
  }

  lemma DedupedIsEmptyTogether(items: seq<Item>, out: seq<Item>)
    requires Deduped(items, out)
    ensures out == [] <==> items == []
    ensures |out| <= |items|
  {
    FirstsAreFirsts(items, |items|);
    AtMost(items, |items|);
    if items != [] {
      assert IsFirst(items, 0);
    }
  }

  lemma {:induction false} AtMost(items: seq<Item>, n: nat)
    requires n <= |items|
    ensures |Firsts(items, n)| <= n
  {
    if n > 0 {
      AtMost(items, n - 1);
    }
  }

  /** A callout for breaking changes when there are any, then one group per shown category. */
  ghost predicate NotesOf(groups: seq<Group>, entries: seq<Entry>, categories: seq<Category>) {
    var claimed := Claimed(categories);
    var callout := if BreakingFiled(entries) == [] then 0 else 1;
    && callout <= |groups|
    && (callout == 1 ==> IsGroup(groups[0], BREAKING, BreakingFiled(entries)))
    && GroupsOf(groups[callout..], Shown(entries, categories, claimed), entries, claimed)
  }

  method Groups(entries: seq<Entry>, categories: seq<Category>) returns (groups: seq<Group>)
    ensures NotesOf(groups, entries, categories)
  {
    groups := [];
    var breaking := BreakingItems(entries);
    DedupedIsEmptyTogether(BreakingFiled(entries), breaking);
    if |breaking| > 0 {
      groups := [NewGroup(BREAKING, breaking)];
    }
    ghost var callout := groups;
    var claimed := ClaimedTypes(categories);
    ghost var tail: seq<Group> := [];
    for i := 0 to |categories|
      invariant groups == callout + tail
      invariant GroupsOf(tail, Shown(entries, categories[..i], claimed), entries, claimed)
    {
      assert categories[..i + 1][..i] == categories[..i];
      var category := categories[i];
      if category.hidden {
        continue;
      }
      var items := ItemsFor(entries, category, claimed);
      DedupedIsEmptyTogether(Filed(entries, category, claimed), items);
      if |items| > 0 {
        groups := groups + [NewGroup(category, items)];
        tail := tail + [NewGroup(category, items)];
      }
    }
    assert categories[..|categories|] == categories;
    assert groups[|callout|..] == tail;
  }

  // ---- Statistics

  function CountFor(entries: seq<Entry>, c: Category, claimed: set<string>): nat {
    if entries == [] then 0
    else
      CountFor(entries[..|entries| - 1], c, claimed)
      + (if BelongsTo(entries[|entries| - 1], c, claimed) then 1 else 0)
  }

  function BreakingCount(entries: seq<Entry>): nat {
    if entries == [] then 0
    else BreakingCount(entries[..|entries| - 1]) + (if entries[|entries| - 1].breaking then 1 else 0)
  }

  /** One count per category with a commit, hidden ones included, in layout order. */
  function Counts(entries: seq<Entry>, categories: seq<Category>, claimed: set<string>): seq<Count> {
    if categories == [] then []
    else
      var rest := Counts(entries, categories[..|categories| - 1], claimed);
      var c := categories[|categories| - 1];
      var n := CountFor(entries, c, claimed);
      if n > 0 then rest + [Count(c.key, c.short, n)] else rest
  }

  function StatsOf(bump: string, entries: seq<Entry>, categories: seq<Category>): Stats {
    Stats(bump, |entries|, BreakingCount(entries), Counts(entries, categories, Claimed(categories)))
  }

  method Statistics(bump: string, entries: seq<Entry>, categories: seq<Category>) returns (stats: Stats)
    ensures stats == StatsOf(bump, entries, categories)
  {
    stats := Stats(bump, |entries|, 0, []);
    for i := 0 to |entries|
      invariant stats == Stats(bump, |entries|, BreakingCount(entries[..i]), [])
    {
      assert entries[..i + 1][..i] == entries[..i];
      if entries[i].breaking {
        stats := stats.(breaking := stats.breaking + 1);
      }
    }
    assert entries[..|entries|] == entries;
    var claimed := ClaimedTypes(categories);
    for i := 0 to |categories|
      invariant stats == Stats(bump, |entries|, BreakingCount(entries), Counts(entries, categories[..i], claimed))
    {
      assert categories[..i + 1][..i] == categories[..i];
      var category := categories[i];
      var n := 0;
      for j := 0 to |entries|
        invariant n == CountFor(entries[..j], category, claimed)
      {
        assert entries[..j + 1][..j] == entries[..j];
        if BelongsTo(entries[j], category, claimed) {
          n := n + 1;
        }
      }
      if n > 0 {
        stats := stats.(counts := stats.counts + [Count(category.key, category.short, n)]);
      }
    }
    assert categories[..|categories|] == categories;
  }

  // ---- Nothing is dropped, and nothing is counted twice

  function Sum(counts: seq<Count>): nat {
    if counts == [] then 0 else Sum(counts[..|counts| - 1]) + counts[|counts| - 1].n
  }

  /** How many of the categories an entry belongs to. */
  function Homes(e: Entry, categories: seq<Category>, claimed: set<string>): nat {
    if categories == [] then 0
    else
      Homes(e, categories[..|categories| - 1], claimed)
      + (if BelongsTo(e, categories[|categories| - 1], claimed) then 1 else 0)
  }

  lemma {:induction false} SumOfCounts(entries: seq<Entry>, e: Entry, categories: seq<Category>, claimed: set<string>)
    ensures Sum(Counts(entries + [e], categories, claimed))
         == Sum(Counts(entries, categories, claimed)) + Homes(e, categories, claimed)
    ensures Sum(Counts([], categories, claimed)) == 0
  {
    if categories != [] {
      var before, c := categories[..|categories| - 1], categories[|categories| - 1];
      assert before + [c] == categories;
      CountOneMore(entries, e, c, claimed);
      assert Homes(e, categories, claimed) == Homes(e, before, claimed) + (if BelongsTo(e, c, claimed) then 1 else 0);
      hide Sum, Counts, Homes, CountFor, BelongsTo;
      SumOfCounts(entries, e, before, claimed);
      SumOneMore(entries, before, c, claimed);
      SumOneMore(entries + [e], before, c, claimed);
      SumOneMore([], before, c, claimed);
    }
  }

  lemma CountOneMore(entries: seq<Entry>, e: Entry, c: Category, claimed: set<string>)
    ensures CountFor(entries + [e], c, claimed) == CountFor(entries, c, claimed) + (if BelongsTo(e, c, claimed) then 1 else 0)
    ensures CountFor([], c, claimed) == 0
  {
    hide BelongsTo;
    assert (entries + [e])[..|entries|] == entries;
  }

  lemma SumOneMore(entries: seq<Entry>, before: seq<Category>, c: Category, claimed: set<string>)
    ensures Sum(Counts(entries, before + [c], claimed))
         == Sum(Counts(entries, before, claimed)) + CountFor(entries, c, claimed)
  {
    assert (before + [c])[..|before|] == before;
    var counts, n := Counts(entries, before, claimed), CountFor(entries, c, claimed);
    if n > 0 {
      assert (counts + [Count(c.key, c.short, n)])[..|counts|] == counts;
    }
  }

  ghost predicate Disjoint(categories: seq<Category>) {
    forall i, j, t :: 0 <= i < j < |categories| && t in categories[i].types ==> t !in categories[j].types
  }

  ghost predicate HasCatchAll(categories: seq<Category>) {
    exists i :: 0 <= i < |categories| && categories[i].CatchAll()
  }

  lemma ClaimedMeansListed(categories: seq<Category>, t: string)
    ensures t in Claimed(categories) <==> exists i :: 0 <= i < |categories| && t in categories[i].types
  {
    if i :| 0 <= i < |categories| && t in categories[i].types {
      var j :| 0 <= j < |categories[i].types| && categories[i].types[j] == t;
      assert categories[i].types[j] in Claimed(categories);
    }
  }

  lemma {:induction false} HomesOfOne(e: Entry, categories: seq<Category>, claimed: set<string>, n: nat, home: nat)
    requires n <= |categories|
    requires forall i :: 0 <= i < n ==> (BelongsTo(e, categories[i], claimed) <==> i == home)
    ensures Homes(e, categories[..n], claimed) == if home < n then 1 else 0
  {
    if n > 0 {
      assert categories[..n][..n - 1] == categories[..n - 1];
      HomesOfOne(e, categories, claimed, n - 1, home);
    }
  }

  /** In a disjoint layout with a catch-all, every entry has exactly one home. */
  lemma OneHomeEach(e: Entry, categories: seq<Category>)
    requires Disjoint(categories) && HasCatchAll(categories)
    ensures Homes(e, categories, Claimed(categories)) == 1
  {
    var claimed := Claimed(categories);
    ClaimedMeansListed(categories, e.kind);
    var home: nat;
    if e.kind in claimed {
      home :| 0 <= home < |categories| && e.kind in categories[home].types;
    } else {
      home :| 0 <= home < |categories| && categories[home].CatchAll();
    }
    forall i | 0 <= i < |categories| ensures BelongsTo(e, categories[i], claimed) <==> i == home {
    }
    HomesOfOne(e, categories, claimed, |categories|, home);
    assert categories[..|categories|] == categories;
  }

  lemma {:induction false} HomesGrow(e: Entry, categories: seq<Category>, claimed: set<string>, n: nat)
    requires n <= |categories|
    ensures Homes(e, categories[..n], claimed) <= Homes(e, categories, claimed)
    decreases |categories| - n
  {
    if n < |categories| {
      assert categories[..n + 1][..n] == categories[..n];
      HomesGrow(e, categories, claimed, n + 1);
    } else {
      assert categories[..n] == categories;
    }
  }

  lemma SharedTypeCountsTwice(categories: seq<Category>, i: nat, j: nat, e: Entry)
    requires i < j < |categories| && e.kind in categories[i].types && e.kind in categories[j].types
    ensures Homes(e, categories, Claimed(categories)) >= 2
  {
    var claimed := Claimed(categories);
    assert categories[..i + 1][..i] == categories[..i];
    HomesGrow(e, categories[..j], claimed, i + 1);
    assert categories[..j][..i + 1] == categories[..i + 1];
    assert categories[..j + 1][..j] == categories[..j];
    HomesGrow(e, categories, claimed, j + 1);
  }

  lemma {:induction false} NoHomes(e: Entry, categories: seq<Category>, claimed: set<string>)
    requires forall i :: 0 <= i < |categories| ==> !BelongsTo(e, categories[i], claimed)
    ensures Homes(e, categories, claimed) == 0
  {
    if categories != [] {
      NoHomes(e, categories[..|categories| - 1], claimed);
    }
  }

  function Zeros(n: nat): (s: string)
    ensures |s| == n
  {
    if n == 0 then "" else Zeros(n - 1) + "0"
  }

  /** Some type is claimed by nobody: any string longer than all the claimed ones. */
  lemma {:induction false} UnclaimedType(claimed: set<string>) returns (t: string)
    ensures t !in claimed && forall c :: c in claimed ==> |c| < |t|
  {
    if claimed == {} {
      t := "0";
    } else {
      var c :| c in claimed;
      var shorter := UnclaimedType(claimed - {c});
      t := Zeros(|c| + |shorter| + 1);
    }
  }

  ghost predicate CountsEveryCommitOnce(entries: seq<Entry>, categories: seq<Category>) {
    Sum(Counts(entries, categories, Claimed(categories))) == |entries|
  }

  lemma {:induction false} DisjointLayoutCountsOnce(entries: seq<Entry>, categories: seq<Category>)
    requires Disjoint(categories) && HasCatchAll(categories)
    ensures CountsEveryCommitOnce(entries, categories)
  {
    hide Sum, Counts, Homes, Claimed, Disjoint, HasCatchAll;
    if entries == [] {
      SumOfCounts([], Entry("", "", "", false, "", ""), categories, Claimed(categories));
    } else {
      var before, e := entries[..|entries| - 1], entries[|entries| - 1];
      DisjointLayoutCountsOnce(before, categories);
      SumOfCounts(before, e, categories, Claimed(categories));
      OneHomeEach(e, categories);
      assert before + [e] == entries;
    }
  }

  /**
   * The counts add up to the number of commits, for every release, if and only if no type is claimed by two
   * categories and some category is the catch-all.
   */
  lemma NothingDroppedIffPartition(categories: seq<Category>)
    ensures (forall entries :: CountsEveryCommitOnce(entries, categories)) <==> Disjoint(categories) && HasCatchAll(categories)
  {
    var claimed := Claimed(categories);
    if Disjoint(categories) && HasCatchAll(categories) {
      forall entries ensures CountsEveryCommitOnce(entries, categories) {
        DisjointLayoutCountsOnce(entries, categories);
      }
    } else if !Disjoint(categories) {
      var i, j, t :| 0 <= i < j < |categories| && t in categories[i].types && t in categories[j].types;
      var e := Entry(t, "", "", false, "", "");
      SharedTypeCountsTwice(categories, i, j, e);
      SumOfCounts([], e, categories, claimed);
      assert [] + [e] == [e];
      assert !CountsEveryCommitOnce([e], categories);
    } else {
      var t := UnclaimedType(claimed);
      var e := Entry(t, "", "", false, "", "");
      ClaimedMeansListed(categories, t);
      NoHomes(e, categories, claimed);
      SumOfCounts([], e, categories, claimed);
      assert [] + [e] == [e];
      assert !CountsEveryCommitOnce([e], categories);
    }
  }

  const DEFAULT_CATEGORIES := [
    Category("feat", "Features", "🚀", "Features", ["feat"], false),
    Category("fix", "Bug Fixes", "🐛", "Fixes", ["fix"], false),
    Category("perf", "Performance", "⚡", "Performance", ["perf"], false),
    Category("refactor", "Refactoring", "♻️", "Refactors", ["refactor"], false),
    Category("docs", "Documentation", "📚", "Documentation", ["docs"], false),
    Category("revert", "Reverts", "⏪", "Reverts", ["revert"], false),
    Category("test", "Tests", "🧪", "Tests", ["test"], false),
    Category("build", "Build System", "📦", "Build", ["build"], false),
    Category("ci", "Continuous Integration", "🔧", "CI", ["ci"], false),
    Category("style", "Styles", "🎨", "Style", ["style"], false),
    Category("chore", "Chores", "🧹", "Chores", ["chore"], false),
    Category("other", "Other Changes", "", "Other", [""], false)]

  /** Length and first letter are enough to tell the built-in types apart. */
  function Tag(t: string): (nat, char) {
    (|t|, if t == "" then ' ' else t[0])
  }

  function Tags(categories: seq<Category>): seq<(nat, char)> {
    seq(|categories|, i requires 0 <= i < |categories| =>
      if |categories[i].types| == 1 then Tag(categories[i].types[0]) else (99, ' '))
  }

  lemma DefaultTags()
    ensures Tags(DEFAULT_CATEGORIES) ==
            [(4, 'f'), (3, 'f'), (4, 'p'), (8, 'r'), (4, 'd'), (6, 'r'),
             (4, 't'), (5, 'b'), (2, 'c'), (5, 's'), (5, 'c'), (0, ' ')]
  {
  }

  lemma DefaultTypesAreApart()
    ensures var cs := DEFAULT_CATEGORIES;
            && |cs| == 12 && cs[11].types == [""]
            && (forall i :: 0 <= i < |cs| ==> |cs[i].types| == 1)
            && (forall i, j :: 0 <= i < j < |cs| ==> Tag(cs[i].types[0]) != Tag(cs[j].types[0]))
  {
    DefaultTags();
    hide DEFAULT_CATEGORIES;
    var cs := DEFAULT_CATEGORIES;
    var tags := Tags(cs);
    assert |cs| == |tags| == 12;
    forall i | 0 <= i < |cs| ensures |cs[i].types| == 1 && Tag(cs[i].types[0]) == tags[i] {
      assert tags[i] != (99, ' ');
    }
    assert cs[11].types[0] == "";
    hide Tag, Tags;
  }

  /** The built-in layout counts every commit of every release exactly once. */
  lemma DefaultLayoutDropsNothing(entries: seq<Entry>)
    ensures CountsEveryCommitOnce(entries, DEFAULT_CATEGORIES)
  {
    DefaultTypesAreApart();
    var cs := DEFAULT_CATEGORIES;
    hide Tag, DEFAULT_CATEGORIES;
    assert cs[11].types[0] == "" && cs[11].CatchAll();
    forall i, j, t | 0 <= i < j < |cs| && t in cs[i].types ensures t !in cs[j].types {
      assert t == cs[i].types[0];
    }
    DisjointLayoutCountsOnce(entries, cs);
  }

  // ---- The notes and the statistics agree, up to repeats

  lemma {:induction false} FiledIsCounted(entries: seq<Entry>, c: Category, claimed: set<string>)
    ensures |Filed(entries, c, claimed)| == CountFor(entries, c, claimed)
  {
    if entries != [] {
      FiledIsCounted(entries[..|entries| - 1], c, claimed);
    }
  }

  lemma {:induction false} BreakingFiledIsCounted(entries: seq<Entry>)
    ensures |BreakingFiled(entries)| == BreakingCount(entries)
  {
    if entries != [] {
      BreakingFiledIsCounted(entries[..|entries| - 1]);
    }
  }

  /** The categories with a commit, hidden ones included: those the statistics have an entry for. */
  function Counted(entries: seq<Entry>, categories: seq<Category>, claimed: set<string>): seq<Category> {
    if categories == [] then []
    else
      var rest, c := Counted(entries, categories[..|categories| - 1], claimed), categories[|categories| - 1];
      if Filed(entries, c, claimed) != [] then rest + [c] else rest
  }

  /** Where the shown categories stand among the counted ones. */
  function ShownAt(entries: seq<Entry>, categories: seq<Category>, claimed: set<string>): seq<nat> {
    if categories == [] then []
    else
      var before, c := categories[..|categories| - 1], categories[|categories| - 1];
      var rest := ShownAt(entries, before, claimed);
      if !c.hidden && Filed(entries, c, claimed) != [] then rest + [|Counted(entries, before, claimed)|] else rest
  }

  lemma {:induction false} CountsAreOfTheCounted(entries: seq<Entry>, categories: seq<Category>, claimed: set<string>)
    ensures var counts, counted := Counts(entries, categories, claimed), Counted(entries, categories, claimed);
            && |counts| == |counted|
            && forall j :: 0 <= j < |counts| ==>
                 counts[j] == Count(counted[j].key, counted[j].short, |Filed(entries, counted[j], claimed)|)
  {
    if categories != [] {
      CountsAreOfTheCounted(entries, categories[..|categories| - 1], claimed);
      FiledIsCounted(entries, categories[|categories| - 1], claimed);
      hide Filed, CountFor;
    }
  }

  /** Strictly increasing positions below n. */
  ghost predicate Positions(at: seq<nat>, n: nat) {
    && (forall i :: 0 <= i < |at| ==> at[i] < n)
    && (forall i, j :: 0 <= i < j < |at| ==> at[i] < at[j])
  }

  lemma {:induction false} ShownAreTheVisibleCounted(entries: seq<Entry>, categories: seq<Category>, claimed: set<string>)
    ensures var shown, counted := Shown(entries, categories, claimed), Counted(entries, categories, claimed);
            var at := ShownAt(entries, categories, claimed);
            && Positions(at, |counted|) && |at| == |shown|
            && (forall i :: 0 <= i < |at| ==> shown[i] == counted[at[i]] && Filed(entries, shown[i], claimed) != [])
            && (forall j :: 0 <= j < |counted| ==> (j in at <==> !counted[j].hidden))
  {
    if categories != [] {
      var before, c := categories[..|categories| - 1], categories[|categories| - 1];
      ShownAreTheVisibleCounted(entries, before, claimed);
      var rest, at := ShownAt(entries, before, claimed), ShownAt(entries, categories, claimed);
      var fewer, counted := Counted(entries, before, claimed), Counted(entries, categories, claimed);
      var shown, fewerShown := Shown(entries, categories, claimed), Shown(entries, before, claimed);
      var files := Filed(entries, c, claimed) != [];
      assert counted == if files then fewer + [c] else fewer;
      assert at == if files && !c.hidden then rest + [|fewer|] else rest;
      assert shown == if files && !c.hidden then fewerShown + [c] else fewerShown;
      hide Filed, Counted, ShownAt, Shown;
      forall j | 0 <= j < |counted| ensures j in at <==> !counted[j].hidden {
        if j == |fewer| {
          assert counted[j] == c && j !in rest;
        }
      }
    }
  }

  /** No two items say the same thing. */
  ghost predicate NoRepeats(items: seq<Item>) {
    forall i, j :: 0 <= i < j < |items| ==> Key(items[i]) != Key(items[j])
  }

  lemma {:induction false} FullWhenAllFirst(items: seq<Item>, n: nat)
    requires n <= |items|
    ensures |Firsts(items, n)| <= n
    ensures |Firsts(items, n)| == n <==> forall i :: 0 <= i < n ==> IsFirst(items, i)
  {
    if n > 0 {
      FullWhenAllFirst(items, n - 1);
    }
  }

  /** Removing repeats keeps everything exactly when there are none. */
  lemma DedupeKeepsAllIff(items: seq<Item>, out: seq<Item>)
    requires Deduped(items, out)
    ensures |out| == |items| <==> NoRepeats(items)
  {
    FullWhenAllFirst(items, |items|);
    hide Key;
    if NoRepeats(items) {
      assert forall i :: 0 <= i < |items| ==> IsFirst(items, i);
    }
    if |out| == |items| {
      forall i, j | 0 <= i < j < |items| ensures Key(items[i]) != Key(items[j]) {
        assert IsFirst(items, j);
      }
    }
  }

  /** A group and the count it stands beside: one key, at least one item, and all of them iff none repeats. */
  ghost predicate Agree(g: Group, c: Count, filed: seq<Item>) {
    && g.key == c.key && 0 < |g.items| <= c.n
    && (|g.items| == c.n <==> NoRepeats(filed))
  }

  lemma GroupAgrees(g: Group, c: Category, filed: seq<Item>)
    requires IsGroup(g, c, filed) && filed != []
    ensures Agree(g, Count(c.key, c.short, |filed|), filed)
  {
    DedupedIsEmptyTogether(filed, g.items);
    DedupeKeepsAllIff(filed, g.items);
    hide Deduped, NoRepeats;
  }

  /**
   * What Groups and Statistics return for one release agree. A callout comes first exactly when a breaking
   * change is counted. After it, the groups stand in order for exactly those counts whose category is not
   * hidden, under the same key, with at most as many items as commits counted; and with as many exactly
   * when no two of its commits share a key.
   */
  lemma NotesMatchStatistics(bump: string, entries: seq<Entry>, categories: seq<Category>, groups: seq<Group>)
    returns (at: seq<nat>)
    requires NotesOf(groups, entries, categories)
    ensures var stats, claimed := StatsOf(bump, entries, categories), Claimed(categories);
            var counted := Counted(entries, categories, claimed);
            var callout := if stats.breaking > 0 then 1 else 0;
            && |groups| == callout + |at|
            && (callout == 1 ==> Agree(groups[0], Count(BREAKING.key, BREAKING.short, stats.breaking), BreakingFiled(entries)))
            && Positions(at, |stats.counts|) && |counted| == |stats.counts|
            && (forall j :: 0 <= j < |counted| ==> (j in at <==> !counted[j].hidden))
            && (forall i :: 0 <= i < |at| ==>
                  Agree(groups[callout + i], stats.counts[at[i]], Filed(entries, counted[at[i]], claimed)))
  {
    var claimed := Claimed(categories);
    at := ShownAt(entries, categories, claimed);
    BreakingFiledIsCounted(entries);
    CountsAreOfTheCounted(entries, categories, claimed);
    ShownAreTheVisibleCounted(entries, categories, claimed);
    hide Counts, Counted, Shown, ShownAt, Claimed, Filed, BreakingFiled, BreakingCount, IsGroup, Agree, GroupsOf;
    var shown := Shown(entries, categories, claimed);
    var callout := if BreakingFiled(entries) == [] then 0 else 1;
    assert |groups[callout..]| == |shown| by { SameLength(groups[callout..], shown, entries, claimed); }
    if callout == 1 {
      GroupAgrees(groups[0], BREAKING, BreakingFiled(entries));
    }
    forall i | 0 <= i < |at|
      ensures Agree(groups[callout + i], Counts(entries, categories, claimed)[at[i]],
                    Filed(entries, Counted(entries, categories, claimed)[at[i]], claimed))
    {
      GroupAt(groups, callout, shown, entries, claimed, i);
    }
  }

  lemma SameLength(groups: seq<Group>, shown: seq<Category>, entries: seq<Entry>, claimed: set<string>)
    requires GroupsOf(groups, shown, entries, claimed)
    ensures |groups| == |shown|
  {
  }

  lemma GroupAt(groups: seq<Group>, callout: nat, shown: seq<Category>, entries: seq<Entry>, claimed: set<string>, i: nat)
    requires callout <= |groups| && GroupsOf(groups[callout..], shown, entries, claimed)
    requires i < |shown| && Filed(entries, shown[i], claimed) != []
    ensures callout + i < |groups|
    ensures var filed := Filed(entries, shown[i], claimed);
            Agree(groups[callout + i], Count(shown[i].key, shown[i].short, |filed|), filed)
  {
    hide IsGroup, Agree, Filed;
    assert groups[callout..][i] == groups[callout + i];
    GroupAgrees(groups[callout + i], shown[i], Filed(entries, shown[i], claimed));
  }

  lemma FirstOfTwo(item: Item)
    ensures Firsts([item, item], 2) == [0]
  {
    var items := [item, item];
    assert Key(items[0]) == Key(items[1]);
    assert IsFirst(items, 0) && !IsFirst(items, 1);
    hide IsFirst;
    assert Firsts(items, 0) == [];
    assert Firsts(items, 1) == [0];
  }

  /** A cherry-picked commit is counted twice and listed once: the two do disagree. */
  lemma RepeatedCommitDisagrees(e: Entry, c: Category, groups: seq<Group>)
    requires e.kind in c.types && !c.hidden && !e.breaking && NotesOf(groups, [e, e], [c])
    ensures |groups| == 1 && |groups[0].items| == 1
    ensures StatsOf("", [e, e], [c]).counts == [Count(c.key, c.short, 2)]
  {
    var claimed := Claimed([c]);
    var filed := [NewItem(e, false), NewItem(e, false)];
    assert [e, e][..1] == [e] && [e][..0] == [];
    assert [c][..0] == [];
    assert Filed([e], c, claimed) == [NewItem(e, false)];
    assert Filed([e, e], c, claimed) == filed;
    assert CountFor([e], c, claimed) == 1 && CountFor([e, e], c, claimed) == 2;
    assert BreakingFiled([e]) == [] && BreakingFiled([e, e]) == [];
    assert Shown([e, e], [c], claimed) == [c];
    assert Counts([e, e], [c][..0], claimed) == [];
    assert Counts([e, e], [c], claimed) == [Count(c.key, c.short, 2)];
    assert groups[0..] == groups;
    FirstOfTwo(NewItem(e, false));
  }
}
