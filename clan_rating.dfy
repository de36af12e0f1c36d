/**
  The clan-group team rater of the rating analysis. A side's roster is sorted by clan tag,
  split into clan groups (players of one clan together, every untagged player alone), and
  each group's summed weight is inflated in proportion to its size. The round's winner is
  predicted by comparing the two sides' ratings.
*/
module ClanRating {
  import opened Wrappers

  /** A player of a logged round: the weight it brings to its side and its clan tag, if any. */
  datatype RoundPlayerData = RoundPlayerData(weight: real, clanTag: Option<string>)

  /** The two rosters of a logged round. */
  datatype RoundResultData = RoundResultData(attackers: seq<RoundPlayerData>, defenders: seq<RoundPlayerData>)

  datatype BattleSide = Attacker | Defender

  // ---------------------------------------------------------------------------------------
  // The order of clan tags

  /** Ordinal string order: lexicographic on character codes, a proper prefix first. */
  predicate StringLess(a: string, b: string)
  {
    if a == [] then b != []
    else b != [] && (a[0] < b[0] || (a[0] == b[0] && StringLess(a[1..], b[1..])))
  }

  lemma {:induction false} StringLessIrreflexive(a: string)
    ensures !StringLess(a, a)
  {
    if a != [] {
      StringLessIrreflexive(a[1..]);
    }
  }

  lemma {:induction false} StringLessTransitive(a: string, b: string, c: string)
    requires StringLess(a, b) && StringLess(b, c)
    ensures StringLess(a, c)
  {
    if a != [] && a[0] == b[0] && b[0] == c[0] {
      StringLessTransitive(a[1..], b[1..], c[1..]);
    }
  }

  lemma {:induction false} StringLessTotal(a: string, b: string)
    requires a != b
    ensures StringLess(a, b) || StringLess(b, a)
  {
    if a != [] && b != [] && a[0] == b[0] {
      assert a == [a[0]] + a[1..] && b == [b[0]] + b[1..];
      StringLessTotal(a[1..], b[1..]);
    }
  }

  /** The order the roster is sorted by: a missing tag comes before every tag. */
  predicate TagLess(a: Option<string>, b: Option<string>)
  {
    match (a, b)
      case (None, Some(_)) => true
      case (Some(x), Some(y)) => StringLess(x, y)
      case _ => false
  }

  lemma TagLessIrreflexive(a: Option<string>)
    ensures !TagLess(a, a)
  {
    if a.Some? {
      StringLessIrreflexive(a.value);
    }
  }

  lemma TagLessTransitive(a: Option<string>, b: Option<string>, c: Option<string>)
    requires TagLess(a, b) && TagLess(b, c)
    ensures TagLess(a, c)
  {
    if a.Some? {
      StringLessTransitive(a.value, b.value, c.value);
    }
  }

  lemma TagLessTotal(a: Option<string>, b: Option<string>)
    requires a != b
    ensures TagLess(a, b) || TagLess(b, a)
  {
    if a.Some? && b.Some? {
      StringLessTotal(a.value, b.value);
    }
  }

  /** "At least" is transitive. */
  lemma TagAtLeastTransitive(a: Option<string>, b: Option<string>, c: Option<string>)
    requires !TagLess(a, b) && !TagLess(b, c)
    ensures !TagLess(a, c)
  {
    if TagLess(a, c) && a != b {
      TagLessTotal(a, b);
      TagLessTransitive(b, a, c);
    }
  }

  /** Two tags each at least the other are the same tag. */
  lemma TagAtLeastAntisymmetric(a: Option<string>, b: Option<string>)
    requires !TagLess(a, b) && !TagLess(b, a)
    ensures a == b
  {
    if a != b {
      TagLessTotal(a, b);
    }
  }

  // ---------------------------------------------------------------------------------------
  // Sorting by descending clan tag

  /** No player's tag is below a later player's tag. */
  predicate SortedByTagDescending(s: seq<RoundPlayerData>)
  {
    forall i, j :: 0 <= i < j < |s| ==> !TagLess(s[i].clanTag, s[j].clanTag)
  }

  /**
    Puts `p` into a roster sorted by descending tag, after every player whose tag is at least
    its own: players with equal tags keep their order, as in a stable sort.
  */
  function InsertByTag(p: RoundPlayerData, s: seq<RoundPlayerData>): seq<RoundPlayerData>
  {
    if s == [] then [p]
    else if TagLess(s[0].clanTag, p.clanTag) then [p] + s
    else [s[0]] + InsertByTag(p, s[1..])
  }

  /** `users.OrderByDescending(u => u.ClanTag)`, as a stable insertion sort. */
  function SortByTagDescending(users: seq<RoundPlayerData>): seq<RoundPlayerData>
  {
    if users == [] then []
    else InsertByTag(users[|users| - 1], SortByTagDescending(users[..|users| - 1]))
  }

  /** Inserting keeps every tag at most `bound` when `p`'s tag and all of `s` are. */
  lemma {:induction false} InsertByTagBounded(p: RoundPlayerData, s: seq<RoundPlayerData>, bound: Option<string>)
    requires !TagLess(bound, p.clanTag)
    requires forall j :: 0 <= j < |s| ==> !TagLess(bound, s[j].clanTag)
    ensures forall j :: 0 <= j < |InsertByTag(p, s)| ==> !TagLess(bound, InsertByTag(p, s)[j].clanTag)
  {
    if s != [] && !TagLess(s[0].clanTag, p.clanTag) {
      InsertByTagBounded(p, s[1..], bound);
      var rest := InsertByTag(p, s[1..]);
      assert forall j :: 1 <= j < |rest| + 1 ==> ([s[0]] + rest)[j] == rest[j - 1];
    }
  }

  lemma {:induction false} InsertByTagSorted(p: RoundPlayerData, s: seq<RoundPlayerData>)
    requires SortedByTagDescending(s)
    ensures SortedByTagDescending(InsertByTag(p, s))
  {
    if s == [] {
    } else if TagLess(s[0].clanTag, p.clanTag) {
      forall j | 0 <= j < |s|
        ensures !TagLess(p.clanTag, s[j].clanTag)
      {
        if TagLess(p.clanTag, s[j].clanTag) {
          TagLessTransitive(s[0].clanTag, p.clanTag, s[j].clanTag);
          TagLessIrreflexive(s[0].clanTag);
        }
      }
      var r := [p] + s;
      assert forall j :: 1 <= j < |r| ==> r[j] == s[j - 1];
    } else {
      var rest := InsertByTag(p, s[1..]);
      InsertByTagSorted(p, s[1..]);
      InsertByTagBounded(p, s[1..], s[0].clanTag);
      var r := [s[0]] + rest;
      assert forall j :: 1 <= j < |r| ==> r[j] == rest[j - 1];
    }
  }

  lemma {:induction false} InsertByTagPermutes(p: RoundPlayerData, s: seq<RoundPlayerData>)
    ensures multiset(InsertByTag(p, s)) == multiset(s) + multiset{p}
  {
    if s != [] && !TagLess(s[0].clanTag, p.clanTag) {
      InsertByTagPermutes(p, s[1..]);
      assert s == [s[0]] + s[1..];
    }
  }

  /** The sort orders the roster by descending tag and only reorders it. */
  lemma {:induction false} SortByTagDescendingCorrect(users: seq<RoundPlayerData>)
    ensures SortedByTagDescending(SortByTagDescending(users))
    ensures multiset(SortByTagDescending(users)) == multiset(users)
  {
    if users != [] {
      var n := |users| - 1;
      SortByTagDescendingCorrect(users[..n]);
      InsertByTagSorted(users[n], SortByTagDescending(users[..n]));
      InsertByTagPermutes(users[n], SortByTagDescending(users[..n]));
      assert users == users[..n] + [users[n]];
    }
  }

  /** In a sorted roster two players with one tag enclose only that tag. */
  lemma SortedSqueeze(s: seq<RoundPlayerData>, i: nat, k: nat)
    requires SortedByTagDescending(s)
    requires i < k < |s| && s[i].clanTag == s[k].clanTag
    ensures s[k - 1].clanTag == s[k].clanTag
  {
    if i < k - 1 {
      TagAtLeastAntisymmetric(s[k - 1].clanTag, s[k].clanTag);
    }
  }

  // ---------------------------------------------------------------------------------------
  // Clan groups

  /** The tag a group is filed under: that of its first player. */
  function GroupTag(g: seq<RoundPlayerData>): Option<string>
  {
    if g == [] then None else g[0].clanTag
  }

  /** A group as the splitting builds it: non-empty, one tag, and alone when untagged. */
  predicate ClanGroup(g: seq<RoundPlayerData>)
  {
    && g != []
    && (forall i :: 0 <= i < |g| ==> g[i].clanTag == g[0].clanTag)
    && (g[0].clanTag.None? ==> |g| == 1)
  }

  function Flatten(groups: seq<seq<RoundPlayerData>>): seq<RoundPlayerData>
  {
    if groups == [] then [] else Flatten(groups[..|groups| - 1]) + groups[|groups| - 1]
  }

  lemma FlattenAppend(groups: seq<seq<RoundPlayerData>>, g: seq<RoundPlayerData>)
    ensures Flatten(groups + [g]) == Flatten(groups) + g
  {
    assert (groups + [g])[..|groups|] == groups;
  }

  /**
    The grouping of a roster as a scan: a player joins the group of the player before it when
    both carry the same tag, and otherwise starts a new group. An untagged player always starts one.
  */
  function Runs(s: seq<RoundPlayerData>): (groups: seq<seq<RoundPlayerData>>)
    ensures |groups| <= |s|
    ensures s != [] ==> groups != []
  {
    if s == [] then []
    else
      var groups := Runs(s[..|s| - 1]);
      var p := s[|s| - 1];
      if 1 < |s| && p.clanTag.Some? && s[|s| - 2].clanTag == p.clanTag
      then groups[..|groups| - 1] + [groups[|groups| - 1] + [p]]
      else groups + [[p]]
  }

  /** The clan groups of a roster: the runs of the roster sorted by descending tag. */
  function ClanGroups(users: seq<RoundPlayerData>): seq<seq<RoundPlayerData>>
  {
    Runs(SortByTagDescending(users))
  }

  /** The groups, read one after the other, give back the roster. */
  lemma {:induction false} RunsFlatten(s: seq<RoundPlayerData>)
    ensures Flatten(Runs(s)) == s
  {
    if s != [] {
      var n := |s| - 1;
      var groups := Runs(s[..n]);
      RunsFlatten(s[..n]);
      assert s == s[..n] + [s[n]];
      if 1 < |s| && s[n].clanTag.Some? && s[n - 1].clanTag == s[n].clanTag {
        var m := |groups| - 1;
        assert groups == groups[..m] + [groups[m]];
        FlattenAppend(groups[..m], groups[m]);
        FlattenAppend(groups[..m], groups[m] + [s[n]]);
      } else {
        FlattenAppend(groups, [s[n]]);
      }
    }
  }

  /** Every group of a sequence of groups is a clan group. */
  predicate AllClanGroups(groups: seq<seq<RoundPlayerData>>)
  {
    forall i :: 0 <= i < |groups| ==> ClanGroup(groups[i])
  }

  lemma AllClanGroupsAppend(groups: seq<seq<RoundPlayerData>>, g: seq<RoundPlayerData>)
    requires AllClanGroups(groups) && ClanGroup(g)
    ensures AllClanGroups(groups + [g])
  {
    var r := groups + [g];
    assert forall i :: 0 <= i < |groups| ==> r[i] == groups[i];
  }

  /** A player joining the last group, of its own tag, keeps every group a clan group. */
  lemma RunsMergeClanGroups(s: seq<RoundPlayerData>)
    requires 1 < |s| && s[|s| - 1].clanTag.Some? && s[|s| - 2].clanTag == s[|s| - 1].clanTag
    requires AllClanGroups(Runs(s[..|s| - 1]))
    requires GroupTag(Runs(s[..|s| - 1])[|Runs(s[..|s| - 1])| - 1]) == s[|s| - 2].clanTag
    ensures AllClanGroups(Runs(s))
  {
    var n := |s| - 1;
    var groups := Runs(s[..n]);
    var m := |groups| - 1;
    assert groups[..m] + [groups[m]] == groups;
    assert AllClanGroups(groups[..m]) by {
      assert forall i :: 0 <= i < m ==> groups[..m][i] == groups[i];
    }
    var g := groups[m] + [s[n]];
    assert ClanGroup(g) by {
      assert ClanGroup(groups[m]);
      assert forall i :: 0 <= i < |g| ==> g[i].clanTag == g[0].clanTag;
    }
    assert Runs(s) == groups[..m] + [g];
    AllClanGroupsAppend(groups[..m], g);
  }

  /** Every group holds players of one tag, an untagged player alone; the last group has the last player's tag. */
  lemma {:induction false} RunsAreClanGroups(s: seq<RoundPlayerData>)
    ensures AllClanGroups(Runs(s))
    ensures s != [] ==> GroupTag(Runs(s)[|Runs(s)| - 1]) == s[|s| - 1].clanTag
  {
    if s != [] {
      var n := |s| - 1;
      RunsAreClanGroups(s[..n]);
      var groups := Runs(s[..n]);
      if 1 < |s| && s[n].clanTag.Some? && s[n - 1].clanTag == s[n].clanTag {
        assert s[..n][n - 1] == s[n - 1];
        RunsMergeClanGroups(s);
      } else {
        assert Runs(s) == groups + [[s[n]]];
        AllClanGroupsAppend(groups, [s[n]]);
      }
    }
  }

  /** Group tags descend along the groups, and only untagged groups share a tag. */
  predicate GroupsDescend(groups: seq<seq<RoundPlayerData>>)
  {
    forall i, j :: 0 <= i < j < |groups| ==>
      && !TagLess(GroupTag(groups[i]), GroupTag(groups[j]))
      && (GroupTag(groups[i]) == GroupTag(groups[j]) ==> GroupTag(groups[i]).None?)
  }

  lemma GroupsDescendAppend(groups: seq<seq<RoundPlayerData>>, g: seq<RoundPlayerData>)
    requires GroupsDescend(groups)
    requires forall i :: 0 <= i < |groups| ==>
      && !TagLess(GroupTag(groups[i]), GroupTag(g))
      && (GroupTag(groups[i]) == GroupTag(g) ==> GroupTag(g).None?)
    ensures GroupsDescend(groups + [g])
  {
    var r := groups + [g];
    assert forall i :: 0 <= i < |groups| ==> r[i] == groups[i];
  }

  lemma GroupsDescendExtendLast(groups: seq<seq<RoundPlayerData>>, p: RoundPlayerData)
    requires GroupsDescend(groups) && groups != [] && groups[|groups| - 1] != []
    ensures GroupsDescend(groups[..|groups| - 1] + [groups[|groups| - 1] + [p]])
  {
    var m := |groups| - 1;
    var r := groups[..m] + [groups[m] + [p]];
    assert forall i :: 0 <= i < |r| ==> GroupTag(r[i]) == GroupTag(groups[i]);
  }

  /**
    For a sorted roster the groups come in descending tag order and no clan is split over
    two groups.
  */
  lemma {:induction false} RunsOrdered(s: seq<RoundPlayerData>)
    requires SortedByTagDescending(s)
    ensures GroupsDescend(Runs(s))
  {
    if s != [] {
      var n := |s| - 1;
      var p := s[n];
      assert SortedByTagDescending(s[..n]);
      RunsOrdered(s[..n]);
      RunsAreClanGroups(s[..n]);
      var groups := Runs(s[..n]);
      if 1 < |s| && p.clanTag.Some? && s[n - 1].clanTag == p.clanTag {
        GroupsDescendExtendLast(groups, p);
      } else if groups != [] {
        var last := s[n - 1].clanTag;
        assert GroupTag(groups[|groups| - 1]) == s[..n][n - 1].clanTag == last;
        assert !TagLess(last, p.clanTag);
        forall i | 0 <= i < |groups|
          ensures !TagLess(GroupTag(groups[i]), p.clanTag)
          ensures GroupTag(groups[i]) == p.clanTag ==> p.clanTag.None?
        {
          if i < |groups| - 1 {
            assert !TagLess(GroupTag(groups[i]), GroupTag(groups[|groups| - 1]));
          } else {
            TagLessIrreflexive(last);
          }
          TagAtLeastTransitive(GroupTag(groups[i]), last, p.clanTag);
          if GroupTag(groups[i]) == p.clanTag {
            TagAtLeastAntisymmetric(last, p.clanTag);
          }
        }
        GroupsDescendAppend(groups, [p]);
      }
    }
  }

  /** The distinct clan tags of a roster. */
  function ClanTags(s: seq<RoundPlayerData>): set<string>
  {
    set i | 0 <= i < |s| && s[i].clanTag.Some? :: s[i].clanTag.value
  }

  function NullTagCount(s: seq<RoundPlayerData>): nat
  {
    if s == [] then 0
    else NullTagCount(s[..|s| - 1]) + if s[|s| - 1].clanTag.None? then 1 else 0
  }

  lemma ClanTagsAppend(s: seq<RoundPlayerData>, p: RoundPlayerData)
    ensures ClanTags(s + [p]) == ClanTags(s) + if p.clanTag.Some? then {p.clanTag.value} else {}
  {
    var t := s + [p];
    forall x | x in ClanTags(t)
      ensures x in ClanTags(s) + if p.clanTag.Some? then {p.clanTag.value} else {}
    {
      var i :| 0 <= i < |t| && t[i].clanTag.Some? && t[i].clanTag.value == x;
      if i < |s| {
        assert s[i] == t[i];
      }
    }
    forall x | x in ClanTags(s)
      ensures x in ClanTags(t)
    {
      var i :| 0 <= i < |s| && s[i].clanTag.Some? && s[i].clanTag.value == x;
      assert t[i] == s[i];
    }
    if p.clanTag.Some? {
      assert t[|s|] == p;
    }
  }

  /** A sorted roster splits into one group per distinct clan tag plus one per untagged player. */
  lemma {:induction false} RunsCount(s: seq<RoundPlayerData>)
    requires SortedByTagDescending(s)
    ensures |Runs(s)| == |ClanTags(s)| + NullTagCount(s)
  {
    if s != [] {
      var n := |s| - 1;
      var p := s[n];
      assert SortedByTagDescending(s[..n]);
      RunsCount(s[..n]);
      assert s == s[..n] + [p];
      ClanTagsAppend(s[..n], p);
      if 1 < |s| && p.clanTag.Some? && s[n - 1].clanTag == p.clanTag {
        assert s[..n][n - 1].clanTag.Some? && s[..n][n - 1].clanTag.value == p.clanTag.value;
        assert p.clanTag.value in ClanTags(s[..n]);
        assert |Runs(s)| == |Runs(s[..n])|;
        assert ClanTags(s) == ClanTags(s[..n]);
      } else if p.clanTag.Some? {
        if p.clanTag.value in ClanTags(s[..n]) {
          var i :| 0 <= i < n && s[..n][i].clanTag == p.clanTag;
          SortedSqueeze(s, i, n);
        }
      }
    }
  }

  lemma {:induction false} NullTagCountPrepend(x: RoundPlayerData, s: seq<RoundPlayerData>)
    ensures NullTagCount([x] + s) == NullTagCount(s) + if x.clanTag.None? then 1 else 0
  {
    if s != [] {
      var n := |s| - 1;
      NullTagCountPrepend(x, s[..n]);
      assert ([x] + s)[..n + 1] == [x] + s[..n];
    } else {
      assert [x] + s == [x];
    }
  }

  lemma {:induction false} NullTagCountInsert(p: RoundPlayerData, s: seq<RoundPlayerData>)
    ensures NullTagCount(InsertByTag(p, s)) == NullTagCount(s) + if p.clanTag.None? then 1 else 0
  {
    if s == [] {
      NullTagCountPrepend(p, s);
      assert [p] + s == [p];
    } else if TagLess(s[0].clanTag, p.clanTag) {
      NullTagCountPrepend(p, s);
    } else {
      NullTagCountInsert(p, s[1..]);
      NullTagCountPrepend(s[0], InsertByTag(p, s[1..]));
      NullTagCountPrepend(s[0], s[1..]);
      assert [s[0]] + s[1..] == s;
    }
  }

  lemma {:induction false} NullTagCountSort(users: seq<RoundPlayerData>)
    ensures NullTagCount(SortByTagDescending(users)) == NullTagCount(users)
  {
    if users != [] {
      var n := |users| - 1;
      NullTagCountSort(users[..n]);
      NullTagCountInsert(users[n], SortByTagDescending(users[..n]));
    }
  }

  /** Reordering a roster keeps its set of clan tags. */
  lemma ClanTagsOfPermutation(s: seq<RoundPlayerData>, t: seq<RoundPlayerData>)
    requires multiset(s) == multiset(t)
    ensures ClanTags(s) == ClanTags(t)
  {
    forall x | x in ClanTags(s)
      ensures x in ClanTags(t)
    {
      var i :| 0 <= i < |s| && s[i].clanTag.Some? && s[i].clanTag.value == x;
      assert s[i] in multiset(t);
      var j :| 0 <= j < |t| && t[j] == s[i];
    }
    forall x | x in ClanTags(t)
      ensures x in ClanTags(s)
    {
      var j :| 0 <= j < |t| && t[j].clanTag.Some? && t[j].clanTag.value == x;
      assert t[j] in multiset(s);
      var i :| 0 <= i < |s| && s[i] == t[j];
    }
  }

  /**
    The clan groups of a roster partition it: read one after the other they are a reordering
    of the roster. Each group holds one tag and an untagged player alone; the groups come in
    descending tag order with no clan split over two groups; and there is one group per
    distinct clan tag plus one per untagged player.
  */
  lemma ClanGroupsPartition(users: seq<RoundPlayerData>)
    ensures multiset(Flatten(ClanGroups(users))) == multiset(users)
    ensures forall i :: 0 <= i < |ClanGroups(users)| ==> ClanGroup(ClanGroups(users)[i])
    ensures GroupsDescend(ClanGroups(users))
    ensures |ClanGroups(users)| == |ClanTags(users)| + NullTagCount(users)
  {
    var sorted := SortByTagDescending(users);
    SortByTagDescendingCorrect(users);
    RunsFlatten(sorted);
    RunsAreClanGroups(sorted);
    RunsOrdered(sorted);
    RunsCount(sorted);
    ClanTagsOfPermutation(sorted, users);
    NullTagCountSort(users);
  }

  /** Untagged players sort last, so their single-player groups follow every clan group. */
  lemma UntaggedGroupsLast(users: seq<RoundPlayerData>, i: nat, j: nat)
    requires i < j < |ClanGroups(users)|
    requires GroupTag(ClanGroups(users)[i]).None?
    ensures GroupTag(ClanGroups(users)[j]).None?
  {
    ClanGroupsPartition(users);
  }

  // ---------------------------------------------------------------------------------------
  // Splitting a roster into clan groups

  /** One more player of a roster extends its runs: it joins the last group or opens a new one. */
  lemma RunsSnoc(s: seq<RoundPlayerData>, k: nat)
    requires k < |s|
    ensures var groups := Runs(s[..k]);
      Runs(s[..k + 1]) ==
        if 0 < k && s[k].clanTag.Some? && s[k - 1].clanTag == s[k].clanTag
        then groups[..|groups| - 1] + [groups[|groups| - 1] + [s[k]]]
        else groups + [[s[k]]]
  {
    assert s[..k + 1][..k] == s[..k];
    assert s[..k + 1][k] == s[k];
    if 0 < k {
      assert s[..k + 1][k - 1] == s[k - 1];
    }
  }

  /**
    What the splitting keeps after the first k players of the sorted roster: the groups built
    so far are the runs of those players; every filed tag points at one of those groups and
    belongs to one of those players; and the last player's tag, if any, points at the last group.
  */
  predicate SplitInvariant(sorted: seq<RoundPlayerData>, k: nat, clanGroups: seq<seq<RoundPlayerData>>,
                           clanGroupsByClanId: map<string, nat>)
  {
    && k <= |sorted|
    && clanGroups == Runs(sorted[..k])
    && (forall t :: t in clanGroupsByClanId ==>
          clanGroupsByClanId[t] < |clanGroups| && exists i :: 0 <= i < k && sorted[i].clanTag == Some(t))
    && (0 < k && sorted[k - 1].clanTag.Some? ==>
          && sorted[k - 1].clanTag.value in clanGroupsByClanId
          && clanGroupsByClanId[sorted[k - 1].clanTag.value] == |clanGroups| - 1)
  }

  /**
    `SplitUsersIntoClanGroups`: scans the roster sorted by descending tag; an untagged player
    gets a group of its own, a tagged one joins the group its tag is filed under, or starts
    and files a new one. The dictionary maps a tag to the index of its group in the result.
  */
  method SplitUsersIntoClanGroups(users: seq<RoundPlayerData>) returns (clanGroups: seq<seq<RoundPlayerData>>)
    ensures clanGroups == ClanGroups(users)
  {
    var sorted := SortByTagDescending(users);
    SortByTagDescendingCorrect(users);
    var clanGroupsByClanId: map<string, nat> := map[];
    clanGroups := [];
    var k := 0;
    while k < |sorted|
      invariant SplitInvariant(sorted, k, clanGroups, clanGroupsByClanId)
    {
      clanGroups, clanGroupsByClanId := AddToClanGroup(sorted, k, clanGroups, clanGroupsByClanId);
      k := k + 1;
    }
    assert sorted[..k] == sorted;
  }

  /** The loop body of `SplitUsersIntoClanGroups` for the player at index k of the sorted roster. */
  method AddToClanGroup(sorted: seq<RoundPlayerData>, k: nat, clanGroups: seq<seq<RoundPlayerData>>,
                        clanGroupsByClanId: map<string, nat>)
    returns (newGroups: seq<seq<RoundPlayerData>>, newByClanId: map<string, nat>)
    requires SortedByTagDescending(sorted) && k < |sorted|
    requires SplitInvariant(sorted, k, clanGroups, clanGroupsByClanId)
    ensures SplitInvariant(sorted, k + 1, newGroups, newByClanId)
  {
    var player := sorted[k];
    RunsSnoc(sorted, k);
    if player.clanTag == None {
      newGroups, newByClanId := clanGroups + [[player]], clanGroupsByClanId;
    } else if player.clanTag.value !in clanGroupsByClanId {
      newGroups := clanGroups + [[player]];
      newByClanId := clanGroupsByClanId[player.clanTag.value := |newGroups| - 1];
      assert sorted[k].clanTag == Some(player.clanTag.value);
    } else {
      var index := clanGroupsByClanId[player.clanTag.value];
      var i :| 0 <= i < k && sorted[i].clanTag == player.clanTag;
      SortedSqueeze(sorted, i, k);
      newGroups, newByClanId := clanGroups[index := clanGroups[index] + [player]], clanGroupsByClanId;
      assert newGroups == clanGroups[..index] + [clanGroups[index] + [player]];
    }
  }

  // ---------------------------------------------------------------------------------------
  // Rating a side and predicting the round

  function WeightSum(s: seq<RoundPlayerData>): real
  {
    if s == [] then 0.0 else s[0].weight + WeightSum(s[1..])
  }

  lemma {:induction false} WeightSumConcat(a: seq<RoundPlayerData>, b: seq<RoundPlayerData>)
    ensures WeightSum(a + b) == WeightSum(a) + WeightSum(b)
  {
    if a == [] {
      assert a + b == b;
    } else {
      assert (a + b)[0] == a[0] && (a + b)[1..] == a[1..] + b;
      WeightSumConcat(a[1..], b);
    }
  }

  lemma {:induction false} WeightSumInsert(p: RoundPlayerData, s: seq<RoundPlayerData>)
    ensures WeightSum(InsertByTag(p, s)) == p.weight + WeightSum(s)
  {
    if s == [] {
    } else if TagLess(s[0].clanTag, p.clanTag) {
      assert ([p] + s)[1..] == s;
    } else {
      WeightSumInsert(p, s[1..]);
      assert ([s[0]] + InsertByTag(p, s[1..]))[1..] == InsertByTag(p, s[1..]);
    }
  }

  /** Sorting keeps the side's total weight. */
  lemma {:induction false} WeightSumSort(users: seq<RoundPlayerData>)
    ensures WeightSum(SortByTagDescending(users)) == WeightSum(users)
  {
    if users != [] {
      var n := |users| - 1;
      WeightSumSort(users[..n]);
      WeightSumInsert(users[n], SortByTagDescending(users[..n]));
      WeightSumConcat(users[..n], [users[n]]);
      assert users[..n] + [users[n]] == users;
    }
  }

  /** One group's contribution: its summed weight times one plus the penalty per member. */
  function GroupRating(g: seq<RoundPlayerData>, penaltyFactor: real): real
  {
    WeightSum(g) * (1.0 + penaltyFactor * |g| as real)
  }

  function GroupsRating(groups: seq<seq<RoundPlayerData>>, penaltyFactor: real): real
  {
    if groups == [] then 0.0
    else GroupsRating(groups[..|groups| - 1], penaltyFactor) + GroupRating(groups[|groups| - 1], penaltyFactor)
  }

  /** The clan-group penalised rating of a side. */
  function PenalizedRating(players: seq<RoundPlayerData>, penaltyFactor: real): real
  {
    GroupsRating(ClanGroups(players), penaltyFactor)
  }

  /** `ClanGroupPenalizedTeamRater`: adds up the groups' contributions one group at a time. */
  method ClanGroupPenalizedTeamRater(playerList: seq<RoundPlayerData>, penaltyFactor: real) returns (rating: real)
    ensures rating == PenalizedRating(playerList, penaltyFactor)
  {
    rating := 0.0;
    var clanGroups := SplitUsersIntoClanGroups(playerList);
    var i := 0;
    while i < |clanGroups|
      invariant 0 <= i <= |clanGroups|
      invariant rating == GroupsRating(clanGroups[..i], penaltyFactor)
    {
      var clanGroup := clanGroups[i];
      rating := rating + WeightSum(clanGroup) * (1.0 + penaltyFactor * |clanGroup| as real);
      assert clanGroups[..i + 1][..i] == clanGroups[..i];
      i := i + 1;
    }
    assert clanGroups[..i] == clanGroups;
  }

  /** With no penalty the groups add up to the plain total weight of their players. */
  lemma {:induction false} GroupsRatingWithoutPenalty(groups: seq<seq<RoundPlayerData>>)
    ensures GroupsRating(groups, 0.0) == WeightSum(Flatten(groups))
  {
    if groups != [] {
      var n := |groups| - 1;
      GroupsRatingWithoutPenalty(groups[..n]);
      WeightSumConcat(Flatten(groups[..n]), groups[n]);
    }
  }

  /** With penalty factor 0 the rater is the plain sum of the players' weights. */
  lemma PenalizedRatingWithoutPenalty(players: seq<RoundPlayerData>)
    ensures PenalizedRating(players, 0.0) == WeightSum(players)
  {
    var sorted := SortByTagDescending(players);
    GroupsRatingWithoutPenalty(Runs(sorted));
    RunsFlatten(sorted);
    WeightSumSort(players);
  }

  predicate NonNegativeWeights(s: seq<RoundPlayerData>)
  {
    forall i :: 0 <= i < |s| ==> 0.0 <= s[i].weight
  }

  lemma {:induction false} WeightSumNonNegative(s: seq<RoundPlayerData>)
    requires NonNegativeWeights(s)
    ensures 0.0 <= WeightSum(s)
  {
    if s != [] {
      assert NonNegativeWeights(s[1..]);
      WeightSumNonNegative(s[1..]);
    }
  }

  /** A larger penalty never lowers a group of non-negative weight. */
  lemma GroupRatingMonotone(g: seq<RoundPlayerData>, pf1: real, pf2: real)
    requires 0.0 <= WeightSum(g) && pf1 <= pf2
    ensures GroupRating(g, pf1) <= GroupRating(g, pf2)
  {
    var w, n := WeightSum(g), |g| as real;
    assert pf1 * n <= pf2 * n;
    assert w * (1.0 + pf1 * n) <= w * (1.0 + pf2 * n);
  }

  lemma {:induction false} GroupsRatingMonotone(groups: seq<seq<RoundPlayerData>>, pf1: real, pf2: real)
    requires NonNegativeWeights(Flatten(groups)) && pf1 <= pf2
    ensures GroupsRating(groups, pf1) <= GroupsRating(groups, pf2)
  {
    if groups != [] {
      var n := |groups| - 1;
      var front := Flatten(groups[..n]);
      assert Flatten(groups) == front + groups[n];
      assert forall i :: 0 <= i < |front| ==> (front + groups[n])[i] == front[i];
      assert forall i :: 0 <= i < |groups[n]| ==> (front + groups[n])[|front| + i] == groups[n][i];
      GroupsRatingMonotone(groups[..n], pf1, pf2);
      WeightSumNonNegative(groups[n]);
      GroupRatingMonotone(groups[n], pf1, pf2);
    }
  }

  lemma SortKeepsNonNegativeWeights(users: seq<RoundPlayerData>)
    requires NonNegativeWeights(users)
    ensures NonNegativeWeights(SortByTagDescending(users))
  {
    var sorted := SortByTagDescending(users);
    SortByTagDescendingCorrect(users);
    forall i | 0 <= i < |sorted|
      ensures 0.0 <= sorted[i].weight
    {
      assert sorted[i] in multiset(users);
      var j :| 0 <= j < |users| && users[j] == sorted[i];
    }
  }

  /**
    With non-negative weights the rating never falls as the penalty factor grows, and with a
    non-negative factor it is at least the plain total weight.
  */
  lemma PenalizedRatingMonotone(players: seq<RoundPlayerData>, pf1: real, pf2: real)
    requires NonNegativeWeights(players) && pf1 <= pf2
    ensures PenalizedRating(players, pf1) <= PenalizedRating(players, pf2)
    ensures 0.0 <= pf1 ==> WeightSum(players) <= PenalizedRating(players, pf1)
  {
    var sorted := SortByTagDescending(players);
    SortKeepsNonNegativeWeights(players);
    RunsFlatten(sorted);
    GroupsRatingMonotone(Runs(sorted), pf1, pf2);
    if 0.0 <= pf1 {
      GroupsRatingMonotone(Runs(sorted), 0.0, pf1);
      PenalizedRatingWithoutPenalty(players);
    }
  }

  /** `TeamRaterPrediction`: the attackers are predicted to win only when they rate strictly higher. */
  function TeamRaterPrediction(result: RoundResultData, teamRater: seq<RoundPlayerData> -> real): (side: BattleSide)
    ensures side == Attacker <==> teamRater(result.attackers) > teamRater(result.defenders)
  {
    if teamRater(result.attackers) > teamRater(result.defenders) then Attacker else Defender
  }

  /** Without a penalty the clan-group prediction compares the plain total weights; a tie goes to the defenders. */
  lemma PredictionWithoutPenalty(result: RoundResultData)
    ensures TeamRaterPrediction(result, players => PenalizedRating(players, 0.0))
      == if WeightSum(result.attackers) > WeightSum(result.defenders) then Attacker else Defender
  {
    PenalizedRatingWithoutPenalty(result.attackers);
    PenalizedRatingWithoutPenalty(result.defenders);
  }
}
