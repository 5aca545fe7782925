/**
 * The result listing of src/commands/user/find.js: the members holding a role are shown
 * ten to a page, numbered across pages, with Previous and Next buttons registered as
 * paginator pages; the role menu offers the highest roles first, at most 25 of them.
 */
module MemberSearch {
  import opened Wrappers
  import opened Strings
  import opened JsonValues
  import Paging

  const MembersPerPage := 10
  const RoleMenuLimit := 25

  /** A listed member: its id (the mention `<@id>`) and its user tag. */
  datatype Listed = Listed(id: string, tag: string)

  /** A role as the menu and the listing see it. */
  datatype RoleInfo = RoleInfo(id: string, name: string, position: int, memberCount: nat)

  /** `Math.ceil(n / 10)`. */
  function TotalPages(n: nat): (t: nat)
    ensures n <= t * MembersPerPage
    ensures t > 0 ==> (t - 1) * MembersPerPage < n
  {
    (n + MembersPerPage - 1) / MembersPerPage
  }

  /** The members of page `page` (counted from 1): `members.slice((page-1)*10, min(page*10, n))`. */
  function PageMembers<T>(members: seq<T>, page: nat): seq<T>
    requires 1 <= page <= TotalPages(|members|)
  {
    var start := (page - 1) * MembersPerPage;
    var end := if start + MembersPerPage <= |members| then start + MembersPerPage else |members|;
    members[start..end]
  }

  /**
   * The pages partition the list in order: every page holds between one and ten members,
   * the i-th member of page p is member (p-1)*10+i of the list, and member j of the list
   * is found on page j/10+1 at place j%10.
   */
  lemma {:induction false} PagesPartition<T>(members: seq<T>)
    ensures forall p :: 1 <= p <= TotalPages(|members|) ==>
      1 <= |PageMembers(members, p)| <= MembersPerPage
      && forall i :: 0 <= i < |PageMembers(members, p)| ==>
           (p - 1) * MembersPerPage + i < |members| && PageMembers(members, p)[i] == members[(p - 1) * MembersPerPage + i]
    ensures forall j :: 0 <= j < |members| ==>
      1 <= j / MembersPerPage + 1 <= TotalPages(|members|)
      && j % MembersPerPage < |PageMembers(members, j / MembersPerPage + 1)|
      && PageMembers(members, j / MembersPerPage + 1)[j % MembersPerPage] == members[j]
  {
    forall j | 0 <= j < |members|
      ensures 1 <= j / MembersPerPage + 1 <= TotalPages(|members|)
      ensures j % MembersPerPage < |PageMembers(members, j / MembersPerPage + 1)|
      ensures PageMembers(members, j / MembersPerPage + 1)[j % MembersPerPage] == members[j]
    {
      var q := j / MembersPerPage;
      assert j == q * MembersPerPage + j % MembersPerPage;
      assert q * MembersPerPage <= j < |members|;
      assert q + 1 <= TotalPages(|members|);
    }
  }

  /** `**<k>.** <tag> (<@id>)`, the line of the member numbered `k`. */
  function MemberLine(number: nat, m: Listed): string
  {
    "**" + NatToString(number) + ".** " + m.tag + " (<@" + m.id + ">)"
  }

  /** The numbered lines of page `page`: the i-th member is numbered (page-1)*10+i+1. */
  function MemberLines(pageMembers: seq<Listed>, page: nat): (lines: seq<string>)
    requires page >= 1
    ensures |lines| == |pageMembers|
    ensures forall i :: 0 <= i < |pageMembers| ==> lines[i] == MemberLine((page - 1) * MembersPerPage + i + 1, pageMembers[i])
  {
    seq(|pageMembers|, i requires 0 <= i < |pageMembers| => MemberLine((page - 1) * MembersPerPage + i + 1, pageMembers[i]))
  }

  /** The embed of one page of results. */
  datatype MembersEmbed = MembersEmbed(title: string, description: string, footer: string)

  /** `createMembersEmbed(role, members, currentPage, totalPages)`. */
  function CreateMembersEmbed(role: RoleInfo, pageMembers: seq<Listed>, page: nat, total: nat): (e: MembersEmbed)
    requires page >= 1
    ensures |pageMembers| == 0 ==> e.description == "No members found."
    ensures |pageMembers| > 0 ==> e.description == Join(MemberLines(pageMembers, page), '\n')
  {
    var lines := Join(MemberLines(pageMembers, page), '\n');
    assert |pageMembers| > 0 ==> lines != "" by {
      if |pageMembers| > 0 {
        var first := MemberLines(pageMembers, page)[0];
        assert first[..2] == "**";
        assert lines[..|first|] == first;
      }
    }
    MembersEmbed(
      "\U{1F50D} Members with role: " + role.name,
      if lines == "" then "No members found." else lines,
      "Page " + NatToString(page) + "/" + NatToString(total) + " \U{2022} " + NatToString(|pageMembers|) + " members displayed")
  }

  /**
   * Numbering runs on across pages: the member at position j of the full list is listed
   * under number j+1, on page j/10+1.
   */
  lemma NumberingAcrossPages(role: RoleInfo, members: seq<Listed>, j: nat)
    requires j < |members|
    ensures var p := j / MembersPerPage + 1;
      1 <= p <= TotalPages(|members|)
      && MemberLines(PageMembers(members, p), p)[j % MembersPerPage] == MemberLine(j + 1, members[j])
  {
    PagesPartition(members);
  }

  /** `members_page_<p>`. */
  function PageId(page: nat): string
  {
    "members_page_" + NatToString(page)
  }

  lemma {:induction false} PageIdInjective(a: nat, b: nat)
    requires PageId(a) == PageId(b)
    ensures a == b
  {
    assert NatToString(a) == PageId(a)[13..];
    assert NatToString(b) == PageId(b)[13..];
    NatToStringInjective(a, b);
  }

  function NavButton(target: nat, caption: string, emoji: string): Paging.ButtonConfig
  {
    Paging.ButtonConfig("goto_" + PageId(target), caption, Str("Secondary"), Some(emoji), false)
  }

  /** The Previous and Next buttons of page `page` out of `total`. */
  function NavButtons(page: nat, total: nat): (bs: seq<Paging.ButtonConfig>)
    requires page >= 1
    ensures |bs| <= 2
  {
    (if total > 1 && page > 1 then [NavButton(page - 1, "Previous", "\U{25C0}\U{FE0F}")] else [])
    + (if total > 1 && page < total then [NavButton(page + 1, "Next", "\U{25B6}\U{FE0F}")] else [])
  }

  /** The page registered for results page `page`. */
  function ResultsPage(role: RoleInfo, members: seq<Listed>, page: nat): Paging.Page
    requires 1 <= page <= TotalPages(|members|)
  {
    var embed := CreateMembersEmbed(role, PageMembers(members, page), page, TotalPages(|members|));
    Paging.NewPage(PageId(page), Paging.PageOptions(None, None, None, Some(NavButtons(page, TotalPages(|members|))),
      None, None, None, Some(embed.description), None, Bool(true)))
  }

  /** The results pages, page p at index p-1. */
  function AllResultsPages(role: RoleInfo, members: seq<Listed>): (ps: seq<Paging.Page>)
    ensures |ps| == TotalPages(|members|)
  {
    seq(TotalPages(|members|), i requires 0 <= i < TotalPages(|members|) => ResultsPage(role, members, i + 1))
  }

  /** Pages 1..`upTo` of a list of pages, keyed by page id. */
  function PagesMap(pages: seq<Paging.Page>, upTo: nat): map<string, Paging.Page>
    requires upTo <= |pages|
  {
    if upTo == 0 then map[] else PagesMap(pages, upTo - 1)[PageId(upTo) := pages[upTo - 1]]
  }

  /** The results pages 1..`upTo`, keyed by page id. */
  function ResultsPages(role: RoleInfo, members: seq<Listed>, upTo: nat): map<string, Paging.Page>
    requires upTo <= TotalPages(|members|)
  {
    PagesMap(AllResultsPages(role, members), upTo)
  }

  /** Registering pages one after another keeps every page: their ids are all different. */
  lemma {:induction false} ResultsPagesHoldEveryPage(role: RoleInfo, members: seq<Listed>, upTo: nat)
    requires upTo <= TotalPages(|members|)
    ensures forall p :: 1 <= p <= upTo ==>
      PageId(p) in ResultsPages(role, members, upTo) && ResultsPages(role, members, upTo)[PageId(p)] == ResultsPage(role, members, p)
    ensures forall k :: k in ResultsPages(role, members, upTo) ==> exists p :: 1 <= p <= upTo && k == PageId(p)
  {
    var all := AllResultsPages(role, members);
    PagesMapHolds(all, upTo);
    forall p | 1 <= p <= upTo
      ensures all[p - 1] == ResultsPage(role, members, p)
    {
    }
  }

  /** `PagesMap` holds page p under its id for every p up to `upTo`, and no other key. */
  lemma PagesMapHolds(pages: seq<Paging.Page>, upTo: nat)
    requires upTo <= |pages|
    ensures forall p :: 1 <= p <= upTo ==> PageId(p) in PagesMap(pages, upTo) && PagesMap(pages, upTo)[PageId(p)] == pages[p - 1]
    ensures forall k :: k in PagesMap(pages, upTo) ==> exists p :: 1 <= p <= upTo && k == PageId(p)
  {
    PagesMapValues(pages, upTo);
    PagesMapKeys(pages, upTo);
  }

  lemma {:induction false} PagesMapValues(pages: seq<Paging.Page>, upTo: nat)
    requires upTo <= |pages|
    ensures forall p :: 1 <= p <= upTo ==> PageId(p) in PagesMap(pages, upTo) && PagesMap(pages, upTo)[PageId(p)] == pages[p - 1]
  {
    if upTo > 0 {
      PagesMapValues(pages, upTo - 1);
      var before := PagesMap(pages, upTo - 1);
      var after := PagesMap(pages, upTo);
      assert after == before[PageId(upTo) := pages[upTo - 1]];
      forall p | 1 <= p < upTo
        ensures PageId(p) in after && after[PageId(p)] == pages[p - 1]
      {
        PageIdsDiffer(p, upTo);
        assert PageId(p) in before;
      }
    }
  }

  lemma {:induction false} PagesMapKeys(pages: seq<Paging.Page>, upTo: nat)
    requires upTo <= |pages|
    ensures forall k :: k in PagesMap(pages, upTo) ==> exists p :: 1 <= p <= upTo && k == PageId(p)
  {
    if upTo > 0 {
      PagesMapKeys(pages, upTo - 1);
      var before := PagesMap(pages, upTo - 1);
      forall k | k in PagesMap(pages, upTo)
        ensures exists p :: 1 <= p <= upTo && k == PageId(p)
      {
        if k != PageId(upTo) {
          assert k in before;
          var p :| 1 <= p <= upTo - 1 && k == PageId(p);
          assert 1 <= p <= upTo;
        }
      }
    }
  }

  /** Different pages have different ids. */
  lemma PageIdsDiffer(a: nat, b: nat)
    requires a != b
    ensures PageId(a) != PageId(b)
  {
    if PageId(a) == PageId(b) {
      PageIdInjective(a, b);
    }
  }

  /**
   * On every results page, Previous appears exactly when there is an earlier page and
   * Next exactly when there is a later one, and pressing either one in the menu shows
   * that neighbouring page.
   */
  lemma {:induction false} NeighboursLinked(role: RoleInfo, members: seq<Listed>, page: nat, pages: map<string, Paging.Page>, owner: string,
                                            current: Option<string>)
    requires |members| > MembersPerPage && 1 <= page <= TotalPages(|members|)
    requires forall p :: 1 <= p <= TotalPages(|members|) ==> PageId(p) in pages
    ensures var bs := NavButtons(page, TotalPages(|members|));
      (page > 1 <==> exists b :: b in bs && b.caption == "Previous")
      && (page < TotalPages(|members|) <==> exists b :: b in bs && b.caption == "Next")
      && forall b :: b in bs ==>
          exists t :: (1 <= t <= TotalPages(|members|) && (t == page - 1 || t == page + 1)
          && Paging.Route(pages, owner, current, Paging.Click(owner, b.id, [])) == Paging.Step(Some(PageId(t)), Paging.Show(PageId(t))))
  {
    var total := TotalPages(|members|);
    assert total > 1;
    var bs := NavButtons(page, total);
    forall b | b in bs
      ensures exists t :: (1 <= t <= total && (t == page - 1 || t == page + 1)
          && Paging.Route(pages, owner, current, Paging.Click(owner, b.id, [])) == Paging.Step(Some(PageId(t)), Paging.Show(PageId(t))))
    {
      var t := if page > 1 && b == NavButton(page - 1, "Previous", "\U{25C0}\U{FE0F}") then page - 1 else page + 1;
      assert b == NavButton(t, b.caption, "\U{25C0}\U{FE0F}") || b == NavButton(t, b.caption, "\U{25B6}\U{FE0F}");
      assert b.id[..5] == "goto_" && b.id[5..] == PageId(t);
      assert b.id != "page_select" by { assert b.id[0] != "page_select"[0]; }
    }
    if page > 1 {
      assert bs[0].caption == "Previous";
    }
    if page < total {
      assert bs[|bs| - 1].caption == "Next";
    }
  }

  lemma MergeThenSet<K, V>(a: map<K, V>, b: map<K, V>, k: K, v: V)
    ensures (a + b)[k := v] == a + b[k := v]
  {
  }

  /** One turn of the page loop: `paginator.page(pageId, { embed, buttons, showCloseButton: true })`. */
  method RegisterPage(pg: Paging.Paginator, role: RoleInfo, members: seq<Listed>, page: nat)
    requires 1 <= page <= TotalPages(|members|)
    modifies pg
    ensures pg.pages == old(pg.pages)[PageId(page) := ResultsPage(role, members, page)]
    ensures pg.hasInteraction == old(pg.hasInteraction) && pg.timeout == old(pg.timeout) && pg.ephemeral == old(pg.ephemeral)
  {
    var total := TotalPages(|members|);
    var embed := CreateMembersEmbed(role, PageMembers(members, page), page, total);
    var registered := pg.AddPage(PageId(page), Paging.PageOptions(None, None, None, Some(NavButtons(page, total)),
      None, None, None, Some(embed.description), None, Bool(true)));
  }

  /** What `displayMemberResults` shows: one embed, or the paginated menu's first view. */
  datatype Display =
    | SingleEmbed(embed: MembersEmbed)
    | Menu(view: Result<Paging.View>)

  /**
   * `displayMemberResults(interaction, role, members)` on the shared paginator `pg`. Up to
   * ten members are shown as one embed without touching the paginator; otherwise one
   * page per ten members is registered and the menu is rendered from the first.
   */
  method DisplayMemberResults(pg: Paging.Paginator, role: RoleInfo, members: seq<Listed>) returns (d: Display)
    modifies pg
    ensures |members| <= MembersPerPage ==>
      d == SingleEmbed(CreateMembersEmbed(role, members, 1, 1)) && pg.pages == old(pg.pages)
      && pg.startPageId == old(pg.startPageId) && pg.timeout == old(pg.timeout)
      && pg.ephemeral == old(pg.ephemeral) && pg.hasInteraction == old(pg.hasInteraction)
    ensures |members| > MembersPerPage ==>
      pg.pages == old(pg.pages) + ResultsPages(role, members, TotalPages(|members|))
      && pg.startPageId == PageId(1) && pg.timeout == 300000 && !pg.ephemeral && pg.hasInteraction
      && d == Menu(Success(Paging.View(PageId(1), Paging.Components(ResultsPage(role, members, 1)))))
  {
    if |members| <= MembersPerPage {
      return SingleEmbed(CreateMembersEmbed(role, members, 1, 1));
    }
    var total := TotalPages(|members|);
    var self := pg.Init();
    self := pg.SetOptions(Some(300000), Some(false), None);
    ghost var before := pg.pages;
    var page := 1;
    while page <= total
      invariant 1 <= page <= total + 1
      invariant pg.pages == before + ResultsPages(role, members, page - 1)
      invariant pg.hasInteraction && pg.timeout == 300000 && !pg.ephemeral
    {
      RegisterPage(pg, role, members, page);
      MergeThenSet(before, ResultsPages(role, members, page - 1), PageId(page), ResultsPage(role, members, page));
      page := page + 1;
    }
    self := pg.SetOptions(None, None, Some(PageId(1)));
    ResultsPagesHoldEveryPage(role, members, total);
    assert PageId(1) in pg.pages && pg.pages[PageId(1)] == ResultsPage(role, members, 1);
    var view := pg.Render();
    d := Menu(view);
  }

  /** Roles ordered by position, highest first. */
  predicate SortedByPosition(rs: seq<RoleInfo>)
  {
    forall i, j :: 0 <= i < j < |rs| ==> rs[i].position >= rs[j].position
  }

  function Insert(r: RoleInfo, rs: seq<RoleInfo>): (out: seq<RoleInfo>)
    requires SortedByPosition(rs)
    ensures SortedByPosition(out)
    ensures multiset(out) == multiset(rs) + multiset{r}
    ensures |out| > 0 && (out[0] == r || (|rs| > 0 && out[0] == rs[0]))
  {
    if |rs| == 0 || r.position >= rs[0].position then
      SortedCons(r, rs);
      [r] + rs
    else
      assert rs == [rs[0]] + rs[1..];
      var tail := Insert(r, rs[1..]);
      SortedCons(rs[0], tail);
      [rs[0]] + tail
  }

  /** Putting a role in front of a sorted list that it outranks keeps it sorted. */
  lemma SortedCons(x: RoleInfo, rs: seq<RoleInfo>)
    requires SortedByPosition(rs)
    requires |rs| > 0 ==> x.position >= rs[0].position
    ensures SortedByPosition([x] + rs)
  {
    var out := [x] + rs;
    forall i, j | 0 <= i < j < |out|
      ensures out[i].position >= out[j].position
    {
      if i == 0 && j > 1 {
        assert out[j] == rs[j - 1];
      }
    }
  }

  /** `roles.sort((a, b) => b.position - a.position)`, as a sorted permutation. */
  function SortByPosition(rs: seq<RoleInfo>): (out: seq<RoleInfo>)
    ensures SortedByPosition(out)
    ensures multiset(out) == multiset(rs)
  {
    if |rs| == 0 then []
    else
      assert rs == [rs[0]] + rs[1..];
      Insert(rs[0], SortByPosition(rs[1..]))
  }

  /** The roles the menu offers: the first 25 after sorting, `roles.slice(0, 25)`. */
  function OfferedRoles(roles: seq<RoleInfo>): (offered: seq<RoleInfo>)
    ensures |offered| <= RoleMenuLimit
    ensures offered <= SortByPosition(roles)
  {
    var sorted := SortByPosition(roles);
    if |sorted| <= RoleMenuLimit then sorted else sorted[..RoleMenuLimit]
  }

  /** The role select row: its id, placeholder and options. */
  datatype RoleMenu = RoleMenu(customId: string, placeholder: string, options: seq<Paging.SelectOption>)

  function RoleOption(r: RoleInfo): Paging.SelectOption
  {
    Paging.SelectOption(r.name, r.id, NatToString(r.memberCount) + " members")
  }

  /** `createRoleSelectionComponents(roles)` applied to the sorted roles. */
  function RoleSelection(roles: seq<RoleInfo>): (menu: RoleMenu)
    ensures menu.customId == "role_select_menu"
    ensures |menu.options| == |OfferedRoles(roles)|
    ensures forall i :: 0 <= i < |menu.options| ==> menu.options[i] == RoleOption(OfferedRoles(roles)[i])
  {
    var shown := OfferedRoles(roles);
    RoleMenu("role_select_menu", "Select a role", seq(|shown|, i requires 0 <= i < |shown| => RoleOption(shown[i])))
  }

  /**
   * The menu offers min(n, 25) of the given roles, highest position first, and no role
   * left out outranks a role offered.
   */
  lemma {:induction false} OfferedRolesAreHighest(roles: seq<RoleInfo>)
    ensures |OfferedRoles(roles)| == (if |roles| <= RoleMenuLimit then |roles| else RoleMenuLimit)
    ensures SortedByPosition(OfferedRoles(roles))
    ensures multiset(OfferedRoles(roles)) <= multiset(roles)
    ensures forall r, i :: r in multiset(roles) - multiset(OfferedRoles(roles)) && 0 <= i < |OfferedRoles(roles)| ==>
      r.position <= OfferedRoles(roles)[i].position
  {
    OfferedSizeAndOrder(roles);
    OfferedOutrankRest(roles);
  }

  /** The size, order and provenance of the offered roles. */
  lemma {:induction false} OfferedSizeAndOrder(roles: seq<RoleInfo>)
    ensures |OfferedRoles(roles)| == (if |roles| <= RoleMenuLimit then |roles| else RoleMenuLimit)
    ensures SortedByPosition(OfferedRoles(roles))
    ensures multiset(OfferedRoles(roles)) <= multiset(roles)
  {
    var sorted := SortByPosition(roles);
    assert |sorted| == |roles| by {
      assert |sorted| == |multiset(sorted)| == |multiset(roles)| == |roles|;
    }
    var n := if |sorted| <= RoleMenuLimit then |sorted| else RoleMenuLimit;
    var shown := sorted[..n];
    assert OfferedRoles(roles) == shown;
    PrefixMultiset(sorted, n);
  }

  /** No role left out of the menu outranks one offered. */
  lemma {:induction false} OfferedOutrankRest(roles: seq<RoleInfo>)
    ensures forall r, i :: r in multiset(roles) - multiset(OfferedRoles(roles)) && 0 <= i < |OfferedRoles(roles)| ==>
      r.position <= OfferedRoles(roles)[i].position
  {
    var sorted := SortByPosition(roles);
    var n := if |sorted| <= RoleMenuLimit then |sorted| else RoleMenuLimit;
    var shown := sorted[..n];
    assert OfferedRoles(roles) == shown;
    PrefixMultiset(sorted, n);
    PrefixOutranksRest(sorted, n);
    forall r, i | r in multiset(roles) - multiset(shown) && 0 <= i < n
      ensures r.position <= shown[i].position
    {
      assert r in multiset(sorted[n..]);
      assert shown[i] == sorted[i];
    }
  }

  /** Splitting a list after `n` splits its multiset. */
  lemma PrefixMultiset(sorted: seq<RoleInfo>, n: nat)
    requires n <= |sorted|
    ensures multiset(sorted[..n]) <= multiset(sorted)
    ensures multiset(sorted) - multiset(sorted[..n]) == multiset(sorted[n..])
  {
    assert sorted == sorted[..n] + sorted[n..];
  }

  /** In a list sorted by position, no role after the first `n` outranks one of them. */
  lemma PrefixOutranksRest(sorted: seq<RoleInfo>, n: nat)
    requires SortedByPosition(sorted) && n <= |sorted|
    ensures forall r, i :: r in multiset(sorted[n..]) && 0 <= i < n ==> r.position <= sorted[i].position
  {
    forall r, i | r in multiset(sorted[n..]) && 0 <= i < n
      ensures r.position <= sorted[i].position
    {
      assert r in sorted[n..];
      var k :| 0 <= k < |sorted[n..]| && sorted[n..][k] == r;
      assert sorted[n + k] == r;
    }
  }
}
