/** The navigation sidebar (src/components/layout/app-sidebar.tsx): which
    entries are highlighted for the current pathname, and the user shown in
    the footer. Icons are kept as names; the rendering is outside the model. */
module Sidebar {
  import opened Wrappers
  import opened Strings
  import opened Auth

  datatype SubItem = SubItem(title: string, url: string, isActive: Option<bool>)

  datatype NavItem = NavItem(title: string, url: string, icon: string,
                             items: Option<seq<SubItem>>, isActive: Option<bool>)

  const Dashboard := NavItem("Dashboard", "/dashboard", "SquareTerminal", None, None)
  const Invoices := NavItem("Invoices", "/invoice", "Bot", Some([SubItem("Send Invoice", "/invoice", None)]), None)
  const Receipts := NavItem("Receipts", "/receipts", "BookOpen", Some([SubItem("Send Receipt", "/receipts", None)]), None)
  const Contacts := NavItem("Contacts", "/contacts/web-reach", "Users",
                            Some([SubItem("Website Reach Out", "/contacts/web-reach", None),
                                  SubItem("Contact List", "/contacts/list", None)]), Some(false))
  const MailingHistory := NavItem("Mailing History", "/mailing-history", "History", None, Some(false))
  const Careers := NavItem("Careers", "/careers", "Briefcase",
                           Some([SubItem("Job Listings", "/careers/jobs", None),
                                 SubItem("Applications", "/careers/applications", None)]), Some(false))
  const UsersManagement := NavItem("Users Management", "/users", "UserCog",
                                   Some([SubItem("Users", "/users", None),
                                         SubItem("User Invitation", "/users/invitations", None)]), Some(false))
  const Settings := NavItem("Settings", "#", "Settings2",
                            Some([SubItem("General", "#", None), SubItem("Team", "#", None),
                                  SubItem("Billing", "#", None), SubItem("Limits", "#", None)]), None)

  /** `data.navMain`, in order. */
  const NavMain: seq<NavItem> :=
    [Dashboard, Invoices, Receipts, Contacts, MailingHistory, Careers, UsersManagement, Settings]

  /** `matchPath(target)`: an empty or "#" target never matches; otherwise the
      pathname is the target itself or lies below it. */
  predicate MatchPath(pathname: string, target: string) {
    if target == "" || target == "#" then false
    else pathname == target || StartsWith(pathname, target + "/")
  }

  /** Matching is by whole path segments: the target is a prefix of the
      pathname that ends where the pathname ends or at a "/". */
  lemma MatchPathSegments(pathname: string, target: string)
    ensures MatchPath(pathname, target) <==>
      target != "" && target != "#" && |target| <= |pathname| && pathname[..|target|] == target &&
      (|pathname| == |target| || pathname[|target|] == '/')
  {
    if target != "" && target != "#" && |target| < |pathname| && pathname[..|target|] == target && pathname[|target|] == '/' {
      assert pathname[..|target| + 1] == target + "/";
    }
    if StartsWith(pathname, target + "/") {
      assert pathname[..|target|] == (target + "/")[..|target|];
      assert pathname[|target|] == (target + "/")[|target|];
    }
  }

  /** A route that matches a child route also matches its parent. */
  lemma ChildRouteMatchesParent(pathname: string, parent: string, child: string)
    requires parent != "" && parent != "#"
    requires MatchPath(pathname, parent + "/" + child)
    ensures MatchPath(pathname, parent)
  {
    var c := parent + "/" + child;
    assert c[..|parent| + 1] == parent + "/";
    if pathname == c {
      assert pathname[..|parent| + 1] == parent + "/";
    } else {
      assert pathname[..|c| + 1] == c + "/" by {
        assert StartsWith(pathname, c + "/");
      }
      assert pathname[..|parent| + 1] == (c + "/")[..|parent| + 1];
    }
  }

  /** The segment rule on the sidebar's own routes. */
  lemma MatchPathExamples()
    ensures MatchPath("/users/invitations", "/users")
    ensures !MatchPath("/usersX", "/users")
    ensures MatchPath("/careers", "/careers")
    ensures !MatchPath("/careers", "/careers/jobs")
    ensures forall p :: !MatchPath(p, "#")
  {
    assert "/users/invitations"[..7] == "/users/";
    assert "/usersX"[6] == 'X';
    MatchPathSegments("/usersX", "/users");
  }

  function MarkSubItems(pathname: string, subs: seq<SubItem>): (r: seq<SubItem>)
    decreases |subs|
  {
    if subs == [] then []
    else [subs[0].(isActive := Some(MatchPath(pathname, subs[0].url)))] + MarkSubItems(pathname, subs[1..])
  }

  /** `subItems.some((sub) => sub.isActive)`. */
  predicate AnyActive(subs: seq<SubItem>)
    decreases |subs|
  {
    subs != [] && (subs[0].isActive == Some(true) || AnyActive(subs[1..]))
  }

  /** The `map` callback of `navItems`. */
  function MarkItem(pathname: string, item: NavItem): NavItem {
    if item.items.Some? && |item.items.value| > 0 then
      var subs := MarkSubItems(pathname, item.items.value);
      item.(isActive := Some(MatchPath(pathname, item.url) || AnyActive(subs)), items := Some(subs))
    else
      item.(isActive := Some(MatchPath(pathname, item.url)))
  }

  /** `navItems`. */
  function NavItems(pathname: string, nav: seq<NavItem>): (r: seq<NavItem>)
    ensures |r| == |nav|
    decreases |nav|
  {
    if nav == [] then [] else [MarkItem(pathname, nav[0])] + NavItems(pathname, nav[1..])
  }

  lemma {:induction false} MarkSubItemsSpec(pathname: string, subs: seq<SubItem>)
    ensures |MarkSubItems(pathname, subs)| == |subs|
    ensures forall i :: 0 <= i < |subs| ==>
      MarkSubItems(pathname, subs)[i] == subs[i].(isActive := Some(MatchPath(pathname, subs[i].url)))
    decreases |subs|
  {
    if subs != [] {
      MarkSubItemsSpec(pathname, subs[1..]);
    }
  }

  lemma {:induction false} AnyActiveSpec(subs: seq<SubItem>)
    ensures AnyActive(subs) <==> exists i :: 0 <= i < |subs| && subs[i].isActive == Some(true)
    decreases |subs|
  {
    if subs != [] {
      AnyActiveSpec(subs[1..]);
      if AnyActive(subs[1..]) {
        var i :| 0 <= i < |subs[1..]| && subs[1..][i].isActive == Some(true);
        assert subs[i + 1].isActive == Some(true);
      }
      if exists i :: 0 <= i < |subs| && subs[i].isActive == Some(true) {
        var i :| 0 <= i < |subs| && subs[i].isActive == Some(true);
        if i > 0 {
          assert subs[1..][i - 1].isActive == Some(true);
        }
      }
    }
  }

  /** An entry keeps its title, url and icon; one with sub-items is highlighted
      exactly when its own url or one of its sub-items' urls matches, and each
      sub-item is highlighted when its url matches; any other entry is
      highlighted when its url matches. */
  lemma MarkItemSpec(pathname: string, item: NavItem)
    ensures var m := MarkItem(pathname, item);
      && m.title == item.title && m.url == item.url && m.icon == item.icon
      && m.isActive.Some?
      && (item.items.Some? && |item.items.value| > 0 ==>
            && m.items.Some? && |m.items.value| == |item.items.value|
            && (forall i :: 0 <= i < |item.items.value| ==>
                  m.items.value[i] == item.items.value[i].(isActive := Some(MatchPath(pathname, item.items.value[i].url))))
            && (m.isActive.value <==>
                  (MatchPath(pathname, item.url) ||
                   exists i :: 0 <= i < |item.items.value| && MatchPath(pathname, item.items.value[i].url))))
      && (!(item.items.Some? && |item.items.value| > 0) ==>
            m.items == item.items && m.isActive == Some(MatchPath(pathname, item.url)))
  {
    if item.items.Some? && |item.items.value| > 0 {
      var subs := MarkSubItems(pathname, item.items.value);
      MarkSubItemsSpec(pathname, item.items.value);
      AnyActiveSpec(subs);
      if exists i :: 0 <= i < |item.items.value| && MatchPath(pathname, item.items.value[i].url) {
        var i :| 0 <= i < |item.items.value| && MatchPath(pathname, item.items.value[i].url);
        assert subs[i].isActive == Some(true);
      }
    }
  }

  /** The entries stay in order, one for one. */
  lemma {:induction false} NavItemsSpec(pathname: string, nav: seq<NavItem>)
    ensures forall i :: 0 <= i < |nav| ==> NavItems(pathname, nav)[i] == MarkItem(pathname, nav[i])
    decreases |nav|
  {
    if nav != [] {
      NavItemsSpec(pathname, nav[1..]);
    }
  }

  /** The Settings entry, whose links are all "#", is never highlighted. */
  lemma SettingsNeverActive(pathname: string)
    ensures NavItems(pathname, NavMain)[7].title == "Settings"
    ensures NavItems(pathname, NavMain)[7].isActive == Some(false)
  {
    NavItemsSpec(pathname, NavMain);
    assert NavMain[7] == Settings;
    var subs := Settings.items.value;
    assert forall i :: 0 <= i < |subs| ==> subs[i].url == "#";
    MarkItemSpec(pathname, Settings);
  }

  /** The route facts behind `CareersHighlighted`. */
  lemma CareersRoutes()
    ensures MatchPath("/careers/applications", "/careers")
    ensures MatchPath("/careers/applications", "/careers/applications")
    ensures !MatchPath("/careers/applications", "/careers/jobs")
    ensures !MatchPath("/careers/applications", "/dashboard")
  {
    var p := "/careers/applications";
    assert p[..9] == "/careers/";
    MatchPathSegments(p, "/careers/jobs");
    MatchPathSegments(p, "/dashboard");
    assert p[..10] != "/dashboard" by { assert p[..10][1] != "/dashboard"[1]; }
    assert p[..13] != "/careers/jobs" by { assert p[..13][9] != "/careers/jobs"[9]; }
  }

  /** On a careers sub-page, the Careers entry and that sub-item are highlighted,
      while Dashboard and the other careers sub-item are not. */
  lemma CareersHighlighted()
    ensures var nav := NavItems("/careers/applications", NavMain);
      && |nav| == 8
      && nav[5].isActive == Some(true)
      && nav[5].items.Some? && |nav[5].items.value| == 2
      && nav[5].items.value[1].title == "Applications"
      && nav[5].items.value[1].isActive == Some(true)
      && nav[5].items.value[0].isActive == Some(false)
      && nav[0].isActive == Some(false)
  {
    var p := "/careers/applications";
    NavItemsSpec(p, NavMain);
    assert NavMain[5] == Careers && NavMain[0] == Dashboard;
    var careers := Careers;
    var subs := careers.items.value;
    assert careers.url == "/careers" && |subs| == 2;
    assert subs[0].url == "/careers/jobs" && subs[1].url == "/careers/applications" && subs[1].title == "Applications";
    CareersRoutes();
    MarkItemSpec(p, careers);
    MarkItemSpec(p, Dashboard);
  }

  /** `currentUser`: the signed-in user with an avatar filled in from the first
      letter of the email, or the guest record. */
  function CurrentUser(user: Option<User>): User {
    if user.None? then User("Guest User", "guest@example.com", Some("/avatars/guest.jpg"), Some("Guest"))
    else user.value.(avatar := Some(OrElse(user.value.avatar, "/avatars/" + FirstCharLower(user.value.email) + ".jpg")))
  }

  /** The footer always has an avatar; a signed-in user keeps name, email, role
      and a non-empty avatar of their own. */
  lemma CurrentUserSpec(user: Option<User>)
    ensures CurrentUser(user).avatar.Some? && CurrentUser(user).avatar.value != ""
    ensures user.None? ==> CurrentUser(user).name == "Guest User" && CurrentUser(user).role == Some("Guest")
    ensures user.Some? ==>
      && CurrentUser(user).name == user.value.name && CurrentUser(user).email == user.value.email
      && CurrentUser(user).role == user.value.role
      && (Truthy(user.value.avatar) ==> CurrentUser(user).avatar == user.value.avatar)
      && (!Truthy(user.value.avatar) && user.value.email != "" ==>
            CurrentUser(user).avatar == Some("/avatars/" + [LowerChar(user.value.email[0])] + ".jpg"))
  {
  }

  /** A user normalised by `formatUserData` already has an avatar, which the
      sidebar shows unchanged. */
  lemma FormattedUserAvatarKept(d: Option<UserData>)
    ensures CurrentUser(Some(FormatUserData(d))) == FormatUserData(d)
  {
    FormatUserDataDefaults(d);
  }
}
