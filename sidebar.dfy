/**
 * The navigation rules of src/components/layout/sidebar.tsx: which entries
 * of the navigation table a role sees, the admin-only section, the panel
 * title and the active-entry test.
 *
 * The signed-in user enters only through its role: `None` when nobody is
 * signed in.
 */
module Sidebar {
  import opened Common

  /** One entry of `allNavigation`; `roles == None` would mean visible to everyone. */
  datatype NavItem = NavItem(name: string, href: string, roles: Option<seq<string>>)

  const Admin: string := "admin"
  const Doctor: string := "doctor"
  const SalesAgent: string := "sales_agent"

  const DashboardItem: NavItem := NavItem("Dashboard", "/", Some([Admin, Doctor]))
  const LeadsItem: NavItem := NavItem("Leads", "/leads", Some([Admin, Doctor]))
  const ConversationsItem: NavItem := NavItem("Conversations", "/conversations", Some([Admin, Doctor]))
  const AiTrainingItem: NavItem := NavItem("AI Training", "/ai-training", Some([Admin, Doctor, SalesAgent]))
  const PhotosItem: NavItem := NavItem("Photos", "/photos", Some([Admin]))
  const SettingsItem: NavItem := NavItem("Settings", "/settings", Some([Admin]))

  /** The navigation table, in display order. */
  const AllNavigation: seq<NavItem> :=
    [DashboardItem, LeadsItem, ConversationsItem, AiTrainingItem, PhotosItem, SettingsItem]

  /** The one entry of the admin section. */
  const UserManagementHref: string := "/admin"

  /** The filter callback: an entry without roles is for everyone, otherwise the user needs a (non-empty) role it lists. */
  predicate Visible(item: NavItem, role: Option<string>)
  {
    item.roles.None? || (Truthy(role) && role.value in item.roles.value)
  }

  /** The entries rendered for a role, in table order. */
  function VisibleItems(role: Option<string>): (r: seq<NavItem>)
    ensures forall item :: item in r ==> item in AllNavigation && Visible(item, role)
  {
    Filter(AllNavigation, item => Visible(item, role))
  }

  /** An entry of the table is shown exactly when its roles admit the user's role. */
  lemma VisibleItemsIff(role: Option<string>, item: NavItem)
    requires item in AllNavigation
    ensures item in VisibleItems(role) <==> Truthy(role) && role.value in item.roles.value
  {
    if Visible(item, role) {
      FilterKeeps(AllNavigation, x => Visible(x, role), item);
    }
  }

  /** Every entry of the table lists its roles, so nobody signed in (or a role the table does not know) sees nothing. */
  lemma UnknownRoleSeesNothing(role: Option<string>)
    requires role.None? || role.value !in {Admin, Doctor, SalesAgent}
    ensures VisibleItems(role) == []
  {
    FilterNone(AllNavigation, item => Visible(item, role));
  }

  /** An admin sees the whole table. */
  lemma AdminSeesEverything()
    ensures VisibleItems(Some(Admin)) == AllNavigation
  {
    FilterAll(AllNavigation, item => Visible(item, Some(Admin)));
  }

  /** A doctor sees the first four entries: everything but Photos and Settings. */
  lemma DoctorSeesAllButPhotosAndSettings()
    ensures VisibleItems(Some(Doctor)) == [DashboardItem, LeadsItem, ConversationsItem, AiTrainingItem]
  {
    var p := item => Visible(item, Some(Doctor));
    var head := [DashboardItem, LeadsItem, ConversationsItem, AiTrainingItem];
    var tail := [PhotosItem, SettingsItem];
    assert AllNavigation == head + tail;
    assert Filter(head, p) == head by { FilterAll(head, p); }
    assert Filter(tail, p) == [] by { FilterNone(tail, p); }
    FilterAppend(head, tail, p);
  }

  /** A sales agent sees AI Training and nothing else. */
  lemma SalesAgentSeesOnlyAiTraining()
    ensures VisibleItems(Some(SalesAgent)) == [AiTrainingItem]
  {
    var p := item => Visible(item, Some(SalesAgent));
    var before := [DashboardItem, LeadsItem, ConversationsItem];
    var after := [PhotosItem, SettingsItem];
    assert AllNavigation == before + ([AiTrainingItem] + after);
    assert Filter(before, p) == [] by { FilterNone(before, p); }
    assert Filter(after, p) == [] by { FilterNone(after, p); }
    assert Filter([AiTrainingItem], p) == [AiTrainingItem] by { FilterAll([AiTrainingItem], p); }
    FilterAppend([AiTrainingItem], after, p);
    FilterAppend(before, [AiTrainingItem] + after, p);
  }

  /** The admin section is rendered only for the `admin` role. */
  predicate ShowAdminSection(role: Option<string>)
  {
    role == Some(Admin)
  }

  /** The admin section and the admin-only entries of the table go together. */
  lemma AdminOnlyEntriesMatchAdminSection(role: Option<string>)
    ensures PhotosItem in VisibleItems(role) <==> ShowAdminSection(role)
    ensures SettingsItem in VisibleItems(role) <==> ShowAdminSection(role)
  {
    VisibleItemsIff(role, PhotosItem);
    VisibleItemsIff(role, SettingsItem);
  }

  /** `getDashboardTitle`: a panel name per known role, "Dashboard" otherwise. */
  function DashboardTitle(role: Option<string>): (r: string)
    ensures role == Some(Admin) ==> r == "Admin Panel"
    ensures role == Some(Doctor) ==> r == "Doctor Dashboard"
    ensures role == Some(SalesAgent) ==> r == "Sales Dashboard"
    ensures r == "Dashboard" <==> role.None? || role.value !in {Admin, Doctor, SalesAgent}
  {
    if role == Some(Admin) then "Admin Panel"
    else if role == Some(Doctor) then "Doctor Dashboard"
    else if role == Some(SalesAgent) then "Sales Dashboard"
    else "Dashboard"
  }

  /** `isActive`: the path must equal the entry's href exactly (a sub-page does not count). */
  predicate IsActive(pathname: string, href: string)
  {
    pathname == href
  }

  /** The hrefs are all different, so at most one entry, the admin one included, is highlighted at a time. */
  lemma AtMostOneActive(pathname: string)
    ensures forall i, j :: 0 <= i < j < |AllNavigation| ==>
      !(IsActive(pathname, AllNavigation[i].href) && IsActive(pathname, AllNavigation[j].href))
    ensures forall i :: 0 <= i < |AllNavigation| ==>
      !(IsActive(pathname, AllNavigation[i].href) && IsActive(pathname, UserManagementHref))
  {
  }

  /** A sub-page of an entry does not highlight it: `/leads/42` leaves Leads unhighlighted. */
  lemma SubPageIsNotActive(rest: string)
    requires rest != ""
    ensures !IsActive(LeadsItem.href + rest, LeadsItem.href)
  {
    assert |LeadsItem.href + rest| > |LeadsItem.href|;
  }
}
