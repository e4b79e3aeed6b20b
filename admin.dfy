/**
 * The user management page of src/app/admin/page.tsx: who may see it, which
 * of its two user queries may run, which list the active tab shows, the
 * counts above the list, and the actions each row offers (approve, reject
 * after a confirmation, change the role).
 *
 * A query's cached data is `None` until the query has run once; the page
 * reads a missing list as `[]`. A click returns the request it starts; the
 * browser's `confirm` dialog is the `confirmed` parameter of the reject
 * click.
 */
module AdminPage {
  import opened Common

  /** The parts of `AdminUser` the page decides on. */
  datatype AdminUser = AdminUser(id: string, role: string, isApproved: bool)

  datatype Tab = PendingTab | AllTab

  const AdminRole: string := "admin"

  /** The values the role select offers. */
  const SelectableRoles: seq<string> := ["doctor", "sales_agent", "staff", "admin"]

  /** `isAdmin`: the signed-in user's role is `admin` (`None` when nobody is signed in). */
  predicate IsAdmin(role: Option<string>)
  {
    role == Some(AdminRole)
  }

  /** The `enabled` flag of the pending-users query. */
  predicate PendingQueryEnabled(role: Option<string>)
  {
    IsAdmin(role)
  }

  /** The `enabled` flag of the all-users query. */
  predicate AllQueryEnabled(role: Option<string>, tab: Tab)
  {
    IsAdmin(role) && tab == AllTab
  }

  /** A query's data with its `= []` default. */
  function UsersOr(cached: Option<seq<AdminUser>>): (r: seq<AdminUser>)
    ensures cached.None? ==> r == []
    ensures cached.Some? ==> r == cached.value
  {
    if cached.None? then [] else cached.value
  }

  /** `displayUsers`: the tab's own list. */
  function DisplayUsers(tab: Tab, pendingUsers: seq<AdminUser>, allUsers: seq<AdminUser>): (r: seq<AdminUser>)
    ensures tab == PendingTab ==> r == pendingUsers
    ensures tab == AllTab ==> r == allUsers
  {
    if tab == PendingTab then pendingUsers else allUsers
  }

  /** The filter callback of the "Approved Users" count. */
  predicate Approved(u: AdminUser)
  {
    u.isApproved
  }

  /** What the page renders: the refusal, or the list with the three counts. */
  datatype Screen =
    | AccessDenied
    | UserManagement(shown: seq<AdminUser>, pendingCount: nat, approvedCount: nat, totalCount: nat)

  /** The page for a role, a tab and the two cached lists. */
  function Render(role: Option<string>, tab: Tab, pendingData: Option<seq<AdminUser>>, allData: Option<seq<AdminUser>>): (r: Screen)
    ensures r.AccessDenied? <==> !IsAdmin(role)
    ensures r.UserManagement? ==>
      r.approvedCount <= r.totalCount
      && r.pendingCount == |UsersOr(pendingData)| && r.totalCount == |UsersOr(allData)|
      && forall u :: u in r.shown ==> u in UsersOr(pendingData) || u in UsersOr(allData)
  {
    if !IsAdmin(role) then AccessDenied
    else
      var pendingUsers := UsersOr(pendingData);
      var allUsers := UsersOr(allData);
      UserManagement(DisplayUsers(tab, pendingUsers, allUsers), |pendingUsers|, Count(allUsers, Approved), |allUsers|)
  }

  /** The approve and reject buttons of a row: only for a user not yet approved. */
  predicate ApprovalButtonsShown(u: AdminUser)
  {
    !Approved(u)
  }

  /** The role select of a row: an approved user other than the signed-in one (`u.id !== user?.id`). */
  predicate RoleSelectShown(u: AdminUser, currentUserId: Option<string>)
  {
    Approved(u) && currentUserId != Some(u.id)
  }

  /** What `approveUser(userId, approved)` is sent. */
  datatype ApproveRequest = ApproveRequest(userId: string, approved: bool)

  /** What `updateUserRole(userId, role)` is sent. */
  datatype RoleRequest = RoleRequest(userId: string, role: string)

  /** The state of the page: who is signed in, the tab, the cached lists and the two requests in flight. */
  class AdminPageState {
    const currentUserId: Option<string>
    const role: Option<string>
    var activeTab: Tab
    var pendingData: Option<seq<AdminUser>>
    var allData: Option<seq<AdminUser>>
    var approvePending: bool
    var rolePending: bool

    /** The first render: the pending tab, nothing loaded, nothing in flight. */
    constructor(currentUserId: Option<string>, role: Option<string>)
      ensures this.currentUserId == currentUserId && this.role == role
      ensures activeTab == PendingTab && pendingData == None && allData == None
      ensures !approvePending && !rolePending
    {
      this.currentUserId := currentUserId;
      this.role := role;
      activeTab := PendingTab;
      pendingData := None;
      allData := None;
      approvePending := false;
      rolePending := false;
    }

    function Screen(): Screen
      reads this
    {
      Render(role, activeTab, pendingData, allData)
    }

    /** A click on one of the two tabs. */
    method SelectTab(t: Tab)
      modifies this`activeTab
      ensures activeTab == t
    {
      activeTab := t;
    }

    /** The pending-users query answered; it runs only while enabled. */
    method PendingLoaded(users: seq<AdminUser>)
      requires PendingQueryEnabled(role)
      modifies this`pendingData
      ensures pendingData == Some(users)
    {
      pendingData := Some(users);
    }

    /** The all-users query answered; it runs only while enabled. */
    method AllLoaded(users: seq<AdminUser>)
      requires AllQueryEnabled(role, activeTab)
      modifies this`allData
      ensures allData == Some(users)
    {
      allData := Some(users);
    }

    /** `handleApprove` from a row's button: sent for a user awaiting approval while no approval is in flight. */
    method ClickApprove(u: AdminUser) returns (sent: Option<ApproveRequest>)
      modifies this`approvePending
      ensures sent.Some? <==> ApprovalButtonsShown(u) && !old(approvePending)
      ensures sent.Some? ==> sent.value == ApproveRequest(u.id, true)
      ensures approvePending == (old(approvePending) || sent.Some?)
    {
      if ApprovalButtonsShown(u) && !approvePending {
        sent := Some(ApproveRequest(u.id, true));
        approvePending := true;
      } else {
        sent := None;
      }
    }

    /** `handleReject` from a row's button: as approving, but with `approved: false` and only after the user confirms. */
    method ClickReject(u: AdminUser, confirmed: bool) returns (sent: Option<ApproveRequest>)
      modifies this`approvePending
      ensures sent.Some? <==> ApprovalButtonsShown(u) && !old(approvePending) && confirmed
      ensures sent.Some? ==> sent.value == ApproveRequest(u.id, false)
      ensures approvePending == (old(approvePending) || sent.Some?)
    {
      if ApprovalButtonsShown(u) && !approvePending && confirmed {
        sent := Some(ApproveRequest(u.id, false));
        approvePending := true;
      } else {
        sent := None;
      }
    }

    /** The role select's `onChange`: it emits one of its options, and is there only for another approved user. */
    method ChangeRole(u: AdminUser, newRole: string) returns (sent: Option<RoleRequest>)
      requires newRole in SelectableRoles
      modifies this`rolePending
      ensures sent.Some? <==> RoleSelectShown(u, currentUserId) && !old(rolePending)
      ensures sent.Some? ==> sent.value == RoleRequest(u.id, newRole) && Some(sent.value.userId) != currentUserId
      ensures rolePending == (old(rolePending) || sent.Some?)
    {
      if RoleSelectShown(u, currentUserId) && !rolePending {
        sent := Some(RoleRequest(u.id, newRole));
        rolePending := true;
      } else {
        sent := None;
      }
    }

    /** The approval request finished; the lists are refetched through the two `Loaded` methods. */
    method ApproveSettled()
      modifies this`approvePending
      ensures !approvePending
    {
      approvePending := false;
    }

    /** The role request finished. */
    method RoleSettled()
      modifies this`rolePending
      ensures !rolePending
    {
      rolePending := false;
    }
  }

  /** A user who is not an admin gets the refusal, and neither user query may run. */
  lemma NonAdminIsDenied(role: Option<string>, tab: Tab, pendingData: Option<seq<AdminUser>>, allData: Option<seq<AdminUser>>)
    requires !IsAdmin(role)
    ensures Render(role, tab, pendingData, allData) == AccessDenied
    ensures !PendingQueryEnabled(role) && !AllQueryEnabled(role, tab)
  {
  }

  /** The all-users query runs only for an admin on the "all" tab, and then the pending query may run too. */
  lemma AllQueryGate(role: Option<string>, tab: Tab)
    ensures AllQueryEnabled(role, tab) <==> role == Some(AdminRole) && tab == AllTab
    ensures AllQueryEnabled(role, tab) ==> PendingQueryEnabled(role)
  {
  }

  /** The list shown is the active tab's: the pending list on the pending tab, every user on the other. */
  lemma ShownListFollowsTab(tab: Tab, pendingData: Option<seq<AdminUser>>, allData: Option<seq<AdminUser>>)
    ensures var s := Render(Some(AdminRole), tab, pendingData, allData);
      s.UserManagement?
      && (tab == PendingTab ==> s.shown == UsersOr(pendingData))
      && (tab == AllTab ==> s.shown == UsersOr(allData))
  {
  }

  /** The approved count and the users still awaiting approval make up the total. */
  lemma ApprovedCountSplitsTotal(role: Option<string>, tab: Tab, pendingData: Option<seq<AdminUser>>, allData: Option<seq<AdminUser>>)
    requires IsAdmin(role)
    ensures var s := Render(role, tab, pendingData, allData);
      s.approvedCount + |Filter(UsersOr(allData), ApprovalButtonsShown)| == s.totalCount
      && s.approvedCount == |Filter(UsersOr(allData), Approved)|
  {
    FilterPartition(UsersOr(allData), Approved, ApprovalButtonsShown);
  }

  /**
   * Until the "all" tab has been opened the all-users query has not run, so
   * the page shows 0 approved and 0 total users whatever the server holds.
   */
  method FirstVisitCountsZero(currentUserId: Option<string>, pendingUsers: seq<AdminUser>)
    returns (s: Screen)
    ensures s == UserManagement(pendingUsers, |pendingUsers|, 0, 0)
  {
    var page := new AdminPageState(currentUserId, Some(AdminRole));
    page.PendingLoaded(pendingUsers);
    s := page.Screen();
  }

  /** No row offers both the approval buttons and the role select, and the signed-in user's own row never offers the select. */
  lemma RowActionsExclusive(u: AdminUser, currentUserId: Option<string>)
    ensures !(ApprovalButtonsShown(u) && RoleSelectShown(u, currentUserId))
    ensures currentUserId == Some(u.id) ==> !RoleSelectShown(u, currentUserId)
    ensures currentUserId.None? ==> (RoleSelectShown(u, currentUserId) <==> u.isApproved)
  {
  }
}
