/** The member dashboard: the sidebar links and unread badges, the header's name and avatar,
    the plan prices in the yearly billing cycle, and the settings page whose setting map,
    password modal and status message the two handlers update. */
module MemberDashboard {
  import opened Outcomes
  import opened Text
  import opened Seqs
  import opened JsMath
  import opened AuthContext
  import NotificationsHook
  import RegisterPage
  import App

  // ----- Sidebar and header ------------------------------------------------------------

  /** The sidebar's link targets, in their order on screen. */
  const NavPaths: seq<string> := [
    "/member", "/member/plans", "/member/receipts", "/member/payments",
    "/member/notifications", "/member/profile", "/member/settings"
  ]

  const NotificationsPath := "/member/notifications"

  /** A sidebar link is highlighted exactly when the current pathname is its path, compared
      exactly (letter case included). */
  predicate IsActiveLink(pathname: string, path: string): (r: bool)
    ensures r <==> pathname == path
  {
    pathname == path
  }

  /** The sidebar's unread badge sits on the notifications link only, and only while there is
      something unread. */
  predicate ShowsLinkBadge(path: string, unreadCount: nat): (r: bool)
    ensures r ==> path == NotificationsPath && unreadCount > 0
    ensures path == NotificationsPath && unreadCount > 0 ==> r
  {
    path == NotificationsPath && unreadCount > 0
  }

  /** The header's bell shows the badge while there is something unread. */
  predicate ShowsHeaderBadge(unreadCount: nat): (r: bool)
    ensures r <==> unreadCount > 0
  {
    unreadCount > 0
  }

  /** The sidebar's paths are pairwise distinct, so at most one link is highlighted and exactly
      one when the pathname is one of them. */
  lemma AtMostOneActiveLink(pathname: string, i: nat, j: nat)
    requires i < |NavPaths| && j < |NavPaths| && i != j
    ensures !(IsActiveLink(pathname, NavPaths[i]) && IsActiveLink(pathname, NavPaths[j]))
  {
    NavPathsDistinct(i, j);
  }

  lemma NavPathsDistinct(i: nat, j: nat)
    requires i < |NavPaths| && j < |NavPaths| && i != j
    ensures NavPaths[i] != NavPaths[j]
  {
  }

  /** Of all the sidebar links only the notifications link can carry the badge, and it does
      exactly when the unread count is positive. */
  lemma BadgeOnlyOnNotifications(unreadCount: nat, i: nat)
    requires i < |NavPaths|
    ensures ShowsLinkBadge(NavPaths[i], unreadCount) <==> i == 4 && unreadCount > 0
  {
    if i != 4 {
      NavPathsDistinct(i, 4);
    }
  }

  /** After a successful "mark all as read" neither badge is shown. */
  lemma MarkAllClearsBadges(ns: seq<NotificationsHook.Notification>)
    ensures var unread := NotificationsHook.UnreadCount(NotificationsHook.AllMarkedRead(ns));
            !ShowsHeaderBadge(unread) && !ShowsLinkBadge(NotificationsPath, unread)
  {
  }

  /** A click on a notification card asks to mark it read only when it is unread. */
  function CardClick(n: NotificationsHook.Notification): (r: Option<string>)
    ensures r.Some? <==> !n.isRead
    ensures r.Some? ==> r.value == n.id
  {
    if !n.isRead then Some(n.id) else None
  }

  /** A successful click on an unread card lowers the badge number by at least one. */
  lemma CardClickLowersUnread(ns: seq<NotificationsHook.Notification>, k: nat)
    requires k < |ns| && CardClick(ns[k]).Some?
    ensures NotificationsHook.UnreadCount(NotificationsHook.MarkedRead(ns, CardClick(ns[k]).value)) <
              NotificationsHook.UnreadCount(ns)
  {
    var id := ns[k].id;
    NotificationsHook.MarkedReadUnreadCount(ns, id);
    var p := (n: NotificationsHook.Notification) => n.id == id && !n.isRead;
    assert p(ns[k]);
    assert ns[k] in Filter(ns, p);
  }

  /** The name in the header: the full name, else the part of the email before the first '@',
      else 'User' (an empty value counts as missing at each step). */
  function HeaderName(profile: Option<Profile>): (r: string)
    ensures r != []
    ensures profile.Some? && profile.value.fullName.Some? && profile.value.fullName.value != [] ==>
              r == profile.value.fullName.value
    ensures profile.None? ==> r == "User"
    ensures profile.Some? && (profile.value.fullName.None? || profile.value.fullName.value == []) ==>
              r == (if LocalPart(profile.value.email) != [] then LocalPart(profile.value.email) else "User")
  {
    if profile.None? then "User"
    else
      var p := profile.value;
      if p.fullName.Some? && p.fullName.value != [] then p.fullName.value
      else OrElse(Some(LocalPart(p.email)), "User")
  }

  /** The avatar letter: the first character of the full name, else of the email, else 'U'. */
  function Avatar(profile: Option<Profile>): (r: string)
    ensures |r| == 1
  {
    if profile.Some? && profile.value.fullName.Some? && profile.value.fullName.value != [] then
      profile.value.fullName.value[..1]
    else if profile.Some? && profile.value.email != [] then profile.value.email[..1]
    else "U"
  }

  /** The avatar is the initial of the header name, except for an email beginning with '@'
      and no full name, where the name falls back to 'User' but the avatar shows '@'. */
  lemma AvatarIsInitialOfName(profile: Option<Profile>)
    ensures Avatar(profile) == HeaderName(profile)[..1] <==>
              !(profile.Some? && (profile.value.fullName.None? || profile.value.fullName.value == []) &&
                profile.value.email != [] && profile.value.email[0] == '@')
  {
    if profile.Some? {
      var p := profile.value;
      if !(p.fullName.Some? && p.fullName.value != []) && p.email != [] {
        if p.email[0] == '@' {
          LocalPartOf([], p.email[1..]);
          assert p.email == [] + "@" + p.email[1..];
        } else {
          var l := LocalPart(p.email);
          assert l != [] && l[0] == p.email[0] by {
            LocalPartStartsLikeEmail(p.email);
          }
        }
      }
    }
  }

  lemma LocalPartStartsLikeEmail(s: string)
    requires s != [] && s[0] != '@'
    ensures LocalPart(s) != [] && LocalPart(s)[0] == s[0]
  {
    if '@' in s {
      var k := IndexOf(s, '@');
      LocalPartOf(s[..k], s[k + 1..]);
      assert s == s[..k] + "@" + s[k + 1..];
    }
  }

  /** The router lets "/MEMBER/plans" into the member area, but the sidebar compares paths
      exactly, so no link is highlighted there. */
  lemma CapitalisedPathHighlightsNoLink(i: nat)
    requires i < |NavPaths|
    ensures App.Below("/MEMBER/plans", "/member")
    ensures !IsActiveLink("/MEMBER/plans", NavPaths[i])
  {
    var p := ToLower("/MEMBER/plans");
    assert forall k :: 0 <= k < 13 ==> p[k] == "/member/plans"[k];
    assert p[..8] == "/member/";
    assert "/MEMBER/plans"[1] != NavPaths[i][1];
  }

  // ----- Plans -------------------------------------------------------------------------

  datatype BillingCycle = Monthly | Yearly

  datatype Plan = Plan(id: string, name: string, price: nat)

  /** The three plans and their monthly prices in dollars. */
  const Plans: seq<Plan> := [Plan("basic", "Basic", 29), Plan("pro", "Pro", 59), Plan("elite", "Elite", 99)]

  /** `Math.round(price * 0.8)`: the per-month price billed yearly, within half a dollar of
      eighty percent of the monthly price. */
  function YearlyPrice(price: nat): (r: nat)
    ensures 10 * r - 5 <= 8 * price < 10 * r + 5
    ensures r <= price
  {
    var r := Round(8 * price, 10);
    r
  }

  /** `Math.round(price * 12 * 0.2)`: the yearly saving, within half a dollar of twenty
      percent of twelve monthly prices. */
  function YearlySavings(price: nat): (r: nat)
    ensures 10 * r - 5 <= 24 * price < 10 * r + 5
  {
    var r := Round(24 * price, 10);
    r
  }

  /** The amount a plan card shows. */
  function DisplayedPrice(cycle: BillingCycle, price: nat): (r: nat)
    ensures cycle == Monthly ==> r == price
    ensures cycle == Yearly ==> r == YearlyPrice(price)
  {
    match cycle
    case Monthly => price
    case Yearly => YearlyPrice(price)
  }

  /** An integer price never puts the exact products `price * 0.8` and `price * 12 * 0.2` on
      a half, so rounding a half up or down would give the same amounts for them. */
  lemma PricesNeverTie(price: nat)
    ensures Round(-8 * price, 10) == -(YearlyPrice(price) as int)
    ensures Round(-24 * price, 10) == -(YearlySavings(price) as int)
  {
    EightTenthsNeverTie(price);
    RoundIsOddOffTies(8 * price, 10);
    TwelveFifthsNeverTie(price);
    RoundIsOddOffTies(24 * price, 10);
  }

  /** The amounts the three plan cards show in the yearly cycle. */
  lemma PlanYearlyAmounts()
    ensures YearlyPrice(Plans[0].price) == 23 && YearlySavings(Plans[0].price) == 70
    ensures YearlyPrice(Plans[1].price) == 47 && YearlySavings(Plans[1].price) == 142
    ensures YearlyPrice(Plans[2].price) == 79 && YearlySavings(Plans[2].price) == 238
  {
    RoundIsUnique(8 * 29, 10, 23);
    RoundIsUnique(24 * 29, 10, 70);
    RoundIsUnique(8 * 59, 10, 47);
    RoundIsUnique(24 * 59, 10, 142);
    RoundIsUnique(8 * 99, 10, 79);
    RoundIsUnique(24 * 99, 10, 238);
  }

  /** The saving a card states is not twelve times the monthly discount the same card shows:
      Basic shows $23 instead of $29, twelve times $6 is $72, yet the card says $70. */
  lemma SavingsDisagreeWithShownDiscount()
    ensures YearlySavings(29) != 12 * (29 - YearlyPrice(29))
  {
    PlanYearlyAmounts();
  }

  // ----- Settings ----------------------------------------------------------------------

  datatype SettingValue = Flag(on: bool) | Choice(value: string)

  const InitialSettings: map<string, SettingValue> := map[
    "theme" := Choice("dark"),
    "language" := Choice("en"),
    "emailNotifications" := Flag(true),
    "pushNotifications" := Flag(true),
    "marketingEmails" := Flag(false),
    "twoFactorAuth" := Flag(false)
  ]

  datatype PasswordData = PasswordData(currentPassword: string, newPassword: string, confirmPassword: string)

  const EmptyPasswordData := PasswordData("", "", "")

  /** `sub` occurs in `s` starting at index `i`. */
  predicate OccursAt(s: string, sub: string, i: int)
  {
    0 <= i <= |s| - |sub| && s[i..i + |sub|] == sub
  }

  /** `s.includes(sub)`. */
  predicate Includes(s: string, sub: string)
  {
    exists i :: 0 <= i <= |s| && OccursAt(s, sub, i)
  }

  /** The status message is shown in green when it mentions 'success' or 'updated' and in red
      otherwise. */
  predicate IsSuccessMessage(message: string): (r: bool)
    ensures r ==> |message| >= 7
  {
    Includes(message, "success") || Includes(message, "updated")
  }

  /** The settings page's state. */
  class Settings {
    var settings: map<string, SettingValue>
    var showPasswordModal: bool
    var passwordData: PasswordData
    var message: string

    constructor ()
      ensures settings == InitialSettings && !showPasswordModal
      ensures passwordData == EmptyPasswordData && message == ""
    {
      settings := InitialSettings;
      showPasswordModal := false;
      passwordData := EmptyPasswordData;
      message := "";
    }

    /** `handleSettingChange(key, value)`: `key` takes the new value, every other setting keeps
        its own, and the page says 'Setting updated!'. */
    method HandleSettingChange(key: string, value: SettingValue)
      modifies this
      ensures key in settings && settings[key] == value
      ensures settings.Keys == old(settings).Keys + {key}
      ensures forall k :: k in old(settings) && k != key ==> settings[k] == old(settings)[k]
      ensures message == "Setting updated!" && IsSuccessMessage(message)
      ensures showPasswordModal == old(showPasswordModal) && passwordData == old(passwordData)
    {
      settings := settings[key := value];
      message := "Setting updated!";
      assert OccursAt(message, "updated", 8);
    }

    /** `handlePasswordChange`: when the new password and its confirmation differ the page
        says 'Passwords do not match' and the modal stays open with its fields as typed;
        otherwise the modal closes, all three fields are cleared and the page reports success. */
    method HandlePasswordChange()
      modifies this
      ensures settings == old(settings)
      ensures old(passwordData).newPassword != old(passwordData).confirmPassword ==>
                message == "Passwords do not match" && !IsSuccessMessage(message) &&
                showPasswordModal == old(showPasswordModal) && passwordData == old(passwordData)
      ensures old(passwordData).newPassword == old(passwordData).confirmPassword ==>
                message == "Password updated successfully!" && IsSuccessMessage(message) &&
                !showPasswordModal && passwordData == EmptyPasswordData
    {
      if passwordData.newPassword != passwordData.confirmPassword {
        message := "Passwords do not match";
        NoSuccessWordInMismatch();
        return;
      }
      message := "Password updated successfully!";
      assert OccursAt(message, "updated", 9);
      showPasswordModal := false;
      passwordData := EmptyPasswordData;
    }
  }

  lemma NoSuccessWordInMismatch()
    ensures !IsSuccessMessage("Passwords do not match")
  {
    NotIncluded("Passwords do not match", "success");
    NotIncluded("Passwords do not match", "updated");
  }

  /** A word whose first two letters never occur side by side in `s` is not in `s`. */
  lemma NotIncluded(s: string, sub: string)
    requires |sub| >= 2
    requires forall i :: 0 <= i < |s| - 1 ==> !(s[i] == sub[0] && s[i + 1] == sub[1])
    ensures !Includes(s, sub)
  {
    forall i | 0 <= i <= |s| - |sub|
      ensures !OccursAt(s, sub, i)
    {
      assert s[i..i + |sub|][0] == s[i] && s[i..i + |sub|][1] == s[i + 1];
    }
  }

  /** The settings page accepts a new password of any length as long as it is confirmed,
      while the registration form demands at least eight characters. */
  lemma PasswordChangeSkipsLengthCheck(password: string)
    requires 0 < |password| < RegisterPage.MinPasswordLength
    ensures RegisterPage.Validate(password, password).Some?
  {
  }
}
