/** The left sidebar: which menu item is highlighted for the current path,
    and the name and email shown for the signed-in user. */
module Sidebar {
  import opened Common

  /** `isActive(path)`: the dashboard only on exactly "/", every other item
      on any path that starts with its own. */
  function IsActive(currentPath: string, path: string): bool
  {
    if path == "/" then currentPath == "/" else IsPrefix(path, currentPath)
  }

  /** The paths of the five highlighted menu items, in menu order. */
  const MenuPaths: seq<string> := ["/", "/my-study-plans", "/progress-tracker", "/settings", "/help"]

  /** The dashboard is active exactly on "/", and any other item exactly
      when its path starts the current path. */
  lemma IsActiveSpec(currentPath: string, path: string)
    ensures path == "/" ==> (IsActive(currentPath, path) <==> currentPath == "/")
    ensures path != "/" ==> (IsActive(currentPath, path) <==> IsPrefix(path, currentPath))
  {
  }

  /** The help item is also highlighted on a path such as "/helpdesk". */
  lemma HelpActiveOnHelpdesk()
    ensures IsActive("/helpdesk", "/help")
  {
    assert "/helpdesk"[..|"/help"|] == "/help";
  }

  /** Before the effect has read the location, the current path is "" and
      no item is active. */
  lemma InitiallyNoneActive()
    ensures forall k :: 0 <= k < |MenuPaths| ==> !IsActive("", MenuPaths[k])
  {
  }

  /** Two paths that both start the same string agree up to the shorter
      one's length. */
  lemma PrefixesAgree(p: string, q: string, s: string, i: nat)
    requires IsPrefix(p, s) && IsPrefix(q, s)
    requires i < |p| && i < |q|
    ensures p[i] == q[i]
  {
    assert p[i] == s[..|p|][i] == s[i];
    assert q[i] == s[..|q|][i] == s[i];
  }

  /** Whatever the current path, at most one of the five items is
      highlighted. */
  lemma AtMostOneActive(currentPath: string, a: nat, b: nat)
    requires a < b < |MenuPaths|
    ensures !(IsActive(currentPath, MenuPaths[a]) && IsActive(currentPath, MenuPaths[b]))
  {
    if 0 < a && IsActive(currentPath, MenuPaths[a]) && IsActive(currentPath, MenuPaths[b]) {
      PrefixesAgree(MenuPaths[a], MenuPaths[b], currentPath, 1);
    }
  }

  // ------------------------------------------------------- the user line

  datatype User = User(name: Option<string>, email: Option<string>)

  /** `s.split(c)[0]`: the part of s before the first c, all of s when it
      has none. */
  function BeforeFirst(s: string, c: char): (r: string)
  {
    if s == [] || s[0] == c then [] else [s[0]] + BeforeFirst(s[1..], c)
  }

  /** The part before the first separator is a prefix without separator,
      followed by the separator unless it is the whole string. */
  lemma {:induction false} BeforeFirstSpec(s: string, c: char)
    ensures IsPrefix(BeforeFirst(s, c), s)
    ensures c !in BeforeFirst(s, c)
    ensures |BeforeFirst(s, c)| < |s| ==> s[|BeforeFirst(s, c)|] == c
    ensures c !in s ==> BeforeFirst(s, c) == s
  {
    if s != [] && s[0] != c {
      BeforeFirstSpec(s[1..], c);
      assert s == [s[0]] + s[1..];
    }
  }

  /** `user?.name || user?.email?.split("@")[0] || "Study Learner"`. */
  function DisplayName(user: Option<User>): string
  {
    if user.Some? && Truthy(user.value.name) then user.value.name.value
    else if user.Some? && user.value.email.Some? && BeforeFirst(user.value.email.value, '@') != ""
    then BeforeFirst(user.value.email.value, '@')
    else "Study Learner"
  }

  /** `user?.email || "learner@email.com"`. */
  function EmailLine(user: Option<User>): string
  {
    if user.Some? && Truthy(user.value.email) then user.value.email.value else "learner@email.com"
  }

  /** The name shown is the user's name when it is non-empty, otherwise the
      part of the email before its first "@" (all of it when it has none)
      when that is non-empty, otherwise "Study Learner"; it is never
      empty. */
  lemma DisplayNameSpec(user: Option<User>)
    ensures DisplayName(user) != ""
    ensures user.Some? && Truthy(user.value.name) ==> DisplayName(user) == user.value.name.value
    ensures !(user.Some? && Truthy(user.value.name)) && user.Some? && user.value.email.Some?
            && user.value.email.value != "" && user.value.email.value[0] != '@' ==>
      var email := user.value.email.value;
      var shown := DisplayName(user);
      && IsPrefix(shown, email)
      && '@' !in shown
      && (|shown| == |email| || email[|shown|] == '@')
      && ('@' !in email ==> shown == email)
    ensures !(user.Some? && Truthy(user.value.name))
            && (user.None? || user.value.email.None? || user.value.email.value == ""
                || user.value.email.value[0] == '@') ==>
      DisplayName(user) == "Study Learner"
  {
    if user.Some? && user.value.email.Some? {
      BeforeFirstSpec(user.value.email.value, '@');
    }
  }

  /** An email starting with "@" has an empty local part, so the fallback
      name is shown. */
  lemma EmptyLocalPartFallsBack()
    ensures DisplayName(Some(User(None, Some("@example.org")))) == "Study Learner"
  {
  }

  /** The email line is the user's email when it is non-empty, and the
      placeholder otherwise; it is never empty. */
  lemma EmailLineSpec(user: Option<User>)
    ensures EmailLine(user) != ""
    ensures EmailLine(user) == user.value.email.value <== user.Some? && Truthy(user.value.email)
    ensures !(user.Some? && Truthy(user.value.email)) ==> EmailLine(user) == "learner@email.com"
  {
  }
}
