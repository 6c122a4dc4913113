/** Values and string helpers shared by every part of the study-plan model:
    optional values (JavaScript's undefined/null), the session's user id and
    its truthiness, and the ASCII string operations the pages use. */
module Common {

  datatype Option<+T> = None | Some(value: T)

  /** A user id as the session reports it. */
  type UserId = string

  /** JavaScript truthiness of an optional string: present and non-empty. */
  predicate Truthy(s: Option<string>)
  {
    s.Some? && s.value != ""
  }

  /** `session?.user?.id` used as a condition or in `userId || null`:
      the caller's id when it is truthy, otherwise no caller. */
  function Caller(session: Option<UserId>): (r: Option<UserId>)
    ensures r.Some? <==> Truthy(session)
    ensures r.Some? ==> r == session && r.value != ""
  {
    if Truthy(session) then session else None
  }

  /** ASCII lower-casing of one character (`toLowerCase` on A-Z). */
  function LowerChar(c: char): (r: char)
    ensures 'A' <= c <= 'Z' ==> 'a' <= r <= 'z'
    ensures !('A' <= c <= 'Z') ==> r == c
  {
    if 'A' <= c <= 'Z' then (c as int + 32) as char else c
  }

  /** ASCII upper-casing of one character (`toUpperCase` on a-z). */
  function UpperChar(c: char): (r: char)
    ensures 'a' <= c <= 'z' ==> 'A' <= r <= 'Z'
    ensures !('a' <= c <= 'z') ==> r == c
  {
    if 'a' <= c <= 'z' then (c as int - 32) as char else c
  }

  function Lower(s: string): (r: string)
    ensures |r| == |s|
    ensures forall i :: 0 <= i < |s| ==> r[i] == LowerChar(s[i])
  {
    seq(|s|, i requires 0 <= i < |s| => LowerChar(s[i]))
  }

  /** `s.startsWith(p)`. */
  predicate IsPrefix(p: string, s: string)
  {
    |p| <= |s| && s[..|p|] == p
  }

  /** t occurs in s starting at position k. */
  predicate OccursAt(s: string, t: string, k: nat)
  {
    k + |t| <= |s| && s[k..k + |t|] == t
  }

  /** `s.includes(t)`: t occurs in s at some position. */
  predicate Includes(s: string, t: string)
  {
    exists k :: 0 <= k <= |s| && OccursAt(s, t, k)
  }

  lemma IncludesEmpty(s: string)
    ensures Includes(s, "")
  {
    assert OccursAt(s, "", 0);
  }
}
