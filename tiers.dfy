/** Membership tiers. The bot resolves a member's tier by looking for tier
    keywords in the lower-cased names of the member's roles, taking the
    highest tier first. Five top tiers may receive attendance.
 */
module Tiers {

  datatype Tier = Normal | Medios | Gold | Altos | Imperiales | Nobleza | Monarquia | Supremos

  /** The `nivel` of each tier in the bot's role table; `Normal` (no tier) is 0. */
  function Level(t: Tier): (n: nat)
    ensures n <= 7 && (n == 0 <==> t == Normal)
  {
    match t
    case Normal => 0
    case Medios => 1
    case Gold => 2
    case Altos => 3
    case Imperiales => 4
    case Nobleza => 5
    case Monarquia => 6
    case Supremos => 7
  }

  /** The keyword searched for in role names. */
  function Keyword(t: Tier): string {
    match t
    case Normal => "normal"
    case Medios => "medios"
    case Gold => "gold"
    case Altos => "altos"
    case Imperiales => "imperiales"
    case Nobleza => "nobleza"
    case Monarquia => "monarquia"
    case Supremos => "supremos"
  }

  /** `role_hierarchy`, highest tier first. */
  const Hierarchy: seq<Tier> := [Supremos, Monarquia, Nobleza, Imperiales, Altos, Gold, Medios]

  /** `str.lower()` on the ASCII letters. */
  function LowerChar(c: char): char {
    if 'A' <= c <= 'Z' then (c as int + 32) as char else c
  }

  function Lower(s: string): (r: string)
    ensures |r| == |s| && forall i :: 0 <= i < |s| ==> r[i] == LowerChar(s[i])
  {
    seq(|s|, i requires 0 <= i < |s| => LowerChar(s[i]))
  }

  /** `k` occurs in `s` at position `i`. */
  ghost predicate OccursAt(k: string, s: string, i: int) {
    0 <= i && i + |k| <= |s| && s[i..i + |k|] == k
  }

  /** Python's `k in s` on strings. */
  ghost predicate Occurs(k: string, s: string) {
    exists i :: OccursAt(k, s, i)
  }

  /** The search `k in s` as a scan from the left. */
  function Contains(s: string, k: string): bool
    decreases |s|
  {
    if |s| < |k| then false else s[..|k|] == k || Contains(s[1..], k)
  }

  lemma {:induction false} ContainsIsOccurs(s: string, k: string)
    ensures Contains(s, k) <==> Occurs(k, s)
    decreases |s|
  {
    if |s| < |k| {
      assert forall i :: !OccursAt(k, s, i);
    } else if s[..|k|] == k {
      assert OccursAt(k, s, 0);
    } else {
      ContainsIsOccurs(s[1..], k);
      if Occurs(k, s[1..]) {
        var i :| OccursAt(k, s[1..], i);
        assert s[i + 1..i + 1 + |k|] == s[1..][i..i + |k|];
        assert OccursAt(k, s, i + 1);
      }
      if Occurs(k, s) {
        var i :| OccursAt(k, s, i);
        assert i != 0;
        assert s[1..][i - 1..i - 1 + |k|] == s[i..i + |k|];
        assert OccursAt(k, s[1..], i - 1);
      }
    }
  }

  /** Some role name, lower-cased, contains the keyword of `t`. */
  ghost predicate HoldsKeyword(roleNames: seq<string>, t: Tier) {
    exists n :: n in roleNames && Occurs(Keyword(t), Lower(n))
  }

  /** The inner loop: does any role name contain the keyword? */
  function AnyRoleContains(roleNames: seq<string>, k: string): bool
    decreases |roleNames|
  {
    roleNames != [] && (Contains(Lower(roleNames[0]), k) || AnyRoleContains(roleNames[1..], k))
  }

  lemma {:induction false} AnyRoleContainsIsHoldsKeyword(roleNames: seq<string>, t: Tier)
    ensures AnyRoleContains(roleNames, Keyword(t)) <==> HoldsKeyword(roleNames, t)
    decreases |roleNames|
  {
    if roleNames != [] {
      ContainsIsOccurs(Lower(roleNames[0]), Keyword(t));
      AnyRoleContainsIsHoldsKeyword(roleNames[1..], t);
      if HoldsKeyword(roleNames, t) {
        var n :| n in roleNames && Occurs(Keyword(t), Lower(n));
        if n != roleNames[0] {
          assert n in roleNames[1..];
        }
      }
      if HoldsKeyword(roleNames[1..], t) {
        var n :| n in roleNames[1..] && Occurs(Keyword(t), Lower(n));
        assert n in roleNames;
      }
    }
  }

  /** The outer loop over a list of tiers: the first tier whose keyword
      occurs, else `Normal`. */
  function FirstMatch(tiers: seq<Tier>, roleNames: seq<string>): Tier
    decreases |tiers|
  {
    if tiers == [] then Normal
    else if AnyRoleContains(roleNames, Keyword(tiers[0])) then tiers[0]
    else FirstMatch(tiers[1..], roleNames)
  }

  /** `get_user_role_type`. */
  function GetUserRoleType(roleNames: seq<string>): Tier {
    FirstMatch(Hierarchy, roleNames)
  }

  lemma {:induction false} FirstMatchIsFirst(tiers: seq<Tier>, roleNames: seq<string>)
    requires Normal !in tiers
    ensures var t := FirstMatch(tiers, roleNames);
      && (t == Normal <==> forall u :: u in tiers ==> !HoldsKeyword(roleNames, u))
      && (t != Normal ==> exists i :: 0 <= i < |tiers| && tiers[i] == t
                                      && HoldsKeyword(roleNames, t)
                                      && forall j :: 0 <= j < i ==> !HoldsKeyword(roleNames, tiers[j]))
    decreases |tiers|
  {
    if tiers != [] {
      AnyRoleContainsIsHoldsKeyword(roleNames, tiers[0]);
      FirstMatchIsFirst(tiers[1..], roleNames);
      var t := FirstMatch(tiers, roleNames);
      if !AnyRoleContains(roleNames, Keyword(tiers[0])) && t != Normal {
        var i :| 0 <= i < |tiers[1..]| && tiers[1..][i] == t && HoldsKeyword(roleNames, t)
                 && forall j :: 0 <= j < i ==> !HoldsKeyword(roleNames, tiers[1..][j]);
        assert tiers[i + 1] == t;
        forall j | 0 <= j < i + 1 ensures !HoldsKeyword(roleNames, tiers[j]) {
          if j > 0 {
            assert tiers[j] == tiers[1..][j - 1];
          }
        }
      }
      if t == Normal {
        forall u | u in tiers ensures !HoldsKeyword(roleNames, u) {
          if u != tiers[0] {
            assert u in tiers[1..];
          }
        }
      }
    }
  }

  /** Every tier but `Normal` sits in `Hierarchy` at position 7 - its level. */
  lemma HierarchyPosition(u: Tier)
    requires u != Normal
    ensures 0 <= 7 - Level(u) < |Hierarchy| && Hierarchy[7 - Level(u)] == u
  {
  }

  /** Position i of `Hierarchy` holds the tier of level 7 - i. */
  lemma HierarchyLevel(i: int)
    requires 0 <= i < |Hierarchy|
    ensures Level(Hierarchy[i]) == 7 - i
  {
  }

  /** Tier resolution picks the highest tier whose keyword occurs in some
      lower-cased role name, and `Normal` exactly when no keyword occurs. */
  lemma RoleTypeIsHighestMatch(roleNames: seq<string>)
    ensures var t := GetUserRoleType(roleNames);
      && (t == Normal <==> forall u :: u != Normal ==> !HoldsKeyword(roleNames, u))
      && (t != Normal ==> HoldsKeyword(roleNames, t))
      && (forall u :: Level(u) > Level(t) ==> !HoldsKeyword(roleNames, u))
  {
    FirstMatchIsFirst(Hierarchy, roleNames);
    var t := GetUserRoleType(roleNames);
    if t == Normal {
      forall u | u != Normal ensures !HoldsKeyword(roleNames, u) {
        HierarchyPosition(u);
      }
    } else {
      var i :| 0 <= i < |Hierarchy| && Hierarchy[i] == t && HoldsKeyword(roleNames, t)
               && forall j :: 0 <= j < i ==> !HoldsKeyword(roleNames, Hierarchy[j]);
      HierarchyLevel(i);
      forall u | Level(u) > Level(t) ensures !HoldsKeyword(roleNames, u) {
        HierarchyPosition(u);
      }
    }
  }

  /** `has_attendance_role`: the tier is Altos or above. */
  predicate HasAttendanceRole(t: Tier) {
    t in {Altos, Imperiales, Nobleza, Monarquia, Supremos}
  }

  lemma AttendanceRoleIsLevelThreeUp(t: Tier)
    ensures HasAttendanceRole(t) <==> Level(t) >= 3
  {
  }
}
