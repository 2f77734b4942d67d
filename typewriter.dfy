/** The typing effect of the hero section. When the effect runs it starts an
    interval whose counter `charIndex` begins at 0; each tick shows the first
    `charIndex` characters of the current role and then increments the
    counter, until the counter passes the role's length. That tick clears the
    interval and arms a timeout. When the timeout fires, the role index
    advances modulo the number of roles, and the effect runs again for the
    new role.

    Timers are not modelled in time: each interval tick and the firing of the
    timeout is one step. Both variants of the hero section run this machine,
    each over its own role list. */
module Typewriter {

  /** `roleIndex` is currentRoleIndex, `charIndex` the interval's counter,
      `text` the displayed typingText, `interval` whether the typing interval
      is live, `timeout` whether the next-role timeout is armed. */
  datatype Typing = Typing(roleIndex: nat, charIndex: nat, text: string, interval: bool, timeout: bool)

  /** Before the typing effect has run for the first time. */
  const Idle: Typing := Typing(0, 0, "", false, false)

  predicate IsPrefix(a: string, b: string) {
    |a| <= |b| && b[..|a|] == a
  }

  /** `(prev + 1) % roles.length` */
  function NextRole(n: nat, i: nat): (j: nat)
    requires n > 0
    ensures j < n
  {
    (i + 1) % n
  }

  /** The role shown before role `i` in the cycle. */
  function PrevRole(n: nat, i: nat): (j: nat)
    requires n > 0
    ensures j < n
  {
    (i + n - 1) % n
  }

  /** One run of the effect body: a fresh counter and a live interval. The
      displayed text and the role index are left as they are. */
  function Start(t: Typing): (r: Typing)
    ensures r.roleIndex == t.roleIndex && r.text == t.text
    ensures r.charIndex == 0 && r.interval && !r.timeout
  {
    t.(charIndex := 0, interval := true, timeout := false)
  }

  /** One firing of the interval callback (nothing happens when no interval
      is live). */
  function Tick(roles: seq<string>, t: Typing): (r: Typing)
    requires t.roleIndex < |roles|
    ensures r.roleIndex == t.roleIndex
  {
    if !t.interval then t
    else
      var role := roles[t.roleIndex];
      if t.charIndex <= |role| then
        t.(text := role[..t.charIndex], charIndex := t.charIndex + 1)
      else
        t.(interval := false, timeout := true)
  }

  /** The next-role timeout firing: the role index advances and the effect
      runs again for the new role (nothing happens when none is armed). */
  function RoleTimeout(roles: seq<string>, t: Typing): (r: Typing)
    requires |roles| > 0
    ensures !t.timeout ==> r == t
    ensures t.roleIndex < |roles| ==> r.roleIndex < |roles|
    ensures t.timeout ==>
      r.roleIndex == NextRole(|roles|, t.roleIndex) && r.text == t.text &&
      r.charIndex == 0 && r.interval && !r.timeout
  {
    if !t.timeout then t
    else Start(t.(roleIndex := NextRole(|roles|, t.roleIndex), timeout := false))
  }

  /** `k` consecutive interval ticks. */
  function Ticks(roles: seq<string>, t: Typing, k: nat): (r: Typing)
    requires t.roleIndex < |roles|
    ensures r.roleIndex == t.roleIndex
    decreases k
  {
    if k == 0 then t else Ticks(roles, Tick(roles, t), k - 1)
  }

  /** `k` consecutive role advances from index `i`. */
  function Advances(n: nat, i: nat, k: nat): (j: nat)
    requires n > 0 && i < n
    ensures j < n
    decreases k
  {
    if k == 0 then i else Advances(n, NextRole(n, i), k - 1)
  }

  /** What holds of every reachable typing state. Once the current role has
      had a tick, the text is its first `charIndex - 1` characters; before
      that tick the text is either empty (the very first role) or still the
      whole previous role. */
  ghost predicate Inv(roles: seq<string>, t: Typing) {
    |roles| > 0 && t.roleIndex < |roles| &&
    var role := roles[t.roleIndex];
    t.charIndex <= |role| + 1 &&
    !(t.interval && t.timeout) &&
    (t.timeout ==> t.charIndex == |role| + 1) &&
    (!t.interval && !t.timeout ==> t.charIndex == 0 && t.text == "") &&
    (t.charIndex > 0 ==> t.text == role[..t.charIndex - 1]) &&
    (t.charIndex == 0 ==> t.text == "" || t.text == roles[PrevRole(|roles|, t.roleIndex)])
  }

  // ---------------------------------------------------------------------
  // The invariant holds initially and is kept by every step
  // ---------------------------------------------------------------------

  lemma StartFromIdle(roles: seq<string>)
    requires |roles| > 0
    ensures Inv(roles, Idle) && Inv(roles, Start(Idle))
    ensures Start(Idle).text == "" && Start(Idle).roleIndex == 0
  {
  }

  lemma TickKeepsInv(roles: seq<string>, t: Typing)
    requires Inv(roles, t)
    ensures Inv(roles, Tick(roles, t))
  {
  }

  lemma NextThenPrev(n: nat, i: nat)
    requires n > 0 && i < n
    ensures PrevRole(n, NextRole(n, i)) == i
  {
    if i + 1 < n {
      assert NextRole(n, i) == i + 1;
      assert (i + 1 + n - 1) % n == (i + n) % n == i;
    } else {
      assert NextRole(n, i) == 0;
      assert PrevRole(n, 0) == (n - 1) % n == n - 1;
    }
  }

  lemma RoleTimeoutKeepsInv(roles: seq<string>, t: Typing)
    requires Inv(roles, t)
    ensures Inv(roles, RoleTimeout(roles, t))
  {
    if t.timeout {
      NextThenPrev(|roles|, t.roleIndex);
      assert t.text == roles[t.roleIndex][..|roles[t.roleIndex]|];
    }
  }

  // ---------------------------------------------------------------------
  // What the typing shows
  // ---------------------------------------------------------------------

  /** Once the current role has had its first tick, the text shown is a
      prefix of that role, `charIndex - 1` characters long. */
  lemma ShownTextIsPrefix(roles: seq<string>, t: Typing)
    requires Inv(roles, t) && t.charIndex > 0
    ensures |t.text| == t.charIndex - 1 <= |roles[t.roleIndex]|
    ensures IsPrefix(t.text, roles[t.roleIndex])
  {
  }

  /** When the role changes, the finished role stays on screen until the
      first tick for the new role blanks it. */
  lemma PreviousRoleShownUntilFirstTick(roles: seq<string>, t: Typing)
    requires Inv(roles, t) && t.timeout
    ensures var r := RoleTimeout(roles, t);
      r.roleIndex == NextRole(|roles|, t.roleIndex) && r.charIndex == 0 && r.interval &&
      r.text == roles[t.roleIndex] &&
      Tick(roles, r).text == ""
  {
    assert t.text == roles[t.roleIndex][..|roles[t.roleIndex]|];
  }

  /** A tick of a live interval shows exactly one more character, the next
      one of the role, until the whole role is shown; the first tick for a
      role shows the empty string. */
  lemma TickShowsNextCharacter(roles: seq<string>, t: Typing)
    requires Inv(roles, t) && t.interval && t.charIndex <= |roles[t.roleIndex]|
    ensures var r := Tick(roles, t);
      r.interval && r.charIndex == t.charIndex + 1 &&
      (t.charIndex == 0 ==> r.text == "") &&
      (t.charIndex > 0 ==> r.text == t.text + [roles[t.roleIndex][t.charIndex - 1]])
  {
    var role := roles[t.roleIndex];
    if t.charIndex > 0 {
      assert role[..t.charIndex] == role[..t.charIndex - 1] + [role[t.charIndex - 1]];
    }
  }

  /** `k` ticks of a live interval that do not pass the end of the role show
      the first `charIndex + k - 1` characters of the role. */
  lemma {:induction false} TicksType(roles: seq<string>, t: Typing, k: nat)
    requires Inv(roles, t) && t.interval && t.charIndex + k <= |roles[t.roleIndex]| + 1
    ensures var r := Ticks(roles, t, k);
      Inv(roles, r) && r.interval && r.charIndex == t.charIndex + k &&
      (r.charIndex > 0 ==> r.text == roles[t.roleIndex][..r.charIndex - 1])
    decreases k
  {
    if k > 0 {
      TickKeepsInv(roles, t);
      TicksType(roles, Tick(roles, t), k - 1);
    }
  }

  /** Once the interval is cleared, further ticks change nothing. */
  lemma {:induction false} StoppedTypingIsFrozen(roles: seq<string>, t: Typing, k: nat)
    requires t.roleIndex < |roles| && !t.interval
    ensures Ticks(roles, t, k) == t
    decreases k
  {
    if k > 0 {
      StoppedTypingIsFrozen(roles, Tick(roles, t), k - 1);
    }
  }

  /** From a fresh start, |role| + 1 ticks show the whole role; the next tick
      clears the interval and arms the next-role timeout, and after that the
      text changes no further. */
  lemma RoleTypedInFull(roles: seq<string>, t: Typing, extra: nat)
    requires Inv(roles, t) && t.interval && t.charIndex == 0
    ensures var role := roles[t.roleIndex];
      var done := Ticks(roles, t, |role| + 1);
      var last := Tick(roles, done);
      done.text == role &&
      last.text == role && !last.interval && last.timeout &&
      Ticks(roles, last, extra) == last
  {
    var role := roles[t.roleIndex];
    TicksType(roles, t, |role| + 1);
    var done := Ticks(roles, t, |role| + 1);
    assert done.text == role[..|role|];
    StoppedTypingIsFrozen(roles, Tick(roles, done), extra);
  }

  // ---------------------------------------------------------------------
  // Role cycling
  // ---------------------------------------------------------------------

  /** The modulo of `NextRole` only ever wraps the last index to 0. */
  lemma NextRoleWraps(n: nat, i: nat)
    requires n > 0 && i < n
    ensures NextRole(n, i) == if i + 1 < n then i + 1 else 0
  {
  }

  /** Up to a full round, `k` role advances from `i` count forward and wrap
      past the last role once. */
  lemma {:induction false} AdvancesCountForward(n: nat, i: nat, k: nat)
    requires n > 0 && i < n && k <= n
    ensures Advances(n, i, k) == if i + k < n then i + k else i + k - n
    decreases k
  {
    if k > 0 {
      NextRoleWraps(n, i);
      if i + 1 < n {
        AdvancesCountForward(n, i + 1, k - 1);
      } else {
        AdvancesCountForward(n, 0, k - 1);
      }
    }
  }

  /** Advancing `a` times and then `b` times is advancing `a + b` times. */
  lemma {:induction false} AdvancesCompose(n: nat, i: nat, a: nat, b: nat)
    requires n > 0 && i < n
    ensures Advances(n, i, a + b) == Advances(n, Advances(n, i, a), b)
    decreases a
  {
    if a > 0 {
      AdvancesCompose(n, NextRole(n, i), a - 1, b);
      assert a + b - 1 == (a - 1) + b;
    }
  }

  /** After as many advances as there are roles the index is back where it
      started, and never earlier; from then on the roles repeat in the same
      order. */
  lemma RolesCycle(n: nat, i: nat, k: nat)
    requires n > 0 && i < n
    ensures Advances(n, i, n) == i
    ensures 0 < k < n ==> Advances(n, i, k) != i
    ensures Advances(n, i, k + n) == Advances(n, i, k)
  {
    AdvancesCountForward(n, i, n);
    if k < n {
      AdvancesCountForward(n, i, k);
    }
    AdvancesCompose(n, i, n, k);
    AdvancesCompose(n, i, k, n);
    AdvancesCountForward(n, Advances(n, i, k), n);
    assert k + n == n + k;
  }

  /** Concrete run over a two-role list: "ab" is typed as "", "a", "ab";
      the role then changes to "cd" while "ab" is still shown. */
  lemma TwoRoleRun()
    ensures var roles := ["ab", "cd"];
      var s0 := Start(Idle);
      var s1 := Tick(roles, s0);
      var s2 := Tick(roles, s1);
      var s3 := Tick(roles, s2);
      var s4 := Tick(roles, s3);
      var s5 := RoleTimeout(roles, s4);
      s1.text == "" && s2.text == "a" && s3.text == "ab" &&
      s4.timeout && s4.text == "ab" &&
      s5.roleIndex == 1 && s5.text == "ab" && !IsPrefix(s5.text, roles[1]) &&
      Tick(roles, s5).text == ""
  {
    var roles := ["ab", "cd"];
    assert roles[0][..1] == "a";
    assert roles[0][..2] == "ab";
    assert roles[1][..2][0] == 'c';
  }
}
