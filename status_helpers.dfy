/**
 * The presence helpers of client/src/lib/utils.ts: the colour of a
 * user's presence dot, decided by a fixed order of rules, and the status
 * line shown next to a name.  Times are integer milliseconds; lower-casing
 * is ASCII-only.
 */
module StatusHelpers {
  import opened Wrappers

  /** A user's status as the client holds it; a timestamp that is missing or empty is None. */
  datatype UserStatus = UserStatus(text: Option<string>, emoji: Option<string>, expiresAt: Option<int>, lastActive: Option<int>)

  const GrayDot: string := "bg-gray-500"
  const RedDot: string := "bg-red-500"
  const YellowDot: string := "bg-yellow-500"
  const GreenDot: string := "bg-green-500"

  /** Five minutes of inactivity, in milliseconds. */
  const InactiveAfter: int := 5 * 60 * 1000

  function LowerChar(c: char): char {
    if 'A' <= c <= 'Z' then (c as int + 32) as char else c
  }

  /** `toLowerCase`, on ASCII letters. */
  function Lower(s: string): (r: string)
    ensures |r| == |s|
    ensures forall i :: 0 <= i < |s| ==> r[i] == LowerChar(s[i])
  {
    if s == [] then [] else [LowerChar(s[0])] + Lower(s[1..])
  }

  /** `sub` occurs in `s` starting at index `i`. */
  predicate OccursAt(s: string, sub: string, i: int) {
    0 <= i && i + |sub| <= |s| && s[i..i + |sub|] == sub
  }

  /** `s.includes(sub)`. */
  function Contains(s: string, sub: string): (r: bool)
    ensures r <==> exists i :: OccursAt(s, sub, i)
  {
    if |sub| <= |s| && s[..|sub|] == sub then
      assert OccursAt(s, sub, 0);
      true
    else if s == [] then
      false
    else
      var r := Contains(s[1..], sub);
      assert r ==> exists i :: OccursAt(s, sub, i) by {
        if r {
          var i :| OccursAt(s[1..], sub, i);
          assert s[i + 1..i + 1 + |sub|] == s[1..][i..i + |sub|];
          assert OccursAt(s, sub, i + 1);
        }
      }
      assert (exists i :: OccursAt(s, sub, i)) ==> r by {
        if exists i :: OccursAt(s, sub, i) {
          var i :| OccursAt(s, sub, i);
          if i > 0 {
            assert s[1..][i - 1..i - 1 + |sub|] == s[i..i + |sub|];
            assert OccursAt(s[1..], sub, i - 1);
          }
        }
      }
      r
  }

  /** The status text, lower-cased, contains `word`. */
  predicate Mentions(st: UserStatus, word: string) {
    st.text.Some? && Contains(Lower(st.text.value), word)
  }

  predicate Busy(st: UserStatus) {
    Mentions(st, "do not disturb") || Mentions(st, "meeting")
  }

  predicate Away(st: UserStatus) {
    Mentions(st, "away") || Mentions(st, "idle")
  }

  predicate Expired(st: UserStatus, now: int) {
    st.expiresAt.Some? && st.expiresAt.value < now
  }

  predicate Inactive(st: UserStatus, now: int) {
    st.lastActive.Some? && st.lastActive.value < now - InactiveAfter
  }

  /**
   * `getStatusColor`: gray when there is no status or the user is
   * offline; then red for busy text, yellow for away text, gray for an
   * expired status, yellow after five minutes without activity, and
   * green otherwise.
   */
  function StatusColor(status: Option<UserStatus>, isOnline: bool, now: int): (r: string)
    ensures r in {GrayDot, RedDot, YellowDot, GreenDot}
    ensures status.None? || !isOnline ==> r == GrayDot
    ensures r == RedDot <==> status.Some? && isOnline && Busy(status.value)
    ensures r == YellowDot <==>
      status.Some? && isOnline && !Busy(status.value) &&
      (Away(status.value) || (!Expired(status.value, now) && Inactive(status.value, now)))
    ensures r == GrayDot <==>
      status.None? || !isOnline ||
      (!Busy(status.value) && !Away(status.value) && Expired(status.value, now))
    ensures r == GreenDot <==>
      status.Some? && isOnline && !Busy(status.value) && !Away(status.value) &&
      !Expired(status.value, now) && !Inactive(status.value, now)
  {
    if status.None? then GrayDot
    else if !isOnline then GrayDot
    else
      var st := status.value;
      if Busy(st) then RedDot
      else if Away(st) then YellowDot
      else if Expired(st, now) then GrayDot
      else if Inactive(st, now) then YellowDot
      else GreenDot
  }

  /** Busy text wins over every later rule: whatever the timestamps say, an online busy user is red. */
  lemma BusyOverridesTimes(st: UserStatus, now: int, expiresAt: Option<int>, lastActive: Option<int>)
    requires Busy(st)
    ensures StatusColor(Some(st.(expiresAt := expiresAt, lastActive := lastActive)), true, now) == RedDot
  {
    assert Busy(st.(expiresAt := expiresAt, lastActive := lastActive));
  }

  /** Away text is checked before expiry: an expired status with away text is yellow, not gray. */
  lemma AwayBeforeExpiry(st: UserStatus, now: int)
    requires Away(st) && !Busy(st) && Expired(st, now)
    ensures StatusColor(Some(st), true, now) == YellowDot
  {
  }

  /** Matching is case-insensitive: "MEETING" makes an online user red. */
  lemma MeetingIsCaseInsensitive(now: int)
    ensures StatusColor(Some(UserStatus(Some("MEETING"), None, None, None)), true, now) == RedDot
  {
    var t := Lower("MEETING");
    assert forall i :: 0 <= i < 7 ==> t[i] == "meeting"[i];
    assert t == "meeting";
    assert OccursAt(t, "meeting", 0);
  }

  /**
   * `formatStatus`: empty without text; otherwise the text, followed by
   * a space and the emoji when there is a non-empty emoji.
   */
  function FormatStatus(status: Option<UserStatus>): (r: string)
    ensures status.None? || status.value.text.None? || status.value.text.value == "" ==> r == ""
    ensures status.Some? && status.value.text.Some? && status.value.text.value != "" ==>
      var text := status.value.text.value;
      && |text| <= |r| && r[..|text|] == text
      && (status.value.emoji.Some? && status.value.emoji.value != "" ==> r == text + " " + status.value.emoji.value)
      && (status.value.emoji.None? || status.value.emoji.value == "" ==> r == text)
  {
    if status.None? || status.value.text.None? || status.value.text.value == "" then ""
    else
      var st := status.value;
      if st.emoji.Some? && st.emoji.value != "" then st.text.value + " " + st.emoji.value else st.text.value
  }
}
