/**
 * The pure parts of the reconnection controller: the backoff schedule of
 * `scheduleReconnect` and the classification of kick reasons into fatal and
 * retryable ones.
 */
module Reconnect {

  /** `MAX_RECONNECT_ATTEMPTS`. */
  const MaxReconnectAttempts: nat := 10

  /** `MAX_BACKOFF_MS`. */
  const MaxBackoffMs: nat := 30000

  function Pow2(n: nat): (p: nat)
    ensures p >= 1
  {
    if n == 0 then 1 else 2 * Pow2(n - 1)
  }

  /** `Math.min(1000 * Math.pow(2, attempt - 1), MAX_BACKOFF_MS)` for attempt number `attempt`. */
  function Backoff(attempt: nat): nat
    requires attempt >= 1
  {
    var raw := 1000 * Pow2(attempt - 1);
    if raw <= MaxBackoffMs then raw else MaxBackoffMs
  }

  lemma {:induction false} Pow2Monotone(a: nat, b: nat)
    requires a <= b
    ensures Pow2(a) <= Pow2(b)
  {
    if a < b {
      Pow2Monotone(a, b - 1);
    }
  }

  /** The schedule: 1 s, 2 s, 4 s, 8 s, 16 s, then the 30 s cap from the sixth attempt on. */
  lemma BackoffSchedule(attempt: nat)
    requires attempt >= 1
    ensures attempt <= 5 ==> Backoff(attempt) == 1000 * Pow2(attempt - 1)
    ensures attempt >= 6 ==> Backoff(attempt) == MaxBackoffMs
    ensures Backoff(1) == 1000 && Backoff(2) == 2000 && Backoff(3) == 4000
    ensures Backoff(4) == 8000 && Backoff(5) == 16000 && Backoff(6) == 30000
  {
    assert Pow2(5) == 32;
    if attempt >= 6 {
      Pow2Monotone(5, attempt - 1);
    } else {
      Pow2Monotone(attempt - 1, 4);
      assert Pow2(4) == 16;
    }
  }

  /** A later attempt never waits less, and every wait lies between 1 s and the cap. */
  lemma BackoffMonotoneBounded(a: nat, b: nat)
    requires 1 <= a <= b
    ensures Backoff(a) <= Backoff(b)
    ensures 1000 <= Backoff(a) <= MaxBackoffMs
  {
    Pow2Monotone(a - 1, b - 1);
    Pow2Monotone(0, a - 1);
  }

  // ---------------------------------------------------------------------
  // Kick reasons
  // ---------------------------------------------------------------------

  /**
   * Case folding of a regular expression with the `i` flag and without `u`:
   * a character and the pattern's ASCII lower-case letter match when both
   * upper-case to the same character, and a non-ASCII character never
   * upper-cases to an ASCII one there, so only ASCII letters fold.
   */
  function FoldCase(c: char): char {
    if 'A' <= c <= 'Z' then (c as int + 32) as char else c
  }

  /** `p` matches the start of `s`, case-insensitively (`p` written in lower case). */
  predicate StartsWithFolded(s: string, p: string) {
    |p| <= |s| && forall k :: 0 <= k < |p| ==> FoldCase(s[k]) == p[k]
  }

  /** The unanchored regular-expression search for the literal `p`, scanning start positions left to right. */
  function ContainsFolded(s: string, p: string): bool
    decreases |s|
  {
    if |s| < |p| then false
    else StartsWithFolded(s, p) || (|s| > 0 && ContainsFolded(s[1..], p))
  }

  /** `p` occurs somewhere in `s`, case-insensitively. */
  ghost predicate OccursFolded(s: string, p: string) {
    exists i :: 0 <= i <= |s| - |p| && StartsWithFolded(s[i..], p)
  }

  /** The scan finds the literal exactly when it occurs at some position. */
  lemma {:induction false} ContainsFoldedCorrect(s: string, p: string)
    ensures ContainsFolded(s, p) <==> OccursFolded(s, p)
    decreases |s|
  {
    if |s| < |p| {
      // no start position fits
    } else if StartsWithFolded(s, p) {
      assert s[0..] == s;
    } else {
      assert |p| > 0;
      ContainsFoldedCorrect(s[1..], p);
      if OccursFolded(s, p) {
        var i :| 0 <= i <= |s| - |p| && StartsWithFolded(s[i..], p);
        assert i != 0 by { assert s[0..] == s; }
        assert s[1..][i - 1..] == s[i..];
      }
      if OccursFolded(s[1..], p) {
        var i :| 0 <= i <= |s[1..]| - |p| && StartsWithFolded(s[1..][i..], p);
        assert s[1..][i..] == s[i + 1..];
      }
    }
  }

  /** `/not whitelisted|banned/i.test(reason)`: a kick that ends the process instead of reconnecting. */
  predicate IsFatalKick(reason: string) {
    ContainsFolded(reason, "not whitelisted") || ContainsFolded(reason, "banned")
  }

  /** A fatal reason is one in which either phrase occurs, in any mix of letter case. */
  lemma FatalKickMeaning(reason: string)
    ensures IsFatalKick(reason) <==> OccursFolded(reason, "not whitelisted") || OccursFolded(reason, "banned")
  {
    ContainsFoldedCorrect(reason, "not whitelisted");
    ContainsFoldedCorrect(reason, "banned");
  }

  /** Case does not matter: "BANNED" and "You are Banned" are fatal. */
  lemma FatalKickExamples()
    ensures IsFatalKick("BANNED")
    ensures IsFatalKick("You are Banned")
  {
    assert StartsWithFolded("BANNED", "banned");
    var r := "You are Banned";
    assert StartsWithFolded(r[8..], "banned");
    assert OccursFolded(r, "banned");
    ContainsFoldedCorrect(r, "banned");
  }

  /** A reason containing neither phrase, such as "timeout", leads to a reconnect. */
  lemma RetryableKickExample()
    ensures !IsFatalKick("timeout")
  {
    var r := "timeout";
    assert !StartsWithFolded(r, "banned") by { assert FoldCase(r[0]) != 'b'; }
    assert !StartsWithFolded(r[1..], "banned") by { assert FoldCase(r[1..][0]) != 'b'; }
    assert r[1..][1..] == r[2..];
  }
}
