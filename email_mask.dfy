/**
 * The e-mail mask shared by UserProfile.jsx and Leaderboard.jsx:
 * `email.replace(/(.{3})(.*)(?=@)/, "$1***")`. The regular expression is not
 * global, so only the leftmost match is replaced; `.` matches any character but a
 * line terminator and `.*` is greedy, so the match runs to the last `@` it can reach.
 */
module EmailMask {
  import opened Optional
  import opened Text

  /** The pattern matches from `start`, with the look-ahead `@` at index `at`. */
  predicate Matches(s: string, start: int, at: int) {
    0 <= start && start + 3 <= at < |s| && s[at] == '@' &&
    forall i :: start <= i < at ==> !IsLineTerminator(s[i])
  }

  /** The first line terminator at or after `p`, or the end of the text. */
  function RunEnd(s: string, p: nat): (e: nat)
    requires p <= |s|
    ensures p <= e <= |s|
    ensures forall i :: p <= i < e ==> !IsLineTerminator(s[i])
    ensures e < |s| ==> IsLineTerminator(s[e])
    decreases |s| - p
  {
    if p == |s| || IsLineTerminator(s[p]) then p else RunEnd(s, p + 1)
  }

  /** The last `@` in `s[lo..hi]`. */
  function LastAt(s: string, lo: nat, hi: nat): (r: Option<nat>)
    requires hi <= |s|
    ensures r.Some? ==> lo <= r.value < hi && s[r.value] == '@'
    ensures r.Some? ==> forall i :: r.value < i < hi ==> s[i] != '@'
    ensures r.None? ==> forall i :: lo <= i < hi ==> s[i] != '@'
  {
    if hi <= lo then None
    else if s[hi - 1] == '@' then Some(hi - 1)
    else LastAt(s, lo, hi - 1)
  }

  /** Where the greedy `.*` stops for a match starting at `p`, if the pattern matches there at all. */
  function MatchFrom(s: string, p: nat): (r: Option<nat>)
    requires p <= |s|
    ensures r.Some? ==> Matches(s, p, r.value)
    ensures r.Some? ==> forall q :: r.value < q < |s| ==> !Matches(s, p, q)
    ensures r.None? ==> forall q :: !Matches(s, p, q)
  {
    var e := RunEnd(s, p);
    var r := LastAt(s, p + 3, e);
    assert forall q :: e < q < |s| ==> !Matches(s, p, q) by {
      forall q | e < q < |s|
        ensures !Matches(s, p, q)
      {
        assert IsLineTerminator(s[e]);
      }
    }
    r
  }

  datatype Span = Span(start: nat, at: nat)

  /** The leftmost match at or after `p`, with its greedy end. */
  function FindMatch(s: string, p: nat): (m: Option<Span>)
    requires p <= |s|
    ensures m.Some? ==> p <= m.value.start && Matches(s, m.value.start, m.value.at)
    ensures m.Some? ==> forall q :: m.value.at < q < |s| ==> !Matches(s, m.value.start, q)
    ensures m.Some? ==> forall a, q :: p <= a < m.value.start ==> !Matches(s, a, q)
    ensures m.None? ==> forall a, q :: p <= a ==> !Matches(s, a, q)
    decreases |s| - p
  {
    if p + 3 > |s| then None
    else match MatchFrom(s, p) {
      case Some(q) => Some(Span(p, q))
      case None => FindMatch(s, p + 1)
    }
  }

  /** The masked address: the leftmost match keeps its first three characters, the rest of it up to the `@` becomes `***`. */
  function Mask(s: string): (r: string)
    ensures FindMatch(s, 0).None? ==> r == s
    ensures FindMatch(s, 0).Some? ==>
      var m := FindMatch(s, 0).value; r == s[..m.start + 3] + "***" + s[m.at..]
  {
    match FindMatch(s, 0) {
      case None => s
      case Some(m) => s[..m.start + 3] + "***" + s[m.at..]
    }
  }

  /** `s` holds exactly one `@`, at index `k`. */
  predicate OneAt(s: string, k: int) {
    0 <= k < |s| && s[k] == '@' && forall i :: 0 <= i < |s| && i != k ==> s[i] != '@'
  }

  /** A local part of three characters or more, without line breaks, shows its first three and `***`. */
  lemma MaskLongLocalPart(s: string, k: nat)
    requires OneAt(s, k) && k >= 3
    requires forall i :: 0 <= i < k ==> !IsLineTerminator(s[i])
    ensures Mask(s) == s[..3] + "***" + s[k..]
  {
    assert Matches(s, 0, k);
    var m := FindMatch(s, 0);
    assert m.Some?;
    assert m.value.start == 0;
  }

  /** A local part shorter than three characters cannot match: the address is shown as it is. */
  lemma MaskShortLocalPart(s: string, k: nat)
    requires OneAt(s, k) && k < 3
    ensures Mask(s) == s
  {
    var m := FindMatch(s, 0);
    assert m.Some? ==> Matches(s, m.value.start, m.value.at);
  }

  lemma MaskLongExample()
    ensures Mask("alice@x.io") == "ali***@x.io"
  {
    var a := "alice@x.io";
    assert OneAt(a, 5);
    MaskLongLocalPart(a, 5);
    assert a[..3] == "ali" && a[5..] == "@x.io";
  }

  lemma MaskShortExample()
    ensures Mask("al@x.io") == "al@x.io"
  {
    assert OneAt("al@x.io", 2);
    MaskShortLocalPart("al@x.io", 2);
  }
}
