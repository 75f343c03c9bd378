/**
 * The two textual normalisations `Thing.DeserializeList` applies to an array
 * payload before parsing it: a literal replace-all of `"replies": "",` and
 * the regular-expression removal of `"children": \[".+?"\],` runs.
 */
module Text {
  import opened Wrappers

  /** The literal `"replies": "",` that comments without replies carry. */
  const RepliesLiteral: string := "\"replies\": \"\","

  /** Where a children id list starts: `"children": ["`. */
  const ChildrenOpen: string := "\"children\": [\""

  /** Where a children id list ends: `"],`. */
  const ChildrenClose: string := "\"],"

  /** True when `pat` occurs in `s` at position `i`. */
  predicate OccursAt(s: string, pat: string, i: int)
  {
    0 <= i && i + |pat| <= |s| && s[i..i + |pat|] == pat
  }

  /** True when `t` can be obtained from `s` by deleting characters: kept text stays in order. */
  predicate IsSubsequence(t: string, s: string)
    decreases |s|
  {
    |t| == 0 || (|s| > 0 && ((t[0] == s[0] && IsSubsequence(t[1..], s[1..])) || IsSubsequence(t, s[1..])))
  }

  /** Deleting a prefix of `s` keeps a subsequence of the suffix a subsequence of `s`. */
  lemma {:induction false} SubsequenceOfSuffix(t: string, s: string, k: nat)
    requires k <= |s| && IsSubsequence(t, s[k..])
    ensures IsSubsequence(t, s)
    decreases k
  {
    if k > 0 {
      assert s[1..][k - 1..] == s[k..];
      SubsequenceOfSuffix(t, s[1..], k - 1);
    }
  }

  /**
   * `String.Replace(pat, "")`: every occurrence of `pat`, found left to right
   * and without overlap, removed.
   */
  function RemoveAll(s: string, pat: string): string
    requires |pat| > 0
    decreases |s|
  {
    if |s| < |pat| then s
    else if s[..|pat|] == pat then RemoveAll(s[|pat|..], pat)
    else [s[0]] + RemoveAll(s[1..], pat)
  }

  /** The number of occurrences `RemoveAll` removes. */
  function Removed(s: string, pat: string): nat
    requires |pat| > 0
    decreases |s|
  {
    if |s| < |pat| then 0
    else if s[..|pat|] == pat then 1 + Removed(s[|pat|..], pat)
    else Removed(s[1..], pat)
  }

  /** Each removed occurrence shortens the text by exactly the pattern's length. */
  lemma {:induction false} RemoveAllLength(s: string, pat: string)
    requires |pat| > 0
    ensures |RemoveAll(s, pat)| == |s| - |pat| * Removed(s, pat)
    decreases |s|
  {
    if |s| < |pat| {
    } else if s[..|pat|] == pat {
      var n := Removed(s[|pat|..], pat);
      RemoveAllLength(s[|pat|..], pat);
      assert |pat| * (1 + n) == |pat| + |pat| * n;
    } else {
      RemoveAllLength(s[1..], pat);
    }
  }

  /** Text in which the pattern does not occur is left unchanged, and nothing is removed. */
  lemma {:induction false} RemoveAllUnchanged(s: string, pat: string)
    requires |pat| > 0
    requires forall i :: !OccursAt(s, pat, i)
    ensures RemoveAll(s, pat) == s && Removed(s, pat) == 0
    decreases |s|
  {
    if |s| >= |pat| {
      assert !OccursAt(s, pat, 0);
      assert s[..|pat|] != pat;
      forall i
        ensures !OccursAt(s[1..], pat, i)
      {
        if OccursAt(s[1..], pat, i) {
          assert s[1..][i..i + |pat|] == s[i + 1..i + 1 + |pat|];
          assert OccursAt(s, pat, i + 1);
        }
      }
      RemoveAllUnchanged(s[1..], pat);
    }
  }

  /** Every occurrence removed is a real occurrence: a text with one removal contains the pattern. */
  lemma {:induction false} RemovedOccurs(s: string, pat: string)
    requires |pat| > 0 && Removed(s, pat) > 0
    ensures exists i :: OccursAt(s, pat, i)
    decreases |s|
  {
    if s[..|pat|] == pat {
      assert OccursAt(s, pat, 0);
    } else {
      RemovedOccurs(s[1..], pat);
      var i :| OccursAt(s[1..], pat, i);
      assert s[1..][i..i + |pat|] == s[i + 1..i + 1 + |pat|];
      assert OccursAt(s, pat, i + 1);
    }
  }

  /** The text that remains keeps its order: it is a subsequence of the input. */
  lemma {:induction false} RemoveAllKeepsOrder(s: string, pat: string)
    requires |pat| > 0
    ensures IsSubsequence(RemoveAll(s, pat), s)
    decreases |s|
  {
    if |s| < |pat| {
      SubsequenceReflexive(s);
    } else if s[..|pat|] == pat {
      RemoveAllKeepsOrder(s[|pat|..], pat);
      SubsequenceOfSuffix(RemoveAll(s, pat), s, |pat|);
    } else {
      RemoveAllKeepsOrder(s[1..], pat);
      var r := RemoveAll(s[1..], pat);
      assert ([s[0]] + r)[1..] == r;
    }
  }

  /** Every text is a subsequence of itself. */
  lemma {:induction false} SubsequenceReflexive(s: string)
    ensures IsSubsequence(s, s)
    decreases |s|
  {
    if |s| > 0 {
      SubsequenceReflexive(s[1..]);
    }
  }

  /** The replies normalisation: `s.Replace("\"replies\": \"\",", string.Empty)`. */
  function RemoveEmptyReplies(s: string): (r: string)
    ensures |r| == |s| - 14 * Removed(s, RepliesLiteral)
  {
    RemoveAllLength(s, RepliesLiteral);
    RemoveAll(s, RepliesLiteral)
  }

  /**
   * True when a children-list body ends at `e`: `s[e-3..e]` is `"],` and
   * every character between the opening `"children": ["` and it is not a
   * newline (what `.` matches).
   */
  predicate BodyEndsAt(s: string, e: int)
  {
    18 <= e <= |s| && s[e - 3..e] == ChildrenClose
    && forall j :: 14 <= j < e - 3 ==> s[j] != '\n'
  }

  /** True when `s` starts with a match of `"children": \[".+?"\],` that ends at `e` (for some body). */
  predicate MatchesTo(s: string, e: int)
  {
    OccursAt(s, ChildrenOpen, 0) && BodyEndsAt(s, e)
  }

  /**
   * The lazy `.+?` scan: the earliest `e >= k + 3` at which the body ends,
   * given that the body so far, `s[14..k]`, holds no newline.
   */
  function ScanBody(s: string, k: nat): (r: Option<nat>)
    requires 15 <= k <= |s|
    requires forall j :: 14 <= j < k ==> s[j] != '\n'
    ensures r.Some? ==> k + 3 <= r.value && BodyEndsAt(s, r.value)
    ensures r.Some? ==> forall e :: k + 3 <= e < r.value ==> !BodyEndsAt(s, e)
    ensures r.None? ==> forall e :: k + 3 <= e ==> !BodyEndsAt(s, e)
    decreases |s| - k
  {
    if k + 3 > |s| then None
    else if s[k..k + 3] == ChildrenClose then Some(k + 3)
    else if s[k] == '\n' then
      assert forall e :: k + 3 < e ==> !BodyEndsAt(s, e) by {
        forall e | k + 3 < e
          ensures !BodyEndsAt(s, e)
        {
          assert 14 <= k < e - 3;
        }
      }
      None
    else ScanBody(s, k + 1)
  }

  /**
   * Where the match of `"children": \[".+?"\],` starting at the front of `s`
   * ends, or `None` when no match starts there. The lazy quantifier picks the
   * earliest possible end.
   */
  function MatchEnd(s: string): (r: Option<nat>)
    ensures r.Some? ==> MatchesTo(s, r.value)
    ensures r.Some? ==> forall e :: MatchesTo(s, e) ==> r.value <= e
    ensures r.None? ==> forall e :: !MatchesTo(s, e)
  {
    if OccursAt(s, ChildrenOpen, 0) && 15 <= |s| && s[14] != '\n' then ScanBody(s, 15)
    else None
  }

  /**
   * `Regex.Replace(s, "\"children\": \\[\".+?\"\\],", string.Empty)`: the text
   * scanned left to right, each match removed and scanning resumed after it.
   */
  function RemoveChildIdLists(s: string): string
    decreases |s|
  {
    if |s| == 0 then []
    else match MatchEnd(s)
      case Some(e) => RemoveChildIdLists(s[e..])
      case None => [s[0]] + RemoveChildIdLists(s[1..])
  }

  /** Text in which `"children": ["` never occurs is left unchanged. */
  lemma {:induction false} RemoveChildIdListsUnchanged(s: string)
    requires forall i :: !OccursAt(s, ChildrenOpen, i)
    ensures RemoveChildIdLists(s) == s
    decreases |s|
  {
    if |s| > 0 {
      assert !OccursAt(s, ChildrenOpen, 0);
      forall i
        ensures !OccursAt(s[1..], ChildrenOpen, i)
      {
        if OccursAt(s[1..], ChildrenOpen, i) {
          assert s[1..][i..i + 14] == s[i + 1..i + 15];
          assert OccursAt(s, ChildrenOpen, i + 1);
        }
      }
      RemoveChildIdListsUnchanged(s[1..]);
    }
  }

  /** The text that remains keeps its order: it is a subsequence of the input. */
  lemma {:induction false} RemoveChildIdListsKeepsOrder(s: string)
    ensures IsSubsequence(RemoveChildIdLists(s), s)
    decreases |s|
  {
    if |s| > 0 {
      match MatchEnd(s)
      case Some(e) =>
        RemoveChildIdListsKeepsOrder(s[e..]);
        SubsequenceOfSuffix(RemoveChildIdLists(s), s, e);
      case None =>
        RemoveChildIdListsKeepsOrder(s[1..]);
        var r := RemoveChildIdLists(s[1..]);
        assert ([s[0]] + r)[1..] == r;
    }
  }

  /** Where no match starts, the first character is kept and scanning resumes after it. */
  lemma RemoveChildIdListsNoMatch(s: string)
    requires |s| > 0 && MatchEnd(s).None?
    ensures RemoveChildIdLists(s) == [s[0]] + RemoveChildIdLists(s[1..])
  {
  }

  /**
   * Text before the first place a match starts is kept as it is, in order:
   * when no match starts at any of the first `i` positions, the output begins
   * with those `i` characters and continues with the output for the rest.
   */
  lemma {:induction false} RemoveChildIdListsKeepsPrefix(s: string, i: nat)
    requires i <= |s|
    requires forall j :: 0 <= j < i ==> MatchEnd(s[j..]).None?
    ensures RemoveChildIdLists(s) == s[..i] + RemoveChildIdLists(s[i..])
    decreases i
  {
    if i > 0 {
      var t := s[1..];
      assert s[0..] == s;
      RemoveChildIdListsNoMatch(s);
      forall j | 0 <= j < i - 1
        ensures MatchEnd(t[j..]).None?
      {
        assert t[j..] == s[j + 1..];
      }
      RemoveChildIdListsKeepsPrefix(t, i - 1);
      assert t[i - 1..] == s[i..];
      assert s[..i] == [s[0]] + t[..i - 1];
    }
  }

  /**
   * The first match, starting at `i` and `e` characters long, is dropped:
   * the output is the text before it, then the output for the text after it.
   */
  lemma {:induction false} RemoveChildIdListsFirstMatch(s: string, i: nat, e: nat)
    requires i < |s|
    requires forall j :: 0 <= j < i ==> MatchEnd(s[j..]).None?
    requires MatchEnd(s[i..]) == Some(e)
    ensures i + e <= |s|
    ensures RemoveChildIdLists(s) == s[..i] + RemoveChildIdLists(s[i + e..])
  {
    RemoveChildIdListsKeepsPrefix(s, i);
    var t := s[i..];
    assert t[e..] == s[i + e..];
  }

  /** Removal only ever shortens the text. */
  lemma {:induction false} RemoveChildIdListsShortens(s: string)
    ensures |RemoveChildIdLists(s)| <= |s|
    decreases |s|
  {
    if |s| > 0 {
      match MatchEnd(s)
      case Some(e) => RemoveChildIdListsShortens(s[e..]);
      case None => RemoveChildIdListsShortens(s[1..]);
    }
  }

  /** Both normalisations of an array payload, in the order `DeserializeList` applies them. */
  function Normalise(s: string): string
  {
    RemoveChildIdLists(RemoveEmptyReplies(s))
  }
}
