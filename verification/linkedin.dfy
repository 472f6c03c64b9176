/** Extraction of a profile identifier from a LinkedIn address, as the admin
    forms do it: the leftmost occurrence of `linkedin.com/in/` followed by at
    least one character other than '/', captured greedily up to the next '/'
    or the end of the text. */
module LinkedIn {
  import opened Wrappers

  const MARKER: string := "linkedin.com/in/"

  /** Whether the pattern matches at position `i`: the marker, then a
      character that can start the capture. */
  predicate MatchesAt(s: string, i: nat) {
    i + |MARKER| < |s| && s[i..i + |MARKER|] == MARKER && s[i + |MARKER|] != '/'
  }

  /** The length of the run of characters other than '/' starting at `from`. */
  function RunLength(s: string, from: nat): (n: nat)
    requires from <= |s|
    ensures from + n <= |s|
    ensures forall k :: from <= k < from + n ==> s[k] != '/'
    ensures from + n == |s| || s[from + n] == '/'
    decreases |s| - from
  {
    if from == |s| || s[from] == '/' then 0 else 1 + RunLength(s, from + 1)
  }

  /** The leftmost position at or after `from` where the pattern matches. */
  function FindMatch(s: string, from: nat): (r: Option<nat>)
    requires from <= |s|
    ensures r.Some? ==> from <= r.value && MatchesAt(s, r.value)
    ensures r.Some? ==> forall j :: from <= j < r.value ==> !MatchesAt(s, j)
    ensures r.None? <==> forall j :: from <= j <= |s| ==> !MatchesAt(s, j)
    decreases |s| - from
  {
    if MatchesAt(s, from) then Some(from)
    else if from == |s| then None
    else FindMatch(s, from + 1)
  }

  /** The first capture of the pattern, or `None` when it does not match. */
  function Extract(s: string): (r: Option<string>)
    ensures r.None? <==> forall j :: 0 <= j <= |s| ==> !MatchesAt(s, j)
    ensures r.Some? ==> r.value != [] && forall k :: 0 <= k < |r.value| ==> r.value[k] != '/'
  {
    match FindMatch(s, 0)
    case None => None
    case Some(i) =>
      var start := i + |MARKER|;
      Some(s[start..start + RunLength(s, start)])
  }

  /** The capture is exactly the text after the leftmost match (which
      `FindMatch` finds), up to the next '/' or the end: it cannot be
      extended. */
  lemma ExtractIsLeftmostMaximalRun(s: string)
    requires Extract(s).Some?
    ensures FindMatch(s, 0).Some?
    ensures var i := FindMatch(s, 0).value;
            var start := i + |MARKER|;
            var id := Extract(s).value;
            && start + |id| <= |s| && s[start..start + |id|] == id
            && (start + |id| == |s| || s[start + |id|] == '/')
  {
    var i := FindMatch(s, 0).value;
    var start := i + |MARKER|;
    var n := RunLength(s, start);
    assert Extract(s).value == s[start..start + n];
  }

  /** Extraction ignores what precedes the marker and what follows the
      identifier. */
  lemma ExtractFromProfileAddress(prefix: string, id: string, rest: string)
    requires id != [] && forall k :: 0 <= k < |id| ==> id[k] != '/'
    requires forall j :: 0 <= j <= |prefix| ==> !MatchesAt(prefix + MARKER, j)
    ensures Extract(prefix + MARKER + id + "/" + rest) == Some(id)
  {
    var s := prefix + MARKER + id + "/" + rest;
    var i := |prefix|;
    MatchAfterPrefix(prefix, id, rest);
    NoMatchBeforePrefix(prefix, id, rest);
    FindMatchIsLeftmost(s, 0, i);
    IdentifierAfterMarker(prefix, id, rest);
    ExtractAt(s, i);
  }

  /** Extraction reads the capture after the match `FindMatch` finds. */
  lemma ExtractAt(s: string, i: nat)
    requires i <= |s| && FindMatch(s, 0) == Some(i)
    ensures i + |MARKER| <= |s|
    ensures Extract(s) == Some(s[i + |MARKER|..i + |MARKER| + RunLength(s, i + |MARKER|)])
  {
  }

  /** After the marker, the capture runs exactly over the identifier. */
  lemma IdentifierAfterMarker(prefix: string, id: string, rest: string)
    requires forall k :: 0 <= k < |id| ==> id[k] != '/'
    ensures var s := prefix + MARKER + id + "/" + rest;
            var start := |prefix| + |MARKER|;
            start + |id| <= |s| && RunLength(s, start) == |id| && s[start..start + |id|] == id
  {
    var s := prefix + MARKER + id + "/" + rest;
    var start := |prefix| + |MARKER|;
    assert s == (prefix + MARKER) + id + ("/" + rest);
    assert forall k :: 0 <= k < |id| ==> s[start + k] == id[k];
    assert s[start + |id|] == '/';
    RunLengthStopsAtSlash(s, start, |id|);
    assert s[start..start + |id|] == id;
  }

  /** The pattern matches where the marker is placed. */
  lemma MatchAfterPrefix(prefix: string, id: string, rest: string)
    requires id != [] && id[0] != '/'
    ensures MatchesAt(prefix + MARKER + id + "/" + rest, |prefix|)
  {
    var s := prefix + MARKER + id + "/" + rest;
    assert s[|prefix|..|prefix| + |MARKER|] == MARKER;
    assert s[|prefix| + |MARKER|] == id[0];
  }

  /** A match before the marker would already be a match in the prefix
      followed by the marker. */
  lemma NoMatchBeforePrefix(prefix: string, id: string, rest: string)
    requires id != []
    requires forall j :: 0 <= j <= |prefix| ==> !MatchesAt(prefix + MARKER, j)
    ensures forall j :: 0 <= j < |prefix| ==> !MatchesAt(prefix + MARKER + id + "/" + rest, j)
  {
    var s := prefix + MARKER + id + "/" + rest;
    var t := prefix + MARKER;
    assert s == t + (id + "/" + rest);
    forall j | 0 <= j < |prefix| ensures !MatchesAt(s, j) {
      assert !MatchesAt(t, j);
      assert t[j..j + |MARKER|] == s[j..j + |MARKER|];
      assert t[j + |MARKER|] == s[j + |MARKER|];
    }
  }

  /** When `i` is the first match at or after `from`, the search finds it. */
  lemma {:induction false} FindMatchIsLeftmost(s: string, from: nat, i: nat)
    requires from <= i <= |s| && MatchesAt(s, i)
    requires forall j :: from <= j < i ==> !MatchesAt(s, j)
    ensures FindMatch(s, from) == Some(i)
    decreases i - from
  {
    if from < i {
      FindMatchIsLeftmost(s, from + 1, i);
    }
  }

  /** A run of `n` non-'/' characters ending at a '/' has length `n`. */
  lemma {:induction false} RunLengthStopsAtSlash(s: string, from: nat, n: nat)
    requires from + n < |s| && s[from + n] == '/'
    requires forall k :: from <= k < from + n ==> s[k] != '/'
    ensures RunLength(s, from) == n
    decreases n
  {
    if n > 0 {
      RunLengthStopsAtSlash(s, from + 1, n - 1);
    }
  }

  /** A concrete address: the trailing '/' is not part of the identifier. */
  lemma ExtractExample()
    ensures Extract("linkedin.com/in/jane-doe/") == Some("jane-doe")
  {
    assert !MatchesAt(MARKER, 0);
    ExtractFromProfileAddress("", "jane-doe", "");
    assert "" + MARKER + "jane-doe" + "/" + "" == "linkedin.com/in/jane-doe/";
  }

  /** A marker followed directly by '/' captures nothing there. */
  lemma EmptyCaptureDoesNotMatch(rest: string)
    ensures !MatchesAt(MARKER + "/" + rest, 0)
  {
    assert (MARKER + "/" + rest)[|MARKER|] == '/';
  }
}
