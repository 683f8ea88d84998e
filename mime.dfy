/** The test that decides whether a finished recording is uploaded as it is:
    the case-insensitive pattern `mp4|quicktime|mov` searched anywhere in a
    MIME type. The pattern's letters are all ASCII, and a case-insensitive
    pattern without the unicode flag never folds a non-ASCII character onto
    an ASCII one, so comparing after ASCII lower-casing is exact. */
module Mime {
  import opened Text
  import opened Media

  /** The alternatives of the pattern, already in lower case. */
  const Markers: seq<string> := ["mp4", "quicktime", "mov"]

  /** The marker `w` (lower case) occurs in `s` at position `i`, ignoring case. */
  predicate MatchesAt(s: string, w: string, i: nat)
  {
    i + |w| <= |s| && Lower(s[i..i + |w|]) == w
  }

  /** A left-to-right search for `w` in `s`, starting at `from`. */
  function SearchFrom(s: string, w: string, from: nat): (found: bool)
    ensures found <==> exists i :: from <= i && MatchesAt(s, w, i)
    decreases |s| - from
  {
    if from + |w| > |s| then false
    else MatchesAt(s, w, from) || SearchFrom(s, w, from + 1)
  }

  function Contains(s: string, w: string): (found: bool)
    ensures found <==> exists i :: MatchesAt(s, w, i)
  {
    SearchFrom(s, w, 0)
  }

  /** `/mp4|quicktime|mov/i.test(s)`: true exactly when one of the three
      markers occurs somewhere in `s`, in any mix of upper and lower case. */
  function IsMp4Family(s: string): (b: bool)
    ensures b <==> exists w, i :: w in Markers && MatchesAt(s, w, i)
  {
    var r := Contains(s, "mp4") || Contains(s, "quicktime") || Contains(s, "mov");
    assert forall w :: w in Markers <==> w == "mp4" || w == "quicktime" || w == "mov";
    r
  }

  /** A marker found in a string is found in its lower-cased copy, and
      the other way round. */
  lemma MatchesAtLower(s: string, w: string, i: nat)
    ensures MatchesAt(Lower(s), w, i) <==> MatchesAt(s, w, i)
  {
    if i + |w| <= |s| {
      LowerSlice(s, i, i + |w|);
      LowerIdempotent(s[i..i + |w|]);
    }
  }

  /** Lower-casing a type does not change the test's answer. */
  lemma {:induction false} IsMp4FamilyLower(s: string)
    ensures IsMp4Family(Lower(s)) == IsMp4Family(s)
  {
    forall w, i | w in Markers
      ensures MatchesAt(Lower(s), w, i) <==> MatchesAt(s, w, i)
    {
      MatchesAtLower(s, w, i);
    }
  }

  /** The recording's blob takes its `type` from the MIME type, so the test on
      the blob's type can only succeed when the test on the MIME type does:
      the passthrough decision depends on the MIME type alone. */
  lemma PassthroughDependsOnMimeOnly(mime: string)
    ensures IsMp4Family(BlobTypeOf(mime)) || IsMp4Family(mime) <==> IsMp4Family(mime)
  {
    if forall k :: 0 <= k < |mime| ==> ' ' <= mime[k] <= '~' {
      IsMp4FamilyLower(mime);
    } else {
      assert BlobTypeOf(mime) == "";
      assert forall w, i :: w in Markers ==> !MatchesAt("", w, i);
    }
  }

  /** A marker matched at `i` starts with `m` or `q` there, and its second
      letter matches the next character. */
  lemma MarkerStart(s: string, w: string, i: nat)
    requires w in Markers && MatchesAt(s, w, i)
    ensures LowerAscii(s[i]) == w[0] && LowerAscii(s[i + 1]) == w[1]
    ensures w[0] == 'm' || w[0] == 'q'
  {
    assert Lower(s[i..i + |w|])[0] == w[0] && Lower(s[i..i + |w|])[1] == w[1];
  }

  /** The two MP4-family preferences are uploaded as they are. */
  lemma Mp4PreferencesPassThrough()
    ensures IsMp4Family("video/mp4") && IsMp4Family("video/quicktime")
  {
    assert MatchesAt("video/mp4", "mp4", 6);
    assert MatchesAt("video/quicktime", "quicktime", 6);
  }

  /** A type in which no `q` starts a marker and no `m` is followed by `p`
      or `o`, in either case, holds no marker. */
  lemma {:induction false} NoMarkerWithoutStart(s: string)
    requires forall k :: 0 <= k < |s| - 2 ==>
               && LowerAscii(s[k]) != 'q'
               && (LowerAscii(s[k]) == 'm' ==> LowerAscii(s[k + 1]) != 'p' && LowerAscii(s[k + 1]) != 'o')
    ensures !IsMp4Family(s)
  {
    forall w, i | w in Markers
      ensures !MatchesAt(s, w, i)
    {
      if MatchesAt(s, w, i) {
        MarkerStart(s, w, i);
        assert false;
      }
    }
  }

  /** The two WebM preferences, `video/webm` with or without the VP8 and
      Opus codec parameters, are converted before the upload: the `m` of
      `webm` is followed by nothing or by `;`. */
  lemma WebmPreferencesAreConverted(t: string)
    requires t == "video/webm" || t == "video/webm;codecs=vp8,opus"
    ensures !IsMp4Family(t)
  {
    NoMarkerWithoutStart(t);
  }
}
