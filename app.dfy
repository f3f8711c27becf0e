/** The pure logic of the Streamlit front end: removing the word
    "Influencer" from a display name, the platform key chosen from the
    content-type selection, the default video length and its reset in the
    session, and the state the pipeline starts from. */
module App {
  import opened Values
  import opened Text
  import opened ScriptState
  import DirectorGraph

  /** The pattern word, lower case. */
  const Word := "influencer"

  /** `\w`: letters, digits and `_`, as far as the Latin blocks up to
      U+024F; characters beyond them count as non-word characters. */
  predicate WordChar(c: char) {
    || ('a' <= c <= 'z') || ('A' <= c <= 'Z') || ('0' <= c <= '9') || c == '_'
    || c == '\U{aa}' || c == '\U{b2}' || c == '\U{b3}' || c == '\U{b5}' || c == '\U{b9}'
    || c == '\U{ba}' || ('\U{bc}' <= c <= '\U{be}')
    || ('\U{c0}' <= c <= '\U{24f}' && c != '\U{d7}' && c != '\U{f7}')
  }

  /** A text character matching a pattern character under `re.IGNORECASE`:
      the two ASCII cases, and for `i` also U+0130 and U+0131. */
  predicate CaselessMatch(c: char, p: char) {
    LowerChar(c) == p || (p == 'i' && (c == '\U{130}' || c == '\U{131}'))
  }

  /** `\b` at position `k` of `s`. */
  predicate Boundary(s: string, k: int)
    requires 0 <= k <= |s|
  {
    (k > 0 && WordChar(s[k - 1])) != (k < |s| && WordChar(s[k]))
  }

  /** `\bInfluencer\b` matches at position `p`. */
  predicate MatchAt(s: string, p: int) {
    && 0 <= p && p + |Word| <= |s|
    && (forall j :: 0 <= j < |Word| ==> CaselessMatch(s[p + j], Word[j]))
    && Boundary(s, p) && Boundary(s, p + |Word|)
  }

  /** Every character that matches a letter of the word is a word character,
      so two whole-word matches never overlap. */
  lemma MatchesDisjoint(s: string, p: int, q: int)
    requires MatchAt(s, p) && p < q < p + |Word|
    ensures !MatchAt(s, q)
  {
    assert CaselessMatch(s[q - 1], Word[q - 1 - p]);
    assert CaselessMatch(s[q], Word[q - p]);
  }

  /** `re.sub(r'\bInfluencer\b', '', s[i:], flags=re.IGNORECASE)` with the
      boundaries judged on the whole of `s`: the scan left to right that
      drops each match and keeps every other character. */
  function Scan(s: string, i: nat): string
    requires i <= |s|
    decreases |s| - i
  {
    if i == |s| then ""
    else if MatchAt(s, i) then Scan(s, i + |Word|)
    else [s[i]] + Scan(s, i + 1)
  }

  /** Position `k` lies inside some whole-word match. */
  ghost predicate Covered(s: string, k: int) {
    exists p :: k - |Word| < p <= k && MatchAt(s, p)
  }

  /** The reference: the characters of `s[i:]` outside every match, in order. */
  ghost function Kept(s: string, i: nat): string
    requires i <= |s|
    decreases |s| - i
  {
    if i == |s| then "" else (if Covered(s, i) then "" else [s[i]]) + Kept(s, i + 1)
  }

  /** The characters of a match are all dropped by the reference. */
  lemma {:induction false} KeptSkipsMatch(s: string, p: nat, i: nat)
    requires MatchAt(s, p) && p <= i <= p + |Word|
    ensures Kept(s, i) == Kept(s, p + |Word|)
    decreases p + |Word| - i
  {
    if i < p + |Word| {
      assert Covered(s, i);
      KeptSkipsMatch(s, p, i + 1);
    }
  }

  /** The scan agrees with the reference from every position that is not
      inside a match. */
  lemma {:induction false} ScanIsKept(s: string, i: nat)
    requires i <= |s|
    requires forall p :: i - |Word| < p < i ==> !MatchAt(s, p)
    ensures Scan(s, i) == Kept(s, i)
    decreases |s| - i
  {
    if i < |s| {
      if MatchAt(s, i) {
        forall q | i < q < i + |Word| ensures !MatchAt(s, q) {
          MatchesDisjoint(s, i, q);
        }
        KeptSkipsMatch(s, i, i);
        ScanIsKept(s, i + |Word|);
      } else {
        assert !Covered(s, i);
        ScanIsKept(s, i + 1);
      }
    }
  }

  /** `remove_influencer(text)`: every case-insensitive whole-word
      "Influencer" deleted, then the ends stripped. */
  function RemoveInfluencer(text: string): (r: string)
    ensures r == Strip(Kept(text, 0))
    ensures r != [] ==> !IsSpace(r[0]) && !IsSpace(r[|r| - 1])
  {
    ScanIsKept(text, 0);
    Strip(Scan(text, 0))
  }

  /** Without a whole-word match the scan keeps the text as it is. */
  lemma {:induction false} ScanWithoutMatch(s: string, i: nat)
    requires i <= |s|
    requires forall p :: i <= p < |s| ==> !MatchAt(s, p)
    ensures Scan(s, i) == s[i..]
    decreases |s| - i
  {
    if i < |s| {
      ScanWithoutMatch(s, i + 1);
    }
  }

  /** Words that only contain the word, such as "Influencers", are kept. */
  lemma PluralKept(prose: string)
    requires forall p :: 0 <= p < |prose| ==> !MatchAt(prose + "Influencers", p)
    ensures RemoveInfluencer(prose + "Influencers") == Strip(prose + "Influencers")
  {
    var s := prose + "Influencers";
    forall p | |prose| <= p < |s| ensures !MatchAt(s, p) {
      if p == |prose| {
        assert s[p + |Word|] == 's';
      } else if p == |prose| + 1 {
        assert s[p] == 'n';
        assert !CaselessMatch(s[p], Word[0]);
      }
    }
    ScanWithoutMatch(s, 0);
    ScanIsKept(s, 0);
  }

  /** The scan drops a trailing whole word and keeps the space before it. */
  lemma ScanTrailingWord()
    ensures Scan("Alex Influencer", 0) == "Alex "
  {
    var s := "Alex Influencer";
    assert MatchAt(s, 5);
    forall p | 0 <= p < 5 ensures !MatchAt(s, p) {
      assert !CaselessMatch(s[p], Word[0]);
    }
    assert Scan(s, 5) == "";
    assert Scan(s, 4) == " ";
    assert Scan(s, 2) == "ex ";
  }

  /** A display name whose last word is the word loses that word and the
      space before it. */
  lemma TrailingWordRemoved()
    ensures RemoveInfluencer("Alex Influencer") == "Alex"
  {
    ScanTrailingWord();
    assert SkipLeft("Alex ", 0) == 0;
    assert SkipRight("Alex ", 0, 5) == 4;
  }

  /** The platform key: "youtube" exactly when the lower-cased selection
      contains "youtube". */
  function ContentKey(selection: string): (key: string)
    ensures key == "youtube" <==> Contains(Lower(selection), "youtube")
    ensures key == "youtube" || key == "instagram"
  {
    if Contains(Lower(selection), "youtube") then "youtube" else "instagram"
  }

  /** The two choices offered map to the two platforms. */
  lemma ContentKeyOfChoices()
    ensures ContentKey("YouTube (Long-form)") == "youtube"
    ensures ContentKey("Instagram (Short-form)") == "instagram"
  {
    var yt := Lower("YouTube (Long-form)");
    assert yt[..7] == "youtube";
    assert OccursAt(yt, "youtube", 0);
    var ig := Lower("Instagram (Short-form)");
    forall i | 0 <= i <= |ig| - 7 ensures !OccursAt(ig, "youtube", i) {
      assert ig[i] != 'y';
      assert ig[i..i + 7][0] == ig[i];
    }
  }

  /** The default video length in seconds for a platform. */
  function DefaultDuration(key: string): (d: int)
    ensures key == "instagram" ==> d == 60
    ensures key != "instagram" ==> d == 180
  {
    if key == "instagram" then 60 else 180
  }

  /** The two session-state entries the length selection keeps. */
  class Session {
    var duration: Option<int>
    var lastContentType: Option<string>

    constructor ()
      ensures duration == None && lastContentType == None
    {
      duration := None;
      lastContentType := None;
    }

    /** One rerun of the length selection: the stored length starts at 180
        and is reset to the platform's default only when the platform
        differs from the last one seen. */
    method AdjustDuration(key: string)
      modifies this
      ensures lastContentType == Some(key)
      ensures old(lastContentType) != Some(key) ==> duration == Some(DefaultDuration(key))
      ensures old(lastContentType) == Some(key) ==> duration == Some(old(duration).GetOr(180))
    {
      if duration.None? {
        duration := Some(180);
      }
      if lastContentType != Some(key) {
        duration := Some(DefaultDuration(key));
        lastContentType := Some(key);
      }
    }
  }

  /** The session after one rerun, as a value. */
  function Adjusted(duration: Option<int>, last: Option<string>, key: string): (after: (int, string))
    ensures after.1 == key
    ensures last != Some(key) ==> after.0 == DefaultDuration(key)
    ensures last == Some(key) ==> after.0 == duration.GetOr(180)
  {
    if last != Some(key) then (DefaultDuration(key), key) else (duration.GetOr(180), key)
  }

  /** A second rerun with the same platform leaves the session's stored
      length and platform as the first rerun left them. */
  lemma AdjustedIdempotent(duration: Option<int>, last: Option<string>, key: string)
    ensures var once := Adjusted(duration, last, key);
      Adjusted(Some(once.0), Some(once.1), key) == once
  {
  }

  /** The pipeline's initial state: exactly topic, influencer, style
      profile, duration and content type. */
  function InitialState(topic: string, influencer: string, styleProfile: Obj,
                        duration: int, contentKey: string): (f: Fields)
    ensures f == NoFields().(topic := Some(topic), influencer := Some(influencer),
                             styleProfile := Some(styleProfile), duration := Some(duration),
                             contentType := Some(contentKey))
  {
    Fields(Some(topic), Some(influencer), Some(styleProfile), Some(duration), Some(contentKey),
           None, None, None, None, None, None, None, None, None, None, None)
  }

  /** The initial state routes the instagram key to the short-form writer
      and the youtube key to the long-form writer, and starts with no
      revisions made. */
  lemma InitialStateRoutes(topic: string, influencer: string, styleProfile: Obj, duration: int, selection: string)
    ensures var f := InitialState(topic, influencer, styleProfile, duration, ContentKey(selection));
      && (DirectorGraph.ChooseWriterLabel(f.contentType) == "shortform" <==> ContentKey(selection) == "instagram")
      && f.revisionCount == None && f.revisionFeedback == None
  {
    var key := ContentKey(selection);
    assert Lower("instagram") == "instagram";
    if key == "youtube" {
      assert Lower(key)[0] == 'y';
    }
  }
}
