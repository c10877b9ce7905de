/**
  The access-code set of `app/config/server.ts` (`getAccessCodes`): the `CODE`
  variable is split on commas, empty segments are dropped, the others are trimmed
  and hashed, and the hashes are collected into a set. The digest (MD5 in the
  source) is the parameter `hash`.
 */
module AccessCodes {
  import opened JsValues
  import opened JsStrings

  /** The comma-separated segments of `CODE`; an absent `CODE` has no segments at all. */
  function Segments(code: Option<string>): seq<string>
  {
    if code.Some? then Split(code.value, ',') else []
  }

  /** The segments that are not empty, in order. */
  function NonEmptySegments(segs: seq<string>): (r: seq<string>)
    ensures forall s :: s in r <==> s in segs && s != ""
  {
    if segs == [] then []
    else (if segs[0] != "" then [segs[0]] else []) + NonEmptySegments(segs[1..])
  }

  /**
    The set of the hashed, trimmed non-empty segments. Emptiness is checked before
    trimming, so a segment made of blanks contributes `hash("")`.
   */
  function GetAccessCodes(code: Option<string>, hash: string -> string): (codes: set<string>)
    ensures forall c :: c in codes <==> exists seg :: seg in Segments(code) && seg != "" && c == hash(Trim(seg))
  {
    set seg | seg in NonEmptySegments(Segments(code)) :: hash(Trim(seg))
  }

  /** With `CODE` absent or empty no access code is configured. */
  lemma NoCodeNoAccessCodes(hash: string -> string)
    ensures GetAccessCodes(None, hash) == {}
    ensures GetAccessCodes(Some(""), hash) == {}
  {
    assert Segments(Some("")) == [""];
  }

  /** The codes of `a,b` are those of `a` together with those of `b`. */
  lemma AccessCodesConcat(a: string, b: string, hash: string -> string)
    ensures GetAccessCodes(Some(a + "," + b), hash) == GetAccessCodes(Some(a), hash) + GetAccessCodes(Some(b), hash)
  {
    SplitConcat(a, b, ',');
    assert a + "," + b == a + [','] + b;
  }

  /** Repeating a list of codes adds nothing: duplicates collapse. */
  lemma AccessCodesRepeat(a: string, hash: string -> string)
    ensures GetAccessCodes(Some(a + "," + a), hash) == GetAccessCodes(Some(a), hash)
  {
    AccessCodesConcat(a, a, hash);
  }

  /** A single non-empty segment of blanks is not dropped: it yields the hash of `""`. */
  lemma BlankSegmentHashesEmpty(seg: string, hash: string -> string)
    requires seg != "" && ',' !in seg
    requires forall i :: 0 <= i < |seg| ==> IsWhitespace(seg[i])
    ensures GetAccessCodes(Some(seg), hash) == {hash("")}
  {
    SplitNoSeparator(seg, ',');
    AllWhitespaceTrimsToEmpty(seg);
  }

  /** A single segment without a comma yields exactly the hash of its trimmed form. */
  lemma SingleSegment(seg: string, hash: string -> string)
    requires seg != "" && ',' !in seg
    ensures GetAccessCodes(Some(seg), hash) == {hash(Trim(seg))}
  {
    SplitNoSeparator(seg, ',');
  }

  /**
    A code written three times, once padded with blanks (`"a, a ,a"` for `x == "a"`),
    trims to three equal segments and leaves one access code.
   */
  lemma SpacedDuplicatesCollapse(x: string, hash: string -> string)
    requires x != "" && ',' !in x
    requires !IsWhitespace(x[0]) && !IsWhitespace(x[|x| - 1])
    ensures GetAccessCodes(Some(x + ", " + x + " ," + x), hash) == {hash(x)}
  {
    var spaced := " " + x + " ";
    assert x + ", " + x + " ," + x == x + "," + (spaced + "," + x);
    PaddedTrim(x);
    TrimKeepsTrimmed(x);
    ThreeCopies(x, spaced, hash);
  }

  /** Segments `x,y,x` where `y` trims like `x` give the one code of `x`. */
  lemma ThreeCopies(x: string, y: string, hash: string -> string)
    requires x != "" && ',' !in x
    requires y != "" && ',' !in y && Trim(y) == Trim(x)
    ensures GetAccessCodes(Some(x + "," + (y + "," + x)), hash) == {hash(Trim(x))}
  {
    SingleSegment(x, hash);
    SingleSegment(y, hash);
    AccessCodesConcat(y, x, hash);
    AccessCodesConcat(x, y + "," + x, hash);
  }

  /** One blank on each side of a trimmed string is removed by `trim`. */
  lemma PaddedTrim(x: string)
    requires x != "" && ',' !in x
    requires !IsWhitespace(x[0]) && !IsWhitespace(x[|x| - 1])
    ensures ',' !in " " + x + " "
    ensures Trim(" " + x + " ") == x
  {
    var spaced := " " + x + " ";
    assert spaced[1..] == x + " ";
    assert TrimStart(x + " ") == x + " ";
    assert (x + " ")[..|x|] == x;
  }
}
