/** The Java platform, Jenkins and Apache Commons string helpers the plugin calls:
    `String.trim`, `Util.fixEmptyAndTrim`, `StringUtils.trim`, `StringUtils.isNotBlank`
    and `StringUtils.isNotEmpty`. A Java `String` that may be null is an
    `Option<string>`. */
module JavaText {
  import opened Wrappers

  /** `String.trim` drops every leading and trailing character whose code is at
      most U+0020: the space and the controls U+0000 to U+001F (U+007F is
      kept). */
  predicate IsTrimmable(c: char) {
    c <= ' '
  }

  /** `Character.isWhitespace`: the Unicode space, line and paragraph separators
      other than the no-break spaces U+00A0, U+2007 and U+202F, plus the ASCII
      controls U+0009 to U+000D and U+001C to U+001F. */
  predicate IsWhitespace(c: char): (r: bool)
    ensures r && c <= '\U{7F}' ==> IsTrimmable(c)
    ensures r ==> c != '\U{A0}' && c != '\U{2007}' && c != '\U{202F}'
    ensures c == ' ' || c == '\t' || c == '\n' || c == '\r' ==> r
  {
    || '\t' <= c <= '\r'
    || '\U{1C}' <= c <= ' '
    || c == '\U{1680}'
    || '\U{2000}' <= c <= '\U{2006}'
    || '\U{2008}' <= c <= '\U{200A}'
    || c == '\U{2028}'
    || c == '\U{2029}'
    || c == '\U{205F}'
    || c == '\U{3000}'
  }

  /** Where `String.trim` starts keeping characters, scanning forward from `i`:
      the first position at or after `i` whose character is not trimmable, or
      the end of `s`. */
  function TrimStartIndex(s: string, i: nat): (lo: nat)
    requires i <= |s|
    ensures i <= lo <= |s|
    ensures forall k :: i <= k < lo ==> IsTrimmable(s[k])
    ensures lo < |s| ==> !IsTrimmable(s[lo])
    decreases |s| - i
  {
    if i < |s| && IsTrimmable(s[i]) then TrimStartIndex(s, i + 1) else i
  }

  /** Where `String.trim` stops keeping characters, scanning backward from `hi`
      but not below `lo`: just after the last position before `hi` whose
      character is not trimmable, or `lo`. */
  function TrimEndIndex(s: string, lo: nat, hi: nat): (end: nat)
    requires lo <= hi <= |s|
    ensures lo <= end <= hi
    ensures forall k :: end <= k < hi ==> IsTrimmable(s[k])
    ensures lo < end ==> !IsTrimmable(s[end - 1])
    decreases hi
  {
    if lo < hi && IsTrimmable(s[hi - 1]) then TrimEndIndex(s, lo, hi - 1) else hi
  }

  /** `String.trim`. */
  function Trim(s: string): (r: string)
    ensures |r| <= |s|
    ensures r == [] <==> forall k :: 0 <= k < |s| ==> IsTrimmable(s[k])
    ensures r != [] ==> !IsTrimmable(r[0]) && !IsTrimmable(r[|r| - 1])
  {
    var lo := TrimStartIndex(s, 0);
    s[lo..TrimEndIndex(s, lo, |s|)]
  }

  /** The trimmed text is the slice of `s` between a trimmable prefix and a
      trimmable suffix. */
  lemma TrimIsSlice(s: string)
    ensures var lo := TrimStartIndex(s, 0);
            var hi := TrimEndIndex(s, lo, |s|);
            && Trim(s) == s[lo..hi]
            && (forall k :: 0 <= k < lo ==> IsTrimmable(s[k]))
            && (forall k :: hi <= k < |s| ==> IsTrimmable(s[k]))
  {
  }

  /** Trimming an already trimmed string changes nothing. */
  lemma TrimIdempotent(s: string)
    ensures Trim(Trim(s)) == Trim(s)
  {
    var t := Trim(s);
    if t != [] {
      assert TrimStartIndex(t, 0) == 0;
      assert TrimEndIndex(t, 0, |t|) == |t|;
      assert t[0..|t|] == t;
    }
  }

  /** `StringUtils.trim`: null stays null, otherwise `String.trim`. */
  function TrimNullable(s: Option<string>): (r: Option<string>)
    ensures r.None? <==> s.None?
    ensures r.Some? ==> s.Some? && r.value == Trim(s.value)
  {
    match s
    case None => None
    case Some(text) => Some(Trim(text))
  }

  /** `Util.fixEmptyAndTrim`: the trimmed text, or null when the input is null or
      trims to the empty string. */
  function FixEmptyAndTrim(s: Option<string>): (r: Option<string>)
    ensures r.None? <==> s.None? || forall k :: 0 <= k < |s.value| ==> IsTrimmable(s.value[k])
    ensures r.Some? ==> s.Some? && r.value == Trim(s.value) && r.value != []
  {
    match s
    case None => None
    case Some(text) =>
      var t := Trim(text);
      if t == [] then None else Some(t)
  }

  /** A non-null text is a fixed point of `Util.fixEmptyAndTrim` exactly when it
      is non-empty and already trimmed (the empty text becomes null), and the
      value `fixEmptyAndTrim` returns is a fixed point of both it and
      `StringUtils.trim`. */
  lemma FixEmptyAndTrimIdempotent(s: Option<string>)
    ensures s.Some? ==> (FixEmptyAndTrim(s) == s <==> s.value != [] && Trim(s.value) == s.value)
    ensures FixEmptyAndTrim(FixEmptyAndTrim(s)) == FixEmptyAndTrim(s)
    ensures TrimNullable(FixEmptyAndTrim(s)) == FixEmptyAndTrim(s)
  {
    if s.Some? {
      TrimIdempotent(s.value);
    }
  }

  /** `StringUtils.isBlank`: null, empty, or only `Character.isWhitespace` characters. */
  predicate IsBlank(s: Option<string>): (r: bool)
    ensures !IsNotEmpty(s) ==> r
    ensures r && s.Some? ==> forall k :: 0 <= k < |s.value| ==> IsWhitespace(s.value[k])
  {
    s.None? || forall k :: 0 <= k < |s.value| ==> IsWhitespace(s.value[k])
  }

  /** `StringUtils.isNotBlank`: some character is not whitespace, so the text is
      in particular not empty. */
  predicate IsNotBlank(s: Option<string>): (r: bool)
    ensures r ==> IsNotEmpty(s)
    ensures r ==> exists k :: 0 <= k < |s.value| && !IsWhitespace(s.value[k])
  {
    !IsBlank(s)
  }

  /** `StringUtils.isNotEmpty`: neither null nor of length zero. */
  predicate IsNotEmpty(s: Option<string>): (r: bool)
    ensures r <==> s != None && s != Some([])
  {
    s.Some? && s.value != []
  }

  /** Trimming never makes blank text non-blank, but it can make non-blank
      text blank: `String.trim` also drops control characters that
      `Character.isWhitespace` does not count as whitespace. */
  lemma {:induction false} TrimKeepsBlank(s: Option<string>)
    ensures IsBlank(s) ==> IsBlank(TrimNullable(s))
    ensures IsNotBlank(Some("\U{0}")) && IsBlank(TrimNullable(Some("\U{0}")))
  {
    if IsBlank(s) && s.Some? {
      TrimIsSlice(s.value);
      var lo := TrimStartIndex(s.value, 0);
      var t := Trim(s.value);
      forall k | 0 <= k < |t| ensures IsWhitespace(t[k]) {
        assert t[k] == s.value[lo + k];
      }
    }
    assert !IsWhitespace("\U{0}"[0]);
  }
}
