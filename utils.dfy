/**
  Reference and text normalisation (src/utils.py): Python's `str.strip()`,
  `normalize_chat_ref` and `message_primary_text`.
 */
module Utils {
  import opened Wrappers

  /** A chat reference as the configuration holds it: an integer id, a string
      (username, `@handle` or `https://t.me/...` link), or Python's `None`. */
  datatype Ref = IntRef(id: int) | StrRef(s: string) | NoneRef

  const TmePrefix: string := "https://t.me/"

  /** Python's `str.isspace()` for one character: the code points that `str.strip()` removes. */
  predicate IsSpace(c: char) {
    var n := c as int;
    n == 0x20 || 0x09 <= n <= 0x0D || 0x1C <= n <= 0x1F || n == 0x85 || n == 0xA0
    || n == 0x1680 || 0x2000 <= n <= 0x200A || n == 0x2028 || n == 0x2029
    || n == 0x202F || n == 0x205F || n == 0x3000
  }

  /** True when neither end of `s` is whitespace: what `strip()` leaves behind. */
  predicate IsStripped(s: string) {
    s == [] || (!IsSpace(s[0]) && !IsSpace(s[|s| - 1]))
  }

  /** `s.lstrip()`: drops the leading whitespace, and only that. */
  function TrimStart(s: string): (r: string)
    ensures |r| <= |s| && r == s[|s| - |r|..]
    ensures r == [] || !IsSpace(r[0])
    ensures forall i :: 0 <= i < |s| - |r| ==> IsSpace(s[i])
  {
    if s != [] && IsSpace(s[0]) then TrimStart(s[1..]) else s
  }

  /** `s.rstrip()`: drops the trailing whitespace, and only that. */
  function TrimEnd(s: string): (r: string)
    ensures |r| <= |s| && r == s[..|r|]
    ensures r == [] || !IsSpace(r[|r| - 1])
    ensures forall i :: |r| <= i < |s| ==> IsSpace(s[i])
  {
    if s != [] && IsSpace(s[|s| - 1]) then TrimEnd(s[..|s| - 1]) else s
  }

  /** `s.strip()`: the middle slice `s[lo..lo + |r|]`, every character cut off
      on either side is whitespace, and neither end of the result is. */
  function Strip(s: string): (r: string)
    ensures IsStripped(r)
    ensures |r| <= |s|
    ensures exists lo :: StripsTo(s, lo, r)
  {
    var t := TrimStart(s);
    var r := TrimEnd(t);
    StripParts(s, t, r);
    r
  }

  /** Right-trimming a left-trimmed string leaves a stripped slice between
      two whitespace runs. */
  lemma {:induction false} StripParts(s: string, t: string, r: string)
    requires t == TrimStart(s) && r == TrimEnd(t)
    ensures IsStripped(r) && StripsTo(s, |s| - |t|, r)
  {
    var lo := |s| - |t|;
    assert t == s[lo..];
    assert s[lo..lo + |r|] == t[..|r|];
    forall i | lo + |r| <= i < |s|
      ensures IsSpace(s[i])
    {
      assert s[i] == t[i - lo];
    }
    if r != [] {
      assert r[0] == t[0];
    }
  }

  /** `r` is `s` with exactly the first `lo` characters and the trailing
      `|s| - lo - |r|` characters removed, all of them whitespace. */
  ghost predicate StripsTo(s: string, lo: int, r: string) {
    && 0 <= lo && lo + |r| <= |s|
    && s[lo..lo + |r|] == r
    && (forall i :: 0 <= i < lo ==> IsSpace(s[i]))
    && (forall i :: lo + |r| <= i < |s| ==> IsSpace(s[i]))
  }

  /** The specification of `strip()` has one answer: any stripped `r` cut
      out of `s` between two runs of whitespace is `Strip(s)`. */
  lemma StripUnique(s: string, lo: int, r: string)
    requires StripsTo(s, lo, r) && IsStripped(r)
    ensures r == Strip(s)
  {
    var r' := Strip(s);
    var lo' :| StripsTo(s, lo', r');
    StripsToEmpty(s, lo, r);
    StripsToEmpty(s, lo', r');
    if r != [] {
      assert s[lo] == r[0] && s[lo'] == r'[0];
      assert lo == lo';
      assert s[lo + |r| - 1] == r[|r| - 1] && s[lo' + |r'| - 1] == r'[|r'| - 1];
      assert |r| == |r'|;
    }
  }

  /** A stripped slice between whitespace runs is empty exactly when the
      whole string is whitespace. */
  lemma StripsToEmpty(s: string, lo: int, r: string)
    requires StripsTo(s, lo, r) && IsStripped(r)
    ensures r == [] <==> forall i :: 0 <= i < |s| ==> IsSpace(s[i])
  {
    if r != [] {
      assert s[lo] == r[0];
    }
  }

  /** A string already stripped at both ends is left alone by `strip()`. */
  lemma {:induction false} StripStripped(s: string)
    requires IsStripped(s)
    ensures Strip(s) == s
  {
    assert TrimStart(s) == s;
    assert TrimEnd(s) == s;
  }

  /** Stripping is idempotent. */
  lemma {:induction false} StripIdempotent(s: string)
    ensures Strip(Strip(s)) == Strip(s)
  {
    StripStripped(Strip(s));
  }

  /** The two prefix cuts of `normalize_chat_ref`, applied to an already
      stripped string: one leading `https://t.me/`, then one leading `@`. */
  function DropPrefixes(t: string): (v: string)
    ensures |v| <= |t| && v == t[|t| - |v|..]
    ensures |t| - |v| in {0, 1, |TmePrefix|, |TmePrefix| + 1}
  {
    var u := if TmePrefix <= t then t[|TmePrefix|..] else t;
    if "@" <= u then u[1..] else u
  }

  /** `normalize_chat_ref`: a string is stripped, then loses one leading
      `https://t.me/`, then one leading `@`; any other reference is returned
      unchanged. The result is a suffix of the stripped string, shorter by
      0, 1, |TmePrefix| or |TmePrefix| + 1 characters. */
  function NormalizeChatRef(ref: Ref): (r: Ref)
    ensures !ref.StrRef? ==> r == ref
    ensures ref.StrRef? ==>
              && r.StrRef?
              && |r.s| <= |Strip(ref.s)|
              && r.s == Strip(ref.s)[|Strip(ref.s)| - |r.s|..]
              && |Strip(ref.s)| - |r.s| in {0, 1, |TmePrefix|, |TmePrefix| + 1}
  {
    match ref
    case StrRef(s) => StrRef(DropPrefixes(Strip(s)))
    case _ => ref
  }

  /** A stripped string that carries neither prefix is only stripped. */
  lemma NormalizeWithoutPrefix(s: string)
    requires !(TmePrefix <= Strip(s)) && !("@" <= Strip(s))
    ensures NormalizeChatRef(StrRef(s)) == StrRef(Strip(s))
  {
  }

  /** Prepending a non-empty text with non-blank ends keeps a string stripped. */
  lemma StrippedConcat(a: string, x: string)
    requires a != [] && IsStripped(a) && IsStripped(x)
    ensures IsStripped(a + x)
  {
  }

  /** The link prefix is removed before the sigil is looked at:
      `https://t.me/@x` becomes `x`. */
  lemma {:induction false} NormalizeLinkThenSigil(x: string)
    requires IsStripped(x)
    ensures NormalizeChatRef(StrRef(TmePrefix + "@" + x)) == StrRef(x)
  {
    StrippedConcat(TmePrefix + "@", x);
    NormalizeStripped(TmePrefix + "@" + x, x);
  }

  /** A sigil in front of a link is the only thing removed:
      `@https://t.me/x` becomes `https://t.me/x`. */
  lemma {:induction false} NormalizeSigilThenLink(x: string)
    requires IsStripped(x)
    ensures NormalizeChatRef(StrRef("@" + TmePrefix + x)) == StrRef(TmePrefix + x)
  {
    StrippedConcat("@" + TmePrefix, x);
    assert "@" + TmePrefix + x == "@" + (TmePrefix + x);
    NormalizeStripped("@" + (TmePrefix + x), TmePrefix + x);
  }

  /** Only one occurrence of the link prefix is removed. */
  lemma {:induction false} NormalizeOneLinkPrefix(x: string)
    requires IsStripped(x)
    ensures NormalizeChatRef(StrRef(TmePrefix + TmePrefix + x)) == StrRef(TmePrefix + x)
  {
    StrippedConcat(TmePrefix + TmePrefix, x);
    assert TmePrefix + TmePrefix + x == TmePrefix + (TmePrefix + x);
    DropLinkOnly(TmePrefix + x, TmePrefix + (TmePrefix + x));
    NormalizeStripped(TmePrefix + (TmePrefix + x), TmePrefix + x);
  }

  /** Only one occurrence of the sigil is removed. */
  lemma {:induction false} NormalizeOneSigil(x: string)
    requires IsStripped(x)
    ensures NormalizeChatRef(StrRef("@@" + x)) == StrRef("@" + x)
  {
    StrippedConcat("@@", x);
    assert "@@" + x == "@" + ("@" + x);
    NormalizeStripped("@" + ("@" + x), "@" + x);
  }

  /** On a string that is already stripped, normalisation is only the
      prefix cuts (stated with the cut result `v` named, so that the
      concrete cases above stay small). */
  lemma {:induction false} NormalizeStripped(s: string, v: string)
    requires IsStripped(s) && DropPrefixes(s) == v
    ensures NormalizeChatRef(StrRef(s)) == StrRef(v)
  {
    var t := Strip(s);
    assert NormalizeChatRef(StrRef(s)) == StrRef(DropPrefixes(t));
    StripStripped(s);
  }

  /** A reference that starts with the sigil and not with the link prefix
      loses only the sigil. */
  lemma DropSigilOnly(y: string, s: string)
    requires s == "@" + y
    ensures DropPrefixes(s) == y
  {
    assert s[0] != TmePrefix[0];
    assert s[1..] == y;
  }

  /** A link whose remainder does not start with the sigil loses only the
      link prefix. */
  lemma DropLinkOnly(y: string, s: string)
    requires s == TmePrefix + y && y != [] && y[0] != '@'
    ensures DropPrefixes(s) == y
  {
    assert s[..|TmePrefix|] == TmePrefix;
    assert s[|TmePrefix|..] == y;
  }

  /** `message_primary_text`: a missing or `None` body reads as the empty
      string, any other body is stripped; the result is always stripped, so
      stripping it again changes nothing. */
  function MessagePrimaryText(body: Option<string>): (r: string)
    ensures body.None? ==> r == ""
    ensures body.Some? ==> |r| <= |body.value| && exists lo :: StripsTo(body.value, lo, r)
    ensures Strip(r) == r
  {
    match body
    case None => ""
    case Some(b) =>
      var r := Strip(b);
      StripIdempotent(b);
      r
  }
}
