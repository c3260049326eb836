/** `base64ToImage` of `src/services/imageService.ts`: strip a data-URL prefix, decode, convert to
    PNG and re-encode. */
module ImageService {
  import opened Wrappers
  import opened Types
  import opened Foreign
  import Base64

  /** `\w` in a JavaScript regular expression without the `u` flag: `[A-Za-z0-9_]`. */
  predicate IsWordChar(c: char) {
    ('A' <= c <= 'Z') || ('a' <= c <= 'z') || ('0' <= c <= '9') || c == '_'
  }

  const DataUrlHead: string := "data:image/"
  const DataUrlTail: string := ";base64,"

  /** Strings the regular expression `^data:image\/\w+;base64,` matches in full: the head, one or
      more word characters, the tail. */
  ghost predicate IsDataUrlPrefix(p: string) {
    && |p| >= |DataUrlHead| + 1 + |DataUrlTail|
    && p[..|DataUrlHead|] == DataUrlHead
    && p[|p| - |DataUrlTail|..] == DataUrlTail
    && forall k :: |DataUrlHead| <= k < |p| - |DataUrlTail| ==> IsWordChar(p[k])
  }

  /** The length of the run of word characters that starts at `i`. */
  function WordRun(s: string, i: nat): (n: nat)
    requires i <= |s|
    ensures i + n <= |s|
    ensures forall k :: i <= k < i + n ==> IsWordChar(s[k])
    ensures i + n < |s| ==> !IsWordChar(s[i + n])
    decreases |s| - i
  {
    if i == |s| || !IsWordChar(s[i]) then 0 else 1 + WordRun(s, i + 1)
  }

  /** The length of the match of the regular expression at position 0, if it matches. `\w+` is
      greedy and `;` is not a word character, so the only candidate ends after the run of word
      characters that follows the head. */
  function MatchLength(s: string): Option<nat> {
    var h, t := |DataUrlHead|, |DataUrlTail|;
    if |s| < h || s[..h] != DataUrlHead then None
    else
      var n := WordRun(s, h);
      if n >= 1 && h + n + t <= |s| && s[h + n..h + n + t] == DataUrlTail then Some(h + n + t)
      else None
  }

  /** `base64String.replace(/^data:image\/\w+;base64,/, '')`: no `g` flag, so at most the one
      leading match is removed. */
  function StripDataUrlPrefix(s: string): (r: string)
    ensures |r| <= |s| && r == s[|s| - |r|..]
  {
    match MatchLength(s)
    case Some(n) => s[n..]
    case None => s
  }

  lemma MatchLengthSound(s: string)
    requires MatchLength(s).Some?
    ensures MatchLength(s).value <= |s| && IsDataUrlPrefix(s[..MatchLength(s).value])
  {
    var n := MatchLength(s).value;
    var p := s[..n];
    assert p[..|DataUrlHead|] == s[..|DataUrlHead|];
    assert p[n - |DataUrlTail|..] == s[n - |DataUrlTail|..n];
  }

  lemma MatchLengthComplete(s: string, n: nat)
    requires n <= |s| && IsDataUrlPrefix(s[..n])
    ensures MatchLength(s) == Some(n)
  {
    var h, t, p := |DataUrlHead|, |DataUrlTail|, s[..n];
    assert s[..h] == p[..h];
    forall k | h <= k < n - t ensures IsWordChar(s[k]) {
      assert s[k] == p[k];
    }
    assert s[n - t] == p[n - t] == DataUrlTail[0] == ';';
    WordRunFrom(s, h, n - t);
    assert s[n - t..n] == p[n - t..];
  }

  lemma {:induction false} WordRunFrom(s: string, i: nat, j: nat)
    requires i <= j < |s|
    requires forall k :: i <= k < j ==> IsWordChar(s[k])
    requires !IsWordChar(s[j])
    ensures WordRun(s, i) == j - i
    decreases j - i
  {
    if i < j {
      WordRunFrom(s, i + 1, j);
    }
  }

  /** Stripping removes exactly a leading match of the regular expression when there is one and
      leaves every other string unchanged. */
  lemma StripRemovesExactlyTheMatch(s: string)
    ensures forall n :: 0 <= n <= |s| && IsDataUrlPrefix(s[..n]) ==> StripDataUrlPrefix(s) == s[n..]
    ensures (forall n :: 0 <= n <= |s| ==> !IsDataUrlPrefix(s[..n])) ==> StripDataUrlPrefix(s) == s
  {
    forall n | 0 <= n <= |s| && IsDataUrlPrefix(s[..n]) ensures StripDataUrlPrefix(s) == s[n..] {
      MatchLengthComplete(s, n);
    }
    if MatchLength(s).Some? {
      MatchLengthSound(s);
    }
  }

  /** A string starts with at most one match: the prefix to strip is unambiguous. */
  lemma DataUrlPrefixUnique(s: string, m: nat, n: nat)
    requires m <= |s| && n <= |s| && IsDataUrlPrefix(s[..m]) && IsDataUrlPrefix(s[..n])
    ensures m == n
  {
    MatchLengthComplete(s, m);
    MatchLengthComplete(s, n);
  }

  /** `+` is not a word character, so an `image/svg+xml` data URL keeps its prefix. */
  lemma SvgPrefixIsKept()
    ensures StripDataUrlPrefix("data:image/svg+xml;base64,PHN2Zz4=") == "data:image/svg+xml;base64,PHN2Zz4="
  {
    var s := "data:image/svg+xml;base64,PHN2Zz4=";
    assert s[..11] == DataUrlHead;
    WordRunFrom(s, 11, 14);
    assert s[14] == '+';
  }

  lemma PngPrefixMatches()
    ensures IsDataUrlPrefix("data:image/png;base64,")
  {
    var p := "data:image/png;base64,";
    assert p[..11] == DataUrlHead;
    assert p[14..] == DataUrlTail;
  }

  /** Only the first of two stacked prefixes is removed. */
  lemma OnlyOnePrefixRemoved(payload: string)
    ensures var p := "data:image/png;base64,";
      StripDataUrlPrefix(p + p + payload) == p + payload
  {
    var p := "data:image/png;base64,";
    var s := p + (p + payload);
    assert p + p + payload == s;
    assert s[..|p|] == p;
    PngPrefixMatches();
    MatchLengthComplete(s, |p|);
    assert s[|p|..] == p + payload;
  }

  /** What V8 throws when `base64ToImage` calls `replace` on an argument that is not a string
      (the parameter is typed `string`, but `imageData` comes from an unchecked request body). */
  const ReplaceTypeError: JsError := JsError("base64String.replace is not a function", None)

  /** `base64ToImage`. A string that does not decode to an image reaches sharp anyway (Node's
      decoder never fails) and the conversion error is what the caller sees. */
  function Base64ToImage(platform: Platform, s: string): (r: Result<ImagePart, JsError>)
    ensures var png := platform.toPng(platform.decodeBase64(StripDataUrlPrefix(s)));
      && (r.Ok? <==> png.Ok?)
      && (r.Ok? ==> r.value.inlineData.mimeType == "image/png"
                    && Base64.Decode(r.value.inlineData.data) == Some(png.value))
      && (r.Err? ==> r.error == png.error)
  {
    match platform.toPng(platform.decodeBase64(StripDataUrlPrefix(s)))
    case Ok(png) =>
      Base64.DecodeEncode(png);
      Ok(ImagePart(InlineData(Base64.Encode(png), "image/png")))
    case Err(e) => Err(e)
  }
}
