/**
 * `generateText`, the deterministic placeholder text generator: a header line
 * naming the content type, language and trimmed topic, followed by three
 * fixed advice lines.
 */
module AiService {
  import opened Wrappers
  import opened JsValues

  /**
   * The characters `String.prototype.trim` removes: the WhiteSpace and
   * LineTerminator code points of section 12.2 and 12.3 of ECMA-262.
   */
  predicate IsJsSpace(c: char) {
    var n := c as int;
    n == 0x09 || n == 0x0A || n == 0x0B || n == 0x0C || n == 0x0D || n == 0x20
    || n == 0xA0 || n == 0x1680 || (0x2000 <= n <= 0x200A) || n == 0x2028 || n == 0x2029
    || n == 0x202F || n == 0x205F || n == 0x3000 || n == 0xFEFF
  }

  predicate AllSpace(s: string) {
    forall i :: 0 <= i < |s| ==> IsJsSpace(s[i])
  }

  /** Leading white space removed: the longest suffix that does not start with white space. */
  function TrimStart(s: string): (r: string)
    ensures |r| <= |s| && r == s[|s| - |r|..]
    ensures r == [] || !IsJsSpace(r[0])
    ensures AllSpace(s[..|s| - |r|])
  {
    if s == [] || !IsJsSpace(s[0]) then s
    else
      var r := TrimStart(s[1..]);
      assert s[1..][..|s| - 1 - |r|] == s[1..|s| - |r|];
      r
  }

  /** Trailing white space removed: the longest prefix that does not end with white space. */
  function TrimEnd(s: string): (r: string)
    ensures |r| <= |s| && r == s[..|r|]
    ensures r == [] || !IsJsSpace(r[|r| - 1])
    ensures AllSpace(s[|r|..])
  {
    if s == [] || !IsJsSpace(s[|s| - 1]) then s
    else
      var r := TrimEnd(s[..|s| - 1]);
      assert s[|r|..] == s[..|s| - 1][|r|..] + [s[|s| - 1]];
      r
  }

  /** `s.trim()` */
  function Trim(s: string): string {
    TrimEnd(TrimStart(s))
  }

  /**
   * `s.trim()` is the stretch of `s` between its leading and trailing white
   * space: a contiguous slice that neither starts nor ends with white space,
   * with only white space cut away on either side.
   */
  lemma TrimSlice(s: string)
    ensures exists i, j :: (0 <= i <= j <= |s| && Trim(s) == s[i..j]
                            && AllSpace(s[..i]) && AllSpace(s[j..]))
    ensures Trim(s) == [] || (!IsJsSpace(Trim(s)[0]) && !IsJsSpace(Trim(s)[|Trim(s)| - 1]))
  {
    var t := TrimStart(s);
    var r := TrimEnd(t);
    var i := |s| - |t|;
    var j := i + |r|;
    assert r == t[..|r|] && t == s[i..];
    assert r == s[i..j];
    assert s[j..] == t[|r|..];
    if r != [] {
      assert r[0] == t[0];
    }
  }

  /** Trimming twice is trimming once. */
  lemma TrimIdempotent(s: string)
    ensures Trim(Trim(s)) == Trim(s)
  {
    var t := TrimStart(s);
    var r := TrimEnd(t);
    if r != [] {
      assert r[0] == t[0];
    }
    assert TrimStart(r) == r;
    assert TrimEnd(r) == r;
  }

  /** A white-space suffix starting at or before `k` covers position `k`. */
  lemma SpaceAt(s: string, m: int, k: int)
    requires 0 <= m <= k < |s| && AllSpace(s[m..])
    ensures IsJsSpace(s[k])
  {
    assert s[m..][k - m] == s[k];
  }

  /** A white-space prefix ending after `k` covers position `k`. */
  lemma SpaceBefore(s: string, m: int, k: int)
    requires 0 <= k < m <= |s| && AllSpace(s[..m])
    ensures IsJsSpace(s[k])
  {
    assert s[..m][k] == s[k];
  }

  /** A string of white space only trims to the empty string, and only such a string does. */
  lemma TrimEmptyIffSpace(s: string)
    ensures Trim(s) == [] <==> AllSpace(s)
  {
    var t := TrimStart(s);
    var cut := |s| - |t|;
    if AllSpace(s) {
      if t != [] {
        SpaceAt(s, 0, cut);
        assert false;
      }
    } else {
      var k :| 0 <= k < |s| && !IsJsSpace(s[k]);
      if k < cut {
        SpaceBefore(s, cut, k);
        assert false;
      }
      assert t[k - cut] == s[k];
      if |TrimEnd(t)| <= k - cut {
        SpaceAt(t, |TrimEnd(t)|, k - cut);
        assert false;
      }
    }
  }

  /** Where each part of `head + t + "\n\n" + tail` sits. */
  lemma LayoutParts(head: string, t: string, tail: string)
    ensures var x := head + t + "\n\n" + tail;
      && |x| == |head| + |t| + 2 + |tail|
      && x[..|head|] == head
      && x[|head|..|head| + |t|] == t
      && x[|x| - |tail|..] == tail
  {
  }

  const DefaultTopic := "your topic"
  const DefaultLanguage := "English"
  const DefaultContentType := "Informational"
  const Advice := "1) Lead with a strong hook.\n2) Share one clear insight.\n3) End with a short call-to-action."

  /** What `topic.trim` does to a non-string topic: calling `undefined` throws. */
  const TrimNotAFunction := "TypeError: topic.trim is not a function"

  /** `topic?.trim() || "your topic"`; a number has no `trim`, so the call throws. */
  function SafeTopic(topic: Scalar): (r: Result<string, string>)
    ensures r.Err? <==> topic.Num?
    ensures r.Ok? ==> r.value != ""
    ensures topic.Undefined? ==> r == Ok(DefaultTopic)
  {
    match topic
    case Undefined => Ok(DefaultTopic)
    case Num(_) => Err(TrimNotAFunction)
    case Str(s) => Ok(if Trim(s) == "" then DefaultTopic else Trim(s))
  }

  /** `x || d` for a field that is interpolated into the text: a truthy value in its `String` form. */
  function OrDefault(v: Scalar, d: string): (r: string)
    ensures Truthy(v) ==> r == ToStr(v)
    ensures !Truthy(v) ==> r == d
  {
    if Truthy(v) then ToStr(v) else d
  }

  /** The first part of the header line: `${safeType} (${safeLang}): `. */
  function Header(language: Scalar, contentType: Scalar): string {
    OrDefault(contentType, DefaultContentType) + " (" + OrDefault(language, DefaultLanguage) + "): "
  }

  /** The topic as it appears in the text: trimmed, or the default when nothing is left. */
  function ShownTopic(topic: string): string {
    if AllSpace(topic) then DefaultTopic else Trim(topic)
  }

  /** `generateText({topic, language, contentType})`, as a result or the error it throws. */
  function GenerateText(topic: Scalar, language: Scalar, contentType: Scalar): (r: Result<string, string>)
    ensures r.Err? <==> topic.Num?
  {
    match SafeTopic(topic)
    case Err(e) => Err(e)
    case Ok(t) =>
      Ok(Header(language, contentType) + t + "\n\n" + Advice)
  }

  /** A string topic always yields a text: header, shown topic, blank line, advice. */
  lemma GeneratedFrom(topic: string, language: Scalar, contentType: Scalar) returns (x: string)
    ensures x == Header(language, contentType) + ShownTopic(topic) + "\n\n" + Advice
    ensures GenerateText(Str(topic), language, contentType) == Ok(x)
  {
    TrimEmptyIffSpace(topic);
    x := Header(language, contentType) + ShownTopic(topic) + "\n\n" + Advice;
  }

  /**
   * The text opens with the content type, carries the trimmed topic (or the
   * default when nothing is left of it) after the header, and always ends
   * with the three advice lines.
   */
  lemma GeneratedLayout(topic: string, language: Scalar, contentType: Scalar)
    ensures GenerateText(Str(topic), language, contentType).Ok?
    ensures |GenerateText(Str(topic), language, contentType).value|
      == |Header(language, contentType)| + |ShownTopic(topic)| + 2 + |Advice|
    ensures GenerateText(Str(topic), language, contentType).value[..|Header(language, contentType)|]
      == Header(language, contentType)
    ensures GenerateText(Str(topic), language, contentType).value[|Header(language, contentType)|..
      |Header(language, contentType)| + |ShownTopic(topic)|] == ShownTopic(topic)
    ensures var r := GenerateText(Str(topic), language, contentType).value;
      r[|r| - |Advice|..] == Advice
  {
    var x := GeneratedFrom(topic, language, contentType);
    LayoutParts(Header(language, contentType), ShownTopic(topic), Advice);
  }

  /** Padding a topic with white space does not change the text. */
  lemma PaddingIgnored(topic: string, language: Scalar, contentType: Scalar)
    ensures GenerateText(Str(Trim(topic)), language, contentType) == GenerateText(Str(topic), language, contentType)
  {
    TrimIdempotent(topic);
  }

  /** With nothing but a blank topic given, every default applies. */
  lemma AllDefaults(topic: string)
    requires AllSpace(topic)
    ensures GenerateText(Str(topic), Undefined, Undefined)
      == Ok("Informational (English): your topic\n\n" + Advice)
  {
    TrimEmptyIffSpace(topic);
    assert Trim(topic) == "";
    assert SafeTopic(Str(topic)) == Ok(DefaultTopic);
    var header := Header(Undefined, Undefined);
    assert header == "Informational (English): ";
    assert GenerateText(Str(topic), Undefined, Undefined) == Ok(header + DefaultTopic + "\n\n" + Advice);
    assert header + DefaultTopic + "\n\n" == "Informational (English): your topic\n\n";
  }
}
