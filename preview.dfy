/**
 * The dashboard's per-station payload preview (`renderPayloadPreview`, the text it decides on)
 * and the attribute escaping the services editor applies to the values it writes into its
 * `value="..."` attributes (`escapeAttr`).
 */
module Preview {
  import opened Wrappers
  import opened Strings
  import opened Json

  /** The ellipsis the previews append: U+2026. */
  const Ellipsis: string := "\U{2026}"

  /** What a preview cell ends up showing. */
  datatype Preview =
    | Placeholder                   // the dash shown for an empty value
    | TextPreview(text: string)
    | ImagePreview(base64: string)  // an <img> with a base64 PNG data URL
    | VideoPreview(base64: string)  // a <video> with a base64 MP4 data URL

  predicate IsBase64Char(c: char) {
    ('A' <= c <= 'Z') || ('a' <= c <= 'z') || ('0' <= c <= '9') || c == '+' || c == '/' || c == '='
  }

  /** `str.match(/^[A-Za-z0-9+/=]+$/)`. */
  predicate LooksBase64(s: string) {
    |s| > 0 && forall i :: 0 <= i < |s| ==> IsBase64Char(s[i])
  }

  /** `s.slice(0, n) + (s.length > n ? "…" : "")`. */
  function Ellipsize(s: string, n: nat): (r: string)
    ensures |s| <= n ==> r == s
    ensures |s| > n ==> r == s[..n] + Ellipsis
    ensures |r| <= n + 1
  {
    Prefix(s, n) + (if |s| > n then Ellipsis else "")
  }

  predicate IsMediaType(t: Json) {
    t == Str("binary") || t == Str("video") || t == Str("image")
  }

  /** `"[" + t + "] " + n + " chars"` for long values, `"[" + t + "]"` otherwise. */
  function MediaLabel(t: string, str: string): string {
    if |str| > 60 then "[" + t + "] " + NatToString(|str|) + " chars" else "[" + t + "]"
  }

  function RenderPayloadPreview(value: Json, payloadType: Json, parse: Parser, stringify: Printer): Preview {
    if value == Null || value == Str("") then Placeholder
    else
      var str := if value.Str? then value.s else stringify(value);
      if payloadType == Str("image") && LooksBase64(str) then ImagePreview(str)
      else if payloadType == Str("video") && LooksBase64(str) then VideoPreview(str)
      else if payloadType == Str("json") then
        match parse(str)
        case Parsed(p) => TextPreview(Ellipsize(stringify(p), 120))
        case SyntaxError(_) => TextPreview(Ellipsize(str, 80))
      else if IsMediaType(payloadType) then TextPreview(MediaLabel(payloadType.s, str))
      else TextPreview(Ellipsize(str, 80))
  }

  /** The text the preview is computed from: strings as they are, everything else serialised. */
  function PreviewSource(value: Json, stringify: Printer): string {
    if value.Str? then value.s else stringify(value)
  }

  // ---------------------------------------------------------------------------------------------
  // Properties of the preview policy
  // ---------------------------------------------------------------------------------------------

  /** The dash appears exactly for a missing, null or empty-string value. */
  lemma {:induction false} PlaceholderIff(value: Json, payloadType: Json, parse: Parser, stringify: Printer)
    ensures RenderPayloadPreview(value, payloadType, parse, stringify) == Placeholder <==>
            (value == Null || value == Str(""))
  {
  }

  /** Media are shown exactly for an image or video whose text looks like base64. */
  lemma {:induction false} MediaIff(value: Json, payloadType: Json, parse: Parser, stringify: Printer)
    requires value != Null && value != Str("")
    ensures var r := RenderPayloadPreview(value, payloadType, parse, stringify);
            var str := PreviewSource(value, stringify);
            (r.ImagePreview? <==> payloadType == Str("image") && LooksBase64(str)) &&
            (r.VideoPreview? <==> payloadType == Str("video") && LooksBase64(str)) &&
            ((r.ImagePreview? || r.VideoPreview?) ==> r.base64 == str)
  {
  }

  /** A JSON payload is re-serialised compactly and cut to 120 characters. */
  lemma {:induction false} JsonPreview(value: Json, parse: Parser, stringify: Printer)
    requires value != Null && value != Str("")
    ensures var str := PreviewSource(value, stringify);
            var r := RenderPayloadPreview(value, Str("json"), parse, stringify);
            match parse(str)
            case Parsed(p) => r == TextPreview(Ellipsize(stringify(p), 120)) && |r.text| <= 121
            case SyntaxError(_) => r == TextPreview(Ellipsize(str, 80)) && |r.text| <= 81
  {
  }

  /** Binary payloads, and media whose text is not base64, show only their type and size. */
  lemma {:induction false} MediaLabelPreview(value: Json, payloadType: Json, parse: Parser, stringify: Printer)
    requires value != Null && value != Str("")
    requires IsMediaType(payloadType)
    requires !LooksBase64(PreviewSource(value, stringify)) || payloadType == Str("binary")
    ensures var str := PreviewSource(value, stringify);
            RenderPayloadPreview(value, payloadType, parse, stringify) ==
              TextPreview(if |str| > 60 then "[" + payloadType.s + "] " + NatToString(|str|) + " chars"
                          else "[" + payloadType.s + "]")
  {
  }

  /** Any other type is shown as its first 80 characters, marked when cut. */
  lemma {:induction false} PlainPreview(value: Json, payloadType: Json, parse: Parser, stringify: Printer)
    requires value != Null && value != Str("")
    requires !IsMediaType(payloadType) && payloadType != Str("json")
    ensures var str := PreviewSource(value, stringify);
            var r := RenderPayloadPreview(value, payloadType, parse, stringify);
            r.TextPreview? && |r.text| <= 81 &&
            (|str| <= 80 ==> r.text == str) &&
            (|str| > 80 ==> r.text == str[..80] + Ellipsis)
  {
  }

  // ---------------------------------------------------------------------------------------------
  // Attribute escaping
  // ---------------------------------------------------------------------------------------------

  /** `s.replace(/c/g, rep)` for a single character `c`. */
  function ReplaceAllChar(s: string, c: char, rep: string): string {
    if s == [] then [] else (if s[0] == c then rep else [s[0]]) + ReplaceAllChar(s[1..], c, rep)
  }

  /** `escapeAttr(s)`: `String(s ?? "")` with `&`, `"`, `<`, `>` replaced in that order. */
  function EscapeAttr(v: Json): string {
    var s := if v == Null then "" else JsString(v);
    ReplaceAllChar(ReplaceAllChar(ReplaceAllChar(ReplaceAllChar(s, '&', "&amp;"), '"', "&quot;"), '<', "&lt;"), '>', "&gt;")
  }

  /** The entity each special character becomes; other characters stay as they are. */
  function EscapeChar(c: char): string {
    if c == '&' then "&amp;"
    else if c == '"' then "&quot;"
    else if c == '<' then "&lt;"
    else if c == '>' then "&gt;"
    else [c]
  }

  /** Character-by-character escaping, the reference the replacement chain is compared with. */
  function EscapeEach(s: string): string {
    if s == [] then [] else EscapeChar(s[0]) + EscapeEach(s[1..])
  }

  /** Decodes the four entities, the way the browser reads the attribute back. */
  function Unescape(t: string): string
    decreases |t|
  {
    if t == [] then []
    else if StartsWith(t, "&amp;") then "&" + Unescape(t[5..])
    else if StartsWith(t, "&quot;") then "\"" + Unescape(t[6..])
    else if StartsWith(t, "&lt;") then "<" + Unescape(t[4..])
    else if StartsWith(t, "&gt;") then ">" + Unescape(t[4..])
    else [t[0]] + Unescape(t[1..])
  }

  lemma {:induction false} ReplaceAllCharAppend(a: string, b: string, c: char, rep: string)
    ensures ReplaceAllChar(a + b, c, rep) == ReplaceAllChar(a, c, rep) + ReplaceAllChar(b, c, rep)
  {
    if a != [] {
      assert (a + b)[1..] == a[1..] + b;
      ReplaceAllCharAppend(a[1..], b, c, rep);
    } else {
      assert a + b == b;
    }
  }

  lemma {:induction false} ReplaceAllCharAbsent(s: string, c: char, rep: string)
    requires forall i :: 0 <= i < |s| ==> s[i] != c
    ensures ReplaceAllChar(s, c, rep) == s
  {
    if s != [] {
      ReplaceAllCharAbsent(s[1..], c, rep);
    }
  }

  lemma {:induction false} ReplaceAllCharSingle(ch: char, c: char, rep: string)
    ensures ReplaceAllChar([ch], c, rep) == (if ch == c then rep else [ch])
  {
    assert [ch][1..] == [];
  }

  function Chain(s: string): string {
    ReplaceAllChar(ReplaceAllChar(ReplaceAllChar(ReplaceAllChar(s, '&', "&amp;"), '"', "&quot;"), '<', "&lt;"), '>', "&gt;")
  }

  lemma {:induction false} ChainOneChar(ch: char)
    ensures Chain([ch]) == EscapeChar(ch)
  {
    if ch == '&' {
      ChainAmp();
    } else if ch == '"' {
      ChainQuot();
    } else if ch == '<' {
      ChainLt();
    } else if ch == '>' {
      ChainGt();
    } else {
      ChainPlain(ch);
    }
  }

  /** The later replacements leave the entity `&amp;` alone. */
  lemma {:induction false} ChainAmp()
    ensures Chain("&") == "&amp;"
  {
    ReplaceAllCharSingle('&', '&', "&amp;");
    AmpStays();
  }

  lemma {:induction false} AmpStays()
    ensures ReplaceAllChar("&amp;", '"', "&quot;") == "&amp;"
    ensures ReplaceAllChar("&amp;", '<', "&lt;") == "&amp;"
    ensures ReplaceAllChar("&amp;", '>', "&gt;") == "&amp;"
  {
    ReplaceAllCharAbsent("&amp;", '"', "&quot;");
    ReplaceAllCharAbsent("&amp;", '<', "&lt;");
    ReplaceAllCharAbsent("&amp;", '>', "&gt;");
  }

  lemma {:induction false} ChainQuot()
    ensures Chain("\"") == "&quot;"
  {
    ReplaceAllCharSingle('"', '&', "&amp;");
    ReplaceAllCharSingle('"', '"', "&quot;");
    QuotStays();
  }

  lemma {:induction false} QuotStays()
    ensures ReplaceAllChar("&quot;", '<', "&lt;") == "&quot;"
    ensures ReplaceAllChar("&quot;", '>', "&gt;") == "&quot;"
  {
    ReplaceAllCharAbsent("&quot;", '<', "&lt;");
    ReplaceAllCharAbsent("&quot;", '>', "&gt;");
  }

  lemma {:induction false} ChainLt()
    ensures Chain("<") == "&lt;"
  {
    ReplaceAllCharSingle('<', '&', "&amp;");
    ReplaceAllCharSingle('<', '"', "&quot;");
    ReplaceAllCharSingle('<', '<', "&lt;");
    LtStays();
  }

  lemma {:induction false} LtStays()
    ensures ReplaceAllChar("&lt;", '>', "&gt;") == "&lt;"
  {
    ReplaceAllCharAbsent("&lt;", '>', "&gt;");
  }

  lemma {:induction false} ChainGt()
    ensures Chain(">") == "&gt;"
  {
    ReplaceAllCharSingle('>', '&', "&amp;");
    ReplaceAllCharSingle('>', '"', "&quot;");
    ReplaceAllCharSingle('>', '<', "&lt;");
    ReplaceAllCharSingle('>', '>', "&gt;");
  }

  lemma {:induction false} ChainPlain(ch: char)
    requires ch != '&' && ch != '"' && ch != '<' && ch != '>'
    ensures Chain([ch]) == [ch]
  {
    ReplaceAllCharSingle(ch, '&', "&amp;");
    ReplaceAllCharSingle(ch, '"', "&quot;");
    ReplaceAllCharSingle(ch, '<', "&lt;");
    ReplaceAllCharSingle(ch, '>', "&gt;");
  }

  lemma {:induction false} ChainAppend(a: string, b: string)
    ensures Chain(a + b) == Chain(a) + Chain(b)
  {
    ReplaceAllCharAppend(a, b, '&', "&amp;");
    var a1 := ReplaceAllChar(a, '&', "&amp;");
    var b1 := ReplaceAllChar(b, '&', "&amp;");
    ReplaceAllCharAppend(a1, b1, '"', "&quot;");
    var a2 := ReplaceAllChar(a1, '"', "&quot;");
    var b2 := ReplaceAllChar(b1, '"', "&quot;");
    ReplaceAllCharAppend(a2, b2, '<', "&lt;");
    var a3 := ReplaceAllChar(a2, '<', "&lt;");
    var b3 := ReplaceAllChar(b2, '<', "&lt;");
    ReplaceAllCharAppend(a3, b3, '>', "&gt;");
  }

  /** The chain of global replacements escapes each character independently. */
  lemma {:induction false} EscapeAttrPerChar(s: string)
    ensures Chain(s) == EscapeEach(s)
  {
    if s != [] {
      assert s == [s[0]] + s[1..];
      ChainAppend([s[0]], s[1..]);
      ChainOneChar(s[0]);
      EscapeAttrPerChar(s[1..]);
    }
  }

  /** An escaped value holds no quote or angle bracket, so it cannot end the attribute. */
  lemma {:induction false} EscapedIsSafe(s: string)
    ensures forall i :: 0 <= i < |EscapeEach(s)| ==> EscapeEach(s)[i] !in {'"', '<', '>'}
  {
    if s != [] {
      EscapedIsSafe(s[1..]);
      var head := EscapeChar(s[0]);
      var tail := EscapeEach(s[1..]);
      assert EscapeEach(s) == head + tail;
      forall i | 0 <= i < |head + tail| ensures (head + tail)[i] !in {'"', '<', '>'} {
        if i >= |head| {
          assert (head + tail)[i] == tail[i - |head|];
        }
      }
    }
  }

  lemma {:induction false} UnescapeAmp(rest: string)
    ensures Unescape("&amp;" + rest) == "&" + Unescape(rest)
  {
    var t := "&amp;" + rest;
    assert t[..5] == "&amp;" && t[5..] == rest;
  }

  lemma {:induction false} UnescapeQuot(rest: string)
    ensures Unescape("&quot;" + rest) == "\"" + Unescape(rest)
  {
    var t := "&quot;" + rest;
    assert t[1] == 'q';
    assert t[..6] == "&quot;" && t[6..] == rest;
  }

  lemma {:induction false} UnescapeLt(rest: string)
    ensures Unescape("&lt;" + rest) == "<" + Unescape(rest)
  {
    var t := "&lt;" + rest;
    assert t[1] == 'l';
    assert !StartsWith(t, "&amp;") by { assert "&amp;"[1] == 'a'; }
    assert !StartsWith(t, "&quot;") by { assert "&quot;"[1] == 'q'; }
    assert t[..4] == "&lt;" && t[4..] == rest;
  }

  lemma {:induction false} UnescapeGt(rest: string)
    ensures Unescape("&gt;" + rest) == ">" + Unescape(rest)
  {
    var t := "&gt;" + rest;
    assert t[1] == 'g';
    assert !StartsWith(t, "&lt;") by { assert "&lt;"[1] == 'l'; }
    assert !StartsWith(t, "&amp;") by { assert "&amp;"[1] == 'a'; }
    assert !StartsWith(t, "&quot;") by { assert "&quot;"[1] == 'q'; }
    assert t[..4] == "&gt;" && t[4..] == rest;
  }

  lemma {:induction false} UnescapePlain(c: char, rest: string)
    requires c != '&'
    ensures Unescape([c] + rest) == [c] + Unescape(rest)
  {
    var t := [c] + rest;
    assert t[0] == c && t[1..] == rest;
  }

  /** Decoding an escaped character followed by any text gives back the character first. */
  lemma {:induction false} UnescapeStep(c: char, rest: string)
    ensures Unescape(EscapeChar(c) + rest) == [c] + Unescape(rest)
  {
    if c == '&' {
      UnescapeAmp(rest);
    } else if c == '"' {
      UnescapeQuot(rest);
    } else if c == '<' {
      UnescapeLt(rest);
    } else if c == '>' {
      UnescapeGt(rest);
    } else {
      UnescapePlain(c, rest);
    }
  }

  /** Reading the attribute back gives the original text: escaping loses nothing. */
  lemma {:induction false} EscapeRoundTrip(s: string)
    ensures Unescape(EscapeEach(s)) == s
  {
    if s != [] {
      EscapeRoundTrip(s[1..]);
      UnescapeStep(s[0], EscapeEach(s[1..]));
      assert s == [s[0]] + s[1..];
    }
  }

  /** `escapeAttr` escapes the value's string form character by character, losslessly. */
  lemma {:induction false} EscapeAttrSpec(v: Json)
    ensures var s := if v == Null then "" else JsString(v);
            EscapeAttr(v) == EscapeEach(s) && Unescape(EscapeAttr(v)) == s &&
            forall i :: 0 <= i < |EscapeAttr(v)| ==> EscapeAttr(v)[i] !in {'"', '<', '>'}
  {
    var s := if v == Null then "" else JsString(v);
    assert EscapeAttr(v) == Chain(s);
    EscapeAttrPerChar(s);
    EscapeRoundTrip(s);
    EscapedIsSafe(s);
  }
}
