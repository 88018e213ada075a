/**
 * The pure helpers of the client: platform detection from the user agent,
 * stripping the data-URL header from a base64 image, and choosing the unit in
 * which a file size is shown.
 */
module Utils {
  import opened Strings
  import opened AppraisalTypes

  // ---------------------------------------------------------------------------
  // platform detection

  /** `toLowerCase` restricted to the ASCII letters. */
  function LowerAscii(c: char): (d: char)
    ensures 'A' <= c <= 'Z' ==> d as int == c as int + 32
    ensures !('A' <= c <= 'Z') ==> d == c
  {
    if 'A' <= c <= 'Z' then (c as int + 32) as char else c
  }

  /** `s.toLowerCase()`, character by character. */
  function ToLower(s: string): (r: string)
    ensures |r| == |s|
    ensures forall i :: 0 <= i < |s| ==> r[i] == LowerAscii(s[i])
  {
    if |s| == 0 then "" else [LowerAscii(s[0])] + ToLower(s[1..])
  }

  /** Lower-casing twice is lower-casing once. */
  lemma ToLowerIdempotent(s: string)
    ensures ToLower(ToLower(s)) == ToLower(s)
  {
  }

  /** `p` occurs somewhere in `s`: the meaning of a regular-expression test for the literal `p`. */
  ghost predicate Mentions(s: string, p: string) {
    exists i: nat :: OccursAt(s, p, i)
  }

  /** The substring test the client runs agrees with its meaning. */
  lemma ContainsMentions(s: string, p: string)
    ensures Contains(s, p) <==> Mentions(s, p)
  {
    if Contains(s, p) {
      assert OccursAt(s, p, IndexOf(s, p) as nat);
    }
  }

  /** `/iphone|ipad|ipod/.test(agent)`. */
  predicate IosMarker(agent: string) {
    Contains(agent, "iphone") || Contains(agent, "ipad") || Contains(agent, "ipod")
  }

  /** `detectPlatform()` for the browser whose user agent is `userAgent`. */
  function DetectPlatform(userAgent: string): (p: Platform)
    ensures var ua := ToLower(userAgent);
      && (p == Ios <==> Mentions(ua, "iphone") || Mentions(ua, "ipad") || Mentions(ua, "ipod"))
      && (p == Android <==> !(Mentions(ua, "iphone") || Mentions(ua, "ipad") || Mentions(ua, "ipod")) && Mentions(ua, "android"))
      && (p == Web <==> !(Mentions(ua, "iphone") || Mentions(ua, "ipad") || Mentions(ua, "ipod") || Mentions(ua, "android")))
  {
    var ua := ToLower(userAgent);
    ContainsMentions(ua, "iphone");
    ContainsMentions(ua, "ipad");
    ContainsMentions(ua, "ipod");
    ContainsMentions(ua, "android");
    if IosMarker(ua) then Ios
    else if Contains(ua, "android") then Android
    else Web
  }

  /** Detection ignores the case of the user agent. */
  lemma {:induction false} DetectPlatformIgnoresCase(userAgent: string)
    ensures DetectPlatform(ToLower(userAgent)) == DetectPlatform(userAgent)
  {
    ToLowerIdempotent(userAgent);
  }

  /** `isMobileDevice()`. */
  function IsMobileDevice(userAgent: string): (mobile: bool)
    ensures mobile <==> DetectPlatform(userAgent) in {Ios, Android}
  {
    var p := DetectPlatform(userAgent);
    p == Ios || p == Android
  }

  // ---------------------------------------------------------------------------
  // data URLs

  const Base64Marker := "base64,"

  /** `extractBase64Data(dataUrl)`: the text after the first `base64,`, or the input unchanged. */
  function ExtractBase64Data(dataUrl: string): (r: string)
    ensures |r| <= |dataUrl| && r == dataUrl[|dataUrl| - |r|..]
    ensures (forall i: nat :: !OccursAt(dataUrl, Base64Marker, i)) ==> r == dataUrl
    ensures forall i: nat ::
      OccursAt(dataUrl, Base64Marker, i) && (forall j: nat :: j < i ==> !OccursAt(dataUrl, Base64Marker, j))
      ==> r == dataUrl[i + |Base64Marker|..]
  {
    var index := IndexOf(dataUrl, Base64Marker);
    if index != -1 then
      assert forall i: nat :: OccursAt(dataUrl, Base64Marker, i) && (forall j: nat :: j < i ==> !OccursAt(dataUrl, Base64Marker, j)) ==> i == index;
      dataUrl[index + 7..]
    else dataUrl
  }

  /** For a data URL `data:<mime>;base64,<payload>` the helper returns exactly the payload. */
  lemma DataUrlPayload(mime: string, payload: string)
    requires ',' !in mime
    ensures ExtractBase64Data("data:" + mime + ";base64," + payload) == payload
  {
    var head := "data:" + mime + ";base64";
    var s := head + "," + payload;
    assert s == "data:" + mime + ";base64," + payload;
    var at := |head| - 6;
    assert OccursAt(s, Base64Marker, at) by {
      assert s[at..at + 7] == "base64,";
    }
    forall j: nat | j < at
      ensures !OccursAt(s, Base64Marker, j)
    {
      assert s[j + 6] == head[j + 6];
      assert head[j + 6] != ',' by {
        if j + 6 < 5 + |mime| {
          assert head[j + 6] == ("data:" + mime)[j + 6];
        } else {
          assert head[j + 6] == ";base64"[j + 6 - 5 - |mime|];
        }
      }
    }
    assert s[at + 7..] == payload;
  }

  // ---------------------------------------------------------------------------
  // file sizes

  /**
   * The unit `formatFileSize` shows a size in. Only the byte text is modelled:
   * the kilobyte and megabyte texts come from floating-point division and `toFixed`.
   */
  datatype FileSizeLabel = InBytes(text: string) | InKilobytes(bytes: int) | InMegabytes(bytes: int)

  const KiB := 1024
  const MiB := 1024 * 1024

  /** `formatFileSize(bytes)`, up to the rendering of the kilobyte and megabyte figures. */
  function FormatFileSize(bytes: int): (l: FileSizeLabel)
    ensures l.InBytes? <==> bytes < KiB
    ensures l.InKilobytes? <==> KiB <= bytes < MiB
    ensures l.InMegabytes? <==> MiB <= bytes
    ensures l.InBytes? ==> l.text == IntToDecimal(bytes) + " B"
    ensures !l.InBytes? ==> l.bytes == bytes
  {
    if bytes < 1024 then InBytes(IntToDecimal(bytes) + " B")
    else if bytes < 1024 * 1024 then InKilobytes(bytes)
    else InMegabytes(bytes)
  }

  /** The byte text of a small size reads back as that size: the digits, then " B". */
  lemma {:induction false} ByteLabelReadsBack(bytes: nat)
    requires bytes < KiB
    ensures var t := FormatFileSize(bytes).text;
      && |t| >= 3 && t[|t| - 2..] == " B"
      && (forall i :: 0 <= i < |t| - 2 ==> IsDigit(t[i]))
      && DecimalValue(t[..|t| - 2]) == bytes
  {
    var t := FormatFileSize(bytes).text;
    assert t[..|t| - 2] == NatToDecimal(bytes);
    DecimalRoundTrip(bytes);
  }
}
