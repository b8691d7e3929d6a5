/** The string tests the client relies on: Apache Commons Lang's
    `StringUtils.isBlank` and `StringUtils.isNotEmpty`, and Java's
    `String.length()`, which counts UTF-16 code units. */
module JavaStrings {
  import opened Types

  /** Java's `Character.isWhitespace` as of Java 9 (Unicode 8 and later): the
      space, line and paragraph separators except the three no-break spaces,
      plus the ASCII controls TAB, LF, VT, FF, CR and the four information
      separators U+001C to U+001F. Every whitespace character is a single
      UTF-16 unit. */
  function IsWhitespace(c: char): (r: bool)
    ensures r ==> (c as int) < 0x1_0000
    ensures c == '\U{00A0}' || c == '\U{2007}' || c == '\U{202F}' || c == '\U{180E}' ==> !r
    ensures (c as int) < 0x80 ==> (r <==> c == ' ' || ('\t' <= c <= '\r') || ('\U{001C}' <= c <= '\U{001F}'))
  {
    c == ' ' || c == '\t' || c == '\n' || c == '\U{000B}' || c == '\U{000C}' || c == '\r'
    || ('\U{001C}' <= c <= '\U{001F}')
    || c == '\U{1680}'
    || ('\U{2000}' <= c <= '\U{2006}') || ('\U{2008}' <= c <= '\U{200A}')
    || c == '\U{2028}' || c == '\U{2029}' || c == '\U{205F}' || c == '\U{3000}'
  }

  /** True when every character of `s` is whitespace (vacuously so for ""). */
  function AllWhitespace(s: string): (r: bool)
    ensures r <==> forall i :: 0 <= i < |s| ==> IsWhitespace(s[i])
  {
    if s == [] then true
    else IsWhitespace(s[0]) && AllWhitespace(s[1..])
  }

  /** `StringUtils.isBlank`: null, empty, or whitespace only. */
  function IsBlank(s: JavaString): (r: bool)
    ensures r <==> s.None? || forall i :: 0 <= i < |s.value| ==> IsWhitespace(s.value[i])
  {
    match s
    case None => true
    case Some(t) => AllWhitespace(t)
  }

  /** `StringUtils.isNotEmpty`: neither null nor "". Whitespace counts as content,
      so an empty string is always blank but a blank one need not be empty. */
  function IsNotEmpty(s: JavaString): (r: bool)
    ensures !r <==> s == None || s == Some("")
    ensures !r ==> IsBlank(s)
    ensures s == Some(" ") ==> r && IsBlank(s)
  {
    s.Some? && |s.value| > 0
  }

  /** The number of UTF-16 code units Java uses for `s`: a character outside the
      Basic Multilingual Plane takes a surrogate pair. */
  function JavaLength(s: string): (n: nat)
    ensures |s| <= n <= 2 * |s|
    ensures (forall i :: 0 <= i < |s| ==> (s[i] as int) < 0x1_0000) ==> n == |s|
  {
    if s == [] then 0
    else (if (s[0] as int) < 0x1_0000 then 1 else 2) + JavaLength(s[1..])
  }
}
