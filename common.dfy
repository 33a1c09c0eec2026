/** Shared vocabulary: optional (nullable) values, Java's and hutool's notions of a blank
    string, decimal rendering of integers, and `String.split("\\s+")`. */
module Common {

  /** A Java reference that may be null. */
  datatype Option<+T> = None | Some(value: T) {
    function GetOr(default: T): T {
      if Some? then value else default
    }
  }

  /** The business error codes the core raises. */
  datatype ErrorCode = ParamsError | NotLoginError | NoAuthError | SystemError | OperationError

  /** A value, or the business exception raised instead of returning it. */
  datatype Result<+T> = Ok(value: T) | Raised(code: ErrorCode)

  /** How `String.format("%s", x)` and string concatenation render a possibly-null string. */
  function Str(s: Option<string>): string {
    if s.Some? then s.value else "null"
  }

  /** A project directory on the local disk as `java.io.File` sees it. */
  datatype LocalProject = LocalProject(
    path: string,           // getAbsolutePath()
    name: string,           // getName()
    present: bool,          // exists()
    isDirectory: bool,
    hasPackageJson: bool)

  // ---------------------------------------------------------------------------
  // Blank strings

  /** `Character.isWhitespace`. */
  predicate IsJavaWhitespace(c: char) {
    ('\t' <= c <= '\r') || ('\U{001C}' <= c <= '\U{001F}') || c == ' '
    || c == '\U{1680}' || ('\U{2000}' <= c <= '\U{200A}' && c != '\U{2007}')
    || c == '\U{2028}' || c == '\U{2029}' || c == '\U{205F}' || c == '\U{3000}'
  }

  /** `Character.isSpaceChar`: the Unicode space, line and paragraph separators. */
  predicate IsSpaceChar(c: char) {
    c == ' ' || c == '\U{00A0}' || c == '\U{1680}' || ('\U{2000}' <= c <= '\U{200A}')
    || c == '\U{2028}' || c == '\U{2029}' || c == '\U{202F}' || c == '\U{205F}' || c == '\U{3000}'
  }

  /** hutool's `CharUtil.isBlankChar`. */
  predicate IsBlankChar(c: char) {
    IsJavaWhitespace(c) || IsSpaceChar(c)
    || c == '\U{FEFF}' || c == '\U{202A}' || c == '\0' || c == '\U{3164}' || c == '\U{2800}' || c == '\U{180E}'
  }

  /** `String.isBlank()` on a non-null string. */
  predicate IsJavaBlank(s: string) {
    forall i | 0 <= i < |s| :: IsJavaWhitespace(s[i])
  }

  /** hutool's `StrUtil.isBlank`, which also accepts null. */
  predicate IsStrBlank(s: Option<string>) {
    s.None? || forall i | 0 <= i < |s.value| :: IsBlankChar(s.value[i])
  }

  /** Every character Java calls whitespace is blank for hutool too. */
  lemma JavaBlankIsStrBlank(s: string)
    requires IsJavaBlank(s)
    ensures IsStrBlank(Some(s))
  {
  }

  // ---------------------------------------------------------------------------
  // Decimal rendering (`Long.toString`, `String.valueOf(long)`)

  predicate IsDigit(c: char) { '0' <= c <= '9' }

  function DigitChar(d: nat): (c: char)
    requires d < 10
    ensures IsDigit(c)
  {
    ('0' as int + d) as char
  }

  function NatToString(n: nat): (s: string)
    ensures |s| >= 1 && forall i | 0 <= i < |s| :: IsDigit(s[i])
    ensures (|s| == 1) == (n < 10)
  {
    if n < 10 then [DigitChar(n)] else NatToString(n / 10) + [DigitChar(n % 10)]
  }

  /** `Long.toString(n)`: an optional minus sign followed by the digits of |n|. */
  function IntToString(n: int): (s: string)
    ensures |s| >= 1 && IsDigit(s[|s| - 1])
    ensures n >= 0 <==> IsDigit(s[0])
  {
    if n < 0 then "-" + NatToString(-n) else NatToString(n)
  }

  /** Distinct naturals have distinct decimal renderings. */
  lemma {:induction false} NatToStringInjective(a: nat, b: nat)
    requires NatToString(a) == NatToString(b)
    ensures a == b
  {
    if a >= 10 && b >= 10 {
      var sa, sb := NatToString(a), NatToString(b);
      assert sa[|sa| - 1] == DigitChar(a % 10) && sb[|sb| - 1] == DigitChar(b % 10);
      assert a % 10 == b % 10;
      assert sa[..|sa| - 1] == NatToString(a / 10);
      assert sb[..|sb| - 1] == NatToString(b / 10);
      NatToStringInjective(a / 10, b / 10);
    }
  }

  /** Distinct integers have distinct decimal renderings. */
  lemma IntToStringInjective(a: int, b: int)
    requires IntToString(a) == IntToString(b)
    ensures a == b
  {
    if a < 0 && b < 0 {
      assert NatToString(-a) == IntToString(a)[1..];
      assert NatToString(-b) == IntToString(b)[1..];
      NatToStringInjective(-a, -b);
    } else if a >= 0 && b >= 0 {
      NatToStringInjective(a, b);
    }
  }

  /** Two strings that share a prefix are equal exactly when their remainders are. */
  lemma SamePrefixCancel(p: string, s: string, t: string)
    requires p + s == p + t
    ensures s == t
  {
    assert s == (p + s)[|p|..];
    assert t == (p + t)[|p|..];
  }

  /** Concatenation regroups freely. */
  lemma Associate<T>(a: seq<T>, b: seq<T>, c: seq<T>)
    ensures a + b + c == a + (b + c)
  {
  }

  /** Left-pads the decimal rendering of `n` with zeros to at least `width` characters
      (what a `yyyy`, `MM` or `dd` date pattern prints). */
  function ZeroPad(n: nat, width: nat): (s: string)
    ensures |s| >= width && forall i | 0 <= i < |s| :: IsDigit(s[i])
    decreases width
  {
    var digits := NatToString(n);
    if |digits| >= width then digits else "0" + ZeroPad(n, width - 1)
  }

  // ---------------------------------------------------------------------------
  // `String.split("\\s+")`

  /** The character class `\s` of java.util.regex: `[ \t\n\x0B\f\r]`. */
  predicate IsRegexSpace(c: char) {
    c == ' ' || c == '\t' || c == '\n' || c == '\U{000B}' || c == '\U{000C}' || c == '\r'
  }

  predicate HasNoSpace(w: string) {
    forall i | 0 <= i < |w| :: !IsRegexSpace(w[i])
  }

  /** The first index at or after `i` holding a space, or `|s|`. */
  function NextSpace(s: string, i: nat): (j: nat)
    requires i <= |s|
    ensures i <= j <= |s|
    ensures j < |s| ==> IsRegexSpace(s[j])
    ensures forall k | i <= k < j :: !IsRegexSpace(s[k])
    decreases |s| - i
  {
    if i == |s| || IsRegexSpace(s[i]) then i else NextSpace(s, i + 1)
  }

  /** The first index at or after `i` that is not a space, or `|s|`. */
  function SpaceRunEnd(s: string, i: nat): (j: nat)
    requires i <= |s|
    ensures i <= j <= |s|
    ensures j < |s| ==> !IsRegexSpace(s[j])
    decreases |s| - i
  {
    if i < |s| && IsRegexSpace(s[i]) then SpaceRunEnd(s, i + 1) else i
  }

  /** The pieces between maximal runs of spaces, empty leading and trailing pieces included. */
  function Pieces(s: string): (r: seq<string>)
    ensures |r| >= 1
    ensures forall k | 0 <= k < |r| :: HasNoSpace(r[k])
    decreases |s|
  {
    var i := NextSpace(s, 0);
    if i == |s| then [s] else [s[..i]] + Pieces(s[SpaceRunEnd(s, i + 1)..])
  }

  function DropTrailingEmpty(ws: seq<string>): (r: seq<string>)
    ensures r <= ws
    ensures r != [] ==> r[|r| - 1] != ""
  {
    if ws == [] || ws[|ws| - 1] != "" then ws else DropTrailingEmpty(ws[..|ws| - 1])
  }

  /** `s.split("\\s+")`: without a match the whole string is the only piece; otherwise the
      pieces, with trailing empty ones removed (a leading empty piece stays). */
  function SplitOnSpaces(s: string): (r: seq<string>)
    ensures forall k | 0 <= k < |r| :: HasNoSpace(r[k])
  {
    if NextSpace(s, 0) == |s| then [s] else DropTrailingEmpty(Pieces(s))
  }

  /** The words joined by single spaces. */
  function Unwords(ws: seq<string>): string
    requires |ws| >= 1
  {
    if |ws| == 1 then ws[0] else ws[0] + " " + Unwords(ws[1..])
  }

  lemma NextSpaceSkipsWord(w: string, t: string)
    requires HasNoSpace(w)
    ensures NextSpace(w + t, 0) == |w| + NextSpace(t, 0)
  {
    var s := w + t;
    var k := NextSpace(t, 0);
    forall m | 0 <= m < |w| + k
      ensures !IsRegexSpace(s[m])
    {
      if m < |w| { assert s[m] == w[m]; } else { assert s[m] == t[m - |w|]; }
    }
    if |w| + k < |s| {
      assert s[|w| + k] == t[k];
    }
  }

  /** Splitting words joined by single spaces gives the words back, provided each word is
      non-empty and holds no space. */
  lemma SplitUnwords(ws: seq<string>)
    requires |ws| >= 1
    requires forall k | 0 <= k < |ws| :: ws[k] != "" && HasNoSpace(ws[k])
    ensures Pieces(Unwords(ws)) == ws
    ensures SplitOnSpaces(Unwords(ws)) == ws
  {
    var s := Unwords(ws);
    PiecesUnwords(ws);
    assert ws[|ws| - 1] != "";
    if NextSpace(s, 0) != |s| {
      assert DropTrailingEmpty(ws) == ws;
    }
  }

  lemma {:induction false} PiecesUnwords(ws: seq<string>)
    requires |ws| >= 1
    requires forall k | 0 <= k < |ws| :: ws[k] != "" && HasNoSpace(ws[k])
    ensures Pieces(Unwords(ws)) == ws
  {
    if |ws| == 1 {
      NextSpaceSkipsWord(ws[0], "");
      assert ws[0] + "" == ws[0];
    } else {
      var rest := Unwords(ws[1..]);
      PiecesUnwords(ws[1..]);
      assert |rest| >= 1 && rest[0] == ws[1][0] by {
        UnwordsStartsWithFirst(ws[1..]);
      }
      PiecesAfterWord(ws[0], rest);
      assert Unwords(ws) == ws[0] + " " + rest;
      assert ws == [ws[0]] + ws[1..];
    }
  }

  /** A word, one space and a text not starting with a space split into the word and the
      pieces of the text. */
  lemma PiecesAfterWord(w: string, rest: string)
    requires HasNoSpace(w)
    requires |rest| >= 1 && !IsRegexSpace(rest[0])
    ensures Pieces(w + " " + rest) == [w] + Pieces(rest)
  {
    var s := w + " " + rest;
    var i := |w|;
    assert s == w + (" " + rest);
    NextSpaceSkipsWord(w, " " + rest);
    assert NextSpace(s, 0) == i;
    assert s[i] == ' ' && s[i + 1] == rest[0];
    assert SpaceRunEnd(s, i + 1) == i + 1;
    assert s[..i] == w && s[i + 1..] == rest;
  }

  lemma {:induction false} UnwordsStartsWithFirst(ws: seq<string>)
    requires |ws| >= 1 && ws[0] != ""
    ensures |Unwords(ws)| >= 1 && Unwords(ws)[0] == ws[0][0]
  {
  }
}
