/** The two RGBA colour-string parsers of the site: `parseRGBAColor` of the
    background sketch and `parseRGBAColorSafe` of the page script. Both
    search a string for `rgb(` or `rgba(`, three decimal groups separated by
    commas, an optional fourth group of digits and dots, and `)`. They
    differ only in whitespace: the sketch's pattern allows whitespace on
    both sides of each comma, the page's only after it.

    The pattern is matched at one start position by scanning the rest of
    the string from left to right, each run of digits, dots or whitespace
    taken whole. This gives the same match as the regular expression's
    backtracking: giving back part of a run always leaves a character of
    that run next, and the pattern never accepts such a character there.
    The search tries the start positions in order, as
    `String.prototype.match` does. */
module ColorParsing {
  import opened Wrappers

  /** The value handed to a parser: a string, or anything else
      (`null`, `undefined`, an object). */
  datatype JsValue = JsString(s: string) | Other

  /** A JavaScript number that is a finite value or `NaN`. */
  datatype Alpha = Finite(value: real) | NaN

  /** The object the parsers return; `a` is on p5's 0-255 scale. */
  datatype Rgba = Rgba(r: nat, g: nat, b: nat, a: Alpha)

  /** `\d` */
  predicate IsDigit(c: char) {
    '0' <= c <= '9'
  }

  /** JavaScript's `\s` (white space and line terminators). */
  predicate IsJsSpace(c: char) {
    || c == ' ' || c == '\t' || c == '\n' || c == '\U{0B}' || c == '\U{0C}' || c == '\r'
    || c == '\U{A0}' || c == '\U{1680}' || ('\U{2000}' <= c <= '\U{200A}')
    || c == '\U{2028}' || c == '\U{2029}' || c == '\U{202F}' || c == '\U{205F}'
    || c == '\U{3000}' || c == '\U{FEFF}'
  }

  /** `[\d.]` */
  predicate IsDecimalChar(c: char) {
    IsDigit(c) || c == '.'
  }

  predicate AllDigits(s: string) {
    forall k :: 0 <= k < |s| ==> IsDigit(s[k])
  }

  predicate AllDecimalChars(s: string) {
    forall k :: 0 <= k < |s| ==> IsDecimalChar(s[k])
  }

  /** The length of the run of characters in the class `inRun` at the
      start of `t`. */
  function Run(t: string, inRun: char -> bool): (n: nat)
    ensures n <= |t|
    ensures forall k :: 0 <= k < n ==> inRun(t[k])
    ensures n < |t| ==> !inRun(t[n])
  {
    if |t| > 0 && inRun(t[0]) then 1 + Run(t[1..], inRun) else 0
  }

  /** A run ends at the first character outside its class. */
  lemma {:induction false} RunOf(d: string, v: string, inRun: char -> bool)
    requires forall k :: 0 <= k < |d| ==> inRun(d[k])
    requires |v| == 0 || !inRun(v[0])
    ensures Run(d + v, inRun) == |d|
  {
    if |d| > 0 {
      assert (d + v)[1..] == d[1..] + v;
      RunOf(d[1..], v, inRun);
    } else {
      assert d + v == v;
    }
  }

  /** `t` split after a prefix the pattern consumed. */
  datatype Split = Split(taken: string, rest: string)

  /** `(\d+)`: a non-empty run of digits and what follows it. */
  function Number(t: string): Option<Split> {
    var n := Run(t, IsDigit);
    if n > 0 then Some(Split(t[..n], t[n..])) else None
  }

  /** `\s*`: what follows the whitespace at the start of `t`. */
  function SkipSpaces(t: string): string {
    t[Run(t, IsJsSpace)..]
  }

  /** `String.prototype.trim`: `t` without its leading and trailing
      whitespace. */
  function Trim(t: string): (r: string)
    ensures |r| == 0 || (!IsJsSpace(r[0]) && !IsJsSpace(r[|r| - 1]))
    ensures exists i, j :: 0 <= i <= j <= |t| && r == t[i..j]
                           && (forall k :: 0 <= k < i ==> IsJsSpace(t[k]))
                           && (forall k :: j <= k < |t| ==> IsJsSpace(t[k]))
  {
    var i := Run(t, IsJsSpace);
    var r := TrimEnd(t[i..]);
    assert r == t[i..i + |r|];
    assert forall k :: i + |r| <= k < |t| ==> t[k] == t[i..][k - i];
    r
  }

  /** `t` without its trailing whitespace: a prefix of `t` followed only
      by whitespace. */
  function TrimEnd(t: string): (r: string)
    ensures |r| <= |t| && r == t[..|r|]
    ensures |r| == 0 || !IsJsSpace(r[|r| - 1])
    ensures forall k :: |r| <= k < |t| ==> IsJsSpace(t[k])
  {
    if |t| > 0 && IsJsSpace(t[|t| - 1]) then TrimEnd(t[..|t| - 1]) else t
  }

  /** Trimming leaves a text without surrounding whitespace as it is; in
      particular trimming twice is trimming once. */
  lemma TrimUnpadded(t: string)
    requires |t| == 0 || (!IsJsSpace(t[0]) && !IsJsSpace(t[|t| - 1]))
    ensures Trim(t) == t
  {
    assert SkipSpaces(t) == t;
  }

  lemma TrimIdempotent(t: string)
    ensures Trim(Trim(t)) == Trim(t)
  {
    TrimUnpadded(Trim(t));
  }

  /** A comma with the whitespace after it, and with whitespace before it
      when `spaced`: what follows. */
  function Comma(t: string, spaced: bool): Option<string> {
    var u := if spaced then SkipSpaces(t) else t;
    if |u| > 0 && u[0] == ',' then Some(SkipSpaces(u[1..])) else None
  }

  /** The optional alpha group and the closing parenthesis after the third
      number: first with the group, then without it. */
  function Tail(t: string, spaced: bool): Option<Option<string>> {
    var withAlpha :=
      match Comma(t, spaced)
      case Some(u) =>
        var n := Run(u, IsDecimalChar);
        if 0 < n < |u| && u[n] == ')' then Some(Some(u[..n])) else None
      case None => None;
    if withAlpha.Some? then withAlpha
    else if |t| > 0 && t[0] == ')' then Some(None)
    else None
  }

  /** The text of the capture groups: `r`, `g`, `b` and the optional
      alpha. */
  datatype Groups = Groups(r: string, g: string, b: string, alpha: Option<string>)

  /** The three numbers, their separators and the tail at the start of
      `t`. */
  function Numbers(t: string, spaced: bool): Option<Groups> {
    match Number(t)
    case None => None
    case Some(n1) => SecondNumber(n1.taken, n1.rest, spaced)
  }

  /** The rest of the pattern after the first number `r`. */
  function SecondNumber(r: string, t: string, spaced: bool): Option<Groups> {
    match Comma(t, spaced)
    case None => None
    case Some(t2) =>
      match Number(t2)
      case None => None
      case Some(n2) => ThirdNumber(r, n2.taken, n2.rest, spaced)
  }

  /** The rest of the pattern after the numbers `r` and `g`. */
  function ThirdNumber(r: string, g: string, t: string, spaced: bool): Option<Groups> {
    match Comma(t, spaced)
    case None => None
    case Some(t3) =>
      match Number(t3)
      case None => None
      case Some(n3) =>
        match Tail(n3.rest, spaced)
        case None => None
        case Some(alpha) => Some(Groups(r, g, n3.taken, alpha))
  }

  /** The pattern anchored at the start of `t`; `spaced` selects the
      sketch's pattern (whitespace allowed before commas). */
  function MatchPrefix(t: string, spaced: bool): Option<Groups> {
    if |t| >= 3 && t[..3] == "rgb" then
      var u := if |t| > 3 && t[3] == 'a' then t[4..] else t[3..];
      if |u| > 0 && u[0] == '(' then Numbers(u[1..], spaced) else None
    else None
  }

  /** The match at the first position from `i` to `n` where `m` has one:
      the order in which the search tries start positions. */
  function FirstMatch(m: nat -> Option<Groups>, i: nat, n: nat): Option<Groups>
    decreases n - i
  {
    if m(i).Some? then m(i)
    else if i >= n then None
    else FirstMatch(m, i + 1, n)
  }

  /** The pattern at each start position of `s`. */
  function Matcher(s: string, spaced: bool): nat -> Option<Groups> {
    (k: nat) => if k <= |s| then MatchPrefix(s[k..], spaced) else None
  }

  /** `String.prototype.match` without the global flag: the first match. */
  function Search(s: string, spaced: bool): Option<Groups> {
    FirstMatch(Matcher(s, spaced), 0, |s|)
  }

  /** The value of one decimal digit. */
  function DigitValue(c: char): nat {
    if IsDigit(c) then c as int - '0' as int else 0
  }

  /** `parseInt(digits, 10)` on a run of digits. */
  function DecimalValue(ds: string): nat {
    if |ds| == 0 then 0
    else DecimalValue(ds[..|ds| - 1]) * 10 + DigitValue(ds[|ds| - 1])
  }

  /** The value of the digits after a decimal point. */
  function FractionValue(ds: string): real {
    if |ds| == 0 then 0.0
    else (DigitValue(ds[0]) as real + FractionValue(ds[1..])) / 10.0
  }

  /** `parseFloat` on a run of digits and dots: the digits before the first
      dot and those right after it; `NaN` when there are none on either
      side. A second dot ends the number. */
  function ParseFloat(t: string): Alpha {
    var e := Run(t, IsDigit);
    if e < |t| && t[e] == '.' then
      var f := Run(t[e + 1..], IsDigit);
      if e == 0 && f == 0 then NaN
      else Finite(DecimalValue(t[..e]) as real + FractionValue(t[e + 1..][..f]))
    else if e == 0 then NaN
    else Finite(DecimalValue(t[..e]) as real)
  }

  /** `a * 255` on a JavaScript number. */
  function Times(a: Alpha, k: real): Alpha {
    match a
    case Finite(v) => Finite(v * k)
    case NaN => NaN
  }

  /** The object built from a match: the three numbers, and the alpha (1
      when absent) times 255. */
  function FromGroups(g: Groups): Rgba {
    var a := match g.alpha
             case None => Finite(1.0)
             case Some(t) => ParseFloat(t);
    Rgba(DecimalValue(g.r), DecimalValue(g.g), DecimalValue(g.b), Times(a, 255.0))
  }

  /** The shared body of the two parsers: `null` for a falsy or non-string
      input and for a string with no match. */
  function Parse(v: JsValue, spaced: bool): (r: Option<Rgba>)
    ensures v.Other? || v == JsString("") ==> r == None
  {
    match v
    case Other => None
    case JsString(s) =>
      if s == "" then None
      else
        match Search(s, spaced)
        case None => None
        case Some(g) => Some(FromGroups(g))
  }

  /** `parseRGBAColor` of the background sketch. */
  function ParseRGBAColor(v: JsValue): Option<Rgba> {
    Parse(v, true)
  }

  /** `parseRGBAColorSafe` of the page script. */
  function ParseRGBAColorSafe(v: JsValue): Option<Rgba> {
    Parse(v, false)
  }

  // ---------------------------------------------------------------------
  // The search

  /** The search finds a match exactly when some position from `i` to
      `n` has one, and what it finds is the match at the first such
      position. */
  lemma {:induction false} FirstMatchFinds(m: nat -> Option<Groups>, i: nat, n: nat)
    requires i <= n
    ensures FirstMatch(m, i, n).None? <==> forall k :: i <= k <= n ==> m(k).None?
    ensures FirstMatch(m, i, n).Some? ==>
              exists k :: i <= k <= n && FirstMatch(m, i, n) == m(k)
                          && forall j :: i <= j < k ==> m(j).None?
    decreases n - i
  {
    if m(i).None? && i < n {
      assert FirstMatch(m, i, n) == FirstMatch(m, i + 1, n);
      FirstMatchFinds(m, i + 1, n);
      if FirstMatch(m, i, n).Some? {
        var k :| i + 1 <= k <= n && FirstMatch(m, i + 1, n) == m(k)
                 && forall j :: i + 1 <= j < k ==> m(j).None?;
        assert forall j :: i <= j < k ==> m(j).None?;
      }
    }
  }

  /** A parser returns a colour exactly when the input is a non-empty
      string in which the pattern matches at some position. */
  lemma ParseSomeIff(v: JsValue, spaced: bool)
    ensures Parse(v, spaced).Some? <==>
              v.JsString? && v.s != "" && exists k :: 0 <= k <= |v.s| && MatchPrefix(v.s[k..], spaced).Some?
  {
    if v.JsString? {
      var m := Matcher(v.s, spaced);
      FirstMatchFinds(m, 0, |v.s|);
      assert forall k :: 0 <= k <= |v.s| ==> m(k) == MatchPrefix(v.s[k..], spaced);
    }
  }

  // ---------------------------------------------------------------------
  // Round trips through the formats the style sheet uses

  /** The decimal text of a number, as CSS writes it. */
  function NatText(n: nat): (t: string)
    ensures |t| > 0 && AllDigits(t)
  {
    if n < 10 then [('0' as int + n) as char]
    else NatText(n / 10) + [('0' as int + n % 10) as char]
  }

  /** `parseInt` reads back the number `NatText` wrote. */
  lemma {:induction false} NatTextRoundTrip(n: nat)
    ensures DecimalValue(NatText(n)) == n
  {
    var t := NatText(n);
    if n >= 10 {
      NatTextRoundTrip(n / 10);
      assert t[..|t| - 1] == NatText(n / 10);
    }
  }

  /** A run of digits `d` followed by something else is one number of the
      pattern. */
  lemma NumberOf(d: string, v: string)
    requires |d| > 0 && AllDigits(d) && |v| > 0 && !IsDigit(v[0])
    ensures Number(d + v) == Some(Split(d, v))
  {
    RunOf(d, v, IsDigit);
    assert (d + v)[..|d|] == d && (d + v)[|d|..] == v;
  }

  /** A comma with whitespace `before` it (none for the page's pattern)
      and `after` it is a separator; what follows is `v`. */
  lemma SeparatorOf(before: string, after: string, v: string, spaced: bool)
    requires forall k :: 0 <= k < |before| ==> IsJsSpace(before[k])
    requires forall k :: 0 <= k < |after| ==> IsJsSpace(after[k])
    requires !spaced ==> before == ""
    requires |v| > 0 && !IsJsSpace(v[0])
    ensures Comma(before + ("," + (after + v)), spaced) == Some(v)
  {
    var t := before + ("," + (after + v));
    if spaced {
      RunOf(before, "," + (after + v), IsJsSpace);
      assert SkipSpaces(t) == "," + (after + v);
    } else {
      assert t == "," + (after + v);
    }
    assert ("," + (after + v))[1..] == after + v;
    RunOf(after, v, IsJsSpace);
    assert (after + v)[|after|..] == v;
  }

  /** `, ` followed by something other than whitespace is a separator of
      either pattern. */
  lemma CommaOf(v: string, spaced: bool)
    requires |v| > 0 && !IsJsSpace(v[0])
    ensures Comma(", " + v, spaced) == Some(v)
  {
    SeparatorOf("", " ", v, spaced);
    assert "" + ("," + (" " + v)) == ", " + v;
  }

  /** The groups of `R, G, B` followed by a tail. */
  lemma NumbersOf(R: string, G: string, B: string, closer: string, spaced: bool)
    requires |R| > 0 && AllDigits(R) && |G| > 0 && AllDigits(G) && |B| > 0 && AllDigits(B)
    requires Tail(closer, spaced).Some? && |closer| > 0 && !IsDigit(closer[0])
    ensures Numbers(ListText(R, G, B, closer), spaced)
            == Some(Groups(R, G, B, Tail(closer, spaced).value))
  {
    NumberOf(R, ", " + (G + (", " + (B + closer))));
    ListSeparators(R, G, B, closer, spaced);
  }

  lemma ListSeparators(R: string, G: string, B: string, closer: string, spaced: bool)
    requires |G| > 0 && AllDigits(G) && |B| > 0 && AllDigits(B)
    requires Tail(closer, spaced).Some? && |closer| > 0 && !IsDigit(closer[0])
    ensures SecondNumber(R, ", " + (G + (", " + (B + closer))), spaced)
            == Some(Groups(R, G, B, Tail(closer, spaced).value))
  {
    CommaOf(G + (", " + (B + closer)), spaced);
    CommaOf(B + closer, spaced);
    SecondNumberOf(R, ", ", G, ", ", B, closer, spaced);
  }

  /** The second and third numbers, each after a separator. */
  lemma SecondNumberOf(R: string, sep1: string, G: string, sep2: string, B: string, closer: string,
                       spaced: bool)
    requires |G| > 0 && AllDigits(G) && |B| > 0 && AllDigits(B)
    requires Tail(closer, spaced).Some? && |closer| > 0 && !IsDigit(closer[0])
    requires |sep2| > 0 && !IsDigit(sep2[0])
    requires Comma(sep1 + (G + (sep2 + (B + closer))), spaced) == Some(G + (sep2 + (B + closer)))
    requires Comma(sep2 + (B + closer), spaced) == Some(B + closer)
    ensures SecondNumber(R, sep1 + (G + (sep2 + (B + closer))), spaced)
            == Some(Groups(R, G, B, Tail(closer, spaced).value))
  {
    NumberOf(G, sep2 + (B + closer));
    ThirdNumberOf(R, G, sep2, B, closer, spaced);
  }

  /** The third number after its separator, and the tail. */
  lemma ThirdNumberOf(R: string, G: string, sep: string, B: string, closer: string, spaced: bool)
    requires |B| > 0 && AllDigits(B)
    requires Tail(closer, spaced).Some? && |closer| > 0 && !IsDigit(closer[0])
    requires Comma(sep + (B + closer), spaced) == Some(B + closer)
    ensures ThirdNumber(R, G, sep + (B + closer), spaced)
            == Some(Groups(R, G, B, Tail(closer, spaced).value))
  {
    NumberOf(B, closer);
  }

  /** The tail `)`. */
  lemma CloseTail(spaced: bool)
    ensures Tail(")", spaced) == Some(None)
  {
    assert Run(")", IsJsSpace) == 0;
    assert SkipSpaces(")") == ")";
  }

  /** The tail `, a)` with a run of digits and dots `a`. */
  lemma AlphaTail(a: string, spaced: bool)
    requires |a| > 0 && AllDecimalChars(a)
    ensures Tail(", " + (a + ")"), spaced) == Some(Some(a))
  {
    CommaOf(a + ")", spaced);
    RunOf(a, ")", IsDecimalChar);
    assert (a + ")")[|a|] == ')' && (a + ")")[..|a|] == a;
  }

  /** Three numbers as CSS writes them, `R, G, B`, then `closer`. */
  function ListText(R: string, G: string, B: string, closer: string): string {
    R + (", " + (G + (", " + (B + closer))))
  }

  /** A decimal `w.f`, `f` a run of digits. */
  function DecimalText(w: nat, f: string): string {
    NatText(w) + ("." + f)
  }

  /** The text `rgb(r, g, b)`. */
  function RgbText(r: nat, g: nat, b: nat): string {
    "rgb(" + ListText(NatText(r), NatText(g), NatText(b), ")")
  }

  /** The text `rgba(r, g, b, a)`. */
  function RgbaText(r: nat, g: nat, b: nat, a: string): string {
    "rgba(" + ListText(NatText(r), NatText(g), NatText(b), ", " + (a + ")"))
  }

  /** `rgb(` and `rgba(` open the pattern: what follows is matched
      against the three numbers. */
  lemma OpenerAt(t: string, p: nat, spaced: bool)
    requires p == 4 || p == 5
    requires |t| >= p && t[..3] == "rgb" && t[p - 1] == '(' && (p == 5 <==> t[3] == 'a')
    ensures MatchPrefix(t, spaced) == Numbers(t[p..], spaced)
  {
    assert t[p - 1..][1..] == t[p..];
  }

  /** The pattern can only match where an `r` starts it. */
  lemma NoOpener(t: string, spaced: bool)
    requires |t| == 0 || t[0] != 'r'
    ensures MatchPrefix(t, spaced) == None
  {
    if |t| >= 3 {
      assert t[..3][0] == t[0];
    }
  }

  /** A text that starts with a match is found by the search at position
      0. */
  lemma FoundAtStart(s: string, spaced: bool)
    requires MatchPrefix(s, spaced).Some?
    ensures Search(s, spaced) == MatchPrefix(s, spaced)
  {
    assert s[0..] == s;
    assert Matcher(s, spaced)(0) == MatchPrefix(s, spaced);
  }

  /** What a parser returns for a non-empty string once the search has
      found the groups `g`. */
  lemma ParseFound(s: string, spaced: bool, g: Groups)
    requires s != "" && Search(s, spaced) == Some(g)
    ensures Parse(JsString(s), spaced) == Some(FromGroups(g))
  {
  }

  /** `rgb(R, G, B)`, with runs of digits `R`, `G` and `B`, is read by
      both parsers as those numbers with alpha 255. */
  lemma RgbGroupsRoundTrip(R: string, G: string, B: string, spaced: bool)
    requires |R| > 0 && AllDigits(R) && |G| > 0 && AllDigits(G) && |B| > 0 && AllDigits(B)
    ensures Parse(JsString("rgb(" + ListText(R, G, B, ")")), spaced)
            == Some(Rgba(DecimalValue(R), DecimalValue(G), DecimalValue(B), Finite(255.0)))
  {
    var s := "rgb(" + ListText(R, G, B, ")");
    assert Search(s, spaced) == Some(Groups(R, G, B, None)) by {
      var body := ListText(R, G, B, ")");
      assert s[..3] == "rgb" && s[3] == '(' && s[4..] == body;
      OpenerAt(s, 4, spaced);
      CloseTail(spaced);
      NumbersOf(R, G, B, ")", spaced);
      FoundAtStart(s, spaced);
    }
    ParseFound(s, spaced, Groups(R, G, B, None));
  }

  /** `rgb(r, g, b)` is read back by both parsers as `r`, `g`, `b` with
      alpha 255; nothing limits the numbers to 0-255. */
  lemma RgbRoundTrip(r: nat, g: nat, b: nat, spaced: bool)
    ensures Parse(JsString(RgbText(r, g, b)), spaced) == Some(Rgba(r, g, b, Finite(255.0)))
  {
    RgbGroupsRoundTrip(NatText(r), NatText(g), NatText(b), spaced);
    NatTextRoundTrip(r);
    NatTextRoundTrip(g);
    NatTextRoundTrip(b);
  }

  /** `w.f` is a run of digits and dots that `parseFloat` reads as
      `w + 0.f`; with `RgbaRoundTrip`, `rgba(r, g, b, w.f)` is read back
      with alpha `(w + 0.f) * 255`. */
  lemma ParseFloatText(w: nat, f: string)
    requires AllDigits(f)
    ensures AllDecimalChars(DecimalText(w, f))
    ensures ParseFloat(DecimalText(w, f)) == Finite(w as real + FractionValue(f))
  {
    var W := NatText(w);
    var t := DecimalText(w, f);
    forall k | 0 <= k < |t|
      ensures IsDecimalChar(t[k])
    {
      if k < |W| {
        assert t[k] == W[k];
      } else if k > |W| {
        assert t[k] == f[k - |W| - 1];
      }
    }
    RunOf(W, "." + f, IsDigit);
    assert t[|W|] == '.' && t[..|W|] == W && t[|W| + 1..] == f;
    RunOf(f, "", IsDigit);
    assert f + "" == f && f[..|f|] == f;
    NatTextRoundTrip(w);
  }

  /** `rgba(R, G, B, a)`, with runs of digits `R`, `G`, `B` and a run of
      digits and dots `a`, is read by both parsers as the numbers `R`,
      `G` and `B` stand for, with alpha `parseFloat(a) * 255`. */
  lemma RgbaGroupsRoundTrip(s: string, R: string, G: string, B: string, a: string, spaced: bool,
                            r: nat, g: nat, b: nat, x: real)
    requires s == "rgba(" + ListText(R, G, B, ", " + (a + ")"))
    requires |R| > 0 && AllDigits(R) && |G| > 0 && AllDigits(G) && |B| > 0 && AllDigits(B)
    requires |a| > 0 && AllDecimalChars(a)
    requires DecimalValue(R) == r && DecimalValue(G) == g && DecimalValue(B) == b
    requires ParseFloat(a) == Finite(x)
    ensures Parse(JsString(s), spaced) == Some(Rgba(r, g, b, Finite(x * 255.0)))
  {
    assert Search(s, spaced) == Some(Groups(R, G, B, Some(a))) by {
      var closer := ", " + (a + ")");
      var body := ListText(R, G, B, closer);
      assert s[..3] == "rgb" && s[3] == 'a' && s[4] == '(' && s[5..] == body;
      OpenerAt(s, 5, spaced);
      AlphaTail(a, spaced);
      NumbersOf(R, G, B, closer, spaced);
      FoundAtStart(s, spaced);
    }
    ParseFound(s, spaced, Groups(R, G, B, Some(a)));
    AlphaGroup(R, G, B, a, r, g, b, x);
  }

  /** The colour built from groups with an alpha group `a`. */
  lemma AlphaGroup(R: string, G: string, B: string, a: string, r: nat, g: nat, b: nat, x: real)
    requires DecimalValue(R) == r && DecimalValue(G) == g && DecimalValue(B) == b
    requires ParseFloat(a) == Finite(x)
    ensures FromGroups(Groups(R, G, B, Some(a))) == Rgba(r, g, b, Finite(x * 255.0))
  {
  }

  /** `rgba(r, g, b, a)` is read back by both parsers for any alpha text
      `a` made of digits and dots: the alpha is `parseFloat(a) * 255`
      (`ParseFloatText` gives that value for a decimal `w.f`). */
  lemma RgbaRoundTrip(r: nat, g: nat, b: nat, a: string, x: real, spaced: bool)
    requires |a| > 0 && AllDecimalChars(a)
    requires ParseFloat(a) == Finite(x)
    ensures Parse(JsString(RgbaText(r, g, b, a)), spaced) == Some(Rgba(r, g, b, Finite(x * 255.0)))
  {
    assert DecimalValue(NatText(r)) == r by { NatTextRoundTrip(r); }
    assert DecimalValue(NatText(g)) == g by { NatTextRoundTrip(g); }
    assert DecimalValue(NatText(b)) == b by { NatTextRoundTrip(b); }
    RgbaGroupsRoundTrip(RgbaText(r, g, b, a), NatText(r), NatText(g), NatText(b), a, spaced,
                        r, g, b, x);
  }

  // ---------------------------------------------------------------------
  // The two whitespace rules

  /** Where the page's pattern reads a comma, the sketch's reads the same
      comma: the page's has no whitespace before it. */
  lemma CommaStrictIsLenient(t: string)
    ensures Comma(t, false).Some? ==> Comma(t, true) == Comma(t, false)
  {
  }

  lemma TailStrictIsLenient(t: string)
    ensures Tail(t, false).Some? ==> Tail(t, true) == Tail(t, false)
  {
    CommaStrictIsLenient(t);
  }

  lemma NumbersStrictIsLenient(t: string)
    ensures Numbers(t, false).Some? ==> Numbers(t, true) == Numbers(t, false)
  {
    if Numbers(t, false).Some? {
      var n1 := Number(t).value;
      CommaStrictIsLenient(n1.rest);
      var n2 := Number(Comma(n1.rest, false).value).value;
      CommaStrictIsLenient(n2.rest);
      var n3 := Number(Comma(n2.rest, false).value).value;
      TailStrictIsLenient(n3.rest);
      assert ThirdNumber(n1.taken, n2.taken, n2.rest, true) == ThirdNumber(n1.taken, n2.taken, n2.rest, false);
    }
  }

  /** Where the page's pattern matches, the sketch's matches too, with the
      same groups. */
  lemma MatchStrictIsLenient(t: string)
    ensures MatchPrefix(t, false).Some? ==> MatchPrefix(t, true) == MatchPrefix(t, false)
  {
    if |t| >= 3 && t[..3] == "rgb" {
      var u := if |t| > 3 && t[3] == 'a' then t[4..] else t[3..];
      if |u| > 0 && u[0] == '(' {
        NumbersStrictIsLenient(u[1..]);
      }
    }
  }

  /** Every string the page's parser accepts, the sketch's accepts. (The
      colours may differ: the sketch's may find an earlier match.) */
  lemma StrictAcceptedIsLenientAccepted(v: JsValue)
    ensures ParseRGBAColorSafe(v).Some? ==> ParseRGBAColor(v).Some?
  {
    ParseSomeIff(v, false);
    ParseSomeIff(v, true);
    if ParseRGBAColorSafe(v).Some? {
      var k :| 0 <= k <= |v.s| && MatchPrefix(v.s[k..], false).Some?;
      MatchStrictIsLenient(v.s[k..]);
    }
  }

  /** `rgb(R ,G,B)`: a space before the first comma. */
  function SpaceBeforeCommaText(R: string, G: string, B: string): string {
    "rgb(" + (R + (" ," + (G + ("," + (B + ")")))))
  }

  /** The converse fails: a space before a comma is read only by the
      sketch's parser. */
  lemma SpaceBeforeCommaSplitsParsers(R: string, G: string, B: string)
    requires |R| > 0 && AllDigits(R) && |G| > 0 && AllDigits(G) && |B| > 0 && AllDigits(B)
    ensures ParseRGBAColor(JsString(SpaceBeforeCommaText(R, G, B)))
            == Some(Rgba(DecimalValue(R), DecimalValue(G), DecimalValue(B), Finite(255.0)))
    ensures ParseRGBAColorSafe(JsString(SpaceBeforeCommaText(R, G, B))) == None
  {
    var s := SpaceBeforeCommaText(R, G, B);
    LenientReadsSpaceBeforeComma(R, G, B);
    FoundAtStart(s, true);
    StrictRejectsSpaceBeforeComma(R, G, B);
  }

  lemma LenientReadsSpaceBeforeComma(R: string, G: string, B: string)
    requires |R| > 0 && AllDigits(R) && |G| > 0 && AllDigits(G) && |B| > 0 && AllDigits(B)
    ensures MatchPrefix(SpaceBeforeCommaText(R, G, B), true) == Some(Groups(R, G, B, None))
  {
    var s := SpaceBeforeCommaText(R, G, B);
    var body := R + (" ," + (G + ("," + (B + ")"))));
    assert s[..3] == "rgb" && s[3] == '(' && s[4..] == body;
    OpenerAt(s, 4, true);
    NumberOf(R, " ," + (G + ("," + (B + ")"))));
    LenientSeparators(R, G, B);
  }

  lemma LenientSeparators(R: string, G: string, B: string)
    requires |G| > 0 && AllDigits(G) && |B| > 0 && AllDigits(B)
    ensures SecondNumber(R, " ," + (G + ("," + (B + ")"))), true) == Some(Groups(R, G, B, None))
  {
    SeparatorOf(" ", "", G + ("," + (B + ")")), true);
    assert " " + ("," + ("" + (G + ("," + (B + ")"))))) == " ," + (G + ("," + (B + ")")));
    SeparatorOf("", "", B + ")", true);
    assert "" + ("," + ("" + (B + ")"))) == "," + (B + ")");
    CloseTail(true);
    SecondNumberOf(R, " ,", G, ",", B, ")", true);
  }

  lemma StrictRejectsSpaceBeforeComma(R: string, G: string, B: string)
    requires |R| > 0 && AllDigits(R) && |G| > 0 && AllDigits(G) && |B| > 0 && AllDigits(B)
    ensures Search(SpaceBeforeCommaText(R, G, B), false) == None
  {
    StrictFailsAtStart(R, G, B);
    NoROpenerLater(R, G, B);
    OnlyAtStart(SpaceBeforeCommaText(R, G, B), false);
  }

  lemma StrictFailsAtStart(R: string, G: string, B: string)
    requires |R| > 0 && AllDigits(R)
    ensures MatchPrefix(SpaceBeforeCommaText(R, G, B), false) == None
  {
    var s := SpaceBeforeCommaText(R, G, B);
    var body := R + (" ," + (G + ("," + (B + ")"))));
    assert s[..3] == "rgb" && s[3] == '(' && s[4..] == body;
    OpenerAt(s, 4, false);
    NumberOf(R, " ," + (G + ("," + (B + ")"))));
  }

  lemma NoROpenerLater(R: string, G: string, B: string)
    requires AllDigits(R) && AllDigits(G) && AllDigits(B)
    ensures 'r' !in SpaceBeforeCommaText(R, G, B)[1..]
  {
    var s := SpaceBeforeCommaText(R, G, B);
    var body := R + (" ," + (G + ("," + (B + ")"))));
    assert s[1..] == "gb(" + body;
    assert 'r' !in R && 'r' !in G && 'r' !in B;
    NotInEither('r', B, ")");
    NotInEither('r', ",", B + ")");
    NotInEither('r', G, "," + (B + ")"));
    NotInEither('r', " ,", G + ("," + (B + ")")));
    NotInEither('r', R, " ," + (G + ("," + (B + ")"))));
    NotInEither('r', "gb(", body);
  }

  lemma NotInEither(c: char, a: string, b: string)
    requires c !in a && c !in b
    ensures c !in a + b
  {
    forall i | 0 <= i < |a + b|
      ensures (a + b)[i] != c
    {
      if i < |a| {
        assert (a + b)[i] == a[i];
      } else {
        assert (a + b)[i] == b[i - |a|];
      }
    }
  }

  /** A text with no `r` after its first character matches only at the
      start, if at all. */
  lemma OnlyAtStart(s: string, spaced: bool)
    requires |s| > 0 && 'r' !in s[1..]
    ensures Search(s, spaced) == MatchPrefix(s, spaced)
  {
    forall k | 1 <= k <= |s|
      ensures MatchPrefix(s[k..], spaced) == None
    {
      if k < |s| {
        assert s[k..][0] == s[1..][k - 1];
      }
      NoOpener(s[k..], spaced);
    }
    var m := Matcher(s, spaced);
    assert forall k :: 0 <= k <= |s| ==> m(k) == MatchPrefix(s[k..], spaced);
    assert s[0..] == s;
    FirstMatchFinds(m, 0, |s|);
  }
}
