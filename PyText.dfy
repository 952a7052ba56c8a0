/**
 * The few Python string operations that the settings file, the command line
 * and the search queries rely on, written out so that their edge cases are
 * visible: str.isspace, str.strip, str.find, str.split(sep), sep.join,
 * str(int), int(str) and the lines a text-mode file yields when iterated.
 */
module PyText {
  import opened Optional

  /** Python's str.isspace() for one character. */
  predicate IsSpace(c: char) {
    c == ' ' || ('\t' <= c <= '\r') || ('\U{1C}' <= c <= '\U{1F}')
    || c == '\U{85}' || c == '\U{A0}' || c == '\U{1680}'
    || ('\U{2000}' <= c <= '\U{200A}') || c == '\U{2028}' || c == '\U{2029}'
    || c == '\U{202F}' || c == '\U{205F}' || c == '\U{3000}'
  }

  /** Which whitespace is meant: what str.strip() removes, or what int() skips around a literal. */
  datatype Spaces = StrSpaces | IntSpaces

  /**
   * Whitespace of the given kind. int() passes characters below U+007F
   * through unchanged and then skips only tab, line feed, vertical tab, form
   * feed, carriage return and space, so the separators U+001C to U+001F,
   * which str.isspace() accepts, are not whitespace to it.
   */
  predicate IsBlank(c: char, w: Spaces) {
    IsSpace(c) && (w == IntSpaces ==> !('\U{1C}' <= c <= '\U{1F}'))
  }

  predicate IsDigit(c: char) {
    '0' <= c <= '9'
  }

  // ---------------------------------------------------------------------
  // strip

  /** Drops leading whitespace: what is left is a suffix that starts with a non-space. */
  function TrimLeft(s: string, w: Spaces): (r: string)
    ensures |r| <= |s|
    ensures r == [] || !IsBlank(r[0], w)
  {
    if s != [] && IsBlank(s[0], w) then TrimLeft(s[1..], w) else s
  }

  lemma {:induction false} TrimLeftSuffix(s: string, w: Spaces)
    ensures TrimLeft(s, w) == s[|s| - |TrimLeft(s, w)|..]
  {
    if s != [] && IsBlank(s[0], w) {
      TrimLeftSuffix(s[1..], w);
    }
  }

  /** Everything TrimLeft drops is whitespace. */
  lemma {:induction false} TrimLeftDropsSpaces(s: string, w: Spaces, i: nat)
    requires i < |s| - |TrimLeft(s, w)|
    ensures IsBlank(s[i], w)
  {
    if i > 0 {
      TrimLeftDropsSpaces(s[1..], w, i - 1);
    }
  }

  /** Drops trailing whitespace: what is left is a prefix that ends with a non-space. */
  function TrimRight(s: string, w: Spaces): (r: string)
    ensures |r| <= |s|
    ensures r == [] || !IsBlank(r[|r| - 1], w)
  {
    if s != [] && IsBlank(s[|s| - 1], w) then TrimRight(s[..|s| - 1], w) else s
  }

  lemma {:induction false} TrimRightPrefix(s: string, w: Spaces)
    ensures TrimRight(s, w) == s[..|TrimRight(s, w)|]
  {
    if s != [] && IsBlank(s[|s| - 1], w) {
      TrimRightPrefix(s[..|s| - 1], w);
    }
  }

  /** Everything TrimRight drops is whitespace. */
  lemma {:induction false} TrimRightDropsSpaces(s: string, w: Spaces, i: nat)
    requires |TrimRight(s, w)| <= i < |s|
    ensures IsBlank(s[i], w)
  {
    if i < |s| - 1 {
      TrimRightDropsSpaces(s[..|s| - 1], w, i);
    }
  }

  /** Python's str.strip() with no argument (w == StrSpaces): no whitespace is left at either end. */
  function Strip(s: string, w: Spaces): (r: string)
    ensures |r| <= |s|
    ensures r == [] || (!IsBlank(r[0], w) && !IsBlank(r[|r| - 1], w))
  {
    var l := TrimLeft(s, w);
    TrimRightPrefix(l, w);
    TrimRight(l, w)
  }

  /** strip() keeps every character that is not whitespace. */
  lemma StripKeeps(s: string, w: Spaces, k: nat)
    requires k < |s| && !IsBlank(s[k], w)
    ensures s[k] in Strip(s, w)
  {
    var l := TrimLeft(s, w);
    var off := |s| - |l|;
    TrimLeftSuffix(s, w);
    if k < off {
      TrimLeftDropsSpaces(s, w, k);
    }
    assert l[k - off] == s[k];
    var r := TrimRight(l, w);
    TrimRightPrefix(l, w);
    if |r| <= k - off {
      TrimRightDropsSpaces(l, w, k - off);
    }
    assert r[k - off] == s[k];
  }

  /** A string that neither starts nor ends with whitespace is its own strip(). */
  lemma StripUnchanged(s: string, w: Spaces)
    requires s == [] || (!IsBlank(s[0], w) && !IsBlank(s[|s| - 1], w))
    ensures Strip(s, w) == s
  {
  }

  /** str.strip() of a string without leading whitespace that ends in one newline. */
  lemma StripNewlineTerminated(s: string)
    requires s != [] && !IsSpace(s[0]) && !IsSpace(s[|s| - 1])
    ensures Strip(s + "\n", StrSpaces) == s
  {
    var t := s + "\n";
    assert TrimLeft(t, StrSpaces) == t;
    assert t[..|t| - 1] == s;
    assert TrimRight(t, StrSpaces) == TrimRight(s, StrSpaces) == s;
  }

  // ---------------------------------------------------------------------
  // find, split, join

  /** The index of the first c in s, or |s| when there is none (str.find, with |s| for -1). */
  function IndexOf(s: string, c: char): (r: nat)
    ensures r <= |s|
    ensures r < |s| ==> s[r] == c
    ensures forall i :: 0 <= i < r ==> s[i] != c
    ensures r == |s| <==> c !in s
  {
    if s == [] then 0 else if s[0] == c then 0 else 1 + IndexOf(s[1..], c)
  }

  lemma IndexOfAfter(a: string, c: char, b: string)
    requires c !in a
    ensures IndexOf(a + [c] + b, c) == |a|
  {
    var t := a + [c] + b;
    assert t[|a|] == c;
    assert forall i :: 0 <= i < |a| ==> t[i] == a[i];
  }

  /**
   * sep.join(ws): when no piece holds the separator, it occurs in the join
   * exactly when there are two pieces or more.
   */
  function Join(ws: seq<string>, sep: char): (r: string)
    ensures (forall i :: 0 <= i < |ws| ==> sep !in ws[i]) ==> (sep in r <==> |ws| > 1)
  {
    if ws == [] then ""
    else if |ws| == 1 then ws[0]
    else ws[0] + [sep] + Join(ws[1..], sep)
  }

  /** A join leads with its first piece. */
  lemma JoinLeads(ws: seq<string>, sep: char)
    requires ws != []
    ensures ws[0] <= Join(ws, sep)
  {
  }

  /** s.split(sep) for a one-character separator: never empty, and joining it gives s back. */
  function SplitOn(s: string, sep: char): (r: seq<string>)
    ensures |r| >= 1
    ensures Join(r, sep) == s
    ensures forall i :: 0 <= i < |r| ==> sep !in r[i]
    decreases |s|
  {
    var i := IndexOf(s, sep);
    if i == |s| then [s]
    else
      var rest := SplitOn(s[i + 1..], sep);
      assert s == s[..i] + [sep] + s[i + 1..];
      [s[..i]] + rest
  }

  /** Splitting a join gives the pieces back when no piece holds the separator. */
  lemma {:induction false} SplitJoin(ws: seq<string>, sep: char)
    requires |ws| >= 1
    requires forall i :: 0 <= i < |ws| ==> sep !in ws[i]
    ensures SplitOn(Join(ws, sep), sep) == ws
    decreases |ws|
  {
    if |ws| == 1 {
      assert IndexOf(ws[0], sep) == |ws[0]|;
    } else {
      SplitAfter(ws[0], sep, Join(ws[1..], sep));
      SplitJoin(ws[1..], sep);
      assert ws == [ws[0]] + ws[1..];
    }
  }

  /** Splitting at the first separator, when the first piece holds none. */
  lemma SplitAfter(w: string, sep: char, rest: string)
    requires sep !in w
    ensures SplitOn(w + [sep] + rest, sep) == [w] + SplitOn(rest, sep)
  {
    var t := w + [sep] + rest;
    IndexOfAfter(w, sep, rest);
    assert t[..|w|] == w;
    assert t[|w| + 1..] == rest;
  }

  /** "".join(ls): the text made of the lines one after another. */
  function Concat(ls: seq<string>): string {
    if ls == [] then "" else ls[0] + Concat(ls[1..])
  }

  /** Concatenating one more piece at the end. */
  lemma {:induction false} ConcatSnoc(ls: seq<string>, l: string)
    ensures Concat(ls + [l]) == Concat(ls) + l
  {
    if ls != [] {
      assert (ls + [l])[1..] == ls[1..] + [l];
      ConcatSnoc(ls[1..], l);
    }
  }

  // ---------------------------------------------------------------------
  // str(int) and int(str)

  function DigitChar(d: nat): char
    requires d < 10
  {
    "0123456789"[d]
  }

  /** The decimal digits of n, most significant first, with no leading zero. */
  function NatToDigits(n: nat): (r: string)
    ensures |r| >= 1
    ensures forall i :: 0 <= i < |r| ==> IsDigit(r[i])
    ensures DigitsValue(r) == n
    ensures |r| > 1 ==> r[0] != '0'
  {
    if n < 10 then [DigitChar(n)]
    else
      var init := NatToDigits(n / 10);
      var r := init + [DigitChar(n % 10)];
      assert r[..|r| - 1] == init;
      r
  }

  /** Python's str(n): a minus sign for negative n, then the digits. */
  function IntToString(n: int): (r: string)
    ensures |r| >= 1 && !IsSpace(r[0]) && IsDigit(r[|r| - 1])
    ensures '\n' !in r && '\r' !in r && '=' !in r
  {
    var d := NatToDigits(if n < 0 then -n else n);
    var r := if n < 0 then "-" + d else d;
    assert forall i :: 0 <= i < |r| ==> IsDigit(r[i]) || r[i] == '-';
    r
  }

  /** The value of a run of digits, with the underscores int() allows between digits skipped. */
  function DigitsValue(s: string): nat {
    if s == [] then 0
    else if IsDigit(s[|s| - 1]) then
      DigitsValue(s[..|s| - 1]) * 10 + (s[|s| - 1] as int - '0' as int)
    else DigitsValue(s[..|s| - 1])
  }

  /** One or more digits, where a single underscore may stand between two digits. */
  predicate IsDigitRun(s: string)
    decreases |s|
  {
    && |s| > 0 && IsDigit(s[|s| - 1])
    && (|s| == 1
        || IsDigitRun(s[..|s| - 1])
        || (|s| >= 3 && s[|s| - 2] == '_' && IsDigitRun(s[..|s| - 2])))
  }

  /** A non-empty string of plain digits is a digit run. */
  lemma {:induction false} DigitsAreRun(d: string)
    requires |d| > 0 && forall i :: 0 <= i < |d| ==> IsDigit(d[i])
    ensures IsDigitRun(d)
    decreases |d|
  {
    if |d| > 1 {
      var init := d[..|d| - 1];
      assert forall i :: 0 <= i < |init| ==> init[i] == d[i];
      DigitsAreRun(init);
    }
  }

  /**
   * Python's int(s) in base 10: None where int() raises ValueError. An
   * accepted literal, once int()'s whitespace is stripped, ends in a digit.
   */
  function ParseInt(s: string): (r: Option<int>)
    ensures r.Some? ==> var t := Strip(s, IntSpaces); |t| > 0 && IsDigit(t[|t| - 1])
  {
    var t := Strip(s, IntSpaces);
    if |t| > 0 && (t[0] == '+' || t[0] == '-') then
      if IsDigitRun(t[1..]) then
        assert t[1..][|t[1..]| - 1] == t[|t| - 1];
        var v: int := DigitsValue(t[1..]);
        Some(if t[0] == '-' then -v else v)
      else None
    else if IsDigitRun(t) then Some(DigitsValue(t))
    else None
  }

  /** int() reads a non-empty string of plain digits as their value. */
  lemma ParseDigits(d: string)
    requires |d| > 0 && forall i :: 0 <= i < |d| ==> IsDigit(d[i])
    ensures ParseInt(d) == Some(DigitsValue(d))
  {
    StripUnchanged(d, IntSpaces);
    DigitsAreRun(d);
  }

  /** int() reads a minus sign and a non-empty string of plain digits as minus their value. */
  lemma ParseNegDigits(d: string)
    requires |d| > 0 && forall i :: 0 <= i < |d| ==> IsDigit(d[i])
    ensures ParseInt("-" + d) == Some(-(DigitsValue(d) as int))
  {
    var s := "-" + d;
    assert Strip(s, IntSpaces) == s by {
      assert s[0] == '-' && s[|s| - 1] == d[|d| - 1];
      assert IsDigit(d[|d| - 1]);
      StripUnchanged(s, IntSpaces);
    }
    assert IsDigitRun(d) by {
      DigitsAreRun(d);
    }
    ParseMinus(d);
  }

  /** A stripped minus sign followed by a digit run reads as minus the run's value. */
  lemma ParseMinus(d: string)
    requires Strip("-" + d, IntSpaces) == "-" + d && IsDigitRun(d)
    ensures ParseInt("-" + d) == Some(-(DigitsValue(d) as int))
  {
    assert ("-" + d)[1..] == d;
  }

  /** int(str(n)) == n for every integer. */
  lemma ParseIntRoundTrip(n: int)
    ensures ParseInt(IntToString(n)) == Some(n)
  {
    if n < 0 {
      ParseNegDigits(NatToDigits(-n));
    } else {
      ParseDigits(NatToDigits(n));
    }
  }

  /** Every character of strip(s) comes from s. */
  lemma StripFrom(s: string, w: Spaces, k: nat)
    requires k < |Strip(s, w)|
    ensures Strip(s, w)[k] in s
  {
    var l := TrimLeft(s, w);
    var off := |s| - |l|;
    TrimLeftSuffix(s, w);
    TrimRightPrefix(l, w);
    assert Strip(s, w)[k] == l[k] == s[off + k];
  }

  /** int() raises ValueError on text that holds no digit at all. */
  lemma ParseIntNeedsDigit(s: string)
    requires forall i :: 0 <= i < |s| ==> !IsDigit(s[i])
    ensures ParseInt(s) == None
  {
    var t := Strip(s, IntSpaces);
    if ParseInt(s).Some? {
      StripFrom(s, IntSpaces, |t| - 1);
    }
  }

  /**
   * The separators U+001C to U+001F are whitespace to str.strip() but not
   * to int(): strip() removes one before a digit, and int() rejects it.
   */
  lemma SeparatorsNotIntSpace(c: char)
    requires '\U{1C}' <= c <= '\U{1F}'
    ensures Strip([c] + "5", StrSpaces) == "5"
    ensures ParseInt([c] + "5") == None
  {
    var s := [c] + "5";
    assert s[1..] == "5";
    assert TrimLeft(s, StrSpaces) == "5";
    assert !IsBlank(s[0], IntSpaces) && !IsBlank(s[1], IntSpaces);
    StripUnchanged(s, IntSpaces);
    assert s[..1] == [c] && !IsDigitRun([c]);
    assert !IsDigitRun(s);
  }

  // ---------------------------------------------------------------------
  // iterating over a file opened in text mode

  /** Universal newlines: "\r\n" and a lone "\r" are read as "\n". */
  function TranslateNewlines(s: string): (r: string)
    ensures '\r' !in r
    ensures '\r' !in s ==> r == s
    decreases |s|
  {
    if s == [] then ""
    else if s[0] == '\r' then
      if |s| > 1 && s[1] == '\n' then "\n" + TranslateNewlines(s[2..])
      else "\n" + TranslateNewlines(s[1..])
    else
      var r := [s[0]] + TranslateNewlines(s[1..]);
      assert '\r' !in s ==> s == [s[0]] + s[1..];
      r
  }

  /** A line as file iteration yields it: one "\n", at its end. */
  predicate IsWholeLine(l: string) {
    |l| >= 1 && l[|l| - 1] == '\n' && '\n' !in l[..|l| - 1]
  }

  /**
   * Cuts text after every "\n": the lines give the text back, only the last
   * can lack a newline, and no line is empty.
   */
  function SplitLines(t: string): (r: seq<string>)
    requires '\r' !in t
    ensures Concat(r) == t
    ensures forall i :: 0 <= i < |r| ==> |r[i]| >= 1 && '\r' !in r[i]
    ensures forall i :: 0 <= i < |r| - 1 ==> IsWholeLine(r[i])
    decreases |t|
  {
    if t == [] then []
    else
      var e := FirstLineEnd(t);
      var rest := SplitLines(t[e..]);
      ConcatCons(t[..e], rest);
      [t[..e]] + rest
  }

  /** Where the first line of non-empty text ends: just after its first "\n", or at the end. */
  function FirstLineEnd(t: string): (e: nat)
    requires t != [] && '\r' !in t
    ensures 1 <= e <= |t|
    ensures t == t[..e] + t[e..]
    ensures '\r' !in t[..e] && '\r' !in t[e..]
    ensures e < |t| ==> IsWholeLine(t[..e])
  {
    var i := IndexOf(t, '\n');
    var e := if i < |t| then i + 1 else |t|;
    assert forall k :: 0 <= k < e ==> t[..e][k] == t[k];
    assert forall k :: 0 <= k < |t| - e ==> t[e..][k] == t[e + k];
    assert e < |t| ==> t[..e][..|t[..e]| - 1] == t[..i];
    e
  }

  lemma ConcatCons(l: string, ls: seq<string>)
    ensures Concat([l] + ls) == l + Concat(ls)
  {
    assert ([l] + ls)[1..] == ls;
  }

  /** The lines of a text file as `for line in f` yields them. */
  function ReadLines(text: string): (r: seq<string>)
    ensures Concat(r) == TranslateNewlines(text)
    ensures forall i :: 0 <= i < |r| ==> |r[i]| >= 1 && '\r' !in r[i]
    ensures forall i :: 0 <= i < |r| - 1 ==> IsWholeLine(r[i])
  {
    SplitLines(TranslateNewlines(text))
  }

  /** Reading back whole lines written one after another gives the same lines. */
  lemma {:induction false} SplitConcat(ls: seq<string>)
    requires forall i :: 0 <= i < |ls| ==> IsWholeLine(ls[i]) && '\r' !in ls[i]
    ensures '\r' !in Concat(ls)
    ensures SplitLines(Concat(ls)) == ls
  {
    if ls != [] {
      SplitConcat(ls[1..]);
      var l := ls[0];
      var rest := Concat(ls[1..]);
      var body := l[..|l| - 1];
      assert l == body + ['\n'];
      assert Concat(ls) == body + ['\n'] + rest;
      IndexOfAfter(body, '\n', rest);
      var t := Concat(ls);
      assert t[..|l|] == l;
      assert t[|l|..] == rest;
      assert ls == [l] + ls[1..];
    }
  }

  /** A file holding such lines reads back as exactly those lines. */
  lemma ReadLinesConcat(ls: seq<string>)
    requires forall i :: 0 <= i < |ls| ==> IsWholeLine(ls[i]) && '\r' !in ls[i]
    ensures ReadLines(Concat(ls)) == ls
  {
    SplitConcat(ls);
  }
}
