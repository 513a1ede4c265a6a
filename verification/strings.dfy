/** The few Python sequence and `str` operations the chatbot relies on, on `seq<char>`.
    Case mapping is ASCII-only; whitespace is the ASCII and Latin-1 part of
    Python's `str.isspace()`. */
module Strings {

  datatype Option<+T> = None | Some(value: T)

  function Min(a: int, b: int): int { if a <= b then a else b }

  /** `s[:k]`: the first `k` elements, or all of `s` when it is shorter. */
  function Take<T>(s: seq<T>, k: nat): (r: seq<T>)
    ensures |r| == Min(|s|, k)
    ensures r == s[..|r|]
    ensures |s| <= k ==> r == s
  {
    if |s| <= k then s else s[..k]
  }

  /** Python `str.isspace()` for one character, restricted to code points below
      0x100: space, tab to carriage return, the separators 0x1C to 0x1F, next
      line (0x85) and no-break space (0xA0). */
  predicate IsSpace(c: char) {
    c == ' ' || '\t' <= c <= '\r' || '\U{1C}' <= c <= '\U{1F}' || c == '\U{85}' || c == '\U{A0}'
  }

  /** How many whitespace characters `s` starts with. */
  function LeadingSpace(s: string): (n: nat)
    ensures n <= |s| && (n == |s| || !IsSpace(s[n]))
  {
    if s != [] && IsSpace(s[0]) then 1 + LeadingSpace(s[1..]) else 0
  }

  lemma {:induction false} LeadingSpaceIsSpace(s: string)
    ensures forall i :: 0 <= i < LeadingSpace(s) ==> IsSpace(s[i])
  {
    if s != [] && IsSpace(s[0]) {
      LeadingSpaceIsSpace(s[1..]);
    }
  }

  /** Python `str.lstrip()`: drops the leading whitespace and nothing else. */
  function LStrip(s: string): (r: string)
    ensures |r| <= |s| && r == s[|s| - |r|..]
    ensures r == [] || !IsSpace(r[0])
  {
    s[LeadingSpace(s)..]
  }

  lemma LStripDropsOnlySpace(s: string)
    ensures forall i :: 0 <= i < |s| - |LStrip(s)| ==> IsSpace(s[i])
  {
    LeadingSpaceIsSpace(s);
  }

  /** Python `str.rstrip()`: drops the trailing whitespace and nothing else. */
  function RStrip(s: string): (r: string)
    ensures |r| <= |s| && r == s[..|r|]
    ensures r == [] || !IsSpace(r[|r| - 1])
  {
    if s != [] && IsSpace(s[|s| - 1]) then RStrip(s[..|s| - 1]) else s
  }

  /** Python `str.strip()`: drops the leading whitespace, then the trailing whitespace. */
  function Strip(s: string): (r: string)
    ensures r == [] || (!IsSpace(r[0]) && !IsSpace(r[|r| - 1]))
  {
    if s != [] && IsSpace(s[0]) then Strip(s[1..]) else RStrip(s)
  }

  /** Stripping only removes characters: every character left is one of the input's. */
  lemma {:induction false} StripKeepsChars(s: string)
    ensures forall i :: 0 <= i < |Strip(s)| ==> Strip(s)[i] in s
  {
    if s != [] && IsSpace(s[0]) {
      StripKeepsChars(s[1..]);
      assert forall c :: c in s[1..] ==> c in s;
    } else {
      var r := RStrip(s);
      assert forall i :: 0 <= i < |r| ==> r[i] == s[i];
    }
  }

  /** The strip is `lstrip` followed by `rstrip`. */
  lemma {:induction false} StripIsLStripRStrip(s: string)
    ensures Strip(s) == RStrip(LStrip(s))
  {
    if s != [] && IsSpace(s[0]) {
      StripIsLStripRStrip(s[1..]);
      assert LStrip(s) == LStrip(s[1..]);
    }
  }

  /** Every character `rstrip` drops is whitespace. */
  lemma {:induction false} RStripDropsOnlySpace(s: string)
    ensures forall i :: |RStrip(s)| <= i < |s| ==> IsSpace(s[i])
    decreases |s|
  {
    if s != [] && IsSpace(s[|s| - 1]) {
      var t := s[..|s| - 1];
      RStripDropsOnlySpace(t);
      assert forall i :: 0 <= i < |t| ==> t[i] == s[i];
    }
  }

  /** What is left after stripping is the slice `s[a..b]` of the input, and every
      character outside it is whitespace. */
  lemma StripSlice(s: string)
    ensures var a := |s| - |LStrip(s)|;
      var b := a + |Strip(s)|;
      && b <= |s| && Strip(s) == s[a..b]
      && (forall i :: 0 <= i < a ==> IsSpace(s[i]))
      && (forall i :: b <= i < |s| ==> IsSpace(s[i]))
  {
    var t := LStrip(s);
    StripWithinLStrip(s);
    LStripDropsOnlySpace(s);
    SliceOfSuffix(s, |s| - |t|, t, |Strip(s)|);
  }

  /** Stripping is a prefix of the `lstrip`, followed there only by whitespace. */
  lemma StripWithinLStrip(s: string)
    ensures |Strip(s)| <= |LStrip(s)| && Strip(s) == LStrip(s)[..|Strip(s)|]
    ensures forall i :: |Strip(s)| <= i < |LStrip(s)| ==> IsSpace(LStrip(s)[i])
  {
    StripIsLStripRStrip(s);
    RStripDropsOnlySpace(LStrip(s));
  }

  lemma SliceOfSuffix(s: string, a: nat, t: string, n: nat)
    requires a <= |s| && t == s[a..] && n <= |t|
    ensures t[..n] == s[a..a + n]
    ensures forall i :: a + n <= i < |s| ==> s[i] == t[i - a]
  {
  }

  lemma StripUnchangedWhenTrimmed(s: string)
    requires s == [] || (!IsSpace(s[0]) && !IsSpace(s[|s| - 1]))
    ensures Strip(s) == s
  {
  }

  function LowerChar(c: char): char {
    if 'A' <= c <= 'Z' then (c as int + 32) as char else c
  }

  function UpperChar(c: char): char {
    if 'a' <= c <= 'z' then (c as int - 32) as char else c
  }

  /** Python `str.lower()` on ASCII letters. */
  function Lower(s: string): string {
    seq(|s|, i requires 0 <= i < |s| => LowerChar(s[i]))
  }

  /** Lowering leaves no upper-case ASCII letter and changes nothing else. */
  lemma LowerShape(s: string)
    ensures |Lower(s)| == |s|
    ensures forall i :: 0 <= i < |s| ==> !('A' <= Lower(s)[i] <= 'Z')
    ensures forall i :: 0 <= i < |s| && !('A' <= s[i] <= 'Z') ==> Lower(s)[i] == s[i]
  {
  }

  /** Python `str.capitalize()`: first character upper case, the rest lower case. */
  function Capitalize(s: string): string {
    if s == [] then [] else [UpperChar(s[0])] + Lower(s[1..])
  }

  /** Capitalising keeps the length, leaves no lower-case letter first and no
      upper-case letter after it. */
  lemma CapitalizeShape(s: string)
    ensures |Capitalize(s)| == |s|
    ensures s != [] ==> !('a' <= Capitalize(s)[0] <= 'z')
    ensures forall i :: 1 <= i < |s| ==> !('A' <= Capitalize(s)[i] <= 'Z')
  {
    if s != [] {
      LowerShape(s[1..]);
    }
  }

  /** Python `str.replace(old, new)` for single characters. */
  function ReplaceChar(s: string, from: char, to: char): string {
    seq(|s|, i requires 0 <= i < |s| => if s[i] == from then to else s[i])
  }

  /** Replacing leaves no `from` (for a different `to`) and keeps every other character. */
  lemma ReplaceCharShape(s: string, from: char, to: char)
    ensures |ReplaceChar(s, from, to)| == |s|
    ensures from != to ==> from !in ReplaceChar(s, from, to)
    ensures forall i :: 0 <= i < |s| && s[i] != from ==> ReplaceChar(s, from, to)[i] == s[i]
  {
  }

  /** Python `str.startswith(p)`. */
  predicate StartsWith(s: string, p: string) {
    |p| <= |s| && s[..|p|] == p
  }

  predicate OccursAt(s: string, sub: string, i: int) {
    0 <= i && i + |sub| <= |s| && s[i..i + |sub|] == sub
  }

  /** Leftmost occurrence of `sub` in `s` at or after position `from`. */
  function FindFrom(s: string, sub: string, from: nat): (r: Option<nat>)
    requires from <= |s|
    ensures r.Some? ==> from <= r.value && OccursAt(s, sub, r.value)
    ensures r.Some? ==> forall j :: from <= j < r.value ==> !OccursAt(s, sub, j)
    ensures r.None? ==> forall j :: from <= j ==> !OccursAt(s, sub, j)
    decreases |s| - from
  {
    if OccursAt(s, sub, from) then Some(from)
    else if from == |s| then None
    else FindFrom(s, sub, from + 1)
  }

  function Find(s: string, sub: string): Option<nat> { FindFrom(s, sub, 0) }

  /** Python `sub in s`. */
  predicate Contains(s: string, sub: string) { Find(s, sub).Some? }

  /** `s.split(sep, 1)[1]`: everything that follows the first occurrence of `sep`. */
  function AfterFirst(s: string, sep: string): string
    requires Contains(s, sep)
  {
    s[Find(s, sep).value + |sep|..]
  }

  /** What precedes the first occurrence of `sep`, or all of `s` when it has none. */
  function BeforeFirst(s: string, sep: string): (r: string)
    ensures |r| <= |s| && r == s[..|r|]
    ensures forall j :: 0 <= j < |r| ==> !OccursAt(s, sep, j)
    ensures |r| == |s| || OccursAt(s, sep, |r|)
  {
    match Find(s, sep)
    case Some(i) => s[..i]
    case None => s
  }

  /** The leading run of non-whitespace characters. */
  function TakeWord(s: string): (w: string)
    ensures |w| <= |s| && w == s[..|w|]
    ensures forall i :: 0 <= i < |w| ==> !IsSpace(w[i])
    ensures |w| == |s| || IsSpace(s[|w|])
  {
    if s == [] || IsSpace(s[0]) then [] else [s[0]] + TakeWord(s[1..])
  }

  /** Python `s.split()[0]`: the first whitespace-delimited word, `None` where
      Python raises `IndexError` because `s` is blank. */
  function FirstWord(s: string): (r: Option<string>)
    ensures r.None? <==> forall i :: 0 <= i < |s| ==> IsSpace(s[i])
    ensures r.Some? ==> r.value != [] && forall i :: 0 <= i < |r.value| ==> !IsSpace(r.value[i])
  {
    if s == [] then None
    else if IsSpace(s[0]) then
      var r := FirstWord(s[1..]);
      assert forall i :: 1 <= i < |s| ==> s[i] == s[1..][i - 1];
      r
    else Some(TakeWord(s))
  }

  /** The first word is a whole word of `s`, preceded only by whitespace. */
  lemma {:induction false} FirstWordAt(s: string)
    requires FirstWord(s).Some?
    ensures exists n :: WordAt(s, n, FirstWord(s).value)
  {
    var w := FirstWord(s).value;
    if IsSpace(s[0]) {
      FirstWordAt(s[1..]);
      var n :| WordAt(s[1..], n, w);
      assert s[n + 1..n + 1 + |w|] == s[1..][n..n + |w|];
      assert WordAt(s, n + 1, w);
    } else {
      assert s[0..|w|] == w;
      assert WordAt(s, 0, w);
    }
  }

  /** `w` is a whole word of `s` at position `n`, preceded only by whitespace. */
  predicate WordAt(s: string, n: int, w: string) {
    0 <= n && n + |w| <= |s|
    && (forall j :: 0 <= j < n ==> IsSpace(s[j]))
    && s[n..n + |w|] == w
    && (n + |w| == |s| || IsSpace(s[n + |w|]))
  }

  /** Python `s.split(c)` for a single-character separator: never empty, and
      the empty string splits into `[""]`. */
  function Split(s: string, c: char): (r: seq<string>)
    ensures |r| >= 1
    ensures forall k :: 0 <= k < |r| ==> c !in r[k]
  {
    if s == [] then [""]
    else
      var rest := Split(s[1..], c);
      if s[0] == c then [""] + rest else [[s[0]] + rest[0]] + rest[1..]
  }

  /** Python `sep.join(xs)`. */
  function Join(sep: string, xs: seq<string>): string {
    if |xs| == 0 then ""
    else if |xs| == 1 then xs[0]
    else xs[0] + sep + Join(sep, xs[1..])
  }

  lemma PrefixOfAppend(a: string, b: string)
    ensures StartsWith(a + b, a)
  {
    assert (a + b)[..|a|] == a;
  }

  /** Python `str.endswith(suffix)`. */
  predicate EndsWith(s: string, suffix: string) {
    |suffix| <= |s| && s[|s| - |suffix|..] == suffix
  }

  lemma SuffixOfAppend(a: string, b: string)
    ensures EndsWith(a + b, b)
  {
    assert (a + b)[|a|..] == b;
  }

  lemma EndsWithAppend(a: string, b: string, suffix: string)
    requires EndsWith(b, suffix)
    ensures EndsWith(a + b, suffix)
  {
    assert (a + b)[|a + b| - |suffix|..] == b[|b| - |suffix|..];
  }

  lemma {:induction false} JoinAppend(sep: string, xs: seq<string>, x: string)
    requires xs != []
    ensures Join(sep, xs + [x]) == Join(sep, xs) + sep + x
  {
    if |xs| == 1 {
      assert xs + [x] == [xs[0], x];
    } else {
      assert (xs + [x])[1..] == xs[1..] + [x];
      JoinAppend(sep, xs[1..], x);
    }
  }

  /** Splitting on `c` and joining with `c` gives back the original string. */
  lemma {:induction false} JoinSplit(s: string, c: char)
    ensures Join([c], Split(s, c)) == s
  {
    if s != [] {
      var rest := Split(s[1..], c);
      JoinSplit(s[1..], c);
      if s[0] == c {
        assert Split(s, c) == [""] + rest;
        assert (([""] + rest)[1..]) == rest;
      } else {
        var r := Split(s, c);
        assert r == [[s[0]] + rest[0]] + rest[1..];
        if |rest| == 1 {
          assert r == [[s[0]] + rest[0]];
        } else {
          assert r[1..] == rest[1..];
          assert Join([c], rest) == rest[0] + [c] + Join([c], rest[1..]);
        }
      }
    }
  }

  /** A piece without the separator runs on into the first piece of what follows. */
  lemma {:induction false} SplitPrefix(w: string, rest: string, c: char)
    requires c !in w
    ensures Split(w + rest, c) == [w + Split(rest, c)[0]] + Split(rest, c)[1..]
    decreases |w|
  {
    if w != [] {
      var r := Split(rest, c);
      assert (w + rest)[1..] == w[1..] + rest;
      SplitPrefix(w[1..], rest, c);
      var inner := Split(w[1..] + rest, c);
      assert inner == [w[1..] + r[0]] + r[1..];
      assert inner[0] == w[1..] + r[0] && inner[1..] == r[1..];
      assert (w + rest)[0] == w[0] && w[0] != c;
      assert Split(w + rest, c) == [[w[0]] + inner[0]] + inner[1..];
      assert [w[0]] + (w[1..] + r[0]) == w + r[0];
    } else {
      var r := Split(rest, c);
      assert w + rest == rest && w + r[0] == r[0];
      assert r == [r[0]] + r[1..];
    }
  }

  /** Joining pieces that do not contain `c` with `c` and splitting on `c`
      gives back the pieces. */
  lemma {:induction false} SplitJoin(xs: seq<string>, c: char)
    requires |xs| >= 1
    requires forall k :: 0 <= k < |xs| ==> c !in xs[k]
    ensures Split(Join([c], xs), c) == xs
    decreases |xs|
  {
    if |xs| == 1 {
      SplitPrefix(xs[0], "", c);
      assert xs[0] + "" == xs[0];
    } else {
      var tail := Join([c], xs[1..]);
      SplitJoin(xs[1..], c);
      assert Join([c], xs) == xs[0] + ([c] + tail);
      SplitPrefix(xs[0], [c] + tail, c);
      assert ([c] + tail)[1..] == tail;
      assert Split([c] + tail, c) == [""] + xs[1..];
      assert xs[0] + "" == xs[0];
      assert xs == [xs[0]] + xs[1..];
    }
  }

  /** The first piece is a prefix of the joined string. */
  lemma JoinStartsWith(sep: string, xs: seq<string>)
    requires xs != []
    ensures StartsWith(Join(sep, xs), xs[0])
  {
    if |xs| > 1 {
      var rest := sep + Join(sep, xs[1..]);
      assert Join(sep, xs) == xs[0] + rest;
      PrefixOfAppend(xs[0], rest);
    }
  }

  function DigitChar(d: nat): char
    requires d < 10
  {
    ('0' as int + d) as char
  }

  /** Python `str(n)` for a natural number. */
  function NatToString(n: nat): (r: string)
    ensures |r| >= 1
    ensures forall i :: 0 <= i < |r| ==> '0' <= r[i] <= '9'
    decreases n
  {
    if n < 10 then [DigitChar(n)] else NatToString(n / 10) + [DigitChar(n % 10)]
  }

  /** Python `str(i)` for an integer. */
  function IntToString(i: int): (r: string)
    ensures |r| >= 1
    ensures (r[0] == '-') <==> i < 0
    ensures forall j :: 1 <= j < |r| ==> '0' <= r[j] <= '9'
  {
    if i < 0 then "-" + NatToString(-i) else NatToString(i)
  }
}
