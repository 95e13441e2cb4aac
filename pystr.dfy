/** The Python 2 byte-string operations the gateway relies on: `isspace`,
  * `strip`, the `in` substring test, `startswith`, `split(' ')`, `split()`
  * and `int()` on a decimal literal. A Python 2 `str` is modelled as a Dafny
  * `string`. */
module PyStr {
  import opened Basics

  /** The characters `str.isspace()` accepts in a byte string. */
  predicate IsSpace(c: char) {
    c == ' ' || c == '\t' || c == '\n' || c == '\r' || c == '\U{000B}' || c == '\U{000C}'
  }

  predicate NoSpace(s: string) {
    forall i :: 0 <= i < |s| ==> !IsSpace(s[i])
  }

  // ---------------------------------------------------------------- strip

  /** `s.lstrip()`: the suffix left after dropping leading whitespace. */
  function TrimLeft(s: string): (r: string)
    ensures |r| <= |s| && r == s[|s| - |r|..]
    ensures r == [] || !IsSpace(r[0])
    ensures forall i :: 0 <= i < |s| - |r| ==> IsSpace(s[i])
  {
    if s != [] && IsSpace(s[0]) then TrimLeft(s[1..]) else s
  }

  /** `s.rstrip()`: the prefix left after dropping trailing whitespace. */
  function TrimRight(s: string): (r: string)
    ensures |r| <= |s| && r == s[..|r|]
    ensures r == [] || !IsSpace(r[|r| - 1])
    ensures forall i :: |r| <= i < |s| ==> IsSpace(s[i])
  {
    if s != [] && IsSpace(s[|s| - 1]) then TrimRight(s[..|s| - 1]) else s
  }

  /** `s.strip()`. */
  function Strip(s: string): string {
    TrimRight(TrimLeft(s))
  }

  /** Stripping keeps a contiguous slice of the input whose ends are not
    * whitespace, and everything removed is whitespace. */
  lemma StripIsTrimmedSlice(s: string) returns (i: nat, j: nat)
    ensures i <= j <= |s| && Strip(s) == s[i..j]
    ensures forall k :: 0 <= k < i ==> IsSpace(s[k])
    ensures forall k :: j <= k < |s| ==> IsSpace(s[k])
    ensures Strip(s) == [] || (!IsSpace(Strip(s)[0]) && !IsSpace(Strip(s)[|Strip(s)| - 1]))
  {
    var t := TrimLeft(s);
    i, j := TrimmedSlice(s, t, TrimRight(t));
  }

  /** The slice argument of `StripIsTrimmedSlice`, from what the two trims
    * promise: `t` is `s` left-trimmed and `r` is `t` right-trimmed. */
  lemma TrimmedSlice(s: string, t: string, r: string) returns (i: nat, j: nat)
    requires |t| <= |s| && t == s[|s| - |t|..] && (t == [] || !IsSpace(t[0]))
    requires forall k :: 0 <= k < |s| - |t| ==> IsSpace(s[k])
    requires |r| <= |t| && r == t[..|r|] && (r == [] || !IsSpace(r[|r| - 1]))
    requires forall k :: |r| <= k < |t| ==> IsSpace(t[k])
    ensures i <= j <= |s| && r == s[i..j]
    ensures forall k :: 0 <= k < i ==> IsSpace(s[k])
    ensures forall k :: j <= k < |s| ==> IsSpace(s[k])
    ensures r == [] || (!IsSpace(r[0]) && !IsSpace(r[|r| - 1]))
  {
    i := |s| - |t|;
    j := i + |r|;
    SliceOfSuffix(s, i, |r|);
    TrailOfSuffix(s, i, |r|);
    StrippedEnds(t, r);
  }

  /** A prefix of a suffix is a slice. */
  lemma SliceOfSuffix(s: string, i: nat, n: nat)
    requires i + n <= |s|
    ensures s[i..][..n] == s[i..i + n]
  {
  }

  /** Whitespace after a prefix of a suffix is whitespace of the whole. */
  lemma TrailOfSuffix(s: string, i: nat, n: nat)
    requires i + n <= |s|
    requires forall k :: n <= k < |s| - i ==> IsSpace(s[i..][k])
    ensures forall k :: i + n <= k < |s| ==> IsSpace(s[k])
  {
    forall k | i + n <= k < |s| ensures IsSpace(s[k]) {
      assert s[k] == s[i..][k - i];
    }
  }

  /** The right trim of a left-trimmed string starts where it did. */
  lemma StrippedEnds(t: string, r: string)
    requires t == [] || !IsSpace(t[0])
    requires |r| <= |t| && r == t[..|r|]
    ensures r == [] || !IsSpace(r[0])
  {
    if r != [] {
      assert r[0] == t[0];
    }
  }

  /** Stripping twice is stripping once. */
  lemma StripIdempotent(s: string)
    ensures Strip(Strip(s)) == Strip(s)
  {
    var r := Strip(s);
    var _, _ := StripIsTrimmedSlice(s);
    if r != [] {
      assert TrimLeft(r) == r;
      assert TrimRight(r) == r;
    }
  }

  // ------------------------------------------------------ prefix, substring

  /** `s.startswith(p)`. */
  predicate StartsWith(s: string, p: string) {
    |p| <= |s| && s[..|p|] == p
  }

  /** Python's `p in s` for strings: `p` occurs in `s` at some offset. */
  predicate Contains(s: string, p: string)
    decreases |s|
  {
    StartsWith(s, p) || (s != [] && Contains(s[1..], p))
  }

  /** `p` occurs in `s` starting at offset `i`. */
  predicate OccursAt(s: string, p: string, i: int) {
    0 <= i <= |s| - |p| && s[i..i + |p|] == p
  }

  lemma {:induction false} ContainsAt(s: string, p: string)
    ensures Contains(s, p) <==> exists i :: OccursAt(s, p, i)
    decreases |s|
  {
    if StartsWith(s, p) {
      assert OccursAt(s, p, 0);
    } else if s == [] {
      assert |p| > 0;
    } else {
      ContainsAt(s[1..], p);
      if Contains(s[1..], p) {
        var i :| OccursAt(s[1..], p, i);
        assert s[1..][i..i + |p|] == s[i + 1..i + 1 + |p|];
        assert OccursAt(s, p, i + 1);
      }
      if exists i :: OccursAt(s, p, i) {
        var i :| OccursAt(s, p, i);
        assert i != 0 by { assert s[..|p|] == s[0..0 + |p|]; }
        assert s[1..][i - 1..i - 1 + |p|] == s[i..i + |p|];
        assert OccursAt(s[1..], p, i - 1);
      }
    }
  }

  /** A string that starts with `p` contains `p`; so does any string it
    * occurs in. */
  lemma {:induction false} ContainsSlice(s: string, i: nat, t: string, p: string)
    requires i + |t| <= |s| && s[i..i + |t|] == t
    requires StartsWith(t, p)
    ensures Contains(s, p)
  {
    ContainsAt(s, p);
    assert s[i..i + |p|] == t[..|p|];
    assert OccursAt(s, p, i);
  }

  // ---------------------------------------------------------- split(' ')

  /** Joins the pieces with `sep` between consecutive ones: `sep.join(ts)`. */
  function Join(ts: seq<string>, sep: char): string
    requires |ts| >= 1
  {
    if |ts| == 1 then ts[0] else ts[0] + [sep] + Join(ts[1..], sep)
  }

  /** `s.split(sep)` for a one-character separator: every occurrence of `sep`
    * ends a piece, so empty pieces are kept and there is always one piece
    * more than there are separators. */
  function Split(s: string, sep: char): (r: seq<string>)
    ensures |r| >= 1
    ensures forall i :: 0 <= i < |r| ==> sep !in r[i]
    ensures Join(r, sep) == s
    decreases |s|
  {
    if s == [] then [""]
    else
      var t := Split(s[1..], sep);
      if s[0] == sep then
        assert Join([""] + t, sep) == [sep] + Join(t, sep) by {
          assert ([""] + t)[1..] == t;
        }
        [""] + t
      else
        var r := [[s[0]] + t[0]] + t[1..];
        assert Join(r, sep) == [s[0]] + Join(t, sep) by {
          if |t| > 1 {
            assert r[1..] == t[1..];
            assert Join(r, sep) == ([s[0]] + t[0]) + [sep] + Join(t[1..], sep);
          }
        }
        assert s == [s[0]] + s[1..];
        r
  }

  /** The other half of the round trip: pieces free of the separator come
    * back unchanged from splitting their join. */
  lemma {:induction false} SplitJoin(ts: seq<string>, sep: char)
    requires |ts| >= 1
    requires forall i :: 0 <= i < |ts| ==> sep !in ts[i]
    ensures Split(Join(ts, sep), sep) == ts
    decreases |ts|, |ts[0]|
  {
    if |ts[0]| > 0 {
      var c := ts[0][0];
      var ts' := [ts[0][1..]] + ts[1..];
      assert ts'[1..] == ts[1..];
      assert forall i :: 0 <= i < |ts'| ==> sep !in ts'[i];
      assert Join(ts, sep) == [c] + Join(ts', sep) by {
        assert ts[0] == [c] + ts[0][1..];
        if |ts| > 1 {
          assert Join(ts, sep) == ts[0] + [sep] + Join(ts[1..], sep);
          assert Join(ts', sep) == ts[0][1..] + [sep] + Join(ts[1..], sep);
        }
      }
      SplitJoin(ts', sep);
      var s := Join(ts, sep);
      assert s[1..] == Join(ts', sep);
      assert s[0] == c && c != sep by { assert c in ts[0]; }
      assert [c] + ts'[0] == ts[0];
    } else if |ts| > 1 {
      SplitJoin(ts[1..], sep);
      var s := Join(ts, sep);
      assert s == [sep] + Join(ts[1..], sep);
      assert s[1..] == Join(ts[1..], sep);
      assert [""] + ts[1..] == ts;
    }
  }

  // ------------------------------------------------------------- split()

  /** The longest prefix of `s` with no whitespace. */
  function Word(s: string): (w: string)
    ensures |w| <= |s| && w == s[..|w|] && NoSpace(w)
    ensures |w| < |s| ==> IsSpace(s[|w|])
  {
    if s == [] || IsSpace(s[0]) then [] else [s[0]] + Word(s[1..])
  }

  /** `s.split()` with no argument: the maximal runs of non-whitespace, in
    * order; no field is empty and none holds whitespace. */
  function Fields(s: string): (r: seq<string>)
    ensures forall i :: 0 <= i < |r| ==> r[i] != [] && NoSpace(r[i])
    decreases |s|
  {
    var t := TrimLeft(s);
    if t == [] then [] else
      var w := Word(t);
      var rest := Fields(t[|w|..]);
      WordsCons(w, rest);
      [w] + rest
  }

  lemma WordsCons(w: string, rest: seq<string>)
    requires w != [] && NoSpace(w)
    requires forall i :: 0 <= i < |rest| ==> rest[i] != [] && NoSpace(rest[i])
    ensures forall i :: 0 <= i < |[w] + rest| ==> ([w] + rest)[i] != [] && NoSpace(([w] + rest)[i])
  {
    forall i | 0 <= i < |[w] + rest| ensures ([w] + rest)[i] != [] && NoSpace(([w] + rest)[i]) {
      if i > 0 { assert ([w] + rest)[i] == rest[i - 1]; }
    }
  }

  predicate AllSpace(g: string) {
    forall k :: 0 <= k < |g| ==> IsSpace(g[k])
  }

  /** `split()` is empty exactly on an all-whitespace string. */
  lemma FieldsEmpty(s: string)
    ensures Fields(s) == [] <==> AllSpace(s)
  {
    var t := TrimLeft(s);
    if t != [] {
      assert s[|s| - |t|] == t[0];
    }
  }

  /** Words with whitespace gaps around and between them: `gaps[0]`
    * before the first word, `gaps[i + 1]` after word `i`. */
  function Spaced(words: seq<string>, gaps: seq<string>): string
    requires |gaps| == |words| + 1
  {
    if words == [] then gaps[0] else gaps[0] + words[0] + Spaced(words[1..], gaps[1..])
  }

  /** Gaps that make `split()`'s fields come out as the words: all
    * whitespace, and non-empty between two words. */
  predicate Gaps(words: seq<string>, gaps: seq<string>) {
    |gaps| == |words| + 1 &&
    (forall i :: 0 <= i < |gaps| ==> AllSpace(gaps[i])) &&
    (forall i :: 0 < i < |words| ==> gaps[i] != [])
  }

  predicate Words(words: seq<string>) {
    forall i :: 0 <= i < |words| ==> words[i] != [] && NoSpace(words[i])
  }

  /** `split()` gives back exactly the words of a spaced-out string, in order. */
  lemma {:induction false} FieldsOfSpaced(words: seq<string>, gaps: seq<string>)
    requires Words(words) && Gaps(words, gaps)
    ensures Fields(Spaced(words, gaps)) == words
    decreases |words|
  {
    if words == [] {
      FieldsEmpty(gaps[0]);
    } else {
      var rest := Spaced(words[1..], gaps[1..]);
      GapsTail(words, gaps);
      FieldsOfSpaced(words[1..], gaps[1..]);
      SpacedStartsWithSpace(words[1..], gaps[1..]);
      SpacedCons(words, gaps);
      FieldsAfterGap(gaps[0], words[0], rest);
      ConsTail(words, Fields(rest));
    }
  }

  lemma SpacedCons(words: seq<string>, gaps: seq<string>)
    requires words != [] && |gaps| == |words| + 1
    ensures Spaced(words, gaps) == gaps[0] + (words[0] + Spaced(words[1..], gaps[1..]))
  {
  }

  lemma ConsTail<T>(s: seq<T>, tail: seq<T>)
    requires s != [] && tail == s[1..]
    ensures [s[0]] + tail == s
  {
  }

  /** Leading whitespace, then a word ended by whitespace or the end: the
    * word is the first field. */
  lemma FieldsAfterGap(g: string, w: string, rest: string)
    requires AllSpace(g) && w != [] && NoSpace(w) && (rest == [] || IsSpace(rest[0]))
    ensures Fields(g + (w + rest)) == [w] + Fields(rest)
  {
    var s := g + (w + rest);
    TrimLeftSpaces(g, w + rest);
    WordOfWordThenSpace(w, rest);
    assert TrimLeft(s) == w + rest;
    assert Word(w + rest) == w;
    assert (w + rest)[|w|..] == rest;
  }

  lemma GapsTail(words: seq<string>, gaps: seq<string>)
    requires words != [] && Words(words) && Gaps(words, gaps)
    ensures Words(words[1..]) && Gaps(words[1..], gaps[1..])
    ensures AllSpace(gaps[0]) && words[0] != [] && NoSpace(words[0])
    ensures |words| > 1 ==> gaps[1] != []
  {
    assert forall i :: 0 <= i < |gaps| - 1 ==> gaps[1..][i] == gaps[i + 1];
  }

  /** A spaced-out string after a word's gap starts with whitespace, or is empty. */
  lemma SpacedStartsWithSpace(words: seq<string>, gaps: seq<string>)
    requires Gaps(words, gaps) && (words != [] ==> gaps[0] != [])
    ensures var t := Spaced(words, gaps); t == [] || IsSpace(t[0])
  {
    var t := Spaced(words, gaps);
    if gaps[0] != [] {
      assert AllSpace(gaps[0]);
      assert t[0] == gaps[0][0];
    }
  }

  /** Every string is spaced out from its fields, so `FieldsOfSpaced`
    * describes `split()` on every input. */
  lemma {:induction false} SpacedFields(s: string) returns (gaps: seq<string>)
    ensures Gaps(Fields(s), gaps) && s == Spaced(Fields(s), gaps)
    ensures gaps[0] == s[..|s| - |TrimLeft(s)|]
    decreases |s|
  {
    var t := TrimLeft(s);
    var g := LeadingGap(s);
    if t == [] {
      gaps := [s];
    } else {
      var w := Word(t);
      var rest := t[|w|..];
      var inner := SpacedFields(rest);
      gaps := [g] + inner;
      WordRest(t, w, rest);
      FieldsUnfold(s, t, w);
      if Fields(rest) != [] {
        FieldsEmpty(rest);
        FirstGapNonEmpty(rest, inner[0]);
      }
      SpacedFieldsCons(s, g, w, rest, Fields(rest), inner);
    }
  }

  /** The whitespace `lstrip()` drops. */
  lemma LeadingGap(s: string) returns (g: string)
    ensures g == s[..|s| - |TrimLeft(s)|] && AllSpace(g) && s == g + TrimLeft(s)
  {
    g := GapBefore(s, TrimLeft(s));
  }

  lemma GapBefore(s: string, t: string) returns (g: string)
    requires |t| <= |s| && t == s[|s| - |t|..]
    requires forall k :: 0 <= k < |s| - |t| ==> IsSpace(s[k])
    ensures g == s[..|s| - |t|] && AllSpace(g) && s == g + t
  {
    g := s[..|s| - |t|];
    forall k | 0 <= k < |g| ensures IsSpace(g[k]) {
      assert g[k] == s[k];
    }
    assert s == g + s[|s| - |t|..];
  }

  lemma WordRest(t: string, w: string, rest: string)
    requires t != [] && w == Word(t) && rest == t[|w|..]
    ensures t == w + (rest) && (rest == [] || IsSpace(rest[0]))
  {
  }

  /** A string that starts with whitespace has a non-empty leading gap. */
  lemma FirstGapNonEmpty(rest: string, g0: string)
    requires rest != [] && IsSpace(rest[0]) && g0 == rest[..|rest| - |TrimLeft(rest)|]
    ensures g0 != []
  {
  }

  lemma SpacedFieldsCons(s: string, g: string, w: string, rest: string,
                         fs: seq<string>, inner: seq<string>)
    requires s == g + (w + rest) && AllSpace(g)
    requires Gaps(fs, inner) && rest == Spaced(fs, inner) && Fields(s) == [w] + fs
    requires fs != [] ==> inner[0] != []
    ensures Gaps(Fields(s), [g] + inner) && s == Spaced(Fields(s), [g] + inner)
  {
    GapsCons(w, fs, g, inner);
    SpacedOfCons(w, fs, g, inner);
  }

  lemma FieldsUnfold(s: string, t: string, w: string)
    requires t == TrimLeft(s) && t != [] && w == Word(t)
    ensures Fields(s) == [w] + Fields(t[|w|..])
  {
  }

  lemma SpacedOfCons(w: string, fs: seq<string>, g: string, inner: seq<string>)
    requires |inner| == |fs| + 1
    ensures Spaced([w] + fs, [g] + inner) == g + (w + Spaced(fs, inner))
  {
    assert ([w] + fs)[1..] == fs && ([g] + inner)[1..] == inner;
  }

  lemma GapsCons(w: string, fs: seq<string>, g: string, inner: seq<string>)
    requires AllSpace(g) && Gaps(fs, inner) && (fs != [] ==> inner[0] != [])
    ensures Gaps([w] + fs, [g] + inner)
  {
    var words, gaps := [w] + fs, [g] + inner;
    forall i | 0 <= i < |gaps| ensures AllSpace(gaps[i]) {
      if i > 0 { assert gaps[i] == inner[i - 1]; }
    }
    forall i | 0 < i < |words| ensures gaps[i] != [] {
      assert gaps[i] == inner[i - 1];
    }
  }

  lemma {:induction false} WordOfWordThenSpace(w: string, rest: string)
    requires NoSpace(w)
    requires rest == [] || IsSpace(rest[0])
    ensures Word(w + rest) == w
    decreases |w|
  {
    if w != [] {
      assert (w + rest)[1..] == w[1..] + rest;
      WordOfWordThenSpace(w[1..], rest);
      assert w == [w[0]] + w[1..];
    } else {
      assert w + rest == rest;
    }
  }

  /** A non-empty word is its own single field. */
  lemma FieldsOfWord(w: string)
    requires w != [] && NoSpace(w)
    ensures Fields(w) == [w]
  {
    assert TrimLeft(w) == w;
    WordOfWordThenSpace(w, []);
    assert w + [] == w;
    assert w[|w|..] == [];
  }

  /** A non-empty word followed by whitespace is the first field. */
  lemma FieldsOfWordThenSpace(w: string, c: char, rest: string)
    requires w != [] && NoSpace(w) && IsSpace(c)
    ensures Fields(w + [c] + rest) == [w] + Fields(rest)
  {
    var s := w + [c] + rest;
    assert TrimLeft(s) == s;
    WordOfWordThenSpace(w, [c] + rest);
    assert s == w + ([c] + rest);
    assert s[|w|..] == [c] + rest;
    assert TrimLeft([c] + rest) == TrimLeft(rest) by {
      assert ([c] + rest)[1..] == rest;
    }
  }

  // ---------------------------------------------------------------- int()

  predicate IsDigit(c: char) { '0' <= c <= '9' }

  predicate AllDigits(s: string) {
    forall i :: 0 <= i < |s| ==> IsDigit(s[i])
  }

  /** The value of a string of decimal digits, most significant first. */
  function DigitsValue(s: string): (n: nat)
    requires AllDigits(s)
  {
    if s == [] then 0 else DigitsValue(s[..|s| - 1]) * 10 + (s[|s| - 1] as int - '0' as int)
  }

  /** Python 2's `int(s)` on a byte string: surrounding whitespace, at most
    * one sign, possibly followed by more whitespace, and at least one
    * decimal digit; anything else raises ValueError (here `None`). */
  function ParseInt(s: string): (r: Option<int>)
  {
    ParseStripped(Strip(s))
  }

  /** `int()` once the surrounding whitespace is gone. */
  function ParseStripped(t: string): Option<int>
  {
    if t == [] then None
    else if t[0] == '-' || t[0] == '+' then
      match Unsigned(t[1..])
      case None => None
      case Some(v) => Some(if t[0] == '-' then -v else v)
    else if AllDigits(t) then Some(DigitsValue(t))
    else None
  }

  /** What follows a sign: optional whitespace, then at least one digit. */
  function Unsigned(u: string): Option<int>
  {
    var d := TrimLeft(u);
    if d != [] && AllDigits(d) then Some(DigitsValue(d)) else None
  }

  /** The decimal spelling of a natural number, as `str(n)` gives it. */
  function Decimal(n: nat): (s: string)
    ensures s != [] && AllDigits(s)
  {
    var d := ['0' + (n % 10) as char];
    if n < 10 then d else Decimal(n / 10) + d
  }

  lemma {:induction false} DigitsOfDecimal(n: nat)
    ensures DigitsValue(Decimal(n)) == n
  {
    var s := Decimal(n);
    assert s[..|s| - 1] == if n < 10 then [] else Decimal(n / 10);
    if n >= 10 { DigitsOfDecimal(n / 10); }
  }

  /** Surrounding whitespace is what `strip` removes. */
  lemma StripPadded(pad: string, d: string, pad': string)
    requires forall i :: 0 <= i < |pad| ==> IsSpace(pad[i])
    requires forall i :: 0 <= i < |pad'| ==> IsSpace(pad'[i])
    requires d != [] && !IsSpace(d[0]) && !IsSpace(d[|d| - 1])
    ensures Strip(pad + d + pad') == d
  {
    assert pad + d + pad' == pad + (d + pad');
    TrimLeftSpaces(pad, d + pad');
    TrimRightSpaces(d, pad');
  }

  /** `int(str(n)) == n`, with or without surrounding whitespace. */
  lemma ParseDecimal(n: nat, pad: string, pad': string)
    requires forall i :: 0 <= i < |pad| ==> IsSpace(pad[i])
    requires forall i :: 0 <= i < |pad'| ==> IsSpace(pad'[i])
    ensures ParseInt(pad + Decimal(n) + pad') == Some(n)
  {
    var d := Decimal(n);
    assert IsDigit(d[0]) && IsDigit(d[|d| - 1]);
    StripPadded(pad, d, pad');
    DigitsOfDecimal(n);
  }

  /** `int("-" + str(n)) == -n`, whitespace allowed around the literal and
    * between the sign and the digits. */
  lemma ParseNegative(n: nat, pad: string, gap: string, pad': string)
    requires forall i :: 0 <= i < |pad| ==> IsSpace(pad[i])
    requires forall i :: 0 <= i < |gap| ==> IsSpace(gap[i])
    requires forall i :: 0 <= i < |pad'| ==> IsSpace(pad'[i])
    ensures ParseInt(pad + "-" + gap + Decimal(n) + pad') == Some(-(n as int))
  {
    DigitsOfDecimal(n);
    ParseSignedDigits(pad, gap, Decimal(n), pad', n);
  }

  lemma ParseSignedDigits(pad: string, gap: string, d: string, pad': string, v: nat)
    requires forall i :: 0 <= i < |pad| ==> IsSpace(pad[i])
    requires forall i :: 0 <= i < |gap| ==> IsSpace(gap[i])
    requires forall i :: 0 <= i < |pad'| ==> IsSpace(pad'[i])
    requires d != [] && AllDigits(d) && DigitsValue(d) == v
    ensures ParseInt(pad + "-" + gap + d + pad') == Some(-(v as int))
  {
    var s := pad + "-" + gap + d + pad';
    StripSigned(pad, gap, d, pad');
    ParseMinus(s, "-" + gap + d, gap, d, v);
  }

  lemma StripSigned(pad: string, gap: string, d: string, pad': string)
    requires forall i :: 0 <= i < |pad| ==> IsSpace(pad[i])
    requires forall i :: 0 <= i < |pad'| ==> IsSpace(pad'[i])
    requires d != [] && AllDigits(d)
    ensures Strip(pad + "-" + gap + d + pad') == "-" + gap + d
  {
    var t := "-" + gap + d;
    SignedEnds(gap, d);
    assert pad + "-" + gap + d + pad' == pad + t + pad';
    StripPadded(pad, t, pad');
  }

  lemma SignedEnds(gap: string, d: string)
    requires d != [] && AllDigits(d)
    ensures var t := "-" + gap + d; !IsSpace(t[0]) && !IsSpace(t[|t| - 1])
  {
    assert IsDigit(d[|d| - 1]);
  }

  lemma ParseMinus(s: string, t: string, gap: string, d: string, v: nat)
    requires forall i :: 0 <= i < |gap| ==> IsSpace(gap[i])
    requires Strip(s) == t && t == "-" + gap + d && d != [] && AllDigits(d) && DigitsValue(d) == v
    ensures ParseInt(s) == Some(-(v as int))
  {
    SignSplit(t, gap, d);
    UnsignedAfterGap(gap, d, v);
  }

  lemma SignSplit(t: string, gap: string, d: string)
    requires t == "-" + gap + d
    ensures t != [] && t[0] == '-' && t[1..] == gap + d
  {
  }

  lemma UnsignedAfterGap(gap: string, d: string, v: nat)
    requires forall i :: 0 <= i < |gap| ==> IsSpace(gap[i])
    requires d != [] && AllDigits(d) && DigitsValue(d) == v
    ensures Unsigned(gap + d) == Some(v)
  {
    TrimLeftSpaces(gap, d);
  }

  lemma {:induction false} TrimLeftSpaces(pad: string, s: string)
    requires forall i :: 0 <= i < |pad| ==> IsSpace(pad[i])
    requires s == [] || !IsSpace(s[0])
    ensures TrimLeft(pad + s) == s
    decreases |pad|
  {
    if pad == [] {
      assert pad + s == s;
    } else {
      assert (pad + s)[1..] == pad[1..] + s;
      TrimLeftSpaces(pad[1..], s);
    }
  }

  lemma {:induction false} TrimRightSpaces(s: string, pad: string)
    requires forall i :: 0 <= i < |pad| ==> IsSpace(pad[i])
    requires s == [] || !IsSpace(s[|s| - 1])
    ensures TrimRight(s + pad) == s
    decreases |pad|
  {
    if pad == [] {
      assert s + pad == s;
    } else {
      var p := pad[..|pad| - 1];
      assert (s + pad)[..|s + pad| - 1] == s + p;
      TrimRightSpaces(s, p);
    }
  }
}
