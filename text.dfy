/** Python's `str` primitives restricted to ASCII text: whitespace, digits,
    `lower`, `strip`, substring search, `split(',')`, `split()` and `int()`
    of a digit run. */
module Text {
  import opened Wrappers

  /** `str.isspace()` and the regex class `\s` on ASCII: TAB, LF, VT, FF, CR,
      the separators 0x1C-0x1F, and space. */
  predicate IsSpace(c: char) {
    9 <= c as int <= 13 || 28 <= c as int <= 32
  }

  /** `str.isdigit()` and the regex class `\d` on ASCII. */
  predicate IsDigit(c: char) {
    '0' <= c <= '9'
  }

  /** The regex class `[a-zA-Z]`. */
  predicate IsLetter(c: char) {
    'a' <= c <= 'z' || 'A' <= c <= 'Z'
  }

  predicate AllDigits(s: string) {
    forall i :: 0 <= i < |s| ==> IsDigit(s[i])
  }

  predicate NoDigit(s: string) {
    forall i :: 0 <= i < |s| ==> !IsDigit(s[i])
  }

  predicate AllSpace(s: string) {
    forall i :: 0 <= i < |s| ==> IsSpace(s[i])
  }

  predicate AnySpace(s: string) {
    exists i :: 0 <= i < |s| && IsSpace(s[i])
  }

  function LowerChar(c: char): char {
    if 'A' <= c <= 'Z' then (c as int + 32) as char else c
  }

  /** `str.lower()`. */
  function Lower(s: string): (r: string)
    ensures |r| == |s|
    ensures forall i :: 0 <= i < |s| ==> r[i] == LowerChar(s[i])
  {
    seq(|s|, i requires 0 <= i < |s| => LowerChar(s[i]))
  }

  // ---------------------------------------------------------------- strip

  /** `str.lstrip()`: drops the leading whitespace. */
  function TrimStart(s: string): (r: string)
    ensures |r| <= |s| && r == s[|s| - |r|..]
    ensures forall k :: 0 <= k < |s| - |r| ==> IsSpace(s[k])
    ensures r == [] || !IsSpace(r[0])
  {
    if s != [] && IsSpace(s[0]) then TrimStart(s[1..]) else s
  }

  /** `str.rstrip()`: drops the trailing whitespace. */
  function TrimEnd(s: string): (r: string)
    ensures |r| <= |s| && r == s[..|r|]
    ensures forall k :: |r| <= k < |s| ==> IsSpace(s[k])
    ensures r == [] || !IsSpace(r[|r| - 1])
  {
    if s != [] && IsSpace(s[|s| - 1]) then TrimEnd(s[..|s| - 1]) else s
  }

  /** A string with no whitespace at either end. */
  predicate IsStripped(s: string) {
    s == [] || (!IsSpace(s[0]) && !IsSpace(s[|s| - 1]))
  }

  /** `r` is `s` with a whitespace prefix of length `i` and a whitespace
      suffix removed. */
  ghost predicate Framed(s: string, r: string, i: int) {
    && 0 <= i && i + |r| <= |s| && r == s[i..i + |r|]
    && (forall k :: 0 <= k < i ==> IsSpace(s[k]))
    && (forall k :: i + |r| <= k < |s| ==> IsSpace(s[k]))
  }

  /** `str.strip()`: the result has no whitespace at either end, and only
      whitespace was removed from either end of the input. */
  function Strip(s: string): (r: string)
    ensures IsStripped(r) && |r| <= |s|
    ensures r == [] <==> AllSpace(s)
  {
    StripEmpty(s);
    TrimEnd(TrimStart(s))
  }

  /** `Strip` removes only whitespace, and only at the two ends. */
  lemma StripFramed(s: string)
    ensures Framed(s, Strip(s), |s| - |TrimStart(s)|)
  {
    TrimmedFramed(s, TrimStart(s), Strip(s));
  }

  /** Removing the leading, then the trailing whitespace frames the rest. */
  lemma TrimmedFramed(s: string, t: string, r: string)
    requires t == TrimStart(s) && r == TrimEnd(t)
    ensures Framed(s, r, |s| - |t|)
  {
    FramedBy(s, t, r);
  }

  /** Removing a whitespace prefix and then a whitespace suffix frames what
      is left. */
  lemma FramedBy(s: string, t: string, r: string)
    requires |t| <= |s| && t == s[|s| - |t|..]
    requires forall k :: 0 <= k < |s| - |t| ==> IsSpace(s[k])
    requires |r| <= |t| && r == t[..|r|]
    requires forall k :: |r| <= k < |t| ==> IsSpace(t[k])
    ensures Framed(s, r, |s| - |t|)
  {
    var i := |s| - |t|;
    assert s[i..i + |r|] == r by {
      assert s[i..i + |r|] == s[i..][..|r|];
    }
    forall k | i + |r| <= k < |s| ensures IsSpace(s[k]) {
      assert s[k] == t[k - i];
    }
  }

  lemma StripEmpty(s: string)
    ensures TrimEnd(TrimStart(s)) == [] <==> AllSpace(s)
  {
    var t := TrimStart(s);
    if TrimEnd(t) == [] {
      var i := |s| - |t|;
      forall k | 0 <= k < |s| ensures IsSpace(s[k]) { }
    } else {
      var j := |s| - |t|;
      assert !IsSpace(s[j]);
    }
  }

  lemma StripOfStripped(s: string)
    requires IsStripped(s)
    ensures Strip(s) == s
  {
  }

  /** Stripping twice strips no more than stripping once. */
  lemma StripIdempotent(s: string)
    ensures Strip(Strip(s)) == Strip(s)
  {
    StripOfStripped(Strip(s));
  }

  // ---------------------------------------------------------- substrings

  predicate OccursAt(s: string, k: string, i: int) {
    0 <= i && i + |k| <= |s| && s[i..i + |k|] == k
  }

  /** Python's `k in s` for strings. */
  function Contains(s: string, k: string): bool
    decreases |s|
  {
    if |k| > |s| then false
    else if s[..|k|] == k then true
    else Contains(s[1..], k)
  }

  /** `Contains` finds `k` exactly when `k` occurs somewhere in `s`. */
  lemma {:induction false} ContainsSpec(s: string, k: string)
    ensures Contains(s, k) <==> exists i :: OccursAt(s, k, i)
    decreases |s|
  {
    if |k| > |s| {
    } else if s[..|k|] == k {
      assert OccursAt(s, k, 0);
    } else {
      ContainsSpec(s[1..], k);
      if Contains(s[1..], k) {
        var i :| OccursAt(s[1..], k, i);
        assert s[1..][i..i + |k|] == s[i + 1..i + 1 + |k|];
        assert OccursAt(s, k, i + 1);
      }
      if exists i :: OccursAt(s, k, i) {
        var i :| OccursAt(s, k, i);
        assert i != 0;
        assert s[1..][i - 1..i - 1 + |k|] == s[i..i + |k|];
        assert OccursAt(s[1..], k, i - 1);
      }
    }
  }

  /** Python's `any(k in s for k in keywords)`. */
  function ContainsAny(s: string, keywords: seq<string>): (r: bool)
    ensures r <==> exists i :: 0 <= i < |keywords| && Contains(s, keywords[i])
  {
    if keywords == [] then false
    else Contains(s, keywords[0]) || ContainsAny(s, keywords[1..])
  }

  /** An occurrence of one of the keywords makes `ContainsAny` hold. */
  lemma OccursContainsAny(s: string, keywords: seq<string>, j: nat, i: int)
    requires j < |keywords| && OccursAt(s, keywords[j], i)
    ensures ContainsAny(s, keywords)
  {
    ContainsSpec(s, keywords[j]);
  }

  /** `ContainsAny` holds exactly when one of the keywords occurs at some
      position of `s`. */
  lemma ContainsAnyOccurs(s: string, keywords: seq<string>)
    ensures ContainsAny(s, keywords) <==> exists j, i :: 0 <= j < |keywords| && OccursAt(s, keywords[j], i)
  {
    forall j | 0 <= j < |keywords| {
      ContainsSpec(s, keywords[j]);
    }
  }

  /** Some keyword occurs exactly when one of all but the last does, or the
      last does. */
  lemma ContainsAnySnoc(text: string, words: seq<string>)
    requires words != []
    ensures var n := |words| - 1;
      ContainsAny(text, words) <==> ContainsAny(text, words[..n]) || Contains(text, words[n])
  {
    var n := |words| - 1;
    var init := words[..n];
    if ContainsAny(text, words) {
      var i :| 0 <= i < |words| && Contains(text, words[i]);
      if i < n {
        assert init[i] == words[i];
        assert ContainsAny(text, init);
      } else {
        assert Contains(text, words[n]);
      }
    }
    if ContainsAny(text, init) {
      var i :| 0 <= i < n && Contains(text, init[i]);
      assert init[i] == words[i];
      assert ContainsAny(text, words);
    }
    if Contains(text, words[n]) {
      assert ContainsAny(text, words);
    }
  }

  /** Python's slice `s[:n]`: the first `n` elements, or all of `s` when
      it is shorter. */
  function Take<T>(s: seq<T>, n: nat): (r: seq<T>)
    ensures |r| == if |s| <= n then |s| else n
    ensures r == s[..|r|]
  {
    if |s| <= n then s else s[..n]
  }

  lemma Assoc<T>(a: seq<T>, b: seq<T>, c: seq<T>)
    ensures a + b + c == a + (b + c)
  {
  }

  /** A non-empty `b` is its front and its last element. */
  lemma SnocSplit<T>(a: seq<T>, b: seq<T>)
    requires b != []
    ensures a + b == (a + b[..|b| - 1]) + [b[|b| - 1]]
    ensures b == b[..|b| - 1] + [b[|b| - 1]]
  {
  }

  // ------------------------------------------------------ split and join

  /** Python's `s.split(sep)` for a one-character separator. */
  function Split(s: string, sep: char): (parts: seq<string>)
    ensures |parts| >= 1
    ensures forall p :: p in parts ==> sep !in p
  {
    if s == [] then [[]]
    else
      var rest := Split(s[1..], sep);
      if s[0] == sep then [[]] + rest
      else [[s[0]] + rest[0]] + rest[1..]
  }

  /** Python's `sep.join(parts)`. */
  function Join(parts: seq<string>, sep: string): string {
    if |parts| == 0 then []
    else if |parts| == 1 then parts[0]
    else parts[0] + sep + Join(parts[1..], sep)
  }

  lemma {:induction false} JoinFront(a: string, more: seq<string>, sep: string)
    requires more != []
    ensures Join([a] + more, sep) == a + sep + Join(more, sep)
  {
    assert ([a] + more)[1..] == more;
  }

  /** Joining `[a] + more` is joining `a`, `sep` and `more[0]` first. */
  lemma {:induction false} JoinTwo(a: string, more: seq<string>, sep: string)
    requires more != []
    ensures Join([a] + more, sep) == Join([a + sep + more[0]] + more[1..], sep)
  {
    JoinFront(a, more, sep);
    var rest := more[1..];
    if rest == [] {
      assert [a + sep + more[0]] + rest == [a + sep + more[0]];
    } else {
      assert more == [more[0]] + rest;
      JoinFront(more[0], rest, sep);
      JoinFront(a + sep + more[0], rest, sep);
      var j := Join(rest, sep);
      assert a + sep + (more[0] + sep + j) == a + sep + more[0] + sep + j;
    }
  }

  /** Joining the pieces of a split with the separator gives back the text. */
  lemma {:induction false} JoinSplit(s: string, sep: char)
    ensures Join(Split(s, sep), [sep]) == s
  {
    if s != [] {
      JoinSplit(s[1..], sep);
      var rest := Split(s[1..], sep);
      if s[0] == sep {
        assert ([[]] + rest)[1..] == rest;
      } else if |rest| == 1 {
      } else {
        var parts := [[s[0]] + rest[0]] + rest[1..];
        assert parts[1..] == rest[1..];
        assert Join(rest, [sep]) == rest[0] + [sep] + Join(rest[1..], [sep]);
        assert Join(parts, [sep]) == [s[0]] + Join(rest, [sep]);
      }
    }
  }

  lemma {:induction false} SplitPrefix(a: string, tail: string, sep: char)
    requires sep !in a
    ensures Split(a + tail, sep) == [a + Split(tail, sep)[0]] + Split(tail, sep)[1..]
    decreases |a|
  {
    if a != [] {
      var t := Split(tail, sep);
      assert (a + tail)[0] == a[0] && (a + tail)[1..] == a[1..] + tail;
      SplitPrefix(a[1..], tail, sep);
      var rest := Split(a[1..] + tail, sep);
      assert rest == [a[1..] + t[0]] + t[1..];
      assert rest[0] == a[1..] + t[0] && rest[1..] == t[1..];
      assert [a[0]] + (a[1..] + t[0]) == a + t[0];
    } else {
      var t := Split(tail, sep);
      assert a + tail == tail && t == [t[0]] + t[1..] && a + t[0] == t[0];
    }
  }

  /** Splitting a join of separator-free pieces gives back the pieces. */
  lemma {:induction false} SplitJoin(parts: seq<string>, sep: char)
    requires |parts| >= 1
    requires forall p :: p in parts ==> sep !in p
    ensures Split(Join(parts, [sep]), sep) == parts
  {
    if |parts| == 1 {
      SplitPrefix(parts[0], [], sep);
      assert parts[0] + [] == parts[0];
    } else {
      SplitJoin(parts[1..], sep);
      var tail := [sep] + Join(parts[1..], [sep]);
      assert Join(parts, [sep]) == parts[0] + tail;
      SplitPrefix(parts[0], tail, sep);
      assert tail[1..] == Join(parts[1..], [sep]);
      assert Split(tail, sep) == [[]] + parts[1..];
      assert parts[0] + [] == parts[0];
    }
  }

  // --------------------------------------------------------------- words

  /** Length of the longest prefix of `t` without whitespace. */
  function NonSpacePrefix(t: string): (n: nat)
    ensures n <= |t|
    ensures forall i :: 0 <= i < n ==> !IsSpace(t[i])
    ensures n == |t| || IsSpace(t[n])
  {
    if t == [] || IsSpace(t[0]) then 0 else 1 + NonSpacePrefix(t[1..])
  }

  /** Python's `s.split()` with no argument: the maximal whitespace-free runs. */
  function Words(s: string): (ws: seq<string>)
    ensures forall w :: w in ws ==> w != [] && forall c :: c in w ==> !IsSpace(c)
    decreases |s|
  {
    var t := TrimStart(s);
    if t == [] then []
    else
      var n := NonSpacePrefix(t);
      [t[..n]] + Words(t[n..])
  }

  /** A text has no words exactly when it is all whitespace. */
  lemma WordsEmpty(s: string)
    ensures Words(s) == [] <==> AllSpace(s)
  {
    TrimStartEmpty(s);
  }

  lemma TrimStartEmpty(s: string)
    ensures TrimStart(s) == [] <==> AllSpace(s)
  {
    var t := TrimStart(s);
    if t != [] {
      assert s[|s| - |t|] == t[0];
    }
  }

  /** Whitespace in front of the text adds no word. */
  lemma WordsAfterSpace(c: char, s: string)
    requires IsSpace(c)
    ensures Words([c] + s) == Words(s)
  {
    assert ([c] + s)[1..] == s;
  }

  /** A whitespace-free run followed by whitespace is the first word, and the
      words of the rest follow it: `split()` cuts at every whitespace run. */
  lemma WordsCons(w: string, c: char, s: string)
    requires w != [] && !AnySpace(w) && IsSpace(c)
    ensures Words(w + [c] + s) == [w] + Words(s)
  {
    var t := w + [c] + s;
    assert TrimStart(t) == t;
    NonSpacePrefixExact(t, |w|);
    assert t[..|w|] == w && t[|w|..] == [c] + s;
    WordsAfterSpace(c, s);
  }

  /** The whitespace-free prefix is the one that whitespace ends. */
  lemma {:induction false} NonSpacePrefixExact(t: string, n: nat)
    requires n < |t| && IsSpace(t[n]) && !AnySpace(t[..n])
    ensures NonSpacePrefix(t) == n
    decreases n
  {
    if n > 0 {
      assert t[1..][..n - 1] == t[..n][1..];
      NonSpacePrefixExact(t[1..], n - 1);
    }
  }

  // -------------------------------------------------------------- digits

  /** `re.sub(r'\D', '', s)`: the digits of `s`, in order. A text made of
      digits only is kept whole; with `DigitsAppend` this pins the result
      down for every text. */
  function Digits(s: string): (r: string)
    ensures AllDigits(r) && |r| <= |s|
    ensures AllDigits(s) ==> r == s
    ensures NoDigit(s) ==> r == []
  {
    if s == [] then []
    else if IsDigit(s[0]) then [s[0]] + Digits(s[1..])
    else Digits(s[1..])
  }

  /** Removing non-digits commutes with concatenation: each piece keeps its
      own digits, in order. */
  lemma {:induction false} DigitsAppend(a: string, b: string)
    ensures Digits(a + b) == Digits(a) + Digits(b)
  {
    if a == [] {
      assert a + b == b;
    } else {
      assert (a + b)[0] == a[0] && (a + b)[1..] == a[1..] + b;
      DigitsAppend(a[1..], b);
    }
  }

  /** The positions of `s` that hold a digit. */
  function DigitPositions(s: string): set<nat> {
    set i: nat | i < |s| && IsDigit(s[i])
  }

  /** `Digits` keeps one character for each digit position of the input. */
  lemma {:induction false} DigitsCount(s: string)
    ensures |Digits(s)| == |DigitPositions(s)|
    decreases |s|
  {
    if s != [] {
      var p := s[..|s| - 1];
      var c := s[|s| - 1];
      DigitsCount(p);
      assert s == p + [c];
      DigitsAppend(p, [c]);
      assert Digits([c]) == if IsDigit(c) then [c] else [];
      if IsDigit(c) {
        assert DigitPositions(s) == DigitPositions(p) + {|p|};
      } else {
        assert DigitPositions(s) == DigitPositions(p);
      }
    }
  }

  function DigitValue(c: char): nat
    requires IsDigit(c)
  {
    c as int - '0' as int
  }

  function DigitChar(d: nat): (c: char)
    requires d < 10
    ensures IsDigit(c) && DigitValue(c) == d
  {
    ('0' as int + d) as char
  }

  /** Python's `int(ds)` for a run of ASCII digits. */
  function DecimalValue(ds: string): nat
    requires AllDigits(ds)
  {
    if ds == [] then 0
    else DecimalValue(ds[..|ds| - 1]) * 10 + DigitValue(ds[|ds| - 1])
  }

  /** Python's `str(n)` for a natural number. */
  function NatToDecimal(n: nat): (ds: string)
    ensures ds != [] && AllDigits(ds)
  {
    if n < 10 then [DigitChar(n)] else NatToDecimal(n / 10) + [DigitChar(n % 10)]
  }

  /** `int(str(n)) == n`. */
  lemma {:induction false} DecimalRoundTrip(n: nat)
    ensures DecimalValue(NatToDecimal(n)) == n
  {
    if n >= 10 {
      DecimalRoundTrip(n / 10);
      var ds := NatToDecimal(n);
      assert ds[..|ds| - 1] == NatToDecimal(n / 10);
    }
  }

  /** Length of the longest all-digit prefix of `s`. */
  function LeadingDigits(s: string): (n: nat)
    ensures n <= |s| && AllDigits(s[..n])
    ensures n == |s| || !IsDigit(s[n])
  {
    if s == [] || !IsDigit(s[0]) then 0 else 1 + LeadingDigits(s[1..])
  }

  /** The digit run of `ds + rest` ends where `ds` does. */
  lemma {:induction false} LeadingDigitsOf(ds: string, rest: string)
    requires AllDigits(ds) && rest != [] && !IsDigit(rest[0])
    ensures LeadingDigits(ds + rest) == |ds|
    decreases |ds|
  {
    var s := ds + rest;
    if ds == [] {
      assert s == rest;
    } else {
      assert s[0] == ds[0] && s[1..] == ds[1..] + rest;
      LeadingDigitsOf(ds[1..], rest);
      assert LeadingDigits(s) == 1 + LeadingDigits(s[1..]);
    }
  }

  /** `i` is where the first digit of `s` stands. */
  predicate FirstDigitAt(s: string, i: int) {
    0 <= i < |s| && IsDigit(s[i]) && NoDigit(s[..i])
  }

  /** The value of the maximal run of digits that starts at `i`. */
  function NumberAt(s: string, i: nat): nat
    requires i <= |s|
  {
    DecimalValue(s[i..][..LeadingDigits(s[i..])])
  }

  /** `int(re.findall(r'\d+', s)[0])`, or `None` when `findall` finds
      nothing: the value of the first maximal run of digits. */
  function FirstNumber(s: string): (r: Option<nat>)
    ensures r.None? <==> NoDigit(s)
    ensures r.Some? ==> exists i :: FirstDigitAt(s, i) && r.value == NumberAt(s, i)
  {
    if s == [] then None
    else if IsDigit(s[0]) then
      assert FirstDigitAt(s, 0);
      Some(NumberAt(s, 0))
    else
      var r := FirstNumber(s[1..]);
      if r.Some? then
        var i :| FirstDigitAt(s[1..], i) && r.value == NumberAt(s[1..], i);
        FirstDigitShift(s, i);
        r
      else
        assert s == [s[0]] + s[1..];
        r
  }

  /** Past a leading non-digit, the first run of digits of the rest is the
      first run of digits of the whole, one position later. */
  lemma FirstDigitShift(s: string, i: int)
    requires s != [] && !IsDigit(s[0]) && FirstDigitAt(s[1..], i)
    ensures FirstDigitAt(s, i + 1) && NumberAt(s, i + 1) == NumberAt(s[1..], i)
  {
    assert s[1..][i..] == s[i + 1..];
    assert s[..i + 1] == [s[0]] + s[1..][..i];
  }
}
