/** The JavaScript string operations the application relies on, written out:
    the `\s` character class, `trim()`, `toLowerCase()` (ASCII only),
    `Array.prototype.join`, `String.prototype.split` and `replace(/\s+/g, '-')`. */
module Text {
  import opened Wrappers

  /** The characters JavaScript's `\s` matches, and `trim()` strips: space, tab to carriage
      return (U+0009 to U+000D), no-break space, ogham space mark, the spaces U+2000 to U+200A,
      line and paragraph separator, narrow no-break space, medium mathematical space,
      ideographic space and the byte order mark. */
  predicate IsWhitespace(c: char) {
    || c == ' '
    || '\t' <= c <= '\r'
    || c == '\U{A0}'
    || c == '\U{1680}'
    || '\U{2000}' <= c <= '\U{200A}'
    || c == '\U{2028}'
    || c == '\U{2029}'
    || c == '\U{202F}'
    || c == '\U{205F}'
    || c == '\U{3000}'
    || c == '\U{FEFF}'
  }

  predicate NoWhitespace(s: string) {
    forall i :: 0 <= i < |s| ==> !IsWhitespace(s[i])
  }

  predicate AllWhitespace(s: string) {
    forall i :: 0 <= i < |s| ==> IsWhitespace(s[i])
  }

  /** JavaScript truthiness of a string that may be `null`: present and not empty. */
  predicate Present(s: Option<string>) {
    s.Some? && s.value != ""
  }

  // ---------------------------------------------------------------- lower case

  predicate IsAsciiUpper(c: char) {
    'A' <= c <= 'Z'
  }

  function LowerChar(c: char): (d: char)
    ensures !IsAsciiUpper(d)
    ensures IsAsciiUpper(c) ==> d as int == c as int + 32
    ensures !IsAsciiUpper(c) ==> d == c
  {
    if IsAsciiUpper(c) then (c as int + 32) as char else c
  }

  /** `toLowerCase()`, restricted to the ASCII letters. */
  function AsciiLower(s: string): (r: string)
    ensures |r| == |s|
    ensures forall i :: 0 <= i < |s| ==> r[i] == LowerChar(s[i])
  {
    if s == [] then [] else [LowerChar(s[0])] + AsciiLower(s[1..])
  }

  /** Lower-casing leaves no upper-case letter, keeps every other character, and is idempotent. */
  lemma AsciiLowerSpec(s: string)
    ensures forall i :: 0 <= i < |s| ==> !IsAsciiUpper(AsciiLower(s)[i])
    ensures forall i :: 0 <= i < |s| && !IsAsciiUpper(s[i]) ==> AsciiLower(s)[i] == s[i]
    ensures AsciiLower(AsciiLower(s)) == AsciiLower(s)
  {
  }

  // ---------------------------------------------------------------- join

  /** `xs.join(sep)`. */
  function Join(sep: string, xs: seq<string>): string {
    if |xs| == 0 then "" else if |xs| == 1 then xs[0] else xs[0] + sep + Join(sep, xs[1..])
  }

  /** Joining one more element appends the separator and that element. */
  lemma {:induction false} JoinSnoc(sep: string, xs: seq<string>, x: string)
    requires |xs| > 0
    ensures Join(sep, xs + [x]) == Join(sep, xs) + sep + x
  {
    assert (xs + [x])[1..] == xs[1..] + [x];
    if |xs| > 1 {
      JoinSnoc(sep, xs[1..], x);
    }
  }

  /** Where the `i`-th element starts inside `Join(sep, xs)`. */
  function Offset(sep: string, xs: seq<string>, i: nat): nat
    requires i <= |xs|
  {
    if i == 0 then 0 else |xs[0]| + |sep| + Offset(sep, xs[1..], i - 1)
  }

  lemma {:induction false} OffsetStep(sep: string, xs: seq<string>, i: nat)
    requires i < |xs|
    ensures Offset(sep, xs, i + 1) == Offset(sep, xs, i) + |xs[i]| + |sep|
  {
    if i > 0 {
      OffsetStep(sep, xs[1..], i - 1);
    }
  }

  /** Every element appears inside the joined string at its offset, and consecutive
      elements are separated by exactly `sep`. */
  lemma {:induction false} JoinPlacesEach(sep: string, xs: seq<string>, i: nat)
    requires i < |xs|
    ensures Offset(sep, xs, i) + |xs[i]| <= |Join(sep, xs)|
    ensures Join(sep, xs)[Offset(sep, xs, i)..Offset(sep, xs, i) + |xs[i]|] == xs[i]
    ensures i + 1 < |xs| ==> Offset(sep, xs, i + 1) == Offset(sep, xs, i) + |xs[i]| + |sep|
    ensures i + 1 < |xs| ==>
              Offset(sep, xs, i + 1) <= |Join(sep, xs)| &&
              Join(sep, xs)[Offset(sep, xs, i) + |xs[i]|..Offset(sep, xs, i + 1)] == sep
  {
    OffsetStep(sep, xs, i);
    if i > 0 {
      JoinPlacesEach(sep, xs[1..], i - 1);
      var tail := Join(sep, xs[1..]);
      var k := |xs[0]| + |sep|;
      assert Join(sep, xs) == xs[0] + sep + tail;
      assert Join(sep, xs)[k..] == tail;
      assert Offset(sep, xs, i) == k + Offset(sep, xs[1..], i - 1);
      assert i + 1 < |xs| ==> Offset(sep, xs, i + 1) == k + Offset(sep, xs[1..], i);
    } else if |xs| > 1 {
      assert Join(sep, xs) == xs[0] + sep + Join(sep, xs[1..]);
    }
  }

  /** Four elements joined. */
  lemma JoinFour(sep: string, xs: seq<string>)
    requires |xs| == 4
    ensures Join(sep, xs) == xs[0] + sep + xs[1] + sep + xs[2] + sep + xs[3]
  {
    assert xs[2..][1..] == xs[3..];
    assert xs[1..][1..] == xs[2..];
    assert Join(sep, xs[3..]) == xs[3];
    assert Join(sep, xs[2..]) == xs[2] + sep + xs[3];
    assert Join(sep, xs[1..]) == xs[1] + sep + (xs[2] + sep + xs[3]);
    assert Join(sep, xs) == xs[0] + sep + (xs[1] + sep + (xs[2] + sep + xs[3]));
  }

  /** A list joined between a lead and a tail: element `i` appears verbatim after the lead
      at its offset, is followed by the separator text when another element comes, and ends
      before every later element starts. */
  lemma {:induction false} ListedInOrder(lead: string, sep: string, xs: seq<string>, tail: string, i: nat)
    requires i < |xs|
    ensures |lead| + Offset(sep, xs, i) + |xs[i]| <= |lead + Join(sep, xs) + tail|
    ensures (lead + Join(sep, xs) + tail)[|lead| + Offset(sep, xs, i)..|lead| + Offset(sep, xs, i) + |xs[i]|] == xs[i]
    ensures i + 1 < |xs| ==>
              && |lead| + Offset(sep, xs, i) + |xs[i]| + |sep| <= |lead + Join(sep, xs) + tail|
              && (lead + Join(sep, xs) + tail)[|lead| + Offset(sep, xs, i) + |xs[i]|..|lead| + Offset(sep, xs, i) + |xs[i]| + |sep|] == sep
    ensures forall j :: i < j < |xs| ==> |lead| + Offset(sep, xs, i) + |xs[i]| + |sep| <= |lead| + Offset(sep, xs, j)
  {
    JoinPlacesEach(sep, xs, i);
    if i + 1 < |xs| {
      SeparatorAfter(sep, xs, i);
    }
    PlacedInMiddle(lead, Join(sep, xs), tail, Offset(sep, xs, i), xs[i], sep, i + 1 < |xs|);
    LaterOffsets(sep, xs, i);
  }

  /** The separator text follows every element but the last. */
  lemma SeparatorAfter(sep: string, xs: seq<string>, i: nat)
    requires i + 1 < |xs|
    ensures Offset(sep, xs, i) + |xs[i]| + |sep| <= |Join(sep, xs)|
    ensures Join(sep, xs)[Offset(sep, xs, i) + |xs[i]|..Offset(sep, xs, i) + |xs[i]| + |sep|] == sep
  {
    JoinPlacesEach(sep, xs, i);
  }

  /** Every later element starts after element `i` and one separator. */
  lemma LaterOffsets(sep: string, xs: seq<string>, i: nat)
    requires i < |xs|
    ensures forall j :: i < j < |xs| ==> Offset(sep, xs, i) + |xs[i]| + |sep| <= Offset(sep, xs, j)
  {
    forall j | i < j < |xs| ensures Offset(sep, xs, i) + |xs[i]| + |sep| <= Offset(sep, xs, j) {
      OffsetsInOrder(sep, xs, i, j);
    }
  }

  /** What sits at offset `o` of the middle part of a concatenation, possibly followed by a
      separator, sits `|lead|` further on in the whole text. */
  lemma {:induction false} PlacedInMiddle(lead: string, mid: string, tail: string, o: nat, x: string, sep: string, next: bool)
    requires o + |x| <= |mid| && mid[o..o + |x|] == x
    requires next ==> o + |x| + |sep| <= |mid| && mid[o + |x|..o + |x| + |sep|] == sep
    ensures var text := lead + mid + tail;
            && |lead| + o + |x| <= |text|
            && text[|lead| + o..|lead| + o + |x|] == x
            && (next ==> |lead| + o + |x| + |sep| <= |text| && text[|lead| + o + |x|..|lead| + o + |x| + |sep|] == sep)
  {
    var text := lead + mid + tail;
    assert text[|lead|..|lead| + |mid|] == mid;
    assert text[|lead| + o..|lead| + o + |x|] == text[|lead|..|lead| + |mid|][o..o + |x|];
    if next {
      assert text[|lead| + o + |x|..|lead| + o + |x| + |sep|] == text[|lead|..|lead| + |mid|][o + |x|..o + |x| + |sep|];
    }
  }

  /** Offsets grow with the index: elements appear in list order, without overlapping. */
  lemma {:induction false} OffsetsInOrder(sep: string, xs: seq<string>, i: nat, j: nat)
    requires i < j <= |xs|
    ensures Offset(sep, xs, i) + |xs[i]| + |sep| <= Offset(sep, xs, j)
    decreases j - i
  {
    OffsetStep(sep, xs, i);
    if i + 1 < j {
      OffsetsInOrder(sep, xs, i + 1, j);
    }
  }

  // ---------------------------------------------------------------- split

  /** `s.split(sep)` for a one-character separator: never an empty array. */
  function Split(s: string, sep: char): (r: seq<string>)
    ensures |r| >= 1
  {
    if s == [] then [""]
    else
      var rest := Split(s[1..], sep);
      if s[0] == sep then [""] + rest else [[s[0]] + rest[0]] + rest[1..]
  }

  /** `parts[i]`, where an index past the end gives `undefined`. */
  function Field(parts: seq<string>, i: nat): (r: Option<string>)
    ensures r.Some? <==> i < |parts|
    ensures r.Some? ==> r.value == parts[i]
  {
    if i < |parts| then Some(parts[i]) else None
  }

  lemma {:induction false} SplitWithoutSeparator(s: string, sep: char)
    requires sep !in s
    ensures Split(s, sep) == [s]
  {
    if s != [] {
      assert sep !in s[1..];
      SplitWithoutSeparator(s[1..], sep);
      assert [s[0]] + s[1..] == s;
    }
  }

  /** Splitting at a first separator yields the part before it, then the split of the rest. */
  lemma {:induction false} SplitAtFirst(a: string, sep: char, b: string)
    requires sep !in a
    ensures Split(a + [sep] + b, sep) == [a] + Split(b, sep)
  {
    if a == [] {
      assert a + [sep] + b == [sep] + b;
      assert ([sep] + b)[1..] == b;
    } else {
      assert (a + [sep] + b)[1..] == a[1..] + [sep] + b;
      SplitAtFirst(a[1..], sep, b);
      assert [a[0]] + a[1..] == a;
    }
  }

  /** When the string holds a separator, the first part stops before it. */
  lemma {:induction false} SplitFirstShorter(s: string, sep: char)
    requires sep in s
    ensures |Split(s, sep)[0]| < |s|
  {
    if s[0] != sep {
      SplitFirstShorter(s[1..], sep);
    }
  }

  // ---------------------------------------------------------------- trim

  /** How many whitespace characters `s` starts with. */
  function LeadingWhitespace(s: string): (n: nat)
    ensures n <= |s|
    ensures forall i :: 0 <= i < n ==> IsWhitespace(s[i])
    ensures n < |s| ==> !IsWhitespace(s[n])
  {
    if s != [] && IsWhitespace(s[0]) then 1 + LeadingWhitespace(s[1..]) else 0
  }

  /** How many whitespace characters `s` ends with. */
  function TrailingWhitespace(s: string): (n: nat)
    ensures n <= |s|
    ensures forall i :: |s| - n <= i < |s| ==> IsWhitespace(s[i])
    ensures n < |s| ==> !IsWhitespace(s[|s| - n - 1])
  {
    if s != [] && IsWhitespace(s[|s| - 1]) then 1 + TrailingWhitespace(s[..|s| - 1]) else 0
  }

  /** `trimStart()`. */
  function TrimStart(s: string): string {
    s[LeadingWhitespace(s)..]
  }

  /** `trim()`: the slice of `s` between its leading and its trailing whitespace. */
  function Trim(s: string): (r: string)
    ensures |r| <= |s|
    ensures r != [] ==> !IsWhitespace(r[0]) && !IsWhitespace(r[|r| - 1])
  {
    var t := TrimStart(s);
    t[..|t| - TrailingWhitespace(t)]
  }

  /** What `trim()` keeps is one contiguous slice of the input, with only whitespace around it. */
  lemma TrimIsSlice(s: string)
    ensures LeadingWhitespace(s) + |Trim(s)| <= |s|
    ensures s[LeadingWhitespace(s)..LeadingWhitespace(s) + |Trim(s)|] == Trim(s)
    ensures AllWhitespace(s[..LeadingWhitespace(s)])
    ensures AllWhitespace(s[LeadingWhitespace(s) + |Trim(s)|..])
  {
    TrimKeepsMiddle(s);
    LeadingRunIsWhitespace(s);
    TrailingRunIsWhitespace(s);
  }

  lemma TrimKeepsMiddle(s: string)
    ensures LeadingWhitespace(s) + |Trim(s)| <= |s|
    ensures s[LeadingWhitespace(s)..LeadingWhitespace(s) + |Trim(s)|] == Trim(s)
  {
    var k := LeadingWhitespace(s);
    var t := s[k..];
    var m := |t| - TrailingWhitespace(t);
    assert Trim(s) == t[..m];
    PrefixOfSuffix(s, k, m);
  }

  /** Taking `m` characters after dropping `k` is the slice from `k` to `k + m`. */
  lemma PrefixOfSuffix(s: string, k: nat, m: nat)
    requires k + m <= |s|
    ensures s[k..][..m] == s[k..k + m]
  {
  }

  lemma LeadingRunIsWhitespace(s: string)
    ensures AllWhitespace(s[..LeadingWhitespace(s)])
  {
    var k := LeadingWhitespace(s);
    assert forall i :: 0 <= i < k ==> s[..k][i] == s[i];
  }

  lemma TrailingRunIsWhitespace(s: string)
    ensures LeadingWhitespace(s) + |Trim(s)| <= |s|
    ensures AllWhitespace(s[LeadingWhitespace(s) + |Trim(s)|..])
  {
    var k := LeadingWhitespace(s);
    var t := s[k..];
    var m := |t| - TrailingWhitespace(t);
    assert |Trim(s)| == m;
    var rest := s[k + m..];
    forall i | 0 <= i < |rest| ensures IsWhitespace(rest[i]) {
      assert rest[i] == t[m + i];
    }
  }

  /** Trimming yields the empty string exactly when the input is all whitespace. */
  lemma TrimEmptyIff(s: string)
    ensures Trim(s) == "" <==> AllWhitespace(s)
  {
  }

  /** Trimming twice is trimming once. */
  lemma TrimIdempotent(s: string)
    ensures Trim(Trim(s)) == Trim(s)
  {
    var r := Trim(s);
    if r != [] {
      assert LeadingWhitespace(r) == 0;
      assert TrailingWhitespace(r) == 0;
    }
  }

  // ---------------------------------------------------------------- whitespace runs

  /** `s.replace(/\s+/g, '-')`: every maximal run of whitespace becomes one hyphen. */
  function ReplaceWhitespaceRuns(s: string): string
    decreases |s|
  {
    if s == [] then []
    else if IsWhitespace(s[0]) then "-" + ReplaceWhitespaceRuns(TrimStart(s))
    else [s[0]] + ReplaceWhitespaceRuns(s[1..])
  }

  /** The result holds no whitespace, is no longer than the input, and is empty only for
      the empty input. */
  lemma {:induction false} ReplacedHasNoWhitespace(s: string)
    ensures NoWhitespace(ReplaceWhitespaceRuns(s))
    ensures |ReplaceWhitespaceRuns(s)| <= |s|
    ensures ReplaceWhitespaceRuns(s) == [] <==> s == []
    decreases |s|
  {
    if s != [] {
      var rest := if IsWhitespace(s[0]) then TrimStart(s) else s[1..];
      ReplacedHasNoWhitespace(rest);
      var r := ReplaceWhitespaceRuns(rest);
      var head := if IsWhitespace(s[0]) then '-' else s[0];
      assert ReplaceWhitespaceRuns(s) == [head] + r;
      assert forall i :: 0 < i <= |r| ==> ([head] + r)[i] == r[i - 1];
    }
  }

  /** A name without whitespace is left as it is. */
  lemma {:induction false} ReplaceWithoutWhitespace(s: string)
    requires NoWhitespace(s)
    ensures ReplaceWhitespaceRuns(s) == s
  {
    if s != [] {
      ReplaceWithoutWhitespace(s[1..]);
    }
  }

  /** After a whitespace run, leading whitespace ends where the run ends. */
  lemma TrimStartAfterRun(w: string, b: string)
    requires AllWhitespace(w)
    requires b == [] || !IsWhitespace(b[0])
    ensures TrimStart(w + b) == b
  {
    var s := w + b;
    assert forall i :: 0 <= i < |w| ==> s[i] == w[i];
    assert |w| < |s| ==> s[|w|] == b[0];
    assert LeadingWhitespace(s) == |w|;
  }

  /** A whitespace run is replaced by one hyphen, whatever follows it. */
  lemma ReplaceRunBeforeWord(w: string, b: string)
    requires w != [] && AllWhitespace(w)
    requires b == [] || !IsWhitespace(b[0])
    ensures ReplaceWhitespaceRuns(w + b) == "-" + ReplaceWhitespaceRuns(b)
  {
    TrimStartAfterRun(w, b);
    assert (w + b)[0] == w[0];
  }

  /** Text without whitespace in front is kept as it is, whatever follows it. */
  lemma {:induction false} ReplaceAfterPlainText(a: string, t: string)
    requires NoWhitespace(a)
    ensures ReplaceWhitespaceRuns(a + t) == a + ReplaceWhitespaceRuns(t)
  {
    if a != [] {
      assert (a + t)[0] == a[0];
      assert (a + t)[1..] == a[1..] + t;
      ReplaceAfterPlainText(a[1..], t);
      assert [a[0]] + (a[1..] + ReplaceWhitespaceRuns(t)) == a + ReplaceWhitespaceRuns(t);
    } else {
      assert a + t == t;
    }
  }
}
