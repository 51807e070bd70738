/** The string primitives of the Go standard library that the modelled code
    relies on, over sequences of code points. */
module Text {

  datatype Option<+T> = None | Some(value: T)

  /** Upper-cases one code point. Besides ASCII, only the two code points whose
      upper-case form is an ASCII letter are mapped: the modelled code compares
      the result with ASCII keywords and nothing else. */
  function UpperChar(c: char): char {
    if 'a' <= c <= 'z' then c - 'a' + 'A'
    else if c == '\U{0131}' then 'I'
    else if c == '\U{017F}' then 'S'
    else c
  }

  /** Lower-cases one code point, under the same convention. */
  function LowerChar(c: char): char {
    if 'A' <= c <= 'Z' then c - 'A' + 'a'
    else if c == '\U{0130}' then 'i'
    else if c == '\U{212A}' then 'k'
    else c
  }

  function ToUpper(s: string): (r: string)
    ensures |r| == |s|
  {
    seq(|s|, i requires 0 <= i < |s| => UpperChar(s[i]))
  }

  function ToLower(s: string): (r: string)
    ensures |r| == |s|
  {
    seq(|s|, i requires 0 <= i < |s| => LowerChar(s[i]))
  }

  /** Unicode white space. */
  predicate IsSpace(c: char) {
    || c == ' ' || '\t' <= c <= '\r'
    || c == '\U{0085}' || c == '\U{00A0}' || c == '\U{1680}'
    || '\U{2000}' <= c <= '\U{200A}'
    || c == '\U{2028}' || c == '\U{2029}' || c == '\U{202F}' || c == '\U{205F}' || c == '\U{3000}'
  }

  function TrimLeft(s: string): (r: string)
    ensures r == [] || !IsSpace(r[0])
  {
    if s == [] || !IsSpace(s[0]) then s else TrimLeft(s[1..])
  }

  function TrimRight(s: string): (r: string)
    ensures r == [] || !IsSpace(r[|r| - 1])
    ensures r <= s
  {
    if s == [] || !IsSpace(s[|s| - 1]) then s else TrimRight(s[..|s| - 1])
  }

  function TrimSpace(s: string): string {
    TrimRight(TrimLeft(s))
  }

  predicate HasPrefix(s: string, prefix: string) {
    prefix <= s
  }

  predicate HasSuffix(s: string, suffix: string) {
    |suffix| <= |s| && s[|s| - |suffix|..] == suffix
  }

  /** The text before the first occurrence of sep, if sep occurs. */
  function Before(s: string, sep: string): (r: Option<string>)
    ensures r.Some? ==> r.value + sep <= s
  {
    if sep <= s then Some([])
    else if s == [] then None
    else match Before(s[1..], sep)
      case None => None
      case Some(t) => Some([s[0]] + t)
  }

  /** Splits s around runs of white space, as strings.Fields does. */
  function Fields(s: string, word: string): seq<string> {
    if s == [] then Flush(word)
    else if IsSpace(s[0]) then Flush(word) + Fields(s[1..], [])
    else Fields(s[1..], word + [s[0]])
  }

  function Flush(word: string): seq<string> {
    if word == [] then [] else [word]
  }

  // ---------------------------------------------------------------------
  // What the primitives mean
  // ---------------------------------------------------------------------

  /** c is the ASCII capital u in one of its cases. The last two are the code
      points beyond ASCII whose upper-case form is an ASCII letter. */
  predicate IsCaseOf(c: char, u: char) {
    || c == u || ('A' <= u <= 'Z' && c as int == u as int + 32)
    || (u == 'I' && c == '\U{0131}') || (u == 'S' && c == '\U{017F}')
  }

  predicate Capitals(name: string) {
    forall k :: 0 <= k < |name| ==> 'A' <= name[k] <= 'Z' || name[k] == '-'
  }

  /** The text is the name, whatever the case of each letter. */
  predicate Reads(text: string, name: string)
    requires Capitals(name)
  {
    |text| == |name| && forall k :: 0 <= k < |text| ==> IsCaseOf(text[k], name[k])
  }

  lemma ReadsUpper(text: string, name: string)
    requires Capitals(name)
    ensures Reads(text, name) <==> ToUpper(text) == name
  {
    if |text| == |name| {
      assert Reads(text, name) ==> ToUpper(text) == name;
      forall k | 0 <= k < |text| ensures IsCaseOf(text[k], name[k]) <==> ToUpper(text)[k] == name[k] {}
    }
  }

  /** The same with the cases exchanged: l is a small letter. */
  predicate IsSmallOf(c: char, l: char) {
    || c == l || ('A' <= c <= 'Z' && c as int + 32 == l as int)
    || (l == 'i' && c == '\U{0130}') || (l == 'k' && c == '\U{212A}')
  }

  lemma SmallIsLower(c: char, l: char)
    requires 'a' <= l <= 'z'
    ensures IsSmallOf(c, l) <==> LowerChar(c) == l
  {
  }

  predicate SmallLetters(name: string) {
    forall k :: 0 <= k < |name| ==> 'a' <= name[k] <= 'z'
  }

  /** The text is the name, given in small letters, whatever the case of each letter. */
  predicate ReadsSmall(text: string, name: string) {
    |text| == |name| && forall k :: 0 <= k < |text| ==> IsSmallOf(text[k], name[k])
  }

  lemma ReadsLower(text: string, name: string)
    requires SmallLetters(name)
    ensures ReadsSmall(text, name) <==> ToLower(text) == name
  {
    if |text| == |name| {
      forall k | 0 <= k < |text| ensures IsSmallOf(text[k], name[k]) <==> ToLower(text)[k] == name[k] { SmallIsLower(text[k], name[k]); }
    }
  }

  predicate AllSpace(s: string) {
    forall k :: 0 <= k < |s| ==> IsSpace(s[k])
  }

  /** No white space at either end. */
  predicate IsTrimmed(s: string) {
    s == [] || (!IsSpace(s[0]) && !IsSpace(s[|s| - 1]))
  }

  lemma {:induction false} TrimLeftDrops(s: string) returns (n: nat)
    ensures n <= |s| && TrimLeft(s) == s[n..] && forall k :: 0 <= k < n ==> IsSpace(s[k])
  {
    n := 0;
    if s != [] && IsSpace(s[0]) {
      n := TrimLeftDrops(s[1..]);
      n := n + 1;
      assert forall k :: 0 < k < n ==> s[k] == s[1..][k - 1];
    }
  }

  lemma TrimLeftCuts(s: string) returns (a: string)
    ensures AllSpace(a) && s == a + TrimLeft(s)
  {
    var n := TrimLeftDrops(s);
    a := s[..n];
  }

  lemma {:induction false} TrimRightTakes(s: string) returns (n: nat)
    ensures n <= |s| && TrimRight(s) == s[..n] && forall k :: n <= k < |s| ==> IsSpace(s[k])
  {
    n := |s|;
    if s != [] && IsSpace(s[|s| - 1]) { n := TrimRightTakes(s[..|s| - 1]); }
  }

  lemma TrimRightCuts(s: string) returns (b: string)
    ensures AllSpace(b) && s == TrimRight(s) + b
  {
    var n := TrimRightTakes(s);
    b := s[n..];
  }

  /** Trimming removes white space from the ends and nothing else. */
  lemma TrimSpaceCuts(s: string) returns (a: string, b: string)
    ensures AllSpace(a) && AllSpace(b) && s == a + TrimSpace(s) + b && IsTrimmed(TrimSpace(s))
  {
    a := TrimLeftCuts(s);
    b := TrimRightCuts(TrimLeft(s));
  }

  lemma {:induction false} TrimLeftAll(a: string, t: string)
    requires AllSpace(a) && (t == [] || !IsSpace(t[0]))
    ensures TrimLeft(a + t) == t
  {
    if a == [] {
      assert a + t == t;
    } else {
      TrimLeftAll(a[1..], t);
      assert (a + t)[1..] == a[1..] + t;
    }
  }

  lemma {:induction false} TrimRightAll(t: string, b: string)
    requires AllSpace(b) && (t == [] || !IsSpace(t[|t| - 1]))
    ensures TrimRight(t + b) == t
  {
    if b == [] {
      assert t + b == t;
    } else {
      TrimRightAll(t, b[..|b| - 1]);
      assert (t + b)[..|t + b| - 1] == t + b[..|b| - 1];
    }
  }

  lemma {:induction false} TrimLeftOnlySpace(s: string)
    requires AllSpace(s)
    ensures TrimLeft(s) == []
  {
    if s != [] { TrimLeftOnlySpace(s[1..]); }
  }

  /** Whatever white space surrounds a trimmed text is removed. */
  lemma TrimSpaceFinds(a: string, t: string, b: string)
    requires AllSpace(a) && AllSpace(b) && IsTrimmed(t)
    ensures TrimSpace(a + t + b) == t
  {
    if t == [] {
      TrimLeftOnlySpace(a + t + b);
    } else {
      TrimLeftAll(a, t + b);
      assert a + (t + b) == a + t + b;
      TrimRightAll(t, b);
    }
  }

  /** s is t with white space around it. */
  ghost predicate TrimsTo(s: string, t: string) {
    IsTrimmed(t) && exists a, b :: AllSpace(a) && AllSpace(b) && s == a + t + b
  }

  lemma TrimSpaceTrims(s: string, t: string)
    ensures TrimSpace(s) == t <==> TrimsTo(s, t)
  {
    var x, y := TrimSpaceCuts(s);
    forall a, b | AllSpace(a) && AllSpace(b) && IsTrimmed(t) && s == a + t + b ensures TrimSpace(s) == t { TrimSpaceFinds(a, t, b); }
  }

  predicate NoSpace(s: string) {
    forall k :: 0 <= k < |s| ==> !IsSpace(s[k])
  }

  /** After white space, s begins with this word, and the rest with white space again. */
  predicate NextWord(s: string, a: string, word: string, rest: string) {
    AllSpace(a) && word != "" && NoSpace(word) && (rest == "" || IsSpace(rest[0])) && s == a + (word + rest)
  }

  /** s is these words with white space between and around them. */
  ghost predicate Spaces(s: string, words: seq<string>)
    decreases words
  {
    if words == [] then AllSpace(s)
    else exists a, rest :: NextWord(s, a, words[0], rest) && Spaces(rest, words[1..])
  }

  lemma {:induction false} FieldsOfWord(s: string, word: string, letters: string)
    requires NoSpace(letters) && (s == "" || IsSpace(s[0])) && word + letters != ""
    ensures Fields(letters + s, word) == [word + letters] + Fields(s, [])
    decreases letters
  {
    if letters == [] {
      assert letters + s == s && word + letters == word;
      if s != [] { assert Flush([]) + Fields(s[1..], []) == Fields(s[1..], []); }
    } else {
      assert (letters + s)[1..] == letters[1..] + s;
      assert word + [letters[0]] + letters[1..] == word + letters;
      FieldsOfWord(s, word + [letters[0]], letters[1..]);
    }
  }

  lemma {:induction false} FieldsAfterSpace(a: string, s: string)
    requires AllSpace(a)
    ensures Fields(a + s, []) == Fields(s, [])
    decreases a
  {
    if a == [] {
      assert a + s == s;
    } else {
      assert (a + s)[1..] == a[1..] + s;
      FieldsAfterSpace(a[1..], s);
    }
  }

  lemma FieldsOfNext(s: string, a: string, word: string, rest: string)
    requires NextWord(s, a, word, rest)
    ensures Fields(s, []) == [word] + Fields(rest, [])
  {
    FieldsAfterSpace(a, word + rest);
    FieldsOfWord(rest, [], word);
    assert [] + word == word;
  }

  lemma FieldsOfSpace(s: string)
    requires AllSpace(s)
    ensures Fields(s, []) == []
  {
    FieldsAfterSpace(s, []);
    assert s + [] == s;
  }

  lemma {:induction false} SpacesFields(s: string, words: seq<string>)
    requires Spaces(s, words)
    ensures Fields(s, []) == words
    decreases words
  {
    if words == [] {
      FieldsOfSpace(s);
    } else {
      var a, rest :| NextWord(s, a, words[0], rest) && Spaces(rest, words[1..]);
      FieldsOfNext(s, a, words[0], rest);
      SpacesFields(rest, words[1..]);
    }
  }

  lemma {:induction false} WordEnd(s: string) returns (n: nat)
    ensures n <= |s| && NoSpace(s[..n]) && (n == |s| || IsSpace(s[n]))
  {
    if s == [] || IsSpace(s[0]) {
      n := 0;
    } else {
      n := WordEnd(s[1..]);
      n := n + 1;
      assert s[..n] == [s[0]] + s[1..][..n - 1];
    }
  }

  lemma FindWord(s: string) returns (a: string, word: string, rest: string)
    requires TrimLeft(s) != []
    ensures NextWord(s, a, word, rest)
  {
    a := TrimLeftCuts(s);
    var t := TrimLeft(s);
    var n := WordEnd(t);
    word, rest := t[..n], t[n..];
    assert t == word + rest;
  }

  lemma SpacesCons(s: string, a: string, word: string, rest: string, words: seq<string>)
    requires NextWord(s, a, word, rest) && Spaces(rest, words)
    ensures Spaces(s, [word] + words)
  {
    var all := [word] + words;
    assert all[0] == word && all[1..] == words;
    assert NextWord(s, a, all[0], rest) && Spaces(rest, all[1..]);
  }

  /** Every text is some words with white space between and around them. */
  lemma {:induction false} SpacesSome(s: string) returns (words: seq<string>)
    ensures Spaces(s, words)
    decreases |s|
  {
    if TrimLeft(s) == [] {
      words := [];
      var a := TrimLeftCuts(s);
    } else {
      var a, word, rest := FindWord(s);
      words := SpacesSome(rest);
      SpacesCons(s, a, word, rest, words);
      words := [word] + words;
    }
  }

  /** Fields splits a text into its words. */
  lemma FieldsSpaces(s: string, words: seq<string>)
    ensures Fields(s, []) == words <==> Spaces(s, words)
  {
    var some := SpacesSome(s);
    SpacesFields(s, some);
    if Spaces(s, words) { SpacesFields(s, words); }
  }

  /** base is what stands before the first occurrence of sep. */
  ghost predicate CutAt(s: string, sep: string, base: string) {
    base + sep <= s && forall k :: 0 <= k < |base| ==> !(sep <= s[k..])
  }

  lemma {:induction false} BeforeCuts(s: string, sep: string, base: string)
    ensures Before(s, sep) == Some(base) <==> CutAt(s, sep, base)
  {
    if sep <= s {
      assert base != [] ==> s[0..] == s;
      assert [] + sep == sep;
    } else if s == [] {
      assert base + sep <= s ==> sep == [];
    } else if base == [] {
      assert [] + sep == sep;
    } else {
      BeforeCuts(s[1..], sep, base[1..]);
      CutNext(s, sep, base);
    }
  }

  lemma CutNext(s: string, sep: string, base: string)
    requires s != [] && base != [] && !(sep <= s)
    ensures CutAt(s, sep, base) <==> base[0] == s[0] && CutAt(s[1..], sep, base[1..])
    ensures base == [base[0]] + base[1..]
  {
    var tail, rest := s[1..], base[1..];
    assert base == [base[0]] + rest && s == [s[0]] + tail && base + sep == [base[0]] + (rest + sep);
    assert s[0..] == s;
    if CutAt(s, sep, base) {
      forall k | 0 <= k < |rest| ensures !(sep <= tail[k..]) { assert tail[k..] == s[k + 1..]; }
    } else if base[0] == s[0] && CutAt(tail, sep, rest) {
      forall k | 0 <= k < |base| ensures !(sep <= s[k..]) { assert k > 0 ==> s[k..] == tail[k - 1..]; }
    }
  }

  // ---------------------------------------------------------------------
  // The byte-wise order of strings
  // ---------------------------------------------------------------------

  /** a <= b in the order Go compares strings with. */
  predicate AtMost(a: string, b: string) {
    a == [] || (b != [] && (a[0] < b[0] || (a[0] == b[0] && AtMost(a[1..], b[1..]))))
  }

  lemma {:induction false} AtMostTotal(a: string, b: string)
    ensures AtMost(a, b) || AtMost(b, a)
  {
    if a != [] && b != [] && a[0] == b[0] { AtMostTotal(a[1..], b[1..]); }
  }

  lemma {:induction false} AtMostAntisymmetric(a: string, b: string)
    requires AtMost(a, b) && AtMost(b, a)
    ensures a == b
  {
    if a != [] && b != [] {
      AtMostAntisymmetric(a[1..], b[1..]);
      assert a == [a[0]] + a[1..] && b == [b[0]] + b[1..];
    }
  }

  lemma {:induction false} AtMostTransitive(a: string, b: string, c: string)
    requires AtMost(a, b) && AtMost(b, c)
    ensures AtMost(a, c)
  {
    if a != [] && a[0] == b[0] == c[0] { AtMostTransitive(a[1..], b[1..], c[1..]); }
  }

  predicate Sorted(s: seq<string>) {
    forall i, j :: 0 <= i < j < |s| ==> AtMost(s[i], s[j])
  }

  function Insert(x: string, s: seq<string>): seq<string> {
    if s == [] || AtMost(x, s[0]) then [x] + s else [s[0]] + Insert(x, s[1..])
  }

  /** What sort.Strings leaves in the slice. */
  function Sort(s: seq<string>): seq<string> {
    if s == [] then [] else Insert(s[0], Sort(s[1..]))
  }

  lemma ConsSorted(x: string, s: seq<string>)
    requires Sorted(s) && forall y :: y in s ==> AtMost(x, y)
    ensures Sorted([x] + s)
  {
  }

  lemma {:induction false} InsertSorts(x: string, s: seq<string>)
    requires Sorted(s)
    ensures Sorted(Insert(x, s)) && multiset(Insert(x, s)) == multiset(s) + multiset{x}
    ensures forall y :: y in Insert(x, s) ==> y == x || y in s
  {
    if s == [] {
    } else if AtMost(x, s[0]) {
      forall y | y in s ensures AtMost(x, y) {
        HeadIsLeast(s, y);
        AtMostTransitive(x, s[0], y);
      }
      ConsSorted(x, s);
    } else {
      assert s == [s[0]] + s[1..];
      InsertSorts(x, s[1..]);
      AtMostTotal(x, s[0]);
      assert forall y :: y in Insert(x, s[1..]) ==> AtMost(s[0], y);
      ConsSorted(s[0], Insert(x, s[1..]));
    }
  }

  /** Sort lists the same strings in ascending order. */
  lemma {:induction false} SortSorts(s: seq<string>)
    ensures Sorted(Sort(s)) && multiset(Sort(s)) == multiset(s)
  {
    if s != [] {
      assert s == [s[0]] + s[1..];
      SortSorts(s[1..]);
      InsertSorts(s[0], Sort(s[1..]));
    }
  }

  lemma HeadIsLeast(s: seq<string>, x: string)
    requires Sorted(s) && x in multiset(s)
    ensures AtMost(s[0], x)
  {
    var i :| 0 <= i < |s| && s[i] == x;
    AtMostTotal(x, x);
  }

  lemma TailMultiset(s: seq<string>)
    requires s != []
    ensures multiset(s[1..]) == multiset(s) - multiset{s[0]}
  {
    assert s == [s[0]] + s[1..];
  }

  lemma SameHead(a: seq<string>, b: seq<string>)
    requires Sorted(a) && Sorted(b) && multiset(a) == multiset(b) && a != [] && b != []
    ensures a[0] == b[0]
  {
    assert a[0] in multiset(a) && b[0] in multiset(b);
    HeadIsLeast(a, b[0]);
    HeadIsLeast(b, a[0]);
    AtMostAntisymmetric(a[0], b[0]);
  }

  /** A multiset has one sorted listing. */
  lemma {:induction false} SortedUnique(a: seq<string>, b: seq<string>)
    requires Sorted(a) && Sorted(b) && multiset(a) == multiset(b)
    ensures a == b
  {
    if a == [] || b == [] {
      assert |multiset(a)| == |multiset(b)|;
    } else {
      SameHead(a, b);
      TailMultiset(a);
      TailMultiset(b);
      SortedUnique(a[1..], b[1..]);
      assert a == [a[0]] + a[1..] && b == [b[0]] + b[1..];
    }
  }
}
