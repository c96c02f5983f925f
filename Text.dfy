/**
 * Character and string helpers shared by the command parsers:
 * lower-casing as the C library's `tolower` does it in the "C" locale,
 * splitting on whitespace as repeated `>>` on a `std::istringstream` does,
 * the ordering `std::map<std::string, _>` iterates in, and joining words
 * with single spaces.
 */
module Text {

  // ---------------------------------------------------------------------
  // Lower-casing
  // ---------------------------------------------------------------------

  predicate IsUpper(c: char) {
    'A' <= c <= 'Z'
  }

  /** `tolower` in the "C" locale: only the ASCII capitals change. */
  function LowerChar(c: char): char {
    if IsUpper(c) then (c as int + 32) as char else c
  }

  /** `makeLowercase`: `std::transform` with `tolower` over every character. */
  function Lower(s: string): string {
    seq(|s|, i requires 0 <= i < |s| => LowerChar(s[i]))
  }

  predicate HasNoUpper(s: string) {
    forall i :: 0 <= i < |s| ==> !IsUpper(s[i])
  }

  /** Lower-casing keeps the length, leaves no capital behind and changes nothing a second time. */
  lemma LowerProperties(s: string)
    ensures |Lower(s)| == |s|
    ensures HasNoUpper(Lower(s))
    ensures Lower(Lower(s)) == Lower(s)
  {
  }

  /** A string without capitals is its own lower-case form. */
  lemma LowerFixesLowercase(s: string)
    requires HasNoUpper(s)
    ensures Lower(s) == s
  {
  }

  function LowerAll(ws: seq<string>): seq<string> {
    seq(|ws|, i requires 0 <= i < |ws| => Lower(ws[i]))
  }

  /** Lower-casing commutes with appending one character. */
  lemma LowerSnoc(s: string, c: char)
    ensures Lower(s + [c]) == Lower(s) + [LowerChar(c)]
  {
  }

  lemma LowerAllSnoc(ws: seq<string>, w: string)
    ensures LowerAll(ws + [w]) == LowerAll(ws) + [Lower(w)]
  {
  }

  /** Lower-casing a list of words a second time changes nothing. */
  lemma LowerAllTwice(ws: seq<string>)
    ensures LowerAll(LowerAll(ws)) == LowerAll(ws)
  {
    forall k | 0 <= k < |ws|
      ensures Lower(Lower(ws[k])) == Lower(ws[k])
    {
      LowerProperties(ws[k]);
    }
  }

  // ---------------------------------------------------------------------
  // Splitting on whitespace
  // ---------------------------------------------------------------------

  /** `isspace` in the "C" locale: blank, tab, newline, vertical tab, form feed, carriage return. */
  predicate IsSpace(c: char) {
    c == ' ' || '\t' <= c <= '\r'
  }

  predicate NoSpace(w: string) {
    forall i :: 0 <= i < |w| ==> !IsSpace(w[i])
  }

  /** A word as extraction produces it: at least one character and no whitespace. */
  predicate IsWord(w: string) {
    w != [] && NoSpace(w)
  }

  /** Progress of a left-to-right scan: the words finished so far and the word being read. */
  datatype Scan = Scan(done: seq<string>, current: string)

  const Start := Scan([], [])

  function ScanStep(st: Scan, c: char): Scan {
    if !IsSpace(c) then Scan(st.done, st.current + [c])
    else if st.current == [] then st
    else Scan(st.done + [st.current], [])
  }

  function ScanFrom(st: Scan, s: string): Scan
    decreases |s|
  {
    if s == [] then st else ScanStep(ScanFrom(st, s[..|s| - 1]), s[|s| - 1])
  }

  function Flush(st: Scan): seq<string> {
    if st.current == [] then st.done else st.done + [st.current]
  }

  /** The words of `s` in order, as repeated `>>` on a `std::istringstream` extracts them. */
  function Tokens(s: string): seq<string> {
    Flush(ScanFrom(Start, s))
  }

  predicate WellScanned(st: Scan) {
    (forall k :: 0 <= k < |st.done| ==> IsWord(st.done[k])) && NoSpace(st.current)
  }

  lemma {:induction false} ScanKeepsWords(s: string)
    ensures WellScanned(ScanFrom(Start, s))
  {
    if s != [] {
      ScanKeepsWords(s[..|s| - 1]);
    }
  }

  /** Every token is a non-empty run of non-whitespace characters. */
  lemma TokensAreWords(s: string)
    ensures forall k :: 0 <= k < |Tokens(s)| ==> IsWord(Tokens(s)[k])
  {
    ScanKeepsWords(s);
  }

  lemma {:induction false} ScanFromAppend(st: Scan, a: string, b: string)
    ensures ScanFrom(st, a + b) == ScanFrom(ScanFrom(st, a), b)
    decreases |b|
  {
    if b == [] {
      assert a + b == a;
    } else {
      assert (a + b)[..|a + b| - 1] == a + b[..|b| - 1];
      ScanFromAppend(st, a, b[..|b| - 1]);
    }
  }

  /** Scanning after a finished word is scanning from the start with the earlier words prepended. */
  lemma {:induction false} ScanShift(d: seq<string>, s: string)
    ensures ScanFrom(Scan(d, []), s).done == d + ScanFrom(Start, s).done
    ensures ScanFrom(Scan(d, []), s).current == ScanFrom(Start, s).current
    decreases |s|
  {
    if s != [] {
      ScanShift(d, s[..|s| - 1]);
      var p := ScanFrom(Start, s[..|s| - 1]);
      if IsSpace(s[|s| - 1]) && p.current != [] {
        assert d + (p.done + [p.current]) == (d + p.done) + [p.current];
      }
    }
  }

  /** A whitespace character separates: the tokens of `a c b` are those of `a` followed by those of `b`. */
  lemma TokensSplit(a: string, c: char, b: string)
    requires IsSpace(c)
    ensures Tokens(a + [c] + b) == Tokens(a) + Tokens(b)
  {
    ScanFromAppend(Start, a + [c], b);
    assert (a + [c])[..|a + [c]| - 1] == a;
    var mid := ScanFrom(Start, a + [c]);
    assert mid.current == [] && mid.done == Tokens(a);
    ScanShift(Tokens(a), b);
    var q := ScanFrom(Start, b);
    if q.current != [] {
      assert Tokens(a) + q.done + [q.current] == Tokens(a) + (q.done + [q.current]);
    }
  }

  lemma {:induction false} ScanWord(w: string)
    requires NoSpace(w)
    ensures ScanFrom(Start, w) == Scan([], w)
    decreases |w|
  {
    if w != [] {
      var init, c := w[..|w| - 1], w[|w| - 1];
      assert NoSpace(init) by {
        forall i | 0 <= i < |init|
          ensures !IsSpace(init[i])
        {
          assert init[i] == w[i];
        }
      }
      ScanWord(init);
      assert !IsSpace(c);
      assert init + [c] == w;
    }
  }

  /** A single word is its own only token. */
  lemma TokensOfWord(w: string)
    requires IsWord(w)
    ensures Tokens(w) == [w]
  {
    ScanWord(w);
  }

  function LowerScan(st: Scan): Scan {
    Scan(LowerAll(st.done), Lower(st.current))
  }

  lemma {:induction false} ScanFromLower(s: string)
    ensures ScanFrom(Start, Lower(s)) == LowerScan(ScanFrom(Start, s))
    decreases |s|
  {
    if s == [] {
      assert Lower(s) == [];
    } else {
      var init, c := s[..|s| - 1], s[|s| - 1];
      ScanFromLower(init);
      assert Lower(s)[..|s| - 1] == Lower(init);
      var p := ScanFrom(Start, init);
      LowerSnoc(p.current, c);
      LowerAllSnoc(p.done, p.current);
    }
  }

  /** Splitting commutes with lower-casing: the words of the lower-cased line are the lower-cased words. */
  lemma TokensOfLower(s: string)
    ensures Tokens(Lower(s)) == LowerAll(Tokens(s))
  {
    ScanFromLower(s);
    var p := ScanFrom(Start, s);
    LowerAllSnoc(p.done, p.current);
  }

  /** `s.rfind(prefix, 0) == 0`: `s` begins with `prefix`. */
  predicate StartsWith(s: string, prefix: string) {
    |prefix| <= |s| && s[..|prefix|] == prefix
  }

  // ---------------------------------------------------------------------
  // Joining with single spaces
  // ---------------------------------------------------------------------

  /** The words separated by single spaces, as the command handlers build their target. */
  function Join(ws: seq<string>): string
    decreases |ws|
  {
    if |ws| == 0 then ""
    else if |ws| == 1 then ws[0]
    else Join(ws[..|ws| - 1]) + " " + ws[|ws| - 1]
  }

  /** Joining lower-case words with spaces gives a lower-case string. */
  lemma {:induction false} JoinHasNoUpper(ws: seq<string>)
    requires forall k :: 0 <= k < |ws| ==> HasNoUpper(ws[k])
    ensures HasNoUpper(Join(ws))
    decreases |ws|
  {
    if |ws| > 1 {
      JoinHasNoUpper(ws[..|ws| - 1]);
    }
  }

  /** Splitting undoes joining: the tokens of the joined words are the words themselves. */
  lemma {:induction false} TokensOfJoin(ws: seq<string>)
    requires forall k :: 0 <= k < |ws| ==> IsWord(ws[k])
    ensures Tokens(Join(ws)) == ws
    decreases |ws|
  {
    if |ws| == 0 {
      assert Tokens("") == [];
    } else if |ws| == 1 {
      TokensOfWord(ws[0]);
    } else {
      var init, last := ws[..|ws| - 1], ws[|ws| - 1];
      TokensOfJoin(init);
      TokensSplit(Join(init), ' ', last);
      TokensOfWord(last);
      assert Join(ws) == Join(init) + [' '] + last;
      assert init + [last] == ws;
    }
  }

  // ---------------------------------------------------------------------
  // The order of std::string keys in a std::map
  // ---------------------------------------------------------------------

  /** `std::string`'s `<`: lexicographic by character, a proper prefix first. */
  predicate Less(a: string, b: string)
    decreases |a|
  {
    if a == [] then b != []
    else b != [] && (a[0] < b[0] || (a[0] == b[0] && Less(a[1..], b[1..])))
  }

  lemma {:induction false} LessIrreflexive(a: string)
    ensures !Less(a, a)
    decreases |a|
  {
    if a != [] {
      LessIrreflexive(a[1..]);
    }
  }

  lemma {:induction false} LessTransitive(a: string, b: string, c: string)
    requires Less(a, b) && Less(b, c)
    ensures Less(a, c)
    decreases |a|
  {
    if a != [] && a[0] == b[0] && b[0] == c[0] {
      LessTransitive(a[1..], b[1..], c[1..]);
    }
  }

  lemma {:induction false} LessTotal(a: string, b: string)
    requires a != b
    ensures Less(a, b) || Less(b, a)
    decreases |a|
  {
    if a != [] && b != [] && a[0] == b[0] {
      assert a == [a[0]] + a[1..] && b == [b[0]] + b[1..];
      LessTotal(a[1..], b[1..]);
    }
  }

  /** Every non-empty set of strings has a least element. */
  lemma {:induction false} LeastExists(s: set<string>) returns (m: string)
    requires s != {}
    ensures m in s && forall y :: y in s && y != m ==> Less(m, y)
    decreases |s|
  {
    var x :| x in s;
    if s == {x} {
      m := x;
    } else {
      var m' := LeastExists(s - {x});
      if Less(x, m') {
        m := x;
        forall y | y in s && y != x
          ensures Less(x, y)
        {
          if y != m' {
            LessTransitive(x, m', y);
          }
        }
      } else {
        LessTotal(x, m');
        m := m';
      }
    }
  }

  lemma {:induction false} LessAsymmetric(a: string, b: string)
    requires Less(a, b)
    ensures !Less(b, a)
    decreases |a|
  {
    if a != [] && a[0] == b[0] {
      LessAsymmetric(a[1..], b[1..]);
    }
  }

  predicate StrictlySorted(ks: seq<string>) {
    forall i, j :: 0 <= i < j < |ks| ==> Less(ks[i], ks[j])
  }

  /**
   * The keys of a `std::map<std::string, _>` in the order a range-for visits them:
   * every key exactly once, ascending.
   */
  method OrderedKeys<V>(m: map<string, V>) returns (keys: seq<string>)
    ensures forall k :: k in keys <==> k in m
    ensures StrictlySorted(keys)
  {
    keys := [];
    var rest := m.Keys;
    while rest != {}
      invariant forall k :: k in m <==> k in keys || k in rest
      invariant StrictlySorted(keys)
      invariant forall i, y :: 0 <= i < |keys| && y in rest ==> Less(keys[i], y)
      decreases rest
    {
      ghost var least := LeastExists(rest);
      var k :| k in rest && forall y :: y in rest && y != k ==> Less(k, y);
      keys := keys + [k];
      rest := rest - {k};
    }
  }

  /** Strictly sorted keys hold no key twice. */
  lemma SortedHasNoDuplicates(ks: seq<string>)
    requires StrictlySorted(ks)
    ensures forall i, j :: 0 <= i < j < |ks| ==> ks[i] != ks[j]
  {
    forall i, j | 0 <= i < j < |ks|
      ensures ks[i] != ks[j]
    {
      LessIrreflexive(ks[i]);
    }
  }

  /** In strictly sorted keys, nothing at or after position `i` is below `ks[i]`. */
  lemma SortedBelow(ks: seq<string>, i: nat, j: nat)
    requires StrictlySorted(ks) && i <= j < |ks|
    ensures !Less(ks[j], ks[i])
  {
    if i == j {
      LessIrreflexive(ks[i]);
    } else {
      LessAsymmetric(ks[i], ks[j]);
    }
  }
}
