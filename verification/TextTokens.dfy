/** Splitting text into words: what repeated `fscanf("%s")` calls and a `strtok_r` loop read, for a given notion of
    separator. */
module TextTokens {
  // isspace in the C locale.
  predicate Space(c: char) {
    c == ' ' || c == '\t' || c == '\n' || c == '\U{B}' || c == '\U{C}' || c == '\r'
  }

  predicate Blank(c: char) { c == ' ' }

  // The codes of white space: tab, the four line and page breaks, blank.
  lemma SpaceCodes(c: char)
    ensures Space(c) <==> c as int in {9, 10, 11, 12, 13, 32}
  {
  }

  predicate IsWord(w: string, sep: char -> bool) {
    w != [] && forall i :: 0 <= i < |w| ==> !sep(w[i])
  }

  // The length of the word that s starts with.
  function WordLength(s: string, sep: char -> bool): (n: nat)
    ensures n <= |s| && (forall i :: 0 <= i < n ==> !sep(s[i])) && (n < |s| ==> sep(s[n]))
  {
    if s == [] || sep(s[0]) then 0 else 1 + WordLength(s[1..], sep)
  }

  function Tokens(s: string, sep: char -> bool): seq<string>
    decreases |s|
  {
    if s == [] then []
    else if sep(s[0]) then Tokens(s[1..], sep)
    else [s[..WordLength(s, sep)]] + Tokens(s[WordLength(s, sep)..], sep)
  }

  lemma {:induction false} TokensAreWords(s: string, sep: char -> bool)
    ensures forall i :: 0 <= i < |Tokens(s, sep)| ==> IsWord(Tokens(s, sep)[i], sep)
    decreases |s|
  {
    if s != [] {
      TokensAreWords(s[if sep(s[0]) then 1 else WordLength(s, sep)..], sep);
    }
  }

  lemma WordThen(w: string, rest: string, sep: char -> bool)
    requires IsWord(w, sep) && (rest == [] || sep(rest[0]))
    ensures Tokens(w + rest, sep) == [w] + Tokens(rest, sep)
  {
    var s := w + rest;
    var n := WordLength(s, sep);
    assert forall i :: 0 <= i < |w| ==> s[i] == w[i];
    assert rest != [] ==> s[|w|] == rest[0];
    assert n == |w|;
    assert s[..n] == w && s[n..] == rest;
  }

  lemma WordThenSep(w: string, c: char, rest: string, sep: char -> bool)
    requires IsWord(w, sep) && sep(c)
    ensures Tokens(w + [c] + rest, sep) == [w] + Tokens(rest, sep)
  {
    WordThen(w, [c] + rest, sep);
    assert w + [c] + rest == w + ([c] + rest) && ([c] + rest)[1..] == rest;
  }

  // Text that ends with a separator can be continued without touching its words.
  lemma {:induction false} TokensConcat(a: string, b: string, sep: char -> bool)
    requires a == [] || sep(a[|a| - 1])
    ensures Tokens(a + b, sep) == Tokens(a, sep) + Tokens(b, sep)
    decreases |a|
  {
    if a == [] {
      assert a + b == b;
    } else if sep(a[0]) {
      assert (a + b)[1..] == a[1..] + b;
      TokensConcat(a[1..], b, sep);
    } else {
      var n := WordLength(a, sep);
      assert n < |a|;
      assert a == a[..n] + a[n..] && a + b == a[..n] + (a[n..] + b);
      WordThen(a[..n], a[n..] + b, sep);
      TokensConcat(a[n..], b, sep);
    }
  }

  lemma {:induction false} SomeToken(s: string, i: nat, sep: char -> bool)
    requires i < |s| && !sep(s[i])
    ensures Tokens(s, sep) != []
    decreases |s|
  {
    if sep(s[0]) { SomeToken(s[1..], i - 1, sep); }
  }

  lemma WordAlone(w: string, sep: char -> bool)
    requires IsWord(w, sep)
    ensures Tokens(w, sep) == [w]
  {
    WordThen(w, [], sep);
    assert w + [] == w;
  }

  lemma {:induction false} TrailingSep(a: string, c: char, sep: char -> bool)
    requires sep(c)
    ensures Tokens(a + [c], sep) == Tokens(a, sep)
    decreases |a|
  {
    if a == [] {
      assert (a + [c])[1..] == [];
    } else if sep(a[0]) {
      assert (a + [c])[1..] == a[1..] + [c];
      TrailingSep(a[1..], c, sep);
    } else {
      var n := WordLength(a, sep);
      assert a + [c] == a[..n] + (a[n..] + [c]) && a == a[..n] + a[n..];
      WordThen(a[..n], a[n..] + [c], sep);
      TrailingSep(a[n..], c, sep);
    }
  }

  // A separator between two texts keeps their words apart, whatever they are.
  lemma TokensAround(a: string, c: char, b: string, sep: char -> bool)
    requires sep(c)
    ensures Tokens(a + ([c] + b), sep) == Tokens(a, sep) + Tokens(b, sep)
  {
    assert a + ([c] + b) == (a + [c]) + b;
    TokensConcat(a + [c], b, sep);
    TrailingSep(a, c, sep);
  }
}
