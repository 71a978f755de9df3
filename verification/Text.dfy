/** Text normalisation, for ASCII: what trimming and folding the case of a text come to. */
module Text {
  predicate IsSpace(c: char) { c == ' ' || '\t' <= c <= '\r' }

  function Trim(s: string): string
    decreases |s|
  {
    if s == "" then s
    else if IsSpace(s[0]) then Trim(s[1..])
    else if IsSpace(s[|s| - 1]) then Trim(s[..|s| - 1])
    else s
  }

  function Upper(s: string): string {
    seq(|s|, i requires 0 <= i < |s| =>
      if 'a' <= s[i] <= 'z' then (s[i] as int - 32) as char else s[i])
  }

  function Lower(s: string): string {
    seq(|s|, i requires 0 <= i < |s| =>
      if 'A' <= s[i] <= 'Z' then (s[i] as int + 32) as char else s[i])
  }

  function Normal(s: string): string { Upper(Trim(s)) }

  // ----- what trimming and folding come to -------------------------------------

  /** Space, tab, line feed, vertical tab, form feed and carriage return. */
  predicate White(c: char) { c as int in {32, 9, 10, 11, 12, 13} }

  /** Between i and j lies what trimming leaves. */
  ghost predicate Core(s: string, i: nat, j: nat)
    requires i <= j <= |s|
  {
    (forall k :: 0 <= k < i ==> White(s[k])) && (forall k :: j <= k < |s| ==> White(s[k]))
    && (i == j || (!White(s[i]) && !White(s[j - 1])))
  }

  /** The text is s without the white space at its two ends. */
  ghost predicate IsTrimmed(s: string, text: string) {
    exists i: nat, j: nat :: i <= j <= |s| && Core(s, i, j) && text == s[i..j]
  }

  lemma NoCore()
    ensures Core("", 0, 0) && ""[0..0] == ""
  {
  }

  lemma WholeCore(s: string)
    requires s != "" && !White(s[0]) && !White(s[|s| - 1])
    ensures Core(s, 0, |s|) && s[0..|s|] == s
  {
  }

  lemma CoreOfRest(s: string, i: nat, j: nat)
    requires i <= j < |s| && White(s[0]) && Core(s[1..], i, j)
    ensures Core(s, i + 1, j + 1) && s[i + 1..j + 1] == s[1..][i..j]
  {
    assert forall k :: 0 < k < |s| ==> s[k] == s[1..][k - 1];
  }

  lemma CoreOfFront(s: string, i: nat, j: nat)
    requires i <= j < |s| && White(s[|s| - 1]) && Core(s[..|s| - 1], i, j)
    ensures Core(s, i, j) && s[i..j] == s[..|s| - 1][i..j]
  {
  }

  lemma {:induction false} TrimKeepsCore(s: string)
    ensures IsTrimmed(s, Trim(s))
    decreases |s|
  {
    hide Core;
    if s == "" {
      NoCore();
    } else if IsSpace(s[0]) {
      TrimKeepsCore(s[1..]);
      var i: nat, j: nat :| i <= j < |s| && Core(s[1..], i, j) && Trim(s[1..]) == s[1..][i..j];
      CoreOfRest(s, i, j);
    } else if IsSpace(s[|s| - 1]) {
      TrimKeepsCore(s[..|s| - 1]);
      var i: nat, j: nat :| i <= j < |s| && Core(s[..|s| - 1], i, j) && Trim(s[..|s| - 1]) == s[..|s| - 1][i..j];
      CoreOfFront(s, i, j);
    } else {
      WholeCore(s);
    }
  }

  lemma CoresAgree(s: string, a: string, b: string)
    requires IsTrimmed(s, a) && IsTrimmed(s, b)
    ensures a == b
  {
    var i: nat, j: nat :| i <= j <= |s| && Core(s, i, j) && a == s[i..j];
    var p: nat, q: nat :| p <= q <= |s| && Core(s, p, q) && b == s[p..q];
    if i < j && p < q {
      assert i == p && j - 1 == q - 1;
    }
  }

  /** Trimming removes exactly the white space at both ends. */
  lemma TrimMeans(s: string, text: string)
    ensures Trim(s) == text <==> IsTrimmed(s, text)
    ensures Trim(s) == "" <==> forall k :: 0 <= k < |s| ==> White(s[k])
  {
    TrimKeepsCore(s);
    if IsTrimmed(s, text) {
      CoresAgree(s, Trim(s), text);
    }
    var i: nat, j: nat :| i <= j <= |s| && Core(s, i, j) && Trim(s) == s[i..j];
  }

  predicate LowerCase(c: char) { 97 <= c as int <= 122 }

  predicate UpperCase(c: char) { 65 <= c as int <= 90 }

  /** The same letter in small and in capital form. */
  predicate Capital(small: char, capital: char) {
    LowerCase(small) && UpperCase(capital) && small as int - capital as int == 32
  }

  /** The text is s without outer white space and with small letters made capitals. */
  ghost predicate IsNormal(s: string, text: string) {
    exists t :: IsTrimmed(s, t) && |t| == |text|
      && forall k :: 0 <= k < |t| ==> !LowerCase(text[k]) && (text[k] == t[k] || Capital(t[k], text[k]))
  }

  /** Normalising trims and capitalises, and changes nothing else. */
  lemma NormalMeans(s: string, text: string)
    ensures Normal(s) == text <==> IsNormal(s, text)
  {
    TrimKeepsCore(s);
    if Normal(s) == text {
      assert IsTrimmed(s, Trim(s)) && |Trim(s)| == |text|;
    }
    if IsNormal(s, text) {
      var t :| IsTrimmed(s, t) && |t| == |text|
        && forall k :: 0 <= k < |t| ==> !LowerCase(text[k]) && (text[k] == t[k] || Capital(t[k], text[k]));
      CoresAgree(s, t, Trim(s));
      assert Normal(s) == text;
    }
  }

  /** The text, outer white space and the case of letters apart, is the given word. */
  ghost predicate Spells(s: string, word: string) {
    exists t :: IsTrimmed(s, t) && |t| == |word|
      && forall k :: 0 <= k < |t| ==> t[k] == word[k] || Capital(word[k], t[k])
  }

  lemma LowerMeans(s: string, word: string)
    requires forall k :: 0 <= k < |word| ==> !UpperCase(word[k])
    ensures Lower(Trim(s)) == word <==> Spells(s, word)
  {
    TrimKeepsCore(s);
    if Lower(Trim(s)) == word {
      assert IsTrimmed(s, Trim(s)) && |Trim(s)| == |word|;
    }
    if Spells(s, word) {
      var t :| IsTrimmed(s, t) && |t| == |word|
        && forall k :: 0 <= k < |t| ==> t[k] == word[k] || Capital(word[k], t[k]);
      CoresAgree(s, t, Trim(s));
      assert Lower(Trim(s)) == word;
    }
  }
}
