/** The domain check of the admission webhook: its regular expression and the grammar it stands for. */
module Fqdn {

  datatype CharClass = Letter | LetterOrDigit | Only(c: char)

  datatype Regex = Class(class_: CharClass) | Cat(left: Regex, right: Regex) | Star(body: Regex) | Optional(body: Regex)

  predicate IsLetter(c: char) {
    'a' <= c <= 'z' || 'A' <= c <= 'Z'
  }

  predicate IsAlphanumeric(c: char) {
    IsLetter(c) || '0' <= c <= '9'
  }

  predicate InClass(c: char, k: CharClass) {
    match k
    case Letter => IsLetter(c)
    case LetterOrDigit => IsAlphanumeric(c)
    case Only(d) => c == d
  }

  function Join(parts: seq<string>): string {
    if parts == [] then "" else parts[0] + Join(parts[1..])
  }

  predicate IsJoin(parts: seq<string>, s: string) {
    s == Join(parts)
  }

  /** The anchored match of a whole string. */
  ghost predicate Matches(re: Regex, s: string)
    decreases re
  {
    match re
    case Class(k) => |s| == 1 && InClass(s[0], k)
    case Cat(l, r) => exists u, v :: s == u + v && Matches(l, u) && Matches(r, v)
    case Star(b) => exists parts :: IsJoin(parts, s) && forall p | p in parts :: Matches(b, p)
    case Optional(b) => s == "" || Matches(b, s)
  }

  /** The string falls into these parts, each a match. */
  ghost predicate Repeats(re: Regex, parts: seq<string>, s: string) {
    IsJoin(parts, s) && forall p | p in parts :: Matches(re, p)
  }

  function Plus(re: Regex): Regex {
    Cat(re, Star(re))
  }

  function AtLeastTwo(re: Regex): Regex {
    Cat(re, Cat(re, Star(re)))
  }

  const HYPHENATED := Cat(Optional(Class(Only('-'))), Class(LetterOrDigit))
  const LABEL := Cat(Class(LetterOrDigit), Star(HYPHENATED))
  const LABEL_DOT := Cat(LABEL, Class(Only('.')))
  const TOP_LEVEL := AtLeastTwo(Class(Letter))

  /** ^([a-zA-Z0-9](-?[a-zA-Z0-9])*\.)+[a-zA-Z]{2,}$ */
  const PATTERN := Cat(Plus(LABEL_DOT), TOP_LEVEL)

  /* ------------------------------ the grammar ------------------------------ */

  /** The character rules of section 3.5 of RFC 1034 as relaxed by section 2.1 of RFC 1123. */
  predicate IsHostLabel(s: string) {
    && s != "" && s[0] != '-' && s[|s| - 1] != '-'
    && forall i | 0 <= i < |s| :: IsAlphanumeric(s[i]) || s[i] == '-'
  }

  predicate NoDoubledHyphen(s: string) {
    forall i | 0 <= i < |s| - 1 :: !(s[i] == '-' && s[i + 1] == '-')
  }

  predicate IsLabel(s: string) {
    IsHostLabel(s) && NoDoubledHyphen(s)
  }

  predicate IsTopLevel(s: string) {
    |s| >= 2 && forall i | 0 <= i < |s| :: IsLetter(s[i])
  }

  /** Position of the first dot, or the length. */
  function FirstDot(s: string): (k: nat)
    ensures k <= |s| && (k < |s| ==> s[k] == '.') && forall i | 0 <= i < k :: s[i] != '.'
  {
    if s == "" || s[0] == '.' then 0 else 1 + FirstDot(s[1..])
  }

  function Split(s: string): (labels: seq<string>)
    ensures labels != []
    decreases |s|
  {
    var k := FirstDot(s);
    if k == |s| then [s] else [s[..k]] + Split(s[k + 1..])
  }

  /** Labels, all but the last ordinary and the last a top-level domain. */
  predicate EndsInDomain(labels: seq<string>)
    requires labels != []
  {
    IsTopLevel(labels[|labels| - 1]) && forall i | 0 <= i < |labels| - 1 :: IsLabel(labels[i])
  }

  predicate IsFqdn(s: string) {
    |Split(s)| >= 2 && EndsInDomain(Split(s))
  }

  /* ------------------------------ one label ------------------------------ */

  /** What may follow the first character of a label. */
  predicate IsLabelTail(s: string) {
    && (s != "" ==> s[|s| - 1] != '-')
    && (forall i | 0 <= i < |s| :: IsAlphanumeric(s[i]) || s[i] == '-')
    && NoDoubledHyphen(s)
  }

  /** An alphanumeric character, or a hyphen and one. */
  predicate IsStep(s: string) {
    (|s| == 1 && IsAlphanumeric(s[0])) || (|s| == 2 && s[0] == '-' && IsAlphanumeric(s[1]))
  }

  lemma HyphenatedMatches(s: string)
    ensures Matches(HYPHENATED, s) <==> IsStep(s)
  {
    var hyphen, other := Optional(Class(Only('-'))), Class(LetterOrDigit);
    if |s| == 1 && IsAlphanumeric(s[0]) {
      assert s == "" + s && Matches(hyphen, "") && Matches(other, s);
    }
    if |s| == 2 && s[0] == '-' && IsAlphanumeric(s[1]) {
      assert s == s[..1] + s[1..] && Matches(hyphen, s[..1]) && Matches(other, s[1..]);
    }
  }

  lemma {:induction false} StepsJoin(parts: seq<string>)
    requires forall p | p in parts :: IsStep(p)
    ensures IsLabelTail(Join(parts))
  {
    if parts != [] {
      StepsJoin(parts[1..]);
      TailGrows(parts[0], Join(parts[1..]));
    }
  }

  lemma TailGrows(step: string, rest: string)
    requires IsStep(step) && IsLabelTail(rest)
    ensures IsLabelTail(step + rest)
  {
    var s := step + rest;
    forall j | 0 <= j < |s| - 1
      ensures !(s[j] == '-' && s[j + 1] == '-')
    {
      assert j >= |step| ==> s[j] == rest[j - |step|] && s[j + 1] == rest[j + 1 - |step|];
    }
  }

  lemma {:induction false} TailParts(s: string) returns (parts: seq<string>)
    requires IsLabelTail(s)
    ensures s == Join(parts) && forall p | p in parts :: IsStep(p)
    decreases |s|
  {
    if s == "" {
      parts := [];
    } else {
      assert s[0] == '-' ==> |s| >= 2 && s[1] != '-';
      var i := if s[0] == '-' then 2 else 1;
      var rest := TailParts(s[i..]);
      parts := [s[..i]] + rest;
      assert parts[1..] == rest && s == s[..i] + s[i..];
    }
  }

  lemma TailMatches(s: string)
    ensures Matches(Star(HYPHENATED), s) <==> IsLabelTail(s)
  {
    forall p ensures Matches(HYPHENATED, p) <==> IsStep(p) {
      HyphenatedMatches(p);
    }
    StarMeans(HYPHENATED, s);
    if Matches(Star(HYPHENATED), s) {
      var parts :| Repeats(HYPHENATED, parts, s);
      StepsJoin(parts);
    }
    if IsLabelTail(s) {
      var parts := TailParts(s);
      assert Repeats(HYPHENATED, parts, s);
    }
  }

  lemma StarMeans(body: Regex, s: string)
    ensures Matches(Star(body), s) <==> exists parts :: Repeats(body, parts, s)
  {
    if Matches(Star(body), s) {
      var parts :| IsJoin(parts, s) && forall p | p in parts :: Matches(body, p);
      assert Repeats(body, parts, s);
    }
    if parts :| Repeats(body, parts, s) {
      assert IsJoin(parts, s);
    }
  }

  lemma PlusMeans(body: Regex, s: string)
    ensures Matches(Plus(body), s) <==> exists parts :: parts != [] && Repeats(body, parts, s)
  {
    CatMeans(body, Star(body), s);
    if Matches(Plus(body), s) {
      var u, v :| s == u + v && Matches(body, u) && Matches(Star(body), v);
      StarMeans(body, v);
      var more :| Repeats(body, more, v);
      var parts := [u] + more;
      assert parts[1..] == more && Repeats(body, parts, s);
    }
    if parts :| parts != [] && Repeats(body, parts, s) {
      assert Repeats(body, parts[1..], Join(parts[1..]));
      StarMeans(body, Join(parts[1..]));
      assert Matches(body, parts[0]) && Matches(Star(body), Join(parts[1..]));
    }
  }

  lemma CatMeans(left: Regex, right: Regex, s: string)
    ensures Matches(Cat(left, right), s) <==> exists u, v :: s == u + v && Matches(left, u) && Matches(right, v)
  {
  }

  lemma LabelByTail(s: string)
    requires s != ""
    ensures IsLabel(s) <==> IsAlphanumeric(s[0]) && IsLabelTail(s[1..])
  {
    assert s == s[..1] + s[1..];
    if IsAlphanumeric(s[0]) && IsLabelTail(s[1..]) {
      TailGrows(s[..1], s[1..]);
    }
  }

  lemma LabelMatches(s: string)
    ensures Matches(LABEL, s) <==> IsLabel(s)
  {
    var head := Class(LetterOrDigit);
    CatMeans(head, Star(HYPHENATED), s);
    if Matches(LABEL, s) {
      var u, v :| s == u + v && Matches(head, u) && Matches(Star(HYPHENATED), v);
      TailMatches(v);
      assert s[1..] == v;
      LabelByTail(s);
    }
    if IsLabel(s) {
      LabelByTail(s);
      TailMatches(s[1..]);
      assert s == s[..1] + s[1..] && Matches(head, s[..1]);
    }
  }

  /** A label and its dot. */
  predicate IsDotLabel(s: string) {
    s != "" && s[|s| - 1] == '.' && IsLabel(s[..|s| - 1])
  }

  lemma LabelDotMatches(s: string)
    ensures Matches(LABEL_DOT, s) <==> IsDotLabel(s)
  {
    var dot := Class(Only('.'));
    CatMeans(LABEL, dot, s);
    if Matches(LABEL_DOT, s) {
      var u, v :| s == u + v && Matches(LABEL, u) && Matches(dot, v);
      LabelMatches(u);
      assert s[..|s| - 1] == u;
    }
    if IsDotLabel(s) {
      var u := s[..|s| - 1];
      LabelMatches(u);
      assert s == u + "." && Matches(dot, ".");
    }
  }

  /* ------------------------------ the last label ------------------------------ */

  predicate AllLetters(s: string) {
    forall i | 0 <= i < |s| :: IsLetter(s[i])
  }

  lemma {:induction false} LettersJoin(parts: seq<string>)
    requires forall p | p in parts :: Matches(Class(Letter), p)
    ensures AllLetters(Join(parts))
  {
    if parts != [] {
      LettersJoin(parts[1..]);
      assert Matches(Class(Letter), parts[0]);
    }
  }

  lemma {:induction false} LetterParts(s: string) returns (parts: seq<string>)
    requires AllLetters(s)
    ensures s == Join(parts) && forall p | p in parts :: Matches(Class(Letter), p)
  {
    if s == "" {
      parts := [];
    } else {
      var rest := LetterParts(s[1..]);
      parts := [s[..1]] + rest;
      assert parts[1..] == rest && s == s[..1] + s[1..];
    }
  }

  lemma LettersMatch(s: string)
    ensures Matches(Star(Class(Letter)), s) <==> AllLetters(s)
  {
    StarMeans(Class(Letter), s);
    if Matches(Star(Class(Letter)), s) {
      var parts :| Repeats(Class(Letter), parts, s);
      LettersJoin(parts);
    }
    if AllLetters(s) {
      var parts := LetterParts(s);
      assert Repeats(Class(Letter), parts, s);
    }
  }

  lemma LetterThen(rest: Regex, s: string)
    ensures Matches(Cat(Class(Letter), rest), s) <==> s != "" && IsLetter(s[0]) && Matches(rest, s[1..])
  {
    CatMeans(Class(Letter), rest, s);
    if Matches(Cat(Class(Letter), rest), s) {
      var u, v :| s == u + v && Matches(Class(Letter), u) && Matches(rest, v);
      assert v == s[1..];
    }
    if s != "" && IsLetter(s[0]) && Matches(rest, s[1..]) {
      assert s == s[..1] + s[1..] && Matches(Class(Letter), s[..1]);
    }
  }

  lemma TopLevelMatches(s: string)
    ensures Matches(TOP_LEVEL, s) <==> IsTopLevel(s)
  {
    var letters := Star(Class(Letter));
    LetterThen(Cat(Class(Letter), letters), s);
    if |s| >= 1 {
      LetterThen(letters, s[1..]);
    }
    if |s| >= 2 {
      assert s[1..][1..] == s[2..];
      LettersMatch(s[2..]);
      assert s == s[..2] + s[2..];
    }
  }

  /* ------------------------------ all labels ------------------------------ */

  lemma DotSplits(head: string, rest: string)
    requires '.' !in head
    ensures Split(head + "." + rest) == [head] + Split(rest)
  {
    var s, k := head + "." + rest, |head|;
    assert s[..k] == head && s[k + 1..] == rest;
    forall i | 0 <= i < k ensures s[i] != '.' {
      assert s[i] == head[i];
    }
    assert s[k] == '.';
  }

  lemma DotLabelSplits(head: string, rest: string)
    requires IsDotLabel(head)
    ensures Split(head + rest) == [head[..|head| - 1]] + Split(rest)
  {
    var bare := head[..|head| - 1];
    assert head == bare + ".";
    DotSplits(bare, rest);
  }

  lemma TopLevelDoesNotSplit(s: string)
    requires IsTopLevel(s)
    ensures Split(s) == [s]
  {
    assert FirstDot(s) == |s|;
  }

  lemma OneLabelMore(head: string, labels: seq<string>)
    requires labels != []
    ensures EndsInDomain([head] + labels) <==> IsLabel(head) && EndsInDomain(labels)
  {
    var all := [head] + labels;
    if EndsInDomain(all) {
      assert IsLabel(all[0]);
      forall i | 0 <= i < |labels| - 1 ensures IsLabel(labels[i]) {
        assert labels[i] == all[i + 1];
      }
    }
  }

  lemma DotLabelGrows(head: string, rest: string)
    requires IsDotLabel(head) && EndsInDomain(Split(rest))
    ensures EndsInDomain(Split(head + rest)) && |Split(head + rest)| == |Split(rest)| + 1
  {
    DotLabelSplits(head, rest);
    OneLabelMore(head[..|head| - 1], Split(rest));
  }

  lemma {:induction false} PartsSplit(parts: seq<string>, last: string)
    requires (forall p | p in parts :: IsDotLabel(p)) && IsTopLevel(last)
    ensures EndsInDomain(Split(Join(parts) + last)) && |Split(Join(parts) + last)| == |parts| + 1
  {
    if parts == [] {
      assert Join(parts) + last == last;
      TopLevelDoesNotSplit(last);
    } else {
      PartsSplit(parts[1..], last);
      DotLabelGrows(parts[0], Join(parts[1..]) + last);
      Regroup(parts[0], Join(parts[1..]), last);
    }
  }

  lemma Regroup(a: string, b: string, c: string)
    ensures (a + b) + c == a + (b + c)
  {
  }

  lemma {:induction false} SplitParts(s: string) returns (parts: seq<string>, last: string)
    requires EndsInDomain(Split(s))
    ensures s == Join(parts) + last && (forall p | p in parts :: IsDotLabel(p)) && IsTopLevel(last)
    ensures |Split(s)| == |parts| + 1
    decreases |s|
  {
    var k := FirstDot(s);
    if k == |s| {
      parts, last := [], s;
    } else {
      var head, rest := s[..k + 1], s[k + 1..];
      assert head[..k] == s[..k];
      OneLabelMore(s[..k], Split(rest));
      var more;
      more, last := SplitParts(rest);
      parts := [head] + more;
      assert parts[1..] == more && s == head + rest;
      Regroup(head, Join(more), last);
    }
  }

  /** Labels with their dots, then a top-level domain, are the grammar's domains. */
  lemma DomainsSplit(s: string)
    ensures IsFqdn(s) <==> exists parts, last :: IsDotted(parts, last, s)
  {
    if IsFqdn(s) {
      var parts, last := SplitParts(s);
      assert IsDotted(parts, last, s);
    }
    if parts, last :| IsDotted(parts, last, s) {
      PartsSplit(parts, last);
    }
  }

  ghost predicate IsDotted(parts: seq<string>, last: string, s: string) {
    parts != [] && s == Join(parts) + last && (forall p | p in parts :: IsDotLabel(p)) && IsTopLevel(last)
  }

  lemma DottedMatches(one: Regex, top: Regex, s: string)
    requires forall p :: Matches(one, p) <==> IsDotLabel(p)
    requires forall p :: Matches(top, p) <==> IsTopLevel(p)
    ensures Matches(Cat(Plus(one), top), s) <==> exists parts, last :: IsDotted(parts, last, s)
  {
    CatMeans(Plus(one), top, s);
    if Matches(Cat(Plus(one), top), s) {
      var u, v :| s == u + v && Matches(Plus(one), u) && Matches(top, v);
      PlusMeans(one, u);
      var parts :| parts != [] && Repeats(one, parts, u);
      assert IsDotted(parts, v, s);
    }
    if parts, last :| IsDotted(parts, last, s) {
      PlusMeans(one, Join(parts));
      assert Repeats(one, parts, Join(parts)) && Matches(top, last);
    }
  }

  /** The pattern and the grammar accept the same strings. */
  lemma PatternIsGrammar(s: string)
    ensures Matches(PATTERN, s) <==> IsFqdn(s)
  {
    forall p ensures Matches(LABEL_DOT, p) <==> IsDotLabel(p) {
      LabelDotMatches(p);
    }
    forall p ensures Matches(TOP_LEVEL, p) <==> IsTopLevel(p) {
      TopLevelMatches(p);
    }
    DottedMatches(LABEL_DOT, TOP_LEVEL, s);
    DomainsSplit(s);
  }

  lemma DomainLabels(labels: seq<string>)
    requires labels != [] && EndsInDomain(labels)
    ensures forall l | l in labels :: IsHostLabel(l)
  {
    assert IsHostLabel(labels[|labels| - 1]);
  }

  /** Every label of an accepted domain obeys the host name rules. */
  lemma AcceptedLabelsAreHostLabels(s: string)
    ensures Matches(PATTERN, s) ==> forall l | l in Split(s) :: IsHostLabel(l)
  {
    PatternIsGrammar(s);
    if Matches(PATTERN, s) {
      DomainLabels(Split(s));
    }
  }

  /**
   * The converse fails in three ways.  A name whose labels all obey the host name rules is
   * accepted iff it has two labels or more, its last one is a top-level domain of letters, and
   * none of the others has a doubled hyphen, as encoded names have.
   */
  lemma HostNameAcceptedIff(s: string)
    requires forall l | l in Split(s) :: IsHostLabel(l)
    ensures Matches(PATTERN, s) <==>
              var labels, n := Split(s), |Split(s)|;
              n >= 2 && IsTopLevel(labels[n - 1]) && forall i | 0 <= i < n - 1 :: NoDoubledHyphen(labels[i])
  {
    PatternIsGrammar(s);
    HostNameIsFqdnIff(s);
  }

  lemma HostNameIsFqdnIff(s: string)
    requires forall l | l in Split(s) :: IsHostLabel(l)
    ensures IsFqdn(s) <==>
              var labels, n := Split(s), |Split(s)|;
              n >= 2 && IsTopLevel(labels[n - 1]) && forall i | 0 <= i < n - 1 :: NoDoubledHyphen(labels[i])
  {
    HostLabelsEndInDomain(Split(s));
  }

  lemma HostLabelsEndInDomain(labels: seq<string>)
    requires labels != [] && forall l | l in labels :: IsHostLabel(l)
    ensures EndsInDomain(labels) <==>
              IsTopLevel(labels[|labels| - 1]) && forall i | 0 <= i < |labels| - 1 :: NoDoubledHyphen(labels[i])
  {
    assert forall i | 0 <= i < |labels| :: IsHostLabel(labels[i]);
  }

  /** So a single label is always refused. */
  lemma SingleLabelRefused(s: string)
    requires '.' !in s
    ensures Split(s) == [s] && !Matches(PATTERN, s)
  {
    assert FirstDot(s) == |s|;
    PatternIsGrammar(s);
  }

  /** Of two labels, "a.b" is refused for its last one, "x--y.org" for its first. */
  lemma TwoLabels(head: string, last: string)
    requires '.' !in head && '.' !in last
    ensures Split(head + "." + last) == [head, last]
    ensures Matches(PATTERN, head + "." + last) <==> IsLabel(head) && IsTopLevel(last)
  {
    assert FirstDot(last) == |last|;
    DotSplits(head, last);
    PatternIsGrammar(head + "." + last);
    assert [head, last][0] == head && [head, last][1] == last;
  }
}
