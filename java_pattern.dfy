/**
 * The fragment of `java.util.regex` that `Pattern.matches` needs for the accessibility
 * check: literal characters, `.` (any character but a line terminator), the anchors `^`
 * and `$` without MULTILINE, and non-capturing groups whose alternatives are single
 * atoms, such as `(?:^|:)`. `Pattern.matches` succeeds only when the whole input matches.
 */
module JavaPattern {
  /** The characters Java treats as line terminators when DOTALL and UNIX_LINES are off. */
  predicate LineTerminator(c: char) {
    c == '\n' || c == '\r' || c == '\U{85}' || c == '\U{2028}' || c == '\U{2029}'
  }

  datatype Atom = Lit(c: char) | Dot | Caret | Dollar

  datatype Node = Single(atom: Atom) | Group(alternatives: seq<Atom>)

  /** How many characters an atom consumes. */
  function Width(a: Atom): nat {
    if a.Lit? || a.Dot? then 1 else 0
  }

  /** `^` matches only at the start of the input. */
  predicate CaretAt(s: string, i: nat) {
    i == 0
  }

  /**
   * `$` matches at the end of the input, before a final `\r\n`, and before a final line
   * terminator other than the `\n` of a `\r\n`.
   */
  predicate DollarAt(s: string, i: nat) {
    || i == |s|
    || (i + 2 == |s| && s[i] == '\r' && s[i + 1] == '\n')
    || (i + 1 == |s| && LineTerminator(s[i]) && !(s[i] == '\n' && i > 0 && s[i - 1] == '\r'))
  }

  /** Atom `a` matches `s` from position `i` to position `j`. */
  predicate AtomAt(a: Atom, s: string, i: nat, j: nat) {
    j == i + Width(a) &&
    match a
    case Lit(c) => i < |s| && s[i] == c
    case Dot => i < |s| && !LineTerminator(s[i])
    case Caret => CaretAt(s, i)
    case Dollar => DollarAt(s, i)
  }

  predicate NodeAt(n: Node, s: string, i: nat, j: nat) {
    match n
    case Single(a) => AtomAt(a, s, i, j)
    case Group(alts) => exists a :: a in alts && AtomAt(a, s, i, j)
  }

  /** The nodes `p` can match `s` from `i` to exactly `k`, trying every alternative (the matcher backtracks). */
  predicate MatchesFrom(p: seq<Node>, s: string, i: nat, k: nat)
    decreases |p|
  {
    if p == [] then i == k
    else
      || (NodeAt(p[0], s, i, i) && MatchesFrom(p[1..], s, i, k))
      || (NodeAt(p[0], s, i, i + 1) && MatchesFrom(p[1..], s, i + 1, k))
  }

  /** `Pattern.matches(p, s)`: the whole of `s` matches. */
  predicate FullMatch(p: seq<Node>, s: string) {
    MatchesFrom(p, s, 0, |s|)
  }

  // ---------------------------------------------------------------------------------
  // The pattern of the accessibility check

  /** Characters that are special outside a character class; `.` is handled separately. */
  predicate Plain(c: char) {
    c !in "\\^$|?*+()[]{}"
  }

  /** A service name whose only regex metacharacters are dots, as Android component names are. */
  predicate PlainName(name: string) {
    forall i :: 0 <= i < |name| ==> Plain(name[i])
  }

  /** The nodes a plain name compiles to: each `.` is a wildcard, everything else is literal. */
  function Quote(name: string): (p: seq<Node>)
    ensures |p| == |name|
    ensures forall i :: 0 <= i < |name| ==> p[i] == Single(if name[i] == '.' then Dot else Lit(name[i]))
  {
    if name == [] then [] else [Single(if name[0] == '.' then Dot else Lit(name[0]))] + Quote(name[1..])
  }

  /** `"(?:^|:)" + service + "(?:$|:)"` as compiled. */
  function ServicePattern(service: string): seq<Node> {
    [Group([Caret, Lit(':')])] + Quote(service) + [Group([Dollar, Lit(':')])]
  }

  /** Name character `nc` matches input character `c`: a dot matches anything but a line terminator. */
  predicate CharMatches(nc: char, c: char) {
    if nc == '.' then !LineTerminator(c) else c == nc
  }

  /** `m` is matched by the name one character at a time. */
  predicate NameMatches(name: string, m: string) {
    |m| == |name| && forall i :: 0 <= i < |name| ==> CharMatches(name[i], m[i])
  }

  lemma NameMatchesCons(name: string, m: string)
    requires |m| == |name| > 0
    ensures NameMatches(name, m) <==> CharMatches(name[0], m[0]) && NameMatches(name[1..], m[1..])
  {
    if CharMatches(name[0], m[0]) && NameMatches(name[1..], m[1..]) {
      forall i | 0 < i < |name| ensures CharMatches(name[i], m[i]) {
        assert name[1..][i - 1] == name[i] && m[1..][i - 1] == m[i];
      }
    }
  }

  /** `s` is the name, with at most one `:` before it and at most one after it. */
  predicate Listed(service: string, s: string) {
    || NameMatches(service, s)
    || (|s| >= 1 && s[0] == ':' && NameMatches(service, s[1..]))
    || (|s| >= 1 && s[|s| - 1] == ':' && NameMatches(service, s[..|s| - 1]))
    || (|s| >= 2 && s[0] == ':' && s[|s| - 1] == ':' && NameMatches(service, s[1..|s| - 1]))
  }

  /** The node a name character compiles to matches one input character, as `CharMatches` says. */
  lemma QuotedCharAt(nc: char, s: string, j: nat)
    ensures var head := Single(if nc == '.' then Dot else Lit(nc));
      !NodeAt(head, s, j, j) && (NodeAt(head, s, j, j + 1) <==> j < |s| && CharMatches(nc, s[j]))
  {
  }

  /** Matching a quoted name followed by `rest` is matching the name character by character, then `rest`. */
  lemma {:induction false} QuoteMatches(name: string, rest: seq<Node>, s: string, j: nat, k: nat)
    requires j <= |s|
    ensures MatchesFrom(Quote(name) + rest, s, j, k) <==>
      j + |name| <= |s| && NameMatches(name, s[j..j + |name|]) && MatchesFrom(rest, s, j + |name|, k)
    decreases |name|
  {
    var p := Quote(name) + rest;
    if name == [] {
      assert p == rest;
      assert NameMatches(name, s[j..j]);
    } else {
      var head := Single(if name[0] == '.' then Dot else Lit(name[0]));
      assert p[0] == head && p[1..] == Quote(name[1..]) + rest;
      if j < |s| {
        QuoteMatches(name[1..], rest, s, j + 1, k);
      }
      QuotedCharAt(name[0], s, j);
      if j + |name| <= |s| {
        var m := s[j..j + |name|];
        assert m[0] == s[j] && m[1..] == s[j + 1..j + 1 + |name[1..]|];
        NameMatchesCons(name, m);
      }
    }
  }

  /** The trailing group at position `k` completes a full match exactly when `k` is the end or `s[k]` is a final `:`. */
  lemma TrailerMatches(s: string, k: nat)
    ensures MatchesFrom([Group([Dollar, Lit(':')])], s, k, |s|) <==> k == |s| || (k + 1 == |s| && s[k] == ':')
  {
    var g := Group([Dollar, Lit(':')]);
    assert [g][1..] == [];
    if k == |s| {
      assert AtomAt(Dollar, s, k, k);
    }
    if k + 1 == |s| && s[k] == ':' {
      assert AtomAt(Lit(':'), s, k, k + 1);
    }
  }

  /**
   * The accessibility pattern matches a whole string exactly when the string is the service
   * name (dots matching any character but a line terminator), optionally preceded by one
   * `:` and optionally followed by one `:`.
   */
  lemma ServicePatternMatches(service: string, s: string)
    ensures FullMatch(ServicePattern(service), s) <==> Listed(service, s)
  {
    var lead := Group([Caret, Lit(':')]);
    var trail := [Group([Dollar, Lit(':')])];
    var n := |service|;
    var p := ServicePattern(service);
    assert p[0] == lead && p[1..] == Quote(service) + trail;
    QuoteMatches(service, trail, s, 0, |s|);
    if |s| >= 1 {
      QuoteMatches(service, trail, s, 1, |s|);
    }
    TrailerMatches(s, n);
    TrailerMatches(s, n + 1);
    assert NodeAt(lead, s, 0, 0) by {
      assert AtomAt(Caret, s, 0, 0);
    }
    assert NodeAt(lead, s, 0, 1) <==> |s| >= 1 && s[0] == ':' by {
      if |s| >= 1 && s[0] == ':' {
        assert AtomAt(Lit(':'), s, 0, 1);
      }
    }
    if n <= |s| {
      assert s[0..n] == s[..n];
    }
    if n == |s| {
      assert s[..n] == s;
    }
    if n + 1 == |s| {
      assert s[1..1 + n] == s[1..];
    }
    if n + 2 == |s| {
      assert s[1..1 + n] == s[1..|s| - 1];
    }
  }

  /**
   * The enabled-services setting is a `:`-separated list, but the whole string must match:
   * once any other service is enabled beside this one, the check fails.
   */
  lemma AnotherServiceHidesThisOne(service: string, other: string)
    requires |other| >= 2
    ensures !Listed(service, other + ":" + service) && !Listed(service, service + ":" + other)
  {
  }
}
