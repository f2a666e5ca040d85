/** The email check both auth forms share: the pattern
    `^[^\s@]+@[^\s@]+\.[^\s@]+$`, and the plain description of the addresses it
    accepts. */
module EmailCheck {
  import opened Text

  /** The characters the pattern class `\s` matches (JavaScript's white space
      and line terminators). */
  predicate IsSpace(c: char)
  {
    c == '\t' || c == '\n' || c == '\U{000B}' || c == '\U{000C}' || c == '\r' ||
    c == ' ' || c == '\U{00A0}' || c == '\U{1680}' || ('\U{2000}' <= c <= '\U{200A}') ||
    c == '\U{2028}' || c == '\U{2029}' || c == '\U{202F}' || c == '\U{205F}' ||
    c == '\U{3000}' || c == '\U{FEFF}'
  }

  /** The class `[^\s@]`. */
  predicate PlainChar(c: char)
  {
    !IsSpace(c) && c != '@'
  }

  /** `[^\s@]+`: a non-empty run of plain characters. */
  predicate PlainRun(s: string)
  {
    s != [] && forall k | 0 <= k < |s| :: PlainChar(s[k])
  }

  /** The pattern matches `s` with its `@` at index `i` and its `.` at index `j`. */
  predicate MatchesAt(s: string, i: int, j: int)
  {
    0 <= i < j < |s| && s[i] == '@' && s[j] == '.' &&
    PlainRun(s[..i]) && PlainRun(s[i + 1..j]) && PlainRun(s[j + 1..])
  }

  /** `/^[^\s@]+@[^\s@]+\.[^\s@]+$/.test(s)`: some split of `s` matches. */
  predicate MatchesEmailPattern(s: string)
  {
    exists i, j | 0 <= i < j < |s| :: MatchesAt(s, i, j)
  }

  /** The domain has a dot that is neither its first nor its last character. */
  predicate HasInnerDot(d: string)
  {
    exists j :: 0 < j < |d| - 1 && d[j] == '.'
  }

  /** The addresses the pattern accepts, said plainly: no white space, exactly
      one `@`, something before it, and after it a domain with an inner dot. */
  predicate EmailShape(s: string)
  {
    (forall k | 0 <= k < |s| :: !IsSpace(s[k])) &&
    multiset(s)['@'] == 1 &&
    exists i | 0 < i < |s| :: s[i] == '@' && HasInnerDot(s[i + 1..])
  }

  /** Cutting `s` around index `i` counts its `@`s piece by piece. */
  lemma CountAround(s: string, i: int)
    requires 0 <= i < |s|
    ensures multiset(s)['@'] ==
            multiset(s[..i])['@'] + (if s[i] == '@' then 1 else 0) + multiset(s[i + 1..])['@']
  {
    assert s == s[..i] + [s[i]] + s[i + 1..];
  }

  /** A pattern match is an address of the plain shape. */
  lemma MatchHasShape(s: string, i: int, j: int)
    requires MatchesAt(s, i, j)
    ensures EmailShape(s)
  {
    var a, b, c := s[..i], s[i + 1..j], s[j + 1..];
    assert s[i + 1..] == b + [s[j]] + c;
    forall k | 0 <= k < |s| ensures !IsSpace(s[k]) {
      if k < i {
        assert s[k] == a[k];
      } else if i < k < j {
        assert s[k] == b[k - i - 1];
      } else if j < k {
        assert s[k] == c[k - j - 1];
      }
    }
    assert '@' !in a && '@' !in b && '@' !in c;
    CountAround(s, i);
    assert multiset(s[i + 1..]) == multiset(b) + multiset{'.'} + multiset(c);
    var d := s[i + 1..];
    assert d[j - i - 1] == '.';
    assert HasInnerDot(d);
  }

  /** A stretch of plain characters is a plain run. */
  lemma PlainSlice(s: string, lo: int, hi: int)
    requires 0 <= lo < hi <= |s|
    requires forall k | lo <= k < hi :: PlainChar(s[k])
    ensures PlainRun(s[lo..hi])
  {
    var t := s[lo..hi];
    assert forall k | 0 <= k < |t| :: t[k] == s[lo + k];
  }

  /** In an address of the plain shape, every character but its one `@` is plain. */
  lemma ShapeHasOneAt(s: string, i: int)
    requires EmailShape(s) && 0 <= i < |s| && s[i] == '@'
    ensures forall k | 0 <= k < |s| && k != i :: PlainChar(s[k])
  {
    CountAround(s, i);
    assert '@' !in s[..i] && '@' !in s[i + 1..];
    forall k | 0 <= k < |s| && k != i ensures s[k] != '@' {
      if k < i {
        assert s[k] == s[..i][k];
      } else {
        assert s[k] == s[i + 1..][k - i - 1];
      }
    }
  }

  /** An address of the plain shape matches the pattern. */
  lemma ShapeMatches(s: string)
    requires EmailShape(s)
    ensures MatchesEmailPattern(s)
  {
    var i :| 0 < i < |s| && s[i] == '@' && HasInnerDot(s[i + 1..]);
    ShapeHasOneAt(s, i);
    var d := s[i + 1..];
    var jd :| 0 < jd < |d| - 1 && d[jd] == '.';
    var j := i + 1 + jd;
    assert s[j] == d[jd];
    PlainSlice(s, 0, i);
    PlainSlice(s, i + 1, j);
    PlainSlice(s, j + 1, |s|);
    assert s[..i] == s[0..i] && s[j + 1..] == s[j + 1..|s|];
    assert MatchesAt(s, i, j);
  }

  /** The pattern accepts exactly the addresses of the plain shape. */
  lemma PatternIffShape(s: string)
    ensures MatchesEmailPattern(s) <==> EmailShape(s)
  {
    if MatchesEmailPattern(s) {
      var i, j :| MatchesAt(s, i, j);
      MatchHasShape(s, i, j);
    }
    if EmailShape(s) {
      ShapeMatches(s);
    }
  }
}
