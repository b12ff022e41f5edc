/** The string operations the webhook applies to an inbound message body:
    JavaScript's `trim()`, `toUpperCase()` (on ASCII letters) and `split(' ')`,
    together with the `join` that undoes a split. */
module Text {
  import opened Wrappers

  /** The code points ECMAScript's `trim()` removes: the WhiteSpace class
      (TAB, VT, FF, ZWNBSP and every Unicode space separator) and the
      LineTerminator class (LF, CR, LS, PS). */
  predicate IsJsWhitespace(c: char) {
    var n := c as int;
    n == 0x09 || n == 0x0A || n == 0x0B || n == 0x0C || n == 0x0D ||
    n == 0x20 || n == 0xA0 || n == 0x1680 || (0x2000 <= n <= 0x200A) ||
    n == 0x2028 || n == 0x2029 || n == 0x202F || n == 0x205F ||
    n == 0x3000 || n == 0xFEFF
  }

  /** `s` with its leading whitespace removed. */
  function TrimStart(s: string): (r: string)
    ensures |r| <= |s| && r == s[|s| - |r|..]
    ensures forall i :: 0 <= i < |s| - |r| ==> IsJsWhitespace(s[i])
    ensures r == [] || !IsJsWhitespace(r[0])
    decreases |s|
  {
    if s != [] && IsJsWhitespace(s[0]) then TrimStart(s[1..]) else s
  }

  /** `s` with its trailing whitespace removed. */
  function TrimEnd(s: string): (r: string)
    ensures |r| <= |s| && r == s[..|r|]
    ensures forall i :: |r| <= i < |s| ==> IsJsWhitespace(s[i])
    ensures r == [] || !IsJsWhitespace(r[|r| - 1])
    decreases |s|
  {
    if s != [] && IsJsWhitespace(s[|s| - 1]) then TrimEnd(s[..|s| - 1]) else s
  }

  /** `r` occurs in `s` starting at position `k`. */
  predicate InfixAt(r: string, s: string, k: nat) {
    k + |r| <= |s| && r == s[k..k + |r|]
  }

  /** `String.prototype.trim`: the longest infix of `s` that neither starts
      nor ends with whitespace; everything cut away is whitespace. */
  function Trim(s: string): (r: string)
    ensures var k := |s| - |TrimStart(s)|;
      InfixAt(r, s, k) &&
      (forall i :: 0 <= i < k ==> IsJsWhitespace(s[i])) &&
      (forall i :: k + |r| <= i < |s| ==> IsJsWhitespace(s[i]))
    ensures r == [] || (!IsJsWhitespace(r[0]) && !IsJsWhitespace(r[|r| - 1]))
  {
    var t := TrimStart(s);
    var r := TrimEnd(t);
    TrimCuts(s, t, r);
    r
  }

  /** Cutting a whitespace prefix off `s` and then a whitespace suffix off
      the rest leaves an infix of `s` with only whitespace around it. */
  lemma TrimCuts(s: string, t: string, r: string)
    requires |t| <= |s| && t == s[|s| - |t|..] && |r| <= |t| && r == t[..|r|]
    requires forall i :: 0 <= i < |s| - |t| ==> IsJsWhitespace(s[i])
    requires forall i :: |r| <= i < |t| ==> IsJsWhitespace(t[i])
    ensures var k := |s| - |t|;
      InfixAt(r, s, k) &&
      (forall i :: 0 <= i < k ==> IsJsWhitespace(s[i])) &&
      (forall i :: k + |r| <= i < |s| ==> IsJsWhitespace(s[i]))
  {
    var k := |s| - |t|;
    assert r == s[k..k + |r|];
    forall i | k + |r| <= i < |s|
      ensures IsJsWhitespace(s[i])
    {
      assert s[i] == t[i - k];
    }
  }

  /** A body made only of whitespace trims to the empty string, and only such a body does. */
  lemma TrimEmptyIff(s: string)
    ensures Trim(s) == [] <==> forall i :: 0 <= i < |s| ==> IsJsWhitespace(s[i])
  {
    if forall i :: 0 <= i < |s| ==> IsJsWhitespace(s[i]) {
      TrimStartAllWhitespace(s);
    }
  }

  lemma {:induction false} TrimStartAllWhitespace(s: string)
    requires forall i :: 0 <= i < |s| ==> IsJsWhitespace(s[i])
    ensures TrimStart(s) == []
    decreases |s|
  {
    if s != [] {
      TrimStartAllWhitespace(s[1..]);
    }
  }

  /** Trimming twice is trimming once. */
  lemma TrimIdempotent(s: string)
    ensures Trim(Trim(s)) == Trim(s)
  {
    var t := Trim(s);
    if t != [] {
      assert TrimStart(t) == t;
      assert TrimEnd(t) == t;
    }
  }

  predicate IsAsciiLower(c: char) {
    'a' <= c <= 'z'
  }

  /** The case mapping `toUpperCase` applies to an ASCII letter; every other
      character is left as it is. */
  function UpperChar(c: char): (u: char)
    ensures !IsAsciiLower(u)
    ensures IsAsciiLower(c) ==> u as int == c as int - 32
    ensures !IsAsciiLower(c) ==> u == c
  {
    if IsAsciiLower(c) then (c as int - 32) as char else c
  }

  predicate NoAsciiLower(s: string) {
    forall i :: 0 <= i < |s| ==> !IsAsciiLower(s[i])
  }

  /** `toUpperCase` restricted to ASCII case folding: same length, no
      lower-case ASCII letter left, each character mapped by `UpperChar`. */
  function Upper(s: string): (r: string)
    ensures |r| == |s| && NoAsciiLower(r)
    ensures forall i :: 0 <= i < |s| ==> r[i] == UpperChar(s[i])
  {
    seq(|s|, i requires 0 <= i < |s| => UpperChar(s[i]))
  }

  /** A character that occurs in exactly `n` positions of `s`. */
  function Occurrences(s: string, c: char): (n: nat)
    ensures n <= |s|
    decreases |s|
  {
    if s == [] then 0 else (if s[0] == c then 1 else 0) + Occurrences(s[1..], c)
  }

  /** `String.prototype.split` with a one-character separator: the pieces
      between separators, so that two adjacent separators give an empty
      piece and the empty string gives the single piece `""`. */
  function Split(s: string, sep: char): (parts: seq<string>)
    ensures |parts| >= 1
    ensures forall i :: 0 <= i < |parts| ==> sep !in parts[i]
    decreases |s|
  {
    if s == [] then [[]]
    else
      var rest := Split(s[1..], sep);
      if s[0] == sep then [[]] + rest
      else [[s[0]] + rest[0]] + rest[1..]
  }

  /** `Array.prototype.join` with a one-character separator. */
  function Join(parts: seq<string>, sep: char): (s: string)
    requires |parts| >= 1
    ensures |parts| > 1 ==> s == parts[0] + [sep] + Join(parts[1..], sep)
    decreases |parts|
  {
    if |parts| == 1 then parts[0] else parts[0] + [sep] + Join(parts[1..], sep)
  }

  /** Join starts with the first piece; put another character in front of
      the first piece and it lands in front of the joined string. */
  lemma JoinConsFirst(c: char, parts: seq<string>, sep: char)
    requires |parts| >= 1
    ensures Join([[c] + parts[0]] + parts[1..], sep) == [c] + Join(parts, sep)
  {
    var q := [[c] + parts[0]] + parts[1..];
    assert q[1..] == parts[1..];
  }

  /** Joining the pieces of a split gives back the string. */
  lemma {:induction false} JoinSplit(s: string, sep: char)
    ensures Join(Split(s, sep), sep) == s
    decreases |s|
  {
    if s != [] {
      var rest := Split(s[1..], sep);
      JoinSplit(s[1..], sep);
      if s[0] == sep {
        var p := [[]] + rest;
        assert Split(s, sep) == p;
        assert |p| > 1 && p[0] == [] && p[1..] == rest;
        assert Join(p, sep) == [] + [sep] + Join(rest, sep);
        assert [sep] + s[1..] == s;
      } else {
        assert Split(s, sep) == [[s[0]] + rest[0]] + rest[1..];
        JoinConsFirst(s[0], rest, sep);
        assert [s[0]] + s[1..] == s;
      }
    }
  }

  /** Splitting `t + u` where `t` holds no separator glues `t` to the first
      piece of `u`. */
  lemma {:induction false} SplitPrefix(t: string, u: string, sep: char)
    requires sep !in t
    ensures Split(t + u, sep) == [t + Split(u, sep)[0]] + Split(u, sep)[1..]
    decreases |t|
  {
    if t == [] {
      assert t + u == u;
      var p := Split(u, sep);
      assert p == [p[0]] + p[1..];
      assert t + p[0] == p[0];
    } else {
      assert (t + u)[0] == t[0];
      assert (t + u)[1..] == t[1..] + u;
      SplitPrefix(t[1..], u, sep);
      assert [t[0]] + (t[1..] + Split(u, sep)[0]) == t + Split(u, sep)[0];
    }
  }

  /** Splitting the join of separator-free pieces gives back the pieces. */
  lemma {:induction false} SplitJoin(parts: seq<string>, sep: char)
    requires |parts| >= 1
    requires forall i :: 0 <= i < |parts| ==> sep !in parts[i]
    ensures Split(Join(parts, sep), sep) == parts
    decreases |parts|
  {
    if |parts| == 1 {
      SplitPrefix(parts[0], [], sep);
      assert parts[0] + [] == parts[0];
    } else {
      var rest := Join(parts[1..], sep);
      SplitJoin(parts[1..], sep);
      assert parts[0] + [sep] + rest == parts[0] + ([sep] + rest);
      assert ([sep] + rest)[0] == sep && ([sep] + rest)[1..] == rest;
      var q := Split([sep] + rest, sep);
      assert q == [[]] + parts[1..];
      assert q[0] == [] && q[1..] == parts[1..];
      SplitPrefix(parts[0], [sep] + rest, sep);
      assert parts[0] + q[0] == parts[0];
      assert Split(Join(parts, sep), sep) == [parts[0]] + parts[1..];
      assert parts == [parts[0]] + parts[1..];
    }
  }

  /** A split yields one piece more than there are separators. */
  lemma {:induction false} SplitCount(s: string, sep: char)
    ensures |Split(s, sep)| == Occurrences(s, sep) + 1
    decreases |s|
  {
    if s != [] {
      SplitCount(s[1..], sep);
    }
  }

  /** Every character of every piece of a split occurs in the string split. */
  lemma {:induction false} SplitKeepsCharacters(s: string, sep: char, i: nat, j: nat)
    requires i < |Split(s, sep)| && j < |Split(s, sep)[i]|
    ensures Split(s, sep)[i][j] in s
    decreases |s|
  {
    if s != [] {
      var rest := Split(s[1..], sep);
      if s[0] == sep {
        SplitKeepsCharacters(s[1..], sep, i - 1, j);
      } else if i == 0 {
        if j > 0 {
          SplitKeepsCharacters(s[1..], sep, 0, j - 1);
        }
      } else {
        SplitKeepsCharacters(s[1..], sep, i, j);
      }
    }
  }

  /** The pieces of a split of a string without lower-case letters have none either. */
  lemma SplitKeepsNoLower(s: string, sep: char)
    requires NoAsciiLower(s)
    ensures forall i :: 0 <= i < |Split(s, sep)| ==> NoAsciiLower(Split(s, sep)[i])
  {
    var parts := Split(s, sep);
    forall i, j | 0 <= i < |parts| && 0 <= j < |parts[i]|
      ensures !IsAsciiLower(parts[i][j])
    {
      SplitKeepsCharacters(s, sep, i, j);
    }
  }

  /** Upper-casing commutes with joining. */
  lemma {:induction false} UpperJoin(parts: seq<string>, sep: char)
    requires |parts| >= 1 && !IsAsciiLower(sep)
    ensures Upper(Join(parts, sep)) == Join(seq(|parts|, i requires 0 <= i < |parts| => Upper(parts[i])), sep)
    decreases |parts|
  {
    var up := seq(|parts|, i requires 0 <= i < |parts| => Upper(parts[i]));
    if |parts| > 1 {
      UpperJoin(parts[1..], sep);
      assert up[1..] == seq(|parts| - 1, i requires 0 <= i < |parts| - 1 => Upper(parts[1..][i]));
      UpperAppend(parts[0] + [sep], Join(parts[1..], sep));
      UpperAppend(parts[0], [sep]);
    }
  }

  lemma UpperAppend(a: string, b: string)
    ensures Upper(a + b) == Upper(a) + Upper(b)
  {
    assert forall i :: 0 <= i < |a + b| ==> Upper(a + b)[i] == (Upper(a) + Upper(b))[i];
  }

  /** A join whose first piece is not empty starts with that piece's first character. */
  lemma JoinFirst(parts: seq<string>, sep: char)
    requires |parts| >= 1 && parts[0] != []
    ensures Join(parts, sep) != [] && Join(parts, sep)[0] == parts[0][0]
  {
  }

  /** A join whose last piece is not empty ends with that piece's last character. */
  lemma {:induction false} JoinLast(parts: seq<string>, sep: char)
    requires |parts| >= 1 && parts[|parts| - 1] != []
    ensures var s := Join(parts, sep); var last := parts[|parts| - 1];
      s != [] && s[|s| - 1] == last[|last| - 1]
    decreases |parts|
  {
    if |parts| > 1 {
      var rest := parts[1..];
      assert rest[|rest| - 1] == parts[|parts| - 1];
      JoinLast(rest, sep);
    }
  }

  /** Trimming a string that neither starts nor ends with whitespace changes nothing. */
  lemma TrimUntouched(s: string)
    requires s == [] || (!IsJsWhitespace(s[0]) && !IsJsWhitespace(s[|s| - 1]))
    ensures Trim(s) == s
  {
  }

  /** What stands between a fixed head and a fixed tail of `s`, if `s` has them. */
  function Between(s: string, head: string, tail: string): (m: Option<string>)
    ensures m.Some? ==> head + m.value + tail == s
  {
    if |s| >= |head| + |tail| && s[..|head|] == head && s[|s| - |tail|..] == tail
    then Some(s[|head|..|s| - |tail|])
    else None
  }

  /** Text written between a head and a tail is read back from between them. */
  lemma BetweenFrame(head: string, m: string, tail: string)
    ensures Between(head + m + tail, head, tail) == Some(m)
  {
    var s := head + m + tail;
    assert s[..|head|] == head && s[|s| - |tail|..] == tail && s[|head|..|s| - |tail|] == m;
  }
}
