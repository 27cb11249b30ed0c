/** The JavaScript string built-ins the core relies on, stated over Dafny
    strings: `String.prototype.split` with a one-character separator,
    `String.prototype.trim`, and `length`, which counts UTF-16 code units. */
module JsText {

  /** The characters ECMAScript's `trim` removes: the WhiteSpace and
      LineTerminator code points (section 22.1.3.32 of ECMA-262, with
      the Zs category written out). */
  const WhiteSpace: set<char> := {
    '\t', '\n', '\U{B}', '\U{C}', '\r', ' ', '\U{A0}', '\U{1680}',
    '\U{2000}', '\U{2001}', '\U{2002}', '\U{2003}', '\U{2004}', '\U{2005}',
    '\U{2006}', '\U{2007}', '\U{2008}', '\U{2009}', '\U{200A}',
    '\U{2028}', '\U{2029}', '\U{202F}', '\U{205F}', '\U{3000}', '\U{FEFF}'
  }

  predicate IsWhiteSpace(c: char) {
    c in WhiteSpace
  }

  /** Neither end of `s` is white space. */
  predicate IsTrimmed(s: string) {
    s == [] || (!IsWhiteSpace(s[0]) && !IsWhiteSpace(s[|s| - 1]))
  }

  /** Drops the leading white space: what is left is a suffix of `s`
      starting with a non-space, and everything dropped was white space. */
  function TrimStart(s: string): (r: string)
    ensures |r| <= |s| && r == s[|s| - |r|..]
    ensures r == [] || !IsWhiteSpace(r[0])
    ensures forall i :: 0 <= i < |s| - |r| ==> IsWhiteSpace(s[i])
  {
    if s != [] && IsWhiteSpace(s[0]) then TrimStart(s[1..]) else s
  }

  /** Drops the trailing white space: what is left is a prefix of `s`
      ending with a non-space, and everything dropped was white space. */
  function TrimEnd(s: string): (r: string)
    ensures |r| <= |s| && r == s[..|r|]
    ensures r == [] || !IsWhiteSpace(r[|r| - 1])
    ensures forall i :: |r| <= i < |s| ==> IsWhiteSpace(s[i])
  {
    if s != [] && IsWhiteSpace(s[|s| - 1]) then TrimEnd(s[..|s| - 1]) else s
  }

  /** `r` is `s` with some white space cut off each end and the middle kept
      as it is. */
  ghost predicate CutsEnds(s: string, r: string) {
    exists k :: 0 <= k <= |s| - |r| && r == s[k..][..|r|] &&
                (forall i :: 0 <= i < k || k + |r| <= i < |s| ==> IsWhiteSpace(s[i]))
  }

  /** `s.trim()`: the result is `s` with its leading and its trailing
      white space removed and nothing else, so it has no white space at
      either end; a string already in that form is returned as it is, and
      the result is empty exactly when `s` is nothing but white space. */
  function Trim(s: string): (r: string)
    ensures CutsEnds(s, r)
    ensures IsTrimmed(r)
    ensures |r| <= |s|
    ensures IsTrimmed(s) ==> r == s
    ensures r == [] <==> forall i :: 0 <= i < |s| ==> IsWhiteSpace(s[i])
  {
    TrimBothEnds(s);
    TrimSlice(s);
    TrimStart(TrimEnd(s))
  }

  /** Trimming cuts a run of white space off each end of `s` and keeps the
      middle as it is. */
  lemma TrimSlice(s: string)
    ensures CutsEnds(s, TrimStart(TrimEnd(s)))
  {
    var e := TrimEnd(s);
    var r := TrimStart(e);
    var k := |e| - |r|;
    assert e == s[..|e|] && r == e[k..];
    assert r == s[k..][..|r|];
    forall i | 0 <= i < k || k + |r| <= i < |s| ensures IsWhiteSpace(s[i]) {
      if i < k {
        assert s[i] == e[i];
      }
    }
  }

  lemma TrimBothEnds(s: string)
    ensures IsTrimmed(TrimStart(TrimEnd(s)))
    ensures IsTrimmed(s) ==> TrimStart(TrimEnd(s)) == s
    ensures TrimStart(TrimEnd(s)) == [] <==> forall i :: 0 <= i < |s| ==> IsWhiteSpace(s[i])
  {
    var e := TrimEnd(s);
    var r := TrimStart(e);
    if r != [] {
      assert r[|r| - 1] == e[|e| - 1];
      var k := |e| - |r|;
      assert s[k] == e[k] == r[0];
      assert !IsWhiteSpace(s[k]);
    } else {
      forall i | 0 <= i < |s| ensures IsWhiteSpace(s[i]) {
        if i < |e| {
          assert s[i] == e[i];
        }
      }
    }
    if s != [] && IsTrimmed(s) {
      assert e == s;
    }
  }

  /** Trimming twice is trimming once. */
  lemma TrimIdempotent(s: string)
    ensures Trim(Trim(s)) == Trim(s)
  {
  }

  /** `s.split(sep)`: at least one part, no part holds the separator, and
      the first part is the text before the first separator (all of `s`
      when there is none). */
  function Split(s: string, sep: char): (parts: seq<string>)
    ensures |parts| >= 1
    ensures forall i :: 0 <= i < |parts| ==> sep !in parts[i]
    ensures parts[0] <= s
    ensures |parts[0]| < |s| ==> s[|parts[0]|] == sep
  {
    if s == [] then [""]
    else
      var rest := Split(s[1..], sep);
      if s[0] == sep then [""] + rest
      else [[s[0]] + rest[0]] + rest[1..]
  }

  /** `parts.join(sep)`, the inverse of Split. */
  function Join(parts: seq<string>, sep: char): string
  {
    if parts == [] then ""
    else if |parts| == 1 then parts[0]
    else parts[0] + [sep] + Join(parts[1..], sep)
  }

  /** Joining the parts of a split gives back the string. */
  lemma {:induction false} JoinSplit(s: string, sep: char)
    ensures Join(Split(s, sep), sep) == s
  {
    if s != [] {
      var rest := Split(s[1..], sep);
      JoinSplit(s[1..], sep);
      if s[0] == sep {
        assert Split(s, sep) == [""] + rest;
        assert Join(Split(s, sep), sep) == "" + [sep] + Join(rest, sep);
      } else if |rest| == 1 {
        assert Split(s, sep) == [[s[0]] + rest[0]];
      } else {
        var parts := Split(s, sep);
        assert parts == [[s[0]] + rest[0]] + rest[1..];
        assert parts[1..] == rest[1..];
        assert Join(rest, sep) == rest[0] + [sep] + Join(rest[1..], sep);
        assert Join(parts, sep) == [s[0]] + rest[0] + [sep] + Join(rest[1..], sep);
        assert [s[0]] + s[1..] == s;
      }
    }
  }

  /** Splitting `p + t`, where `p` holds no separator, glues `p` to the
      first part of `t`. */
  lemma {:induction false} SplitGlue(p: string, t: string, sep: char)
    requires sep !in p
    ensures Split(p + t, sep) == [p + Split(t, sep)[0]] + Split(t, sep)[1..]
  {
    var parts := Split(t, sep);
    if p != [] {
      var q := p + t;
      assert q[0] == p[0] && q[1..] == p[1..] + t;
      SplitGlue(p[1..], t, sep);
      var rest := Split(q[1..], sep);
      assert rest[0] == p[1..] + parts[0] && rest[1..] == parts[1..];
      assert Split(q, sep) == [[q[0]] + rest[0]] + rest[1..];
      assert [p[0]] + (p[1..] + parts[0]) == p + parts[0];
    } else {
      assert p + t == t && p + parts[0] == parts[0];
      assert parts == [parts[0]] + parts[1..];
    }
  }

  /** A leading separator opens an empty first part. */
  lemma SplitAfterSeparator(t: string, sep: char)
    ensures Split([sep] + t, sep) == [""] + Split(t, sep)
  {
    var u := [sep] + t;
    assert u[0] == sep && u[1..] == t;
  }

  /** Splitting the join of separator-free parts gives back the parts. */
  lemma {:induction false} SplitJoin(parts: seq<string>, sep: char)
    requires |parts| >= 1
    requires forall i :: 0 <= i < |parts| ==> sep !in parts[i]
    ensures Split(Join(parts, sep), sep) == parts
  {
    var head := parts[0];
    if |parts| == 1 {
      SplitGlue(head, "", sep);
      assert head + "" == head;
    } else {
      var tail := parts[1..];
      assert forall i :: 0 <= i < |tail| ==> sep !in tail[i] by {
        forall i | 0 <= i < |tail| ensures sep !in tail[i] {
          assert tail[i] == parts[i + 1];
        }
      }
      var t := Join(tail, sep);
      var u := [sep] + t;
      assert Join(parts, sep) == head + u;
      SplitJoin(tail, sep);
      SplitAfterSeparator(t, sep);
      SplitGlue(head, u, sep);
      assert Split(u, sep) == [""] + tail;
      assert head + "" == head;
      assert parts == [head] + tail;
    }
  }

  /** The positions of `s` holding a character outside the Basic
      Multilingual Plane. */
  function AstralIndices(s: string): set<int>
  {
    set i | 0 <= i < |s| && s[i] as int >= 0x1_0000
  }

  /** Dropping the last character drops its position from the astral
      positions when it is one, and keeps the others. */
  lemma AstralIndicesSnoc(s: string)
    requires s != []
    ensures |AstralIndices(s)| == |AstralIndices(s[..|s| - 1])| + (if s[|s| - 1] as int < 0x1_0000 then 0 else 1)
  {
    var p := s[..|s| - 1];
    var last := |s| - 1;
    assert AstralIndices(p) == AstralIndices(s) - {last} by {
      forall i ensures i in AstralIndices(p) <==> i in AstralIndices(s) - {last} {
        if 0 <= i < |p| {
          assert p[i] == s[i];
        }
      }
    }
    assert last !in AstralIndices(p);
    if s[last] as int >= 0x1_0000 {
      assert AstralIndices(s) == AstralIndices(p) + {last};
    } else {
      assert AstralIndices(s) == AstralIndices(p);
    }
  }

  /** `s.length` in JavaScript: one code unit per character of the Basic
      Multilingual Plane, two (a surrogate pair) for any other character;
      so the character count plus the number of characters outside that
      plane. */
  function Utf16Length(s: string): (n: nat)
    ensures n == |s| + |AstralIndices(s)|
    ensures |s| <= n <= 2 * |s|
    ensures n == |s| <==> forall i :: 0 <= i < |s| ==> s[i] as int < 0x1_0000
  {
    if s == [] then 0
    else
      AstralIndicesSnoc(s);
      var p := s[..|s| - 1];
      assert forall i :: 0 <= i < |p| ==> p[i] == s[i];
      Utf16Length(p) + (if s[|s| - 1] as int < 0x1_0000 then 1 else 2)
  }
}
