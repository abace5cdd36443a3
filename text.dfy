/**
 * The string operations of the Python 2 standard library that the script
 * relies on, written out on `seq<char>`: `str.join`, `str.split` (as the
 * partner of `join`), `str.replace` for the two replacements the script
 * makes, `str.rstrip`, `file.readline` and `os.path.join`.
 */
module Text {

  /** The characters `str.rstrip()` strips when given no argument
      (the whitespace of a Python 2 byte string). */
  predicate IsSpace(c: char) {
    c == ' ' || c == '\t' || c == '\n' || c == '\r' || c == '\U{000B}' || c == '\U{000C}'
  }

  /** Is every character of `s` whitespace? */
  predicate AllSpace(s: string) {
    forall i :: 0 <= i < |s| ==> IsSpace(s[i])
  }

  // ---------------------------------------------------------------------
  // join and split

  /** `sep.join(parts)`. */
  function Join(sep: string, parts: seq<string>): string
  {
    if |parts| == 0 then ""
    else if |parts| == 1 then parts[0]
    else parts[0] + sep + Join(sep, parts[1..])
  }

  /** `s.split(c)` with an explicit one-character separator: every `c` ends a
      field, empty fields are kept, and there is always at least one field. */
  function Split(s: string, c: char): (r: seq<string>)
    ensures |r| >= 1
    ensures forall i :: 0 <= i < |r| ==> c !in r[i]
  {
    if |s| == 0 then [""]
    else
      var rest := Split(s[1..], c);
      if s[0] == c then [""] + rest
      else [[s[0]] + rest[0]] + rest[1..]
  }

  lemma JoinCons(sep: string, x: string, ys: seq<string>)
    ensures Join(sep, [x] + ys) == if |ys| == 0 then x else x + sep + Join(sep, ys)
  {
    assert ([x] + ys)[1..] == ys;
  }

  /** Joining the fields of a split gives back the string. */
  lemma {:induction false} JoinSplit(s: string, c: char)
    ensures Join([c], Split(s, c)) == s
  {
    if |s| > 0 {
      var rest := Split(s[1..], c);
      JoinSplit(s[1..], c);
      if s[0] == c {
        JoinCons([c], "", rest);
      } else {
        assert rest == [rest[0]] + rest[1..];
        JoinCons([c], [s[0]] + rest[0], rest[1..]);
        JoinCons([c], rest[0], rest[1..]);
      }
      assert s == [s[0]] + s[1..];
    }
  }

  lemma {:induction false} SplitField(x: string, c: char)
    requires c !in x
    ensures Split(x, c) == [x]
  {
    if |x| > 0 {
      SplitField(x[1..], c);
      assert x == [x[0]] + x[1..];
    }
  }

  lemma {:induction false} SplitFieldThen(x: string, c: char, t: string)
    requires c !in x
    ensures Split(x + [c] + t, c) == [x] + Split(t, c)
  {
    var s := x + [c] + t;
    if |x| == 0 {
      assert s[1..] == t;
    } else {
      SplitFieldThen(x[1..], c, t);
      assert s[1..] == x[1..] + [c] + t;
      assert x == [x[0]] + x[1..];
    }
  }

  /** Splitting a join of separator-free fields gives back the fields. */
  lemma {:induction false} SplitJoin(parts: seq<string>, c: char)
    requires |parts| >= 1
    requires forall i :: 0 <= i < |parts| ==> c !in parts[i]
    ensures Split(Join([c], parts), c) == parts
  {
    if |parts| == 1 {
      SplitField(parts[0], c);
    } else {
      SplitJoin(parts[1..], c);
      SplitFieldThen(parts[0], c, Join([c], parts[1..]));
      assert parts == [parts[0]] + parts[1..];
    }
  }

  // ---------------------------------------------------------------------
  // the two-character escape backslash-n

  /** `s.replace("\\n", "\n")`: each backslash followed by `n`, scanning from the
      left, becomes one newline. */
  function Unescape(s: string): string
  {
    if |s| < 2 then s
    else if s[0] == '\\' && s[1] == 'n' then "\n" + Unescape(s[2..])
    else [s[0]] + Unescape(s[1..])
  }

  /** `s.replace("\n", "\\n")`, the opposite rewriting. */
  function Escape(s: string): (r: string)
    ensures '\n' !in r
    ensures |r| >= |s|
  {
    if |s| == 0 then ""
    else (if s[0] == '\n' then "\\n" else [s[0]]) + Escape(s[1..])
  }

  /** Does `s` hold a backslash immediately followed by `n`? */
  predicate HasEscape(s: string) {
    exists i :: 0 <= i < |s| - 1 && s[i] == '\\' && s[i + 1] == 'n'
  }

  lemma HasEscapeCons(s: string)
    requires |s| >= 2
    ensures HasEscape(s) <==> (s[0] == '\\' && s[1] == 'n') || HasEscape(s[1..])
  {
    if HasEscape(s) && !(s[0] == '\\' && s[1] == 'n') {
      var i :| 0 <= i < |s| - 1 && s[i] == '\\' && s[i + 1] == 'n';
      assert s[1..][i - 1] == '\\' && s[1..][i] == 'n';
    }
    if HasEscape(s[1..]) {
      var i :| 0 <= i < |s[1..]| - 1 && s[1..][i] == '\\' && s[1..][i + 1] == 'n';
      assert s[i + 1] == '\\' && s[i + 2] == 'n';
    }
  }

  lemma {:induction false} UnescapeHead(t: string)
    requires |t| > 0
    ensures |Unescape(t)| > 0
    ensures Unescape(t)[0] == 'n' <==> t[0] == 'n'
  {
  }

  lemma {:induction false} EscapeHead(t: string)
    requires |t| > 0
    ensures |Escape(t)| > 0
    ensures Escape(t)[0] == 'n' <==> t[0] == 'n'
  {
  }

  /** After the replacement no backslash-n is left. */
  lemma {:induction false} UnescapeLeavesNoEscape(s: string)
    ensures !HasEscape(Unescape(s))
  {
    if |s| >= 2 {
      var r := Unescape(s);
      if s[0] == '\\' && s[1] == 'n' {
        UnescapeLeavesNoEscape(s[2..]);
        var u := Unescape(s[2..]);
        assert r == "\n" + u;
        if |r| >= 2 {
          HasEscapeCons(r);
          assert r[1..] == u;
        }
      } else {
        UnescapeLeavesNoEscape(s[1..]);
        var u := Unescape(s[1..]);
        assert r == [s[0]] + u;
        UnescapeHead(s[1..]);
        HasEscapeCons(r);
        assert r[1..] == u;
      }
    }
  }

  /** A string without backslash-n passes through unchanged. */
  lemma {:induction false} UnescapeIdentity(s: string)
    requires !HasEscape(s)
    ensures Unescape(s) == s
  {
    if |s| >= 2 {
      HasEscapeCons(s);
      UnescapeIdentity(s[1..]);
      assert s == [s[0]] + s[1..];
    }
  }

  lemma {:induction false} EscapeIdentity(s: string)
    requires '\n' !in s
    ensures Escape(s) == s
  {
    if |s| > 0 {
      EscapeIdentity(s[1..]);
      assert s == [s[0]] + s[1..];
    }
  }

  /** On newline-free text, escaping undoes the replacement. */
  lemma {:induction false} EscapeUnescape(s: string)
    requires '\n' !in s
    ensures Escape(Unescape(s)) == s
  {
    if |s| < 2 {
      EscapeIdentity(s);
    } else if s[0] == '\\' && s[1] == 'n' {
      EscapeUnescape(s[2..]);
      var u := Unescape(s[2..]);
      assert ("\n" + u)[1..] == u;
      assert s == s[..2] + s[2..];
    } else {
      EscapeUnescape(s[1..]);
      var u := Unescape(s[1..]);
      assert ([s[0]] + u)[1..] == u;
      assert s == [s[0]] + s[1..];
    }
  }

  /** For every text, the replacement changes nothing that escaping can see:
      escaping its result gives the escaped original. Together with
      `UnescapeLeavesNoEscape` and `UnescapeEscape` this determines
      `Unescape(s)` for every `s`, newlines included. */
  lemma {:induction false} EscapeUnescapeAll(s: string)
    ensures Escape(Unescape(s)) == Escape(s)
  {
    if |s| >= 2 {
      if s[0] == '\\' && s[1] == 'n' {
        EscapeUnescapeAll(s[2..]);
        var u := Unescape(s[2..]);
        assert ("\n" + u)[1..] == u;
        assert s[1..][1..] == s[2..];
        assert Escape(s) == "\\" + Escape(s[1..]);
        assert Escape(s[1..]) == "n" + Escape(s[2..]);
      } else {
        EscapeUnescapeAll(s[1..]);
        var u := Unescape(s[1..]);
        assert ([s[0]] + u)[1..] == u;
      }
    }
  }

  /** On text without backslash-n, the replacement undoes escaping. */
  lemma {:induction false} UnescapeEscape(s: string)
    requires !HasEscape(s)
    ensures Unescape(Escape(s)) == s
  {
    if |s| > 0 {
      var e := Escape(s[1..]);
      if |s| >= 2 {
        HasEscapeCons(s);
      }
      UnescapeEscape(s[1..]);
      if s[0] == '\n' {
        assert Escape(s) == "\\n" + e;
        assert ("\\n" + e)[2..] == e;
      } else {
        assert Escape(s) == [s[0]] + e;
        if |e| > 0 {
          EscapeHead(s[1..]);
          assert ([s[0]] + e)[1..] == e;
        }
      }
      assert s == [s[0]] + s[1..];
    }
  }

  // ---------------------------------------------------------------------
  // removing spaces

  /** `s.replace(' ', '')`: the other characters keep their number, and
      (`RemoveSpacesAppend`) their order. */
  function RemoveSpaces(s: string): (r: string)
    ensures ' ' !in r
    ensures ' ' !in s ==> r == s
    ensures forall c :: c != ' ' ==> multiset(r)[c] == multiset(s)[c]
  {
    if |s| == 0 then ""
    else
      assert s == [s[0]] + s[1..];
      (if s[0] == ' ' then "" else [s[0]]) + RemoveSpaces(s[1..])
  }

  /** Removing spaces distributes over concatenation; with the identity on
      space-free text and `RemoveSpaces(" ") == ""` this fixes the result,
      order included. */
  lemma {:induction false} RemoveSpacesAppend(a: string, b: string)
    ensures RemoveSpaces(a + b) == RemoveSpaces(a) + RemoveSpaces(b)
    ensures RemoveSpaces(" ") == ""
  {
    assert RemoveSpaces(" ") == "" + RemoveSpaces(" "[1..]);
    if |a| == 0 {
      assert a + b == b;
    } else {
      var head := if a[0] == ' ' then "" else [a[0]];
      assert (a + b)[0] == a[0] && (a + b)[1..] == a[1..] + b;
      assert RemoveSpaces(a + b) == head + RemoveSpaces(a[1..] + b);
      assert RemoveSpaces(a) == head + RemoveSpaces(a[1..]);
      RemoveSpacesAppend(a[1..], b);
    }
  }

  // ---------------------------------------------------------------------
  // reading the key file

  /** `readline()` on a file whose whole content is `content`: everything up to
      and including the first newline, or all of it when there is none. */
  function ReadLine(content: string): (r: string)
    ensures r <= content
    ensures forall i :: 0 <= i < |r| - 1 ==> r[i] != '\n'
    ensures r == content || (|r| > 0 && r[|r| - 1] == '\n')
  {
    if |content| == 0 then ""
    else if content[0] == '\n' then "\n"
    else [content[0]] + ReadLine(content[1..])
  }

  /** `s.rstrip()`: the longest prefix of `s` that does not end in whitespace;
      what it drops is all whitespace. */
  function RStrip(s: string): (r: string)
    ensures r <= s
    ensures |r| == 0 || !IsSpace(r[|r| - 1])
    ensures forall i :: |r| <= i < |s| ==> IsSpace(s[i])
  {
    if |s| == 0 then s
    else if IsSpace(s[|s| - 1]) then RStrip(s[..|s| - 1])
    else s
  }

  /** Stripping leaves nothing exactly when the text is all whitespace. */
  lemma RStripEmpty(s: string)
    ensures RStrip(s) == "" <==> AllSpace(s)
  {
    var r := RStrip(s);
    if r != "" {
      assert s[|r| - 1] == r[|r| - 1];
    }
  }

  /** The first line of a file with its trailing whitespace stripped holds no
      newline at all. */
  lemma StrippedLineHasNoNewline(content: string)
    ensures '\n' !in RStrip(ReadLine(content))
  {
    var line := ReadLine(content);
    var r := RStrip(line);
    forall i | 0 <= i < |r|
      ensures r[i] != '\n'
    {
      assert r[i] == line[i];
      if i == |line| - 1 {
        assert i == |r| - 1;
      }
    }
  }

  // ---------------------------------------------------------------------
  // paths

  /** `os.path.join(a, b)` of Python 2's `posixpath`, for two components:
      an absolute `b` replaces `a`; otherwise `b` follows `a`, with a slash
      added between them only when `a` is non-empty and does not end in one. */
  function JoinPath(a: string, b: string): (r: string)
    ensures |b| <= |r| && r[|r| - |b|..] == b
    ensures |b| > 0 && b[0] == '/' ==> r == b
    ensures !(|b| > 0 && b[0] == '/') ==>
      r[..|r| - |b|] == if |a| == 0 || a[|a| - 1] == '/' then a else a + "/"
  {
    if |b| > 0 && b[0] == '/' then b
    else if |a| == 0 || a[|a| - 1] == '/' then a + b
    else a + "/" + b
  }
}
