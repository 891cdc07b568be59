/** String helpers over `seq<char>` that mirror the Python `str` methods the
    library calls. Letter and digit classes are ASCII; whitespace is the set
    Python's `str.isspace` accepts. */
module Text {

  predicate IsUpper(c: char) { 'A' <= c <= 'Z' }
  predicate IsLower(c: char) { 'a' <= c <= 'z' }
  predicate IsDigit(c: char) { '0' <= c <= '9' }
  /** The characters `str.isspace` accepts, which are the ones `str.strip()`
      removes: ASCII tab to carriage return, the information separators
      U+001C to U+001F, space, next line, no-break space and the Unicode
      space separators. */
  predicate IsSpace(c: char) {
    ('\t' <= c <= '\r') || ('\U{001C}' <= c <= ' ')
    || c == '\U{0085}' || c == '\U{00A0}' || c == '\U{1680}'
    || ('\U{2000}' <= c <= '\U{200A}')
    || c == '\U{2028}' || c == '\U{2029}' || c == '\U{202F}'
    || c == '\U{205F}' || c == '\U{3000}'
  }

  function LowerChar(c: char): (r: char)
    ensures !IsUpper(r)
    ensures IsUpper(c) || r == c
  {
    if IsUpper(c) then (c as int - 'A' as int + 'a' as int) as char else c
  }

  /** `s.lower()` on ASCII letters. */
  function Lower(s: string): (r: string)
    ensures |r| == |s|
    ensures forall i :: 0 <= i < |s| ==> r[i] == LowerChar(s[i])
  {
    if s == [] then [] else [LowerChar(s[0])] + Lower(s[1..])
  }

  predicate NoUpper(s: string) { forall i :: 0 <= i < |s| ==> !IsUpper(s[i]) }

  /** Lower case leaves exactly the strings without capitals unchanged. */
  lemma LowerFixedIffNoUpper(s: string)
    ensures Lower(s) == s <==> NoUpper(s)
  {
    if !NoUpper(s) {
      var i :| 0 <= i < |s| && IsUpper(s[i]);
      assert Lower(s)[i] != s[i];
    }
  }

  predicate StartsWith(s: string, prefix: string) {
    |prefix| <= |s| && s[..|prefix|] == prefix
  }

  predicate EndsWith(s: string, suffix: string) {
    |suffix| <= |s| && s[|s| - |suffix|..] == suffix
  }

  /** `sub in s` for strings. */
  predicate Contains(s: string, sub: string) {
    StartsWith(s, sub) || (s != [] && Contains(s[1..], sub))
  }

  predicate HasChar(s: string, c: char) { c in s }

  /** `sep.join(parts)`. */
  function Join(sep: string, parts: seq<string>): string {
    if parts == [] then ""
    else if |parts| == 1 then parts[0]
    else parts[0] + sep + Join(sep, parts[1..])
  }

  /** The number of whitespace characters `s` starts with. */
  function LeadingSpaces(s: string): (n: nat)
    ensures n <= |s|
    ensures forall k :: 0 <= k < n ==> IsSpace(s[k])
    ensures n < |s| ==> !IsSpace(s[n])
  {
    if s != [] && IsSpace(s[0]) then 1 + LeadingSpaces(s[1..]) else 0
  }

  /** `s.strip()`: the slice of `s` left once the leading and the trailing
      whitespace are cut off; it neither starts nor ends with whitespace, and
      it is empty exactly when `s` is all whitespace. */
  function Strip(s: string): (r: string)
    ensures LeadingSpaces(s) + |r| <= |s|
    ensures r == s[LeadingSpaces(s)..LeadingSpaces(s) + |r|]
    ensures forall k :: LeadingSpaces(s) + |r| <= k < |s| ==> IsSpace(s[k])
    ensures r == [] || (!IsSpace(r[0]) && !IsSpace(r[|r| - 1]))
  {
    var t := TrimStart(s);
    assert |s| - |t| == LeadingSpaces(s);
    TrimEnd(t)
  }

  /** `s.lstrip()`: the suffix of `s` after its leading whitespace. */
  function TrimStart(s: string): (r: string)
    ensures |r| <= |s| && r == s[|s| - |r|..]
    ensures forall k :: 0 <= k < |s| - |r| ==> IsSpace(s[k])
    ensures r == [] || !IsSpace(r[0])
  {
    if s != [] && IsSpace(s[0]) then TrimStart(s[1..]) else s
  }

  /** `s.rstrip()`: the prefix of `s` before its trailing whitespace. */
  function TrimEnd(s: string): (r: string)
    ensures |r| <= |s| && r == s[..|r|]
    ensures forall k :: |r| <= k < |s| ==> IsSpace(s[k])
    ensures r == [] || !IsSpace(r[|r| - 1])
  {
    if s != [] && IsSpace(s[|s| - 1]) then TrimEnd(s[..|s| - 1]) else s
  }

  /** Index of the first `c` in `s`, or `|s|` when there is none. */
  function IndexOf(s: string, c: char): (i: nat)
    ensures i <= |s|
    ensures i < |s| ==> s[i] == c
    ensures forall j :: 0 <= j < i ==> s[j] != c
  {
    if s == [] || s[0] == c then 0 else 1 + IndexOf(s[1..], c)
  }

  /** `s.split(sep)` for a one-character separator. */
  function Split(s: string, sep: char): (parts: seq<string>)
    ensures |parts| >= 1
    ensures forall k :: 0 <= k < |parts| ==> sep !in parts[k]
  {
    if s == [] then [""]
    else
      var rest := Split(s[1..], sep);
      if s[0] == sep then [""] + rest
      else [[s[0]] + rest[0]] + rest[1..]
  }

  /** `posixpath.join(path, *parts)`: an absolute part restarts the path, and
      a "/" is inserted unless the path so far is empty or already ends with one. */
  function PathJoin(path: string, parts: seq<string>): string
    decreases |parts|
  {
    if parts == [] then path
    else
      var b := parts[0];
      var next := if StartsWith(b, "/") then b
                  else if path == [] || EndsWith(path, "/") then path + b
                  else path + "/" + b;
      PathJoin(next, parts[1..])
  }

  /** Joining one relative part adds exactly one separator between them. */
  lemma PathJoinOne(path: string, a: string)
    requires !StartsWith(a, "/")
    ensures EndsWith(path, "/") ==> PathJoin(path, [a]) == path + a
    ensures path != "" && !EndsWith(path, "/") ==> PathJoin(path, [a]) == path + "/" + a
  {
    assert [a][1..] == [];
  }

  /** Joining one part that is absolute discards the path. */
  lemma PathJoinAbsolute(path: string, a: string)
    requires StartsWith(a, "/")
    ensures PathJoin(path, [a]) == a
  {
    assert [a][1..] == [];
  }

  /** Joining one part to a directory gives the same path whether or not
      the directory is written with its trailing "/". */
  lemma PathJoinSlashed(dir: string, a: string)
    requires dir != "" && !EndsWith(dir, "/")
    ensures PathJoin(dir + "/", [a]) == PathJoin(dir, [a])
  {
    if StartsWith(a, "/") {
      PathJoinAbsolute(dir + "/", a);
      PathJoinAbsolute(dir, a);
    } else {
      assert EndsWith(dir + "/", "/");
      PathJoinOne(dir + "/", a);
      PathJoinOne(dir, a);
    }
  }

  lemma PathJoinTwo(path: string, a: string, b: string)
    ensures path != "" && !EndsWith(path, "/") &&
            a != "" && !StartsWith(a, "/") && !EndsWith(a, "/") && !StartsWith(b, "/")
            ==> PathJoin(path, [a, b]) == path + "/" + a + "/" + b
  {
    if path == "" || EndsWith(path, "/") || a == "" || StartsWith(a, "/") || EndsWith(a, "/") || StartsWith(b, "/") {
      return;
    }
    var mid := path + "/" + a;
    assert [a, b][1..] == [b];
    assert mid[|mid| - 1] == a[|a| - 1];
    assert !EndsWith(mid, "/");
    PathJoinOne(mid, b);
  }

  /** Splitting a string without the separator gives the string alone. */
  lemma {:induction false} SplitNone(a: string, c: char)
    requires c !in a
    ensures Split(a, c) == [a]
    decreases |a|
  {
    if a != [] {
      SplitNone(a[1..], c);
      assert [a[0]] + a[1..] == a;
    }
  }

  /** A separator after a separator-free prefix ends the first part. */
  lemma {:induction false} SplitAt(a: string, rest: string, c: char)
    requires c !in a
    ensures Split(a + [c] + rest, c) == [a] + Split(rest, c)
    decreases |a|
  {
    var s := a + [c] + rest;
    if a == [] {
      assert s[1..] == rest;
    } else {
      assert s[1..] == a[1..] + [c] + rest;
      SplitAt(a[1..], rest, c);
      assert [a[0]] + a[1..] == a;
    }
  }

  /** Splitting undoes joining when no part holds the separator. */
  lemma {:induction false} SplitJoin(parts: seq<string>, c: char)
    requires parts != []
    requires forall i :: 0 <= i < |parts| ==> c !in parts[i]
    ensures Split(Join([c], parts), c) == parts
    decreases |parts|
  {
    if |parts| == 1 {
      SplitNone(parts[0], c);
    } else {
      SplitJoin(parts[1..], c);
      SplitAt(parts[0], Join([c], parts[1..]), c);
      assert [parts[0]] + parts[1..] == parts;
    }
  }
  /** Joining the parts of a split gives back the string. */
  lemma {:induction false} JoinSplit(s: string, c: char)
    ensures Join([c], Split(s, c)) == s
    decreases |s|
  {
    if s != [] {
      var rest := Split(s[1..], c);
      JoinSplit(s[1..], c);
      var parts := Split(s, c);
      if s[0] == c {
        assert parts == [""] + rest;
        assert parts[1..] == rest;
        assert [s[0]] + s[1..] == s;
      } else if |rest| == 1 {
        assert parts == [[s[0]] + rest[0]];
        assert [s[0]] + s[1..] == s;
      } else {
        assert parts[1..] == rest[1..];
        assert parts[0] == [s[0]] + rest[0];
        assert [s[0]] + s[1..] == s;
      }
    }
  }
}
