/** String and path helpers used by the stager: prefix and suffix tests,
    substring search, splitting a path at its last '/', joining a directory
    with a file name, splitting a comma-separated option and printing a
    natural number in decimal. */
module Paths {

  /** `s.startswith(prefix)` */
  predicate StartsWith(s: string, prefix: string) {
    |prefix| <= |s| && s[..|prefix|] == prefix
  }

  /** `s.endswith(suffix)` */
  predicate EndsWith(s: string, suffix: string) {
    |suffix| <= |s| && s[|s| - |suffix|..] == suffix
  }

  /** `sub` occurs in `s` starting at index `i`. */
  predicate OccursAt(s: string, sub: string, i: int) {
    0 <= i && i + |sub| <= |s| && s[i..i + |sub|] == sub
  }

  /** `s.find(sub, from)`: the lowest index at or after `from` where `sub`
      occurs in `s`, or -1 when there is none. */
  function FindFrom(s: string, sub: string, from: nat): (r: int)
    requires from <= |s|
    ensures r == -1 || (from <= r && OccursAt(s, sub, r))
    ensures forall i :: from <= i && (r == -1 || i < r) ==> !OccursAt(s, sub, i)
    decreases |s| - from
  {
    if from + |sub| > |s| then -1
    else if s[from..from + |sub|] == sub then from
    else FindFrom(s, sub, from + 1)
  }

  /** `s.find(sub)` */
  function Find(s: string, sub: string): (r: int)
    ensures r == -1 || OccursAt(s, sub, r)
    ensures r == -1 <==> forall i :: !OccursAt(s, sub, i)
    ensures r != -1 ==> forall i :: 0 <= i < r ==> !OccursAt(s, sub, i)
  {
    FindFrom(s, sub, 0)
  }

  /** Splits a path at its last '/' into (head, last component), the way
      `FileSystems.split` does; `os.path.basename` is the second part. The
      last component is collected backwards from the end of the path. */
  function Split(path: string): (r: (string, string))
    ensures '/' !in r.1
  {
    if path == [] then ("", "")
    else
      var last := path[|path| - 1];
      if last == '/' then (path[..|path| - 1], "")
      else
        var (head, tail) := Split(path[..|path| - 1]);
        assert path == path[..|path| - 1] + [last];
        (head, tail + [last])
  }

  /** The last component of a path is a suffix of it. */
  lemma {:induction false} SplitSuffix(path: string)
    ensures EndsWith(path, Split(path).1)
  {
    if path != [] && path[|path| - 1] != '/' {
      var init, last := path[..|path| - 1], path[|path| - 1];
      SplitSuffix(init);
      assert path == init + [last];
      SuffixExtends(init, Split(init).1, last);
    }
  }

  /** The two parts of a path that holds a '/' put together around a '/'
      give the path back. */
  lemma {:induction false} SplitRejoins(path: string)
    ensures '/' in path ==> path == Split(path).0 + "/" + Split(path).1
  {
    if '/' !in path {
      return;
    }
    var init, last := path[..|path| - 1], path[|path| - 1];
    assert path == init + [last];
    if last != '/' {
      assert '/' in init by {
        var i :| 0 <= i < |path| && path[i] == '/';
        assert init[i] == '/';
      }
      SplitRejoins(init);
      var (head, tail) := Split(init);
      assert path == (head + "/" + tail) + [last];
    }
  }

  /** A path without any '/' is a bare file name: it is all last component. */
  lemma {:induction false} SplitOfName(path: string)
    requires '/' !in path
    ensures Split(path) == ("", path)
  {
    if path != [] {
      var init := path[..|path| - 1];
      assert '/' !in init by {
        forall i | 0 <= i < |init| ensures init[i] != '/' {
          assert init[i] == path[i];
        }
      }
      SplitOfName(init);
      assert path == init + [path[|path| - 1]];
    }
  }

  /** A suffix of `s` followed by `c` is a suffix of `s + [c]`. */
  lemma SuffixExtends(s: string, suffix: string, c: char)
    requires EndsWith(s, suffix)
    ensures EndsWith(s + [c], suffix + [c])
  {
    assert (s + [c])[|s| - |suffix|..] == s[|s| - |suffix|..] + [c];
  }

  /** `os.path.basename(path)` */
  function Basename(path: string): string {
    Split(path).1
  }

  /** `os.path.join(dir, name)` (and `FileSystems.join`) for a relative
      `name`: an empty directory adds nothing, and no second '/' is put
      after a directory that already ends in one. */
  function Join(dir: string, name: string): (r: string)
    ensures EndsWith(r, name)
  {
    if dir == [] then name
    else if dir[|dir| - 1] == '/' then dir + name
    else dir + "/" + name
  }

  /** Splitting a joined path gives back the file name: the name is the
      last component of the path it is joined into. */
  lemma SplitOfJoin(dir: string, name: string)
    requires '/' !in name
    ensures Split(Join(dir, name)).1 == name
    ensures dir != [] && dir[|dir| - 1] != '/' ==> Split(Join(dir, name)).0 == dir
  {
    if dir == [] {
      SplitOfName(name);
    } else if dir[|dir| - 1] == '/' {
      SplitAppend(dir, name);
      assert dir == dir[..|dir| - 1] + ['/'];
    } else {
      var slashed := dir + "/";
      assert slashed[..|slashed| - 1] == dir;
      SplitAppend(slashed, name);
      assert Join(dir, name) == slashed + name;
    }
  }

  /** Appending a name without '/' to a path extends its last component
      and leaves its head alone. */
  lemma {:induction false} SplitAppend(path: string, name: string)
    requires '/' !in name
    ensures Split(path + name) == (Split(path).0, Split(path).1 + name)
    decreases |name|
  {
    if name == [] {
      assert path + name == path;
      assert Split(path).1 + name == Split(path).1;
    } else {
      var init, last := name[..|name| - 1], name[|name| - 1];
      assert '/' !in init by {
        forall i | 0 <= i < |init| ensures init[i] != '/' {
          assert init[i] == name[i];
        }
      }
      SplitAppend(path, init);
      var whole := path + name;
      assert whole[..|whole| - 1] == path + init;
      assert whole[|whole| - 1] == last;
      assert Split(path).1 + name == (Split(path).1 + init) + [last];
    }
  }

  /** `s.split(sep)`: the parts between separators, empty ones included. */
  function SplitOn(s: string, sep: char): (parts: seq<string>)
    ensures |parts| >= 1
    ensures forall i :: 0 <= i < |parts| ==> sep !in parts[i]
  {
    if s == [] then [""]
    else
      var rest := SplitOn(s[1..], sep);
      if s[0] == sep then [""] + rest
      else [[s[0]] + rest[0]] + rest[1..]
  }

  /** `sep.join(parts)` */
  function JoinWith(parts: seq<string>, sep: char): string
    requires |parts| >= 1
  {
    if |parts| == 1 then parts[0]
    else parts[0] + [sep] + JoinWith(parts[1..], sep)
  }

  /** Splitting at a separator loses nothing: joining the parts again with
      the same separator restores the original string. */
  lemma {:induction false} SplitOnRoundTrip(s: string, sep: char)
    ensures JoinWith(SplitOn(s, sep), sep) == s
  {
    if s != [] {
      var rest := SplitOn(s[1..], sep);
      SplitOnRoundTrip(s[1..], sep);
      if s[0] == sep {
        assert SplitOn(s, sep)[1..] == rest;
      } else {
        var parts := SplitOn(s, sep);
        if |rest| == 1 {
          assert parts == [[s[0]] + rest[0]];
        } else {
          assert parts[1..] == rest[1..];
          assert JoinWith(rest, sep) == rest[0] + [sep] + JoinWith(rest[1..], sep);
        }
      }
    }
  }

  predicate IsDigit(c: char) {
    '0' <= c <= '9'
  }

  function DigitChar(d: nat): (c: char)
    requires d < 10
    ensures IsDigit(c)
  {
    "0123456789"[d]
  }

  /** `'%d' % n` for a natural number: its decimal digits. */
  function Decimal(n: nat): (r: string)
    ensures |r| >= 1
    ensures forall i :: 0 <= i < |r| ==> IsDigit(r[i])
  {
    if n < 10 then [DigitChar(n)]
    else Decimal(n / 10) + [DigitChar(n % 10)]
  }

  /** The number a string of decimal digits denotes. */
  function DecimalValue(s: string): nat
    requires forall i :: 0 <= i < |s| ==> IsDigit(s[i])
  {
    if s == [] then 0
    else
      assert IsDigit(s[|s| - 1]);
      DecimalValue(s[..|s| - 1]) * 10 + (s[|s| - 1] as int - '0' as int)
  }

  /** `Decimal` prints `n` in base ten: reading the digits back gives `n`. */
  lemma {:induction false} DecimalRoundTrip(n: nat)
    ensures DecimalValue(Decimal(n)) == n
  {
    var r := Decimal(n);
    if n < 10 {
      assert r[..0] == [];
    } else {
      DecimalRoundTrip(n / 10);
      assert r[..|r| - 1] == Decimal(n / 10);
    }
  }

  /** `s.replace(from, to)` for single characters. */
  function ReplaceChar(s: string, from: char, to: char): (r: string)
    ensures |r| == |s|
    ensures from != to ==> from !in r
  {
    seq(|s|, i requires 0 <= i < |s| => if s[i] == from then to else s[i])
  }
}
