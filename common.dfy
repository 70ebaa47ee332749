/** Values, OS inputs and Python string operations shared by the models. */
module Common {

  datatype Option<+T> = None | Some(value: T)

  /** What a Python call returned, or that it raised. */
  datatype Outcome<+T> = Returned(value: T) | Raised

  /** The result of `subprocess.run(..., capture_output=True, text=True, timeout=...)`:
      the process exited with a return code and captured stdout, or the call
      itself raised (binary not found, timeout expired). */
  datatype Run = Exited(returnCode: int, stdout: string) | Failed

  /** A directory as `os.path.exists` followed by `os.listdir` sees it. */
  datatype DirListing = Absent | Unreadable | Listed(entries: seq<string>)

  /** `s.startswith(prefix)` */
  predicate StartsWith(s: string, prefix: string) {
    |prefix| <= |s| && s[..|prefix|] == prefix
  }

  /** `s.endswith(suffix)` */
  predicate EndsWith(s: string, suffix: string) {
    |suffix| <= |s| && s[|s| - |suffix|..] == suffix
  }

  /** `sub in s` */
  predicate Contains(s: string, sub: string) {
    exists i :: 0 <= i <= |s| && StartsWith(s[i..], sub)
  }

  /** `str.lower()` on one character (ASCII letters only). */
  function LowerChar(c: char): char {
    if 'A' <= c <= 'Z' then (c as int + 32) as char else c
  }

  /** `s.lower()` */
  function Lower(s: string): string {
    seq(|s|, i requires 0 <= i < |s| => LowerChar(s[i]))
  }

  /** The characters `str.strip()` removes (its ASCII and Latin-1 part). */
  predicate IsSpace(c: char) {
    9 <= c as int <= 13 || 28 <= c as int <= 32 || c as int == 0x85 || c as int == 0xA0
  }

  /** `s.lstrip()`: the longest suffix of `s` that does not start with whitespace. */
  function StripStart(s: string): (r: string)
    ensures |r| <= |s| && r == s[|s| - |r|..]
    ensures r == [] || !IsSpace(r[0])
    ensures forall i :: 0 <= i < |s| - |r| ==> IsSpace(s[i])
  {
    if |s| > 0 && IsSpace(s[0]) then StripStart(s[1..]) else s
  }

  /** `s.rstrip()`: the longest prefix of `s` that does not end with whitespace. */
  function StripEnd(s: string): (r: string)
    ensures |r| <= |s| && r == s[..|r|]
    ensures r == [] || !IsSpace(r[|r| - 1])
    ensures forall i :: |r| <= i < |s| ==> IsSpace(s[i])
  {
    if |s| > 0 && IsSpace(s[|s| - 1]) then StripEnd(s[..|s| - 1]) else s
  }

  /** `s.strip()` */
  function Strip(s: string): string {
    StripEnd(StripStart(s))
  }

  /** What `strip()` keeps is a slice of the input with whitespace only outside it,
      and stripping twice is stripping once. */
  lemma StripSpec(s: string)
    ensures var r := Strip(s);
      (r == [] || (!IsSpace(r[0]) && !IsSpace(r[|r| - 1])))
      && exists i :: 0 <= i <= |s| && StartsWith(s[i..], r)
    ensures Strip(Strip(s)) == Strip(s)
  {
    var a := StripStart(s);
    var r := StripEnd(a);
    assert r == [] || !IsSpace(r[0]) by {
      if r != [] { assert r[0] == a[0]; }
    }
    assert StartsWith(s[|s| - |a|..], r);
    assert StripStart(r) == r;
    assert StripEnd(r) == r;
  }

  /** `os.path.basename(path)`: what follows the last '/'. */
  function Basename(path: string): (name: string)
    ensures '/' !in name
    ensures EndsWith(path, name)
    ensures |name| < |path| ==> path[|path| - |name| - 1] == '/'
  {
    if |path| == 0 || path[|path| - 1] == '/' then ""
    else Basename(path[..|path| - 1]) + [path[|path| - 1]]
  }

  /** The base name of `dir + "/" + name` is `name` whenever `name` has no '/'. */
  lemma {:induction false} BasenameOfJoin(dir: string, name: string)
    requires '/' !in name
    ensures Basename(dir + "/" + name) == name
  {
    if name == [] {
    } else {
      var init := name[..|name| - 1];
      assert dir + "/" + name == (dir + "/" + init) + [name[|name| - 1]];
      assert (dir + "/" + name)[..|dir + "/" + name| - 1] == dir + "/" + init;
      assert forall c :: c in init ==> c in name;
      BasenameOfJoin(dir, init);
    }
  }

  /** `s.split(sep)` */
  function Split(s: string, sep: char): (parts: seq<string>)
    ensures |parts| >= 1
    ensures forall k :: 0 <= k < |parts| ==> sep !in parts[k]
  {
    if s == [] then [""]
    else if s[0] == sep then [""] + Split(s[1..], sep)
    else
      var rest := Split(s[1..], sep);
      [[s[0]] + rest[0]] + rest[1..]
  }

  /** `sep.join(parts)` */
  function Join(parts: seq<string>, sep: char): (s: string)
    requires |parts| >= 1
    ensures |s| >= |parts| - 1
  {
    if |parts| == 1 then parts[0] else parts[0] + [sep] + Join(parts[1..], sep)
  }

  /** Splitting loses nothing: joining the pieces back gives the input. */
  lemma {:induction false} JoinSplit(s: string, sep: char)
    ensures Join(Split(s, sep), sep) == s
  {
    if s == [] {
    } else if s[0] == sep {
      JoinSplit(s[1..], sep);
      assert Split(s, sep)[1..] == Split(s[1..], sep);
    } else {
      var rest := Split(s[1..], sep);
      JoinSplit(s[1..], sep);
      var parts := [[s[0]] + rest[0]] + rest[1..];
      if |rest| == 1 {
      } else {
        assert parts[1..] == rest[1..];
        assert Join(rest, sep) == rest[0] + [sep] + Join(rest[1..], sep);
      }
    }
  }

  /** A text without the separator splits into itself. */
  lemma {:induction false} SplitWithoutSeparator(s: string, sep: char)
    requires sep !in s
    ensures Split(s, sep) == [s]
  {
    if s != [] {
      assert forall c :: c in s[1..] ==> c in s;
      SplitWithoutSeparator(s[1..], sep);
      assert s[0] != sep;
      assert [s[0]] + s[1..] == s;
    }
  }

  /** A piece without the separator, then the separator, splits off as one part. */
  lemma {:induction false} SplitAfterPiece(piece: string, sep: char, rest: string)
    requires sep !in piece
    ensures Split(piece + [sep] + rest, sep) == [piece] + Split(rest, sep)
  {
    var s := piece + [sep] + rest;
    if piece == [] {
      assert s[1..] == rest;
    } else {
      assert s[1..] == piece[1..] + [sep] + rest;
      assert forall c :: c in piece[1..] ==> c in piece;
      SplitAfterPiece(piece[1..], sep, rest);
      assert [piece[0]] + piece[1..] == piece;
    }
  }

  /** Joining parts that do not hold the separator and splitting again gives the parts. */
  lemma {:induction false} SplitJoin(parts: seq<string>, sep: char)
    requires |parts| >= 1
    requires forall k :: 0 <= k < |parts| ==> sep !in parts[k]
    ensures Split(Join(parts, sep), sep) == parts
    decreases |parts|
  {
    if |parts| == 1 {
      SplitWithoutSeparator(parts[0], sep);
    } else {
      SplitJoin(parts[1..], sep);
      SplitAfterPiece(parts[0], sep, Join(parts[1..], sep));
    }
  }

  /** `s.count(sub)`: non-overlapping occurrences, scanning left to right. */
  function CountOccurrences(s: string, sub: string): nat
    requires |sub| > 0
    decreases |s|
  {
    if |s| < |sub| then 0
    else if StartsWith(s, sub) then 1 + CountOccurrences(s[|sub|..], sub)
    else CountOccurrences(s[1..], sub)
  }

  /** `s.count(sub) > 0` exactly when `sub in s`. */
  lemma {:induction false} CountPositiveIffContains(s: string, sub: string)
    requires |sub| > 0
    ensures CountOccurrences(s, sub) > 0 <==> Contains(s, sub)
    decreases |s|
  {
    if |s| < |sub| {
      forall i | 0 <= i <= |s| ensures !StartsWith(s[i..], sub) { }
    } else if StartsWith(s, sub) {
      assert s[0..] == s;
    } else {
      CountPositiveIffContains(s[1..], sub);
      if Contains(s, sub) {
        var i :| 0 <= i <= |s| && StartsWith(s[i..], sub);
        assert i != 0 by { assert s[0..] == s; }
        assert s[1..][i - 1..] == s[i..];
      }
      if Contains(s[1..], sub) {
        var i :| 0 <= i <= |s[1..]| && StartsWith(s[1..][i..], sub);
        assert s[1..][i..] == s[i + 1..];
      }
    }
  }

  function DigitChar(d: nat): char
    requires d < 10
  {
    ('0' as int + d) as char
  }

  /** `str(n)` for a non-negative integer. */
  function NatToString(n: nat): (s: string)
    ensures |s| >= 1
    ensures forall k :: 0 <= k < |s| ==> '0' <= s[k] <= '9'
  {
    if n < 10 then [DigitChar(n)] else NatToString(n / 10) + [DigitChar(n % 10)]
  }

  /** `int(s)` for a string of decimal digits. */
  function ParseDigits(s: string): nat
    requires forall k :: 0 <= k < |s| ==> '0' <= s[k] <= '9'
  {
    if s == [] then 0 else 10 * ParseDigits(s[..|s| - 1]) + (s[|s| - 1] as int - '0' as int)
  }

  /** `int(str(n)) == n`: the decimal text of a number reads back as that number. */
  lemma {:induction false} ParseNatToString(n: nat)
    ensures ParseDigits(NatToString(n)) == n
  {
    if n >= 10 {
      ParseNatToString(n / 10);
      var s := NatToString(n);
      assert s[..|s| - 1] == NatToString(n / 10);
    }
  }

  /** A text that contains `pre + sub` contains `sub`. */
  lemma ContainsTail(s: string, pre: string, sub: string)
    requires Contains(s, pre + sub)
    ensures Contains(s, sub)
  {
    var i :| 0 <= i <= |s| && StartsWith(s[i..], pre + sub);
    assert s[i + |pre|..][..|sub|] == (pre + sub)[|pre|..];
  }

  /** A text that contains `sub + post` contains `sub`. */
  lemma ContainsHead(s: string, sub: string, post: string)
    requires Contains(s, sub + post)
    ensures Contains(s, sub)
  {
    var i :| 0 <= i <= |s| && StartsWith(s[i..], sub + post);
    assert s[i..][..|sub|] == (sub + post)[..|sub|];
  }

  /** `[e for e in entries if e.startswith(prefix)][0]`, when there is one. */
  function FirstWithPrefix(entries: seq<string>, prefix: string): (r: Option<string>)
    ensures r.None? <==> forall k :: 0 <= k < |entries| ==> !StartsWith(entries[k], prefix)
    ensures r.Some? ==> exists k :: 0 <= k < |entries| && entries[k] == r.value && StartsWith(r.value, prefix)
                                    && forall j :: 0 <= j < k ==> !StartsWith(entries[j], prefix)
  {
    if entries == [] then None
    else if StartsWith(entries[0], prefix) then Some(entries[0])
    else
      var r := FirstWithPrefix(entries[1..], prefix);
      assert forall k :: 1 <= k < |entries| ==> entries[k] == entries[1..][k - 1];
      r
  }
}
