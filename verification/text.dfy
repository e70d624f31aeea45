/** The string operations of Go's standard library that the parsers and printers rely on. */
module Text {

  /** `p` occurs in `s` at offset `i`. */
  predicate At(s: string, p: string, i: int) {
    0 <= i && i + |p| <= |s| && s[i..i + |p|] == p
  }

  function IndexFrom(s: string, p: string, i: nat): (r: int)
    ensures r == -1 || (i <= r && At(s, p, r) && forall j :: i <= j < r ==> !At(s, p, j))
    ensures r == -1 ==> forall j :: i <= j ==> !At(s, p, j)
    decreases |s| - i
  {
    if i + |p| > |s| then -1
    else if At(s, p, i) then i
    else IndexFrom(s, p, i + 1)
  }

  /** strings.Index: the first occurrence, or -1. */
  function Index(s: string, p: string): int {
    IndexFrom(s, p, 0)
  }

  datatype CutResult = CutResult(before: string, after: string, found: bool)

  /** strings.Cut: split around the first occurrence of `sep`. */
  function Cut(s: string, sep: string): CutResult {
    var i := Index(s, sep);
    if i < 0 then CutResult(s, "", false)
    else CutResult(s[..i], s[i + |sep|..], true)
  }

  /** An occurrence starts with the pattern's first character. */
  lemma NotAt(s: string, p: string, i: nat)
    requires p != "" && i < |s| && s[i] != p[0]
    ensures !At(s, p, i)
  {
  }

  /** A separator whose first character is absent from `pre` is found right after `pre`. */
  lemma CutAfter(pre: string, sep: string, post: string)
    requires sep != "" && sep[0] !in pre
    ensures Cut(pre + sep + post, sep) == CutResult(pre, post, true)
  {
    var s := pre + sep + post;
    assert At(s, sep, |pre|);
    forall j | 0 <= j < |pre|
      ensures !At(s, sep, j)
    {
      NotAt(s, sep, j);
    }
    assert Index(s, sep) == |pre|;
  }

  /** unicode.IsSpace. */
  predicate IsSpace(c: char) {
    || '\U{0009}' <= c <= '\U{000D}' || c == ' ' || c == '\U{0085}' || c == '\U{00A0}' || c == '\U{1680}'
    || '\U{2000}' <= c <= '\U{200A}' || c == '\U{2028}' || c == '\U{2029}' || c == '\U{202F}'
    || c == '\U{205F}' || c == '\U{3000}'
  }

  /** strings.TrimSpace. */
  function TrimSpace(s: string): string {
    if s != "" && IsSpace(s[0]) then TrimSpace(s[1..])
    else if s != "" && IsSpace(s[|s| - 1]) then TrimSpace(s[..|s| - 1])
    else s
  }

  /** strings.Split on a one-character separator. */
  function Split(s: string, sep: char): (parts: seq<string>)
    ensures |parts| > 0
  {
    if s == "" then [""]
    else
      var rest := Split(s[1..], sep);
      if s[0] == sep then [""] + rest else [[s[0]] + rest[0]] + rest[1..]
  }

  /** strings.Join with a one-character separator. */
  function Join(parts: seq<string>, sep: char): string {
    if |parts| == 0 then ""
    else if |parts| == 1 then parts[0]
    else parts[0] + [sep] + Join(parts[1..], sep)
  }

  lemma SplitCons(c: char, s: string, sep: char)
    ensures Split([c] + s, sep)
         == (var rest := Split(s, sep); if c == sep then [""] + rest else [[c] + rest[0]] + rest[1..])
  {
    assert ([c] + s)[1..] == s;
  }

  lemma {:induction false} SplitAround(a: string, sep: char, b: string)
    ensures Split(a + [sep] + b, sep) == Split(a, sep) + Split(b, sep)
  {
    hide Split;
    if a == "" {
      assert a + [sep] + b == [sep] + b;
      SplitCons(sep, b, sep);
      assert Split("", sep) == [""] by {
        SplitNothing(sep);
      }
    } else {
      assert a + [sep] + b == [a[0]] + (a[1..] + [sep] + b) && a == [a[0]] + a[1..];
      SplitCons(a[0], a[1..] + [sep] + b, sep);
      SplitCons(a[0], a[1..], sep);
      SplitAround(a[1..], sep, b);
      var l, r := Split(a[1..], sep), Split(b, sep);
      assert (l + r)[1..] == l[1..] + r && (l + r)[0] == l[0];
    }
  }

  lemma SplitNothing(sep: char)
    ensures Split("", sep) == [""]
  {
  }

  lemma {:induction false} SplitWhole(s: string, sep: char)
    requires sep !in s
    ensures Split(s, sep) == [s]
  {
    if s != "" {
      SplitWhole(s[1..], sep);
      assert [s[0]] + s[1..] == s;
    }
  }

  /** fmt's %d, for the positive numbers it is used on. */
  function Itoa(n: nat): (s: string)
    ensures s != "" && forall c :: c in s ==> '0' <= c <= '9'
  {
    var digit := ['0' + (n % 10) as char];
    if n < 10 then digit else Itoa(n / 10) + digit
  }

  function Atoi(s: string): int {
    if s == "" then 0 else Atoi(s[..|s| - 1]) * 10 + (s[|s| - 1] as int - '0' as int)
  }

  lemma {:induction false} AtoiOfItoa(n: nat)
    ensures Atoi(Itoa(n)) == n
  {
    var digit := ['0' + (n % 10) as char];
    if n < 10 {
      assert Itoa(n)[..0] == "";
    } else {
      AtoiOfItoa(n / 10);
      assert Itoa(n)[..|Itoa(n)| - 1] == Itoa(n / 10);
    }
  }

  function TrimSlashes(s: string): (r: string)
    ensures r == "" || r[|r| - 1] != '/'
  {
    if s != "" && s[|s| - 1] == '/' then TrimSlashes(s[..|s| - 1]) else s
  }

  function AfterSlash(s: string): (r: string)
    ensures '/' !in r
    ensures s != "" && s[|s| - 1] != '/' ==> r != ""
  {
    if s == "" || s[|s| - 1] == '/' then "" else AfterSlash(s[..|s| - 1]) + [s[|s| - 1]]
  }

  /** path.Base. */
  function Base(path: string): string {
    if path == "" then "."
    else if TrimSlashes(path) == "" then "/"
    else AfterSlash(TrimSlashes(path))
  }

  lemma {:induction false} NoSlash(s: string)
    requires '/' !in s
    ensures TrimSlashes(s) == s && AfterSlash(s) == s
  {
    if s != "" {
      NoSlash(s[..|s| - 1]);
    }
  }

  /** Reading a base name again returns it. */
  lemma BaseOfBase(path: string)
    ensures Base(Base(path)) == Base(path)
  {
    NoSlash(".");
    if path != "" && TrimSlashes(path) != "" {
      var b := Base(path);
      NoSlash(b);
    } else {
      assert "/"[..0] == "" && TrimSlashes("") == "";
    }
  }

  lemma {:induction false} AfterLastSlash(dir: string, name: string)
    requires '/' !in name
    ensures AfterSlash(dir + "/" + name) == name
  {
    var s := dir + "/" + name;
    if name != "" {
      AfterLastSlash(dir, name[..|name| - 1]);
      assert s[..|s| - 1] == dir + "/" + name[..|name| - 1];
    }
  }

  /** The base of a path is what follows its last slash. */
  lemma BaseOfFile(dir: string, name: string)
    requires name != "" && '/' !in name
    ensures Base(dir + "/" + name) == name && Base(name) == name
  {
    var s := dir + "/" + name;
    assert s[|s| - 1] == name[|name| - 1];
    AfterLastSlash(dir, name);
    NoSlash(name);
  }

  lemma TrimNothing()
    ensures TrimSpace("") == ""
  {
  }

  /** Trimming leaves nothing to trim, and adds no character. */
  lemma {:induction false} TrimmedIsPart(s: string, sep: char)
    ensures TrimSpace(TrimSpace(s)) == TrimSpace(s)
    ensures sep !in s ==> sep !in TrimSpace(s)
    decreases |s|
  {
    hide IsSpace;
    if s != "" && IsSpace(s[0]) {
      TrimmedIsPart(s[1..], sep);
    } else if s != "" && IsSpace(s[|s| - 1]) {
      TrimmedIsPart(s[..|s| - 1], sep);
    }
  }

  /** No part of a split string contains the separator. */
  lemma {:induction false} SplitParts(s: string, sep: char)
    ensures forall p :: p in Split(s, sep) ==> sep !in p
  {
    if s != "" {
      SplitParts(s[1..], sep);
    }
  }
}
