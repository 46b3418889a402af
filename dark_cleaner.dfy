/** The one-off codemod `clean_remaining_dark.py`: it deletes every Tailwind
 *  `dark:` class, with its leading space, from a fixed list of files and
 *  counts the characters removed per file and in total. */
module DarkCleaner {
  import opened Wrappers

  /** Python's `\s` on `str` patterns: the characters `str.isspace()` accepts. */
  predicate IsPySpace(c: char)
  {
    ('\t' <= c <= '\r') || ('\U{1C}' <= c <= '\U{1F}') || c == ' ' || c == '\U{85}'
    || c == '\U{A0}' || c == '\U{1680}' || ('\U{2000}' <= c <= '\U{200A}')
    || c == '\U{2028}' || c == '\U{2029}' || c == '\U{202F}' || c == '\U{205F}'
    || c == '\U{3000}'
  }

  /** The characters that end a class token: `[\s"'>\n]`. */
  predicate IsDelim(c: char)
  {
    IsPySpace(c) || c == '"' || c == '\'' || c == '>' || c == '\n'
  }

  const Prefix: string := " dark:"

  /** The pattern ` dark:[^\s"'>\n]+` matches at the start of `s`. */
  predicate MatchAt(s: string)
  {
    |s| > |Prefix| && s[..|Prefix|] == Prefix && !IsDelim(s[|Prefix|])
  }

  /** Number of leading non-delimiter characters (the greedy `+`). */
  function TokenLen(s: string): (n: nat)
    ensures n <= |s|
    ensures forall i :: 0 <= i < n ==> !IsDelim(s[i])
    ensures n == |s| || IsDelim(s[n])
  {
    if s == [] || IsDelim(s[0]) then 0 else 1 + TokenLen(s[1..])
  }

  /** Length of the greedy match at the start of `s`. */
  function MatchLen(s: string): (n: nat)
    requires MatchAt(s)
    ensures |Prefix| < n <= |s|
    ensures n == |s| || IsDelim(s[n])
  {
    |Prefix| + TokenLen(s[|Prefix|..])
  }

  /** `re.sub(r' dark:[^\s"\'>\n]+', '', s)`: scan left to right, delete each
   *  leftmost greedy match and continue after it. */
  function StripDark(s: string): (r: string)
    ensures |r| <= |s|
    decreases |s|
  {
    if s == [] then []
    else if MatchAt(s) then StripDark(s[MatchLen(s)..])
    else [s[0]] + StripDark(s[1..])
  }

  /** No match starts anywhere in `s`. */
  predicate NoMatch(s: string)
  {
    forall i :: 0 <= i < |s| ==> !MatchAt(s[i..])
  }

  /** Text that contains no match is written back unchanged. */
  lemma {:induction false} NoMatchUnchanged(s: string)
    requires NoMatch(s)
    ensures StripDark(s) == s
    decreases |s|
  {
    if s != [] {
      assert !MatchAt(s[0..]);
      assert s[0..] == s;
      forall i | 0 <= i < |s[1..]| ensures !MatchAt(s[1..][i..]) {
        assert s[1..][i..] == s[i + 1..];
      }
      NoMatchUnchanged(s[1..]);
    }
  }

  /** A run without a space is copied verbatim. */
  lemma {:induction false} CopyRun(s: string, k: nat)
    requires k <= |s|
    requires forall i :: 0 <= i < k ==> s[i] != ' '
    ensures StripDark(s) == s[..k] + StripDark(s[k..])
    decreases k
  {
    if k > 0 {
      NoMatchAtNonSpace(s);
      CopyRun(s[1..], k - 1);
      ConsSliceAt(s, k, StripDark(s[k..]));
    }
  }

  /** No match starts at a character other than a space. */
  lemma NoMatchAtNonSpace(s: string)
    requires s != [] && s[0] != ' '
    ensures !MatchAt(s)
  {
    if |s| > |Prefix| {
      assert s[..|Prefix|][0] == s[0];
    }
  }

  /** The first `k` characters and more, read as the first character, the
   *  next `k - 1` and more. */
  lemma ConsSliceAt(s: string, k: nat, rest: string)
    requires 0 < k <= |s|
    ensures s[1..][k - 1..] == s[k..]
    ensures [s[0]] + (s[1..][..k - 1] + rest) == s[..k] + rest
  {
    assert [s[0]] + s[1..][..k - 1] == s[..k];
  }

  /** Output that starts at a delimiter still starts at one. */
  lemma {:induction false} DelimStart(s: string)
    requires s == [] || IsDelim(s[0])
    ensures StripDark(s) == [] || IsDelim(StripDark(s)[0])
    decreases |s|
  {
    if s != [] && MatchAt(s) {
      DelimStart(s[MatchLen(s)..]);
    }
  }

  /** The first space of `s` at or after index 1, or `|s|`. */
  function NextSpace(s: string, from: nat): (j: nat)
    requires from <= |s|
    ensures from <= j <= |s|
    ensures forall i :: from <= i < j ==> s[i] != ' '
    ensures j == |s| || s[j] == ' '
    decreases |s| - from
  {
    if from == |s| || s[from] == ' ' then from else NextSpace(s, from + 1)
  }

  lemma PrefixLettersNotDelim()
    ensures forall k :: 1 <= k < |Prefix| ==> !IsDelim(Prefix[k])
  {
    assert Prefix[1] == 'd' && Prefix[2] == 'a' && Prefix[3] == 'r';
    assert Prefix[4] == 'k' && Prefix[5] == ':';
  }

  /** Keeping the first `j + 1` characters of an unmatched `s` and then
   *  continuing at a delimiter (or stopping) creates no match at the front. */
  lemma ShapeUnmatched(s: string, j: nat, tail: string)
    requires j < |s| && !MatchAt(s)
    requires tail == [] || IsDelim(tail[0])
    ensures !MatchAt(s[..j + 1] + tail)
  {
    var r := s[..j + 1] + tail;
    assert |r| == j + 1 + |tail|;
    assert |Prefix| == 6;
    if j >= |Prefix| {
      assert r[..|Prefix|] == s[..|Prefix|];
      assert r[|Prefix|] == s[|Prefix|];
    } else if tail != [] && |r| > |Prefix| {
      assert r[j + 1] == tail[0];
      if j + 1 < |Prefix| {
        PrefixLettersNotDelim();
        assert r[..|Prefix|][j + 1] != Prefix[j + 1];
      }
    }
  }

  lemma FrontAfterRun(s: string, j: nat)
    requires s != [] && !MatchAt(s) && j <= |s[1..]|
    requires j == |s[1..]| || s[1..][j] == ' '
    requires StripDark(s[1..]) == s[1..][..j] + StripDark(s[1..][j..])
    ensures !MatchAt([s[0]] + StripDark(s[1..]))
  {
    var t := s[1..];
    var rest := StripDark(t[j..]);
    assert rest == [] || IsDelim(rest[0]) by { DelimStart(t[j..]); }
    assert [s[0]] + (t[..j] + rest) == s[..j + 1] + rest by { ConsSlice(s, j, rest); }
    ShapeUnmatched(s, j, rest);
  }

  /** The first character, then the next `j`, then more: the first `j + 1`
   *  characters, then more. */
  lemma ConsSlice(s: string, j: nat, rest: string)
    requires s != [] && j <= |s| - 1
    ensures [s[0]] + (s[1..][..j] + rest) == s[..j + 1] + rest
  {
    assert [s[0]] + s[1..][..j] == s[..j + 1];
  }

  /** Copying a first character that does not start a match creates no match
   *  at the front of the output. */
  lemma FrontStaysUnmatched(s: string)
    requires s != [] && !MatchAt(s)
    ensures !MatchAt([s[0]] + StripDark(s[1..]))
  {
    var j := NextSpace(s[1..], 0);
    CopyRun(s[1..], j);
    FrontAfterRun(s, j);
  }

  /** The output never contains a match. */
  lemma {:induction false} OutputHasNoMatch(s: string)
    ensures NoMatch(StripDark(s))
    decreases |s|
  {
    if s == [] {
    } else if MatchAt(s) {
      OutputHasNoMatch(s[MatchLen(s)..]);
    } else {
      OutputHasNoMatch(s[1..]);
      var rest := StripDark(s[1..]);
      var r := [s[0]] + rest;
      forall i | 0 <= i < |r| ensures !MatchAt(r[i..]) {
        if i == 0 {
          FrontStaysUnmatched(s);
          assert r[0..] == r;
        } else {
          assert r[i..] == rest[i - 1..];
        }
      }
    }
  }

  /** Idempotence: a second pass removes nothing. */
  lemma StripDarkIdempotent(s: string)
    ensures StripDark(StripDark(s)) == StripDark(s)
  {
    OutputHasNoMatch(s);
    NoMatchUnchanged(StripDark(s));
  }

  /** A `dark:` class after a quote or a tab (not after a space) is kept. */
  lemma KeptWithoutLeadingSpace(c: char, rest: string)
    requires c != ' '
    ensures StripDark([c] + "dark:" + rest) == [c] + "dark:" + StripDark(rest)
  {
    var s := [c] + "dark:" + rest;
    CopyRun(s, 6);
    assert s[..6] == [c] + "dark:";
    assert s[6..] == rest;
  }

  lemma ClassAtFrontDeleted(token: string, rest: string)
    requires token != [] && forall i :: 0 <= i < |token| ==> !IsDelim(token[i])
    requires rest == [] || IsDelim(rest[0])
    ensures StripDark(Prefix + token + rest) == StripDark(rest)
  {
    MatchOfClass(Prefix + token + rest, token, rest);
  }

  /** A space, `dark:` and a token run up to a delimiter form one whole match,
   *  after which the scan continues at the delimiter. */
  lemma MatchOfClass(t: string, token: string, rest: string)
    requires token != [] && forall i :: 0 <= i < |token| ==> !IsDelim(token[i])
    requires rest == [] || IsDelim(rest[0])
    requires t == Prefix + token + rest
    ensures MatchAt(t) && t[MatchLen(t)..] == rest
  {
    Split(Prefix, token + rest);
    assert t == Prefix + (token + rest);
    assert t[|Prefix|] == token[0];
    TokenLenOfRun(token, rest);
    Split(Prefix + token, rest);
  }

  /** The two halves of a concatenation. */
  lemma Split(a: string, b: string)
    ensures (a + b)[..|a|] == a && (a + b)[|a|..] == b
  {
  }

  /** A space, `dark:` and a token run up to a delimiter are deleted together;
   *  the text before them (here without spaces) is kept. */
  lemma DeleteOneClass(head: string, token: string, rest: string)
    requires forall i :: 0 <= i < |head| ==> head[i] != ' '
    requires token != [] && forall i :: 0 <= i < |token| ==> !IsDelim(token[i])
    requires rest == [] || IsDelim(rest[0])
    ensures StripDark(head + Prefix + token + rest) == head + StripDark(rest)
  {
    var t := Prefix + token + rest;
    Regroup(head, Prefix, token, rest);
    HeadWithoutSpace(head, t);
    CopyRun(head + t, |head|);
    ClassAtFrontDeleted(token, rest);
  }

  lemma Regroup(a: string, b: string, c: string, d: string)
    ensures a + b + c + d == a + (b + c + d)
  {
  }

  /** A head without spaces in front of any text: the first characters are
   *  the head's, and the two halves split back. */
  lemma HeadWithoutSpace(head: string, t: string)
    requires forall i :: 0 <= i < |head| ==> head[i] != ' '
    ensures forall i :: 0 <= i < |head| ==> (head + t)[i] != ' '
    ensures (head + t)[..|head|] == head && (head + t)[|head|..] == t
  {
  }

  lemma {:induction false} TokenLenOfRun(token: string, rest: string)
    requires forall i :: 0 <= i < |token| ==> !IsDelim(token[i])
    requires rest == [] || IsDelim(rest[0])
    ensures TokenLen(token + rest) == |token|
    decreases |token|
  {
    if token == [] {
      assert token + rest == rest;
    } else {
      TokenLenOfRun(token[1..], rest);
      assert (token + rest)[1..] == token[1..] + rest;
    }
  }

  lemma ExampleRestKept()
    ensures StripDark(" c\"") == " c\""
  {
    CopyRun("c\"", 2);
    assert !MatchAt(" c\"");
    assert " c\""[1..] == "c\"";
  }

  /** How the example splits around its one `dark:` class. */
  lemma ExampleParts(s: string, head: string, rest: string)
    requires s == "class=\"a dark:b c\"" && head == "class=\"a" && rest == " c\""
    ensures s == head + Prefix + "b" + rest
    ensures head + rest == "class=\"a c\""
  {
  }

  /** The example of the class attribute `class="a dark:b c"`. */
  lemma ExampleClassAttribute(s: string)
    requires s == "class=\"a dark:b c\""
    ensures StripDark(s) == "class=\"a c\""
  {
    var head, rest := "class=\"a", " c\"";
    ExampleParts(s, head, rest);
    DeleteOneClass(head, "b", rest);
    ExampleRestKept();
  }

  /** `os.path.basename` on `/`-separated paths: the text after the last `/`. */
  function Basename(p: string): (b: string)
    ensures '/' !in b
    ensures |b| <= |p| && b == p[|p| - |b|..]
    ensures |b| < |p| ==> p[|p| - |b| - 1] == '/'
  {
    if p == [] || p[|p| - 1] == '/' then []
    else Basename(p[..|p| - 1]) + [p[|p| - 1]]
  }

  /** One printed line: `[OK] name: n karakter kaldirildi` or `[ERROR] path: e`. */
  datatype Report = Ok(name: string, removed: nat) | Error(path: string)

  /** The files the script sees: the readable ones with their text, and the
   *  paths whose reopening for writing raises. */
  datatype Disk = Disk(files: map<string, string>, unwritable: set<string>)

  datatype State = State(disk: Disk, total: nat, log: seq<Report>)

  /** One iteration of the `for` loop body, its `try` and its `except`. The
   *  removed count is added to the total before the write is attempted. */
  function Step(st: State, p: string): (r: State)
    ensures |r.log| == |st.log| + 1 && r.log[..|st.log|] == st.log
    ensures r.log[|st.log|].Ok? <==> (p in st.disk.files && p !in st.disk.unwritable)
    ensures r.disk.unwritable == st.disk.unwritable
    ensures forall q :: q in r.disk.files <==> q in st.disk.files
  {
    if p !in st.disk.files then
      State(st.disk, st.total, st.log + [Error(p)])
    else
      var content := st.disk.files[p];
      var cleaned := StripDark(content);
      var removed := |content| - |cleaned|;
      if p in st.disk.unwritable then
        State(st.disk, st.total + removed, st.log + [Error(p)])
      else
        State(Disk(st.disk.files[p := cleaned], st.disk.unwritable),
              st.total + removed, st.log + [Ok(Basename(p), removed)])
  }

  /** The loop as a fold over the path list. */
  function Run(st: State, paths: seq<string>): State
    decreases |paths|
  {
    if paths == [] then st else Run(Step(st, paths[0]), paths[1..])
  }

  lemma RunSplit(st: State, paths: seq<string>, i: nat)
    requires i < |paths|
    ensures Run(st, paths[..i + 1]) == Step(Run(st, paths[..i]), paths[i])
    decreases i
  {
    if i > 0 {
      assert paths[..i + 1][1..] == paths[1..][..i];
      assert paths[..i][1..] == paths[1..][..i - 1];
      RunSplit(Step(st, paths[0]), paths[1..], i - 1);
    }
  }

  /** The script: process each path in order, skipping a file whose read,
   *  substitution or write raised, and report the grand total. */
  method CleanFiles(disk: Disk, paths: seq<string>) returns (out: Disk, total: nat, log: seq<Report>)
    ensures State(out, total, log) == Run(State(disk, 0, []), paths)
  {
    var st := State(disk, 0, []);
    var i := 0;
    while i < |paths|
      invariant 0 <= i <= |paths|
      invariant st == Run(State(disk, 0, []), paths[..i])
    {
      RunSplit(State(disk, 0, []), paths, i);
      st := Step(st, paths[i]);
      i := i + 1;
    }
    assert paths[..i] == paths;
    out, total, log := st.disk, st.total, st.log;
  }

  /** Characters removed from a file's current text. */
  function RemovedFrom(text: string): nat
  {
    |text| - |StripDark(text)|
  }

  /** For distinct paths, the total is the sum of the per-file counts over
   *  the files whose read succeeded (a failed write does not undo the count). */
  function SumRead(files: map<string, string>, paths: seq<string>): nat
  {
    if paths == [] then 0
    else (if paths[0] in files then RemovedFrom(files[paths[0]]) else 0) + SumRead(files, paths[1..])
  }

  lemma {:induction false} RunTotal(st: State, paths: seq<string>)
    requires forall i, j :: 0 <= i < j < |paths| ==> paths[i] != paths[j]
    ensures Run(st, paths).total == st.total + SumRead(st.disk.files, paths)
    ensures |Run(st, paths).log| == |st.log| + |paths|
    decreases |paths|
  {
    if paths != [] {
      var next := Step(st, paths[0]);
      forall p | p in paths[1..] && p in st.disk.files
        ensures p in next.disk.files && next.disk.files[p] == st.disk.files[p]
      {
      }
      SumReadFrame(st.disk.files, next.disk.files, paths[1..]);
      RunTotal(next, paths[1..]);
    }
  }

  lemma {:induction false} SumReadFrame(a: map<string, string>, b: map<string, string>, paths: seq<string>)
    requires forall p :: p in paths ==> (p in a <==> p in b)
    requires forall p :: p in paths && p in a ==> a[p] == b[p]
    ensures SumRead(a, paths) == SumRead(b, paths)
    decreases |paths|
  {
    if paths != [] {
      SumReadFrame(a, b, paths[1..]);
    }
  }

  /** What the disk holds afterwards: every listed, writable file holds its
   *  cleaned text (a repeated path is cleaned again to the same text), every
   *  other file is untouched, and no file is created. */
  lemma {:induction false} RunDisk(st: State, paths: seq<string>)
    ensures Run(st, paths).disk.unwritable == st.disk.unwritable
    ensures Run(st, paths).disk.files.Keys == st.disk.files.Keys
    ensures forall p :: p in st.disk.files ==>
      Run(st, paths).disk.files[p] ==
        if p in paths && p !in st.disk.unwritable then StripDark(st.disk.files[p])
        else st.disk.files[p]
    decreases |paths|
  {
    if paths != [] {
      var next := Step(st, paths[0]);
      RunDisk(next, paths[1..]);
      forall p | p in st.disk.files
        ensures Run(st, paths).disk.files[p] ==
          if p in paths && p !in st.disk.unwritable then StripDark(st.disk.files[p])
          else st.disk.files[p]
      {
        if p == paths[0] && p !in st.disk.unwritable {
          StripDarkIdempotent(st.disk.files[p]);
        }
      }
    }
  }

  /** Each path yields exactly one report: `[OK]` iff the file was read and
   *  written back, `[ERROR]` otherwise, so an unreadable file is never written. */
  lemma {:induction false} RunLog(st: State, paths: seq<string>)
    ensures |Run(st, paths).log| == |st.log| + |paths|
    ensures Run(st, paths).log[..|st.log|] == st.log
    ensures forall i :: 0 <= i < |paths| ==>
      (Run(st, paths).log[|st.log| + i].Ok? <==>
        (paths[i] in st.disk.files && paths[i] !in st.disk.unwritable))
    decreases |paths|
  {
    if paths != [] {
      var next := Step(st, paths[0]);
      RunLog(next, paths[1..]);
      var out := Run(st, paths).log;
      assert out == Run(next, paths[1..]).log;
      assert out[..|st.log|] == st.log by {
        assert out[..|next.log|] == next.log;
        assert next.log[..|st.log|] == st.log;
      }
      forall i | 0 <= i < |paths|
        ensures out[|st.log| + i].Ok? <==> (paths[i] in st.disk.files && paths[i] !in st.disk.unwritable)
      {
        if i > 0 {
          assert paths[1..][i - 1] == paths[i];
          assert out[|st.log| + i] == out[|next.log| + (i - 1)];
        } else {
          assert out[|st.log|] == out[..|next.log|][|st.log|];
        }
      }
    }
  }
}
