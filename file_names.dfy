/** The naming rules of the file sorter in task_1.py: the folder a file goes to, chosen by
    its extensions, and the first free name " (i)" it gets when its own name is taken. */
module FileNames {
  import opened Common

  /** Path.suffixes joined: "".join(suffixes). The join starts with the first suffix. */
  function Concat(suffixes: seq<string>): (r: string)
    ensures suffixes != [] ==> |suffixes[0]| <= |r| && r[..|suffixes[0]|] == suffixes[0]
  {
    if suffixes == [] then [] else suffixes[0] + Concat(suffixes[1..])
  }

  /** Joining one more suffix appends it to the join of the others. */
  lemma {:induction false} ConcatSnoc(suffixes: seq<string>, x: string)
    ensures Concat(suffixes + [x]) == Concat(suffixes) + x
  {
    if suffixes == [] {
      assert [x][1..] == [];
    } else {
      assert (suffixes + [x])[1..] == suffixes[1..] + [x];
      ConcatSnoc(suffixes[1..], x);
    }
  }

  /** How many dots s starts with: every character before that count is a dot, and the
      character at it, if any, is not. */
  function LeadingDots(s: string): (n: nat)
    ensures n <= |s|
    ensures forall k :: 0 <= k < n ==> s[k] == '.'
    ensures n == |s| || s[n] != '.'
  {
    if s != [] && s[0] == '.' then 1 + LeadingDots(s[1..]) else 0
  }

  /** str.lstrip("."): the rest of s once every leading dot is dropped. */
  function LStripDots(s: string): (r: string)
    ensures |r| <= |s| && r == s[|s| - |r|..]
    ensures forall k :: 0 <= k < |s| - |r| ==> s[k] == '.'
    ensures r == [] || r[0] != '.'
  {
    s[LeadingDots(s)..]
  }

  predicate IsUpper(c: char) {
    'A' <= c <= 'Z'
  }

  /** str.lower() on one character, for the ASCII letters. */
  function LowerChar(c: char): (d: char)
    ensures !IsUpper(d)
    ensures !IsUpper(c) ==> d == c
    ensures IsUpper(c) ==> d as int - c as int == 'a' as int - 'A' as int
  {
    if IsUpper(c) then (c as int - 'A' as int + 'a' as int) as char else c
  }

  /** str.lower() on a string: no upper-case letter is left, and every other character
      stays where it was. */
  function Lower(s: string): (r: string)
    ensures |r| == |s|
    ensures forall k :: 0 <= k < |r| ==> !IsUpper(r[k])
    ensures forall k :: 0 <= k < |s| && !IsUpper(s[k]) ==> r[k] == s[k]
  {
    seq(|s|, k requires 0 <= k < |s| => LowerChar(s[k]))
  }

  /** Lower-casing twice is lower-casing once. */
  lemma LowerIdempotent(s: string)
    ensures Lower(Lower(s)) == Lower(s)
  {
  }

  /** ext_folder_for: "_no_ext" for a name without suffixes, otherwise the suffixes
      joined, stripped of their leading dots and lower-cased. */
  function ExtFolderFor(suffixes: seq<string>): (r: string)
    ensures suffixes == [] ==> r == "_no_ext"
    ensures suffixes != [] ==> |r| <= |Concat(suffixes)| && (r == [] || r[0] != '.')
    ensures suffixes != [] ==> forall k :: 0 <= k < |r| ==> !IsUpper(r[k])
  {
    if suffixes == [] then "_no_ext" else Lower(LStripDots(Concat(suffixes)))
  }

  /** One entry of Path.suffixes: a dot followed by characters that are not dots. The part
      after the dot is empty for a doubled dot: "file..txt" has the suffixes [".", ".txt"]. */
  predicate PathSuffix(s: string) {
    |s| >= 1 && s[0] == '.' && forall k :: 1 <= k < |s| ==> s[k] != '.'
  }

  /** Path.suffixes of a name that does not end with a dot: every entry is a suffix, and the
      last one is more than a bare dot. */
  predicate PathSuffixes(suffixes: seq<string>) {
    && (forall k :: 0 <= k < |suffixes| ==> PathSuffix(suffixes[k]))
    && (suffixes != [] ==> |suffixes[|suffixes| - 1]| >= 2)
  }

  /** How many bare "." entries Path.suffixes starts with. */
  function BareDots(suffixes: seq<string>): (m: nat)
    ensures m <= |suffixes|
    ensures forall k :: 0 <= k < m ==> suffixes[k] == "."
    ensures m == |suffixes| || suffixes[m] != "."
  {
    if suffixes != [] && suffixes[0] == "." then 1 + BareDots(suffixes[1..]) else 0
  }

  /** For pathlib's suffixes, lstrip(".") drops the bare "." entries at the front and the
      first dot of the next entry, and nothing more: a multi-part type such as
      [".tar", ".gz"] keeps its inner dot and becomes "tar.gz", and [".", ".txt"] gives "txt". */
  lemma {:induction false} ExtFolderKeepsInnerDots(suffixes: seq<string>)
    requires suffixes != [] && PathSuffixes(suffixes)
    ensures BareDots(suffixes) < |suffixes|
    ensures |Concat(suffixes[BareDots(suffixes)..])| >= 2
    ensures ExtFolderFor(suffixes) == Lower(Concat(suffixes[BareDots(suffixes)..])[1..])
  {
    StripBareDots(suffixes);
  }

  /** Without a bare "." in front, exactly the first dot goes. */
  lemma ExtFolderDropsFirstDot(suffixes: seq<string>)
    requires suffixes != [] && PathSuffixes(suffixes) && suffixes[0] != "."
    ensures |Concat(suffixes)| >= 2
    ensures ExtFolderFor(suffixes) == Lower(Concat(suffixes)[1..])
  {
    ExtFolderKeepsInnerDots(suffixes);
    assert suffixes[0..] == suffixes;
  }

  lemma {:induction false} StripBareDots(suffixes: seq<string>)
    requires suffixes != [] && PathSuffixes(suffixes)
    ensures BareDots(suffixes) < |suffixes|
    ensures |Concat(suffixes[BareDots(suffixes)..])| >= 2
    ensures LStripDots(Concat(suffixes)) == Concat(suffixes[BareDots(suffixes)..])[1..]
  {
    var head, rest := suffixes[0], suffixes[1..];
    var t := Concat(rest);
    assert Concat(suffixes) == head + t;
    assert PathSuffix(head);
    if head == "." {
      assert |suffixes| >= 2;
      assert forall k :: 0 <= k < |rest| ==> rest[k] == suffixes[k + 1];
      StripBareDots(rest);
      StripDot(t);
      assert suffixes[BareDots(suffixes)..] == rest[BareDots(rest)..];
    } else {
      StripFirstDot(head, t);
      assert suffixes[0..] == suffixes;
    }
  }

  /** A first suffix that is more than a bare dot loses exactly its dot. */
  lemma StripFirstDot(head: string, t: string)
    requires |head| >= 2 && head[0] == '.' && head[1] != '.'
    ensures LStripDots(head + t) == (head + t)[1..]
  {
    var c := head + t;
    assert c[1..][0] == head[1];
    assert LeadingDots(c[1..]) == 0;
  }

  /** One more leading dot is one more character stripped. */
  lemma StripDot(t: string)
    ensures LStripDots("." + t) == LStripDots(t)
  {
    assert ("." + t)[1..] == t;
  }

  /** "file..txt": the bare "." suffix is stripped along with the dot of ".txt". */
  lemma ExtFolderDoubledDot()
    ensures ExtFolderFor([".", ".txt"]) == "txt"
  {
    ConcatPair(".", ".txt");
    assert "." + ".txt" == "." + ".txt";
    StripDot(".txt");
    var s := ".txt";
    assert s[0] == '.' && s[1] == 't';
    assert LeadingDots(s[1..]) == 0;
    assert s[1..] == "txt";
    var low := Lower("txt");
    assert low[0] == 't' && low[1] == 'x' && low[2] == 't';
  }

  /** Path.suffixes of a two-suffix name, joined. */
  lemma ConcatPair(a: string, b: string)
    ensures Concat([a, b]) == a + b
  {
    assert [a, b][1..] == [b];
    ConcatOne(b);
  }

  lemma ConcatOne(a: string)
    ensures Concat([a]) == a
  {
    assert [a][1..] == [];
  }

  /** "archive.tar.GZ" goes to "tar.gz": both suffixes, one dot gone, lower case. */
  lemma ExtFolderTarGz()
    ensures ExtFolderFor([".tar", ".GZ"]) == "tar.gz"
  {
    ConcatPair(".tar", ".GZ");
    var s := ".tar" + ".GZ";
    assert s[0] == '.' && s[1] == 't';
    assert LeadingDots(s) == 1;
    assert s[1..] == "tar.GZ";
    LowerTarGz();
  }

  lemma LowerTarGz()
    ensures Lower("tar.GZ") == "tar.gz"
  {
    var low := Lower("tar.GZ");
    assert low[0] == 't' && low[1] == 'a' && low[2] == 'r' && low[3] == '.';
    assert low[4] == 'g' && low[5] == 'z';
  }

  /** "_no_ext" is not reserved for names without a suffix: a file named "a._NO_EXT" lands in
      the same folder. */
  lemma ExtFolderNoExtClash()
    ensures ExtFolderFor(["._NO_EXT"]) == ExtFolderFor([])
  {
    ConcatOne("._NO_EXT");
    var s := "._NO_EXT";
    assert s[0] == '.' && s[1] == '_';
    assert LeadingDots(s) == 1;
    assert s[1..] == "_NO_EXT";
    LowerNoExt();
  }

  lemma LowerNoExt()
    ensures Lower("_NO_EXT") == "_no_ext"
  {
    var low := Lower("_NO_EXT");
    assert low[0] == '_' && low[1] == 'n' && low[2] == 'o' && low[3] == '_';
    assert low[4] == 'e' && low[5] == 'x' && low[6] == 't';
  }

  /** A path as a directory and a file name; the existence check compares both. */
  datatype FilePath = FilePath(dir: string, name: string)

  function DigitChar(d: nat): char
    requires d < 10
  {
    ('0' as int + d) as char
  }

  /** f"{i}": the decimal digits of i. */
  function Dec(i: nat): (r: string)
    ensures |r| >= 1
    ensures forall k :: 0 <= k < |r| ==> '0' <= r[k] <= '9'
  {
    if i < 10 then [DigitChar(i)] else Dec(i / 10) + [DigitChar(i % 10)]
  }

  /** The value of a string of decimal digits, read most significant first. */
  function Parse(s: string): nat
    requires forall k :: 0 <= k < |s| ==> '0' <= s[k] <= '9'
  {
    if s == [] then 0 else 10 * Parse(s[..|s| - 1]) + (s[|s| - 1] as int - '0' as int)
  }

  /** Reading the digits back gives the number: distinct counters give distinct digit strings. */
  lemma {:induction false} ParseDec(i: nat)
    ensures Parse(Dec(i)) == i
  {
    if i >= 10 {
      ParseDec(i / 10);
      var s := Dec(i);
      assert s[..|s| - 1] == Dec(i / 10);
    }
  }

  /** dst_file.with_name(f"{stem} ({i}){suffix}"): same directory, counter before the suffix. */
  function Candidate(dst: FilePath, stem: string, suffix: string, i: nat): (c: FilePath)
    ensures c.dir == dst.dir
  {
    FilePath(dst.dir, stem + " (" + Dec(i) + ")" + suffix)
  }

  /** Distinct counters give distinct candidates. */
  lemma CandidateInjective(dst: FilePath, stem: string, suffix: string, i: nat, j: nat)
    requires Candidate(dst, stem, suffix, i) == Candidate(dst, stem, suffix, j)
    ensures i == j
  {
    var pre, post := stem + " (", ")" + suffix;
    var di, dj := Dec(i), Dec(j);
    var a, b := Candidate(dst, stem, suffix, i).name, Candidate(dst, stem, suffix, j).name;
    assert a == pre + di + post;
    assert b == pre + dj + post;
    assert |di| == |dj|;
    CounterOf(pre, di, post);
    CounterOf(pre, dj, post);
    ParseDec(i);
    ParseDec(j);
  }

  /** The counter sits right after the prefix "stem (". */
  lemma CounterOf(pre: string, digits: string, post: string)
    ensures (pre + digits + post)[|pre|..|pre| + |digits|] == digits
  {
    var s := pre + digits + post;
    forall k | 0 <= k < |digits|
      ensures s[|pre| + k] == digits[k]
    {
    }
  }

  /** uniquify: dst_file itself when it is free; otherwise the candidates for i = 1, 2, ...
      are probed until one is free. stem and suffix are pathlib's split of dst.name;
      existing is the finite set of paths that exist. */
  method Uniquify(dst: FilePath, stem: string, suffix: string, existing: set<FilePath>)
    returns (r: FilePath)
    ensures dst !in existing ==> r == dst
    ensures dst in existing ==> r !in existing
    ensures dst in existing ==> exists i :: 1 <= i <= |existing| + 1 && r == Candidate(dst, stem, suffix, i)
                                   && forall k :: 1 <= k < i ==> Candidate(dst, stem, suffix, k) in existing
    ensures r.dir == dst.dir
  {
    if dst !in existing {
      return dst;
    }
    var i := 1;
    var candidate := Candidate(dst, stem, suffix, i);
    ghost var seen: set<FilePath> := {};
    while candidate in existing
      invariant i >= 1 && candidate == Candidate(dst, stem, suffix, i)
      invariant seen <= existing && |seen| == i - 1
      invariant forall k :: 1 <= k < i ==> Candidate(dst, stem, suffix, k) in seen
      invariant forall x :: x in seen ==> exists k :: 1 <= k < i && x == Candidate(dst, stem, suffix, k)
      decreases |existing| - |seen|
    {
      ProbeIsNew(dst, stem, suffix, i, seen);
      seen := seen + {candidate};
      SubsetCard(seen, existing);
      i := i + 1;
      candidate := Candidate(dst, stem, suffix, i);
    }
    SubsetCard(seen, existing);
    return candidate;
  }

  /** The i-th candidate is none of the earlier ones. */
  lemma ProbeIsNew(dst: FilePath, stem: string, suffix: string, i: nat, seen: set<FilePath>)
    requires forall x :: x in seen ==> exists k :: 1 <= k < i && x == Candidate(dst, stem, suffix, k)
    ensures Candidate(dst, stem, suffix, i) !in seen
  {
    if Candidate(dst, stem, suffix, i) in seen {
      var k :| 1 <= k < i && Candidate(dst, stem, suffix, i) == Candidate(dst, stem, suffix, k);
      CandidateInjective(dst, stem, suffix, i, k);
    }
  }
}
