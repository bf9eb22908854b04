/** The parts of Go's `strings` package the bot relies on, over `seq<char>`.
    Go strings are UTF-8 bytes; every helper here treats a string as a sequence
    of characters, which agrees with Go for trimming, prefix tests, `Contains`
    and splitting on an ASCII separator. */
module Text {

  /** Go's `unicode.IsSpace`: the Latin-1 spaces and Unicode's White_Space set. */
  predicate IsSpace(c: char) {
    || c == ' ' || c == '\t' || c == '\n' || c == '\r'
    || c == '\U{000B}' || c == '\U{000C}' || c == '\U{0085}' || c == '\U{00A0}'
    || c == '\U{1680}' || ('\U{2000}' <= c <= '\U{200A}')
    || c == '\U{2028}' || c == '\U{2029}' || c == '\U{202F}' || c == '\U{205F}'
    || c == '\U{3000}'
  }

  /** Drops the leading characters that `cut` accepts. */
  function TrimLeft(s: string, cut: char -> bool): (r: string)
    ensures |r| <= |s| && r == s[|s| - |r|..]
    ensures r != [] ==> !cut(r[0])
  {
    if s != [] && cut(s[0]) then TrimLeft(s[1..], cut) else s
  }

  /** Drops the trailing characters that `cut` accepts. */
  function TrimRight(s: string, cut: char -> bool): (r: string)
    ensures |r| <= |s| && r == s[..|r|]
    ensures r != [] ==> !cut(r[|r| - 1])
  {
    if s != [] && cut(s[|s| - 1]) then TrimRight(s[..|s| - 1], cut) else s
  }

  /** Go's `strings.Trim` with a cut set given as a predicate. */
  function Trim(s: string, cut: char -> bool): (r: string)
    ensures |r| <= |s|
    ensures r != [] ==> !cut(r[0]) && !cut(r[|r| - 1])
    ensures s != [] && !cut(s[0]) && !cut(s[|s| - 1]) ==> r == s
  {
    var l := TrimLeft(s, cut);
    var r := TrimRight(l, cut);
    r
  }

  /** Every character `TrimLeft` drops is one that `cut` accepts. */
  lemma {:induction false} TrimLeftDropsCut(s: string, cut: char -> bool)
    ensures forall i :: 0 <= i < |s| - |TrimLeft(s, cut)| ==> cut(s[i])
  {
    if s != [] && cut(s[0]) {
      TrimLeftDropsCut(s[1..], cut);
    }
  }

  /** Every character `TrimRight` drops is one that `cut` accepts. */
  lemma {:induction false} TrimRightDropsCut(s: string, cut: char -> bool)
    ensures forall i :: |TrimRight(s, cut)| <= i < |s| ==> cut(s[i])
  {
    if s != [] && cut(s[|s| - 1]) {
      TrimRightDropsCut(s[..|s| - 1], cut);
    }
  }

  /** Trimming leaves nothing exactly when every character is cut. */
  lemma TrimEmpty(s: string, cut: char -> bool)
    ensures Trim(s, cut) == [] <==> forall i :: 0 <= i < |s| ==> cut(s[i])
  {
    var l := TrimLeft(s, cut);
    TrimLeftDropsCut(s, cut);
    TrimRightDropsCut(l, cut);
    if Trim(s, cut) == [] {
      forall i | 0 <= i < |s|
        ensures cut(s[i])
      {
        if i >= |s| - |l| {
          assert s[i] == l[i - (|s| - |l|)];
        }
      }
    }
  }

  /** Trimming only removes characters: what remains occurs in the input. */
  lemma TrimKeepsChars(s: string, cut: char -> bool, c: char)
    requires c in Trim(s, cut)
    ensures c in s
  {
    var l := TrimLeft(s, cut);
    assert c in TrimRight(l, cut);
    assert c in l;
  }

  /** The cut set `" "` of `strings.Trim(s, " ")`. */
  predicate IsPlainSpace(c: char) { c == ' ' }

  /** Go's `strings.TrimSpace`: leading and trailing white space removed. */
  function TrimSpace(s: string): (r: string)
    ensures |r| <= |s|
    ensures r != [] ==> !IsSpace(r[0]) && !IsSpace(r[|r| - 1])
    ensures s != [] && !IsSpace(s[0]) && !IsSpace(s[|s| - 1]) ==> r == s
    decreases |s|
  {
    if s == [] then s
    else if IsSpace(s[0]) then TrimSpace(s[1..])
    else if IsSpace(s[|s| - 1]) then TrimSpace(s[..|s| - 1])
    else s
  }

  /** `TrimSpace` only removes characters: what remains occurs in the input. */
  lemma {:induction false} TrimSpaceKeepsChars(s: string, c: char)
    requires c in TrimSpace(s)
    ensures c in s
    decreases |s|
  {
    if s != [] && IsSpace(s[0]) {
      TrimSpaceKeepsChars(s[1..], c);
    } else if s != [] && IsSpace(s[|s| - 1]) {
      TrimSpaceKeepsChars(s[..|s| - 1], c);
    }
  }

  /** `strings.TrimSpace(s) == ""`. */
  predicate IsBlank(s: string) {
    TrimSpace(s) == ""
  }

  /** Go's `strings.HasPrefix`. */
  predicate HasPrefix(s: string, p: string) {
    |p| <= |s| && s[..|p|] == p
  }

  /** Go's `strings.Contains`. */
  predicate Contains(s: string, sub: string)
    decreases |s|
  {
    HasPrefix(s, sub) || (s != [] && Contains(s[1..], sub))
  }

  /** Go's `strings.Split` on a one-character separator: the pieces between
      separators, at least one of them. */
  function Split(s: string, sep: char): (parts: seq<string>)
    ensures |parts| >= 1
    ensures forall p :: p in parts ==> sep !in p
  {
    if s == [] then [[]]
    else
      var rest := Split(s[1..], sep);
      if s[0] == sep then [[]] + rest
      else [[s[0]] + rest[0]] + rest[1..]
  }

  /** Go's `strings.Join` on a one-character separator. */
  function Join(parts: seq<string>, sep: char): string {
    if parts == [] then []
    else if |parts| == 1 then parts[0]
    else parts[0] + [sep] + Join(parts[1..], sep)
  }

  /** Splitting undoes joining. */
  lemma {:induction false} JoinSplit(s: string, sep: char)
    ensures Join(Split(s, sep), sep) == s
  {
    if s != [] {
      var rest := Split(s[1..], sep);
      JoinSplit(s[1..], sep);
      if s[0] == sep {
        assert Split(s, sep) == [[]] + rest;
      } else {
        var parts := Split(s, sep);
        assert parts == [[s[0]] + rest[0]] + rest[1..];
        if |rest| == 1 {
          assert Join(rest, sep) == rest[0];
        } else {
          assert Join(rest, sep) == rest[0] + [sep] + Join(rest[1..], sep);
          assert parts[1..] == rest[1..];
        }
      }
    }
  }

  /** Joining pieces free of the separator, then splitting, gives the pieces back. */
  lemma {:induction false} SplitJoin(parts: seq<string>, sep: char)
    requires |parts| >= 1
    requires forall p :: p in parts ==> sep !in p
    ensures Split(Join(parts, sep), sep) == parts
  {
    if |parts| == 1 {
      SplitPiece(parts[0], sep);
    } else {
      SplitJoin(parts[1..], sep);
      SplitPrefix(parts[0], Join(parts[1..], sep), sep);
    }
  }

  lemma {:induction false} SplitPiece(p: string, sep: char)
    requires sep !in p
    ensures Split(p, sep) == [p]
  {
    if p != [] {
      SplitPiece(p[1..], sep);
      assert [p[0]] + p[1..] == p;
    }
  }

  lemma {:induction false} SplitPrefix(p: string, t: string, sep: char)
    requires sep !in p
    ensures Split(p + [sep] + t, sep) == [p] + Split(t, sep)
  {
    if p == [] {
      assert p + [sep] + t == [sep] + t;
      assert ([sep] + t)[1..] == t;
    } else {
      SplitPrefix(p[1..], t, sep);
      assert (p + [sep] + t)[1..] == p[1..] + [sep] + t;
      assert [p[0]] + p[1..] == p;
    }
  }
}
