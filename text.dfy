/**
 The string operations the constraint generator relies on: joining lines with a
 separator (Python's `sep.join(parts)`), removing every occurrence of a character
 (Python's `s.replace(c, '')`), and, as the reading that undoes a join, splitting
 a text at a separator character (Python's `s.split(c)`).
 */
module Text {

  /** `sep.join(parts)`: the parts in order with `sep` between neighbours. */
  function Join(parts: seq<string>, sep: string): (r: string)
    ensures |parts| == 0 ==> r == ""
    ensures |parts| >= 1 ==> parts[0] <= r
    ensures |parts| >= 2 ==> parts[0] + sep <= r
  {
    if |parts| == 0 then ""
    else if |parts| == 1 then parts[0]
    else parts[0] + sep + Join(parts[1..], sep)
  }

  /** `s.split(sep)`: the maximal pieces of `s` between occurrences of `sep`;
      there is always one more piece than there are separators. */
  ghost function Split(s: string, sep: char): (parts: seq<string>)
    ensures |parts| == multiset(s)[sep] + 1
    ensures forall i :: 0 <= i < |parts| ==> sep !in parts[i]
    decreases |s|
  {
    if |s| == 0 then [""]
    else
      var rest := Split(s[1..], sep);
      assert s == [s[0]] + s[1..];
      if s[0] == sep then [""] + rest
      else [[s[0]] + rest[0]] + rest[1..]
  }

  /** `s.replace(c, '')`: every occurrence of `c` is dropped, not only a
      trailing one, and every other character is kept. */
  function RemoveChar(s: string, c: char): (r: string)
    ensures forall x :: x in r <==> x in s && x != c
    ensures |r| <= |s|
  {
    if |s| == 0 then ""
    else (if s[0] == c then "" else [s[0]]) + RemoveChar(s[1..], c)
  }

  /** Each character other than `c` is kept as often as it occurs. */
  lemma {:induction false} RemoveCharCounts(s: string, c: char)
    ensures multiset(RemoveChar(s, c)) == multiset(s)[c := 0]
    decreases |s|
  {
    if |s| > 0 {
      assert s == [s[0]] + s[1..];
      RemoveCharCounts(s[1..], c);
    }
  }

  /** Removing characters commutes with concatenation, so the kept characters
      stay in their original order. */
  lemma {:induction false} RemoveCharAppend(a: string, b: string, c: char)
    ensures RemoveChar(a + b, c) == RemoveChar(a, c) + RemoveChar(b, c)
    decreases |a|
  {
    if |a| == 0 {
      assert a + b == b;
    } else {
      assert (a + b)[1..] == a[1..] + b;
      RemoveCharAppend(a[1..], b, c);
    }
  }

  /** A string without `c` is left unchanged. */
  lemma {:induction false} RemoveCharAbsent(s: string, c: char)
    requires c !in s
    ensures RemoveChar(s, c) == s
    decreases |s|
  {
    if |s| > 0 {
      RemoveCharAbsent(s[1..], c);
    }
  }

  /** Splitting a separator-free prefix onto a text glues it to the first piece. */
  lemma {:induction false} SplitConcat(p: string, t: string, sep: char)
    requires sep !in p
    ensures Split(p + t, sep) == [p + Split(t, sep)[0]] + Split(t, sep)[1..]
    decreases |p|
  {
    if |p| == 0 {
      var parts := Split(t, sep);
      assert p + t == t && p + parts[0] == parts[0];
      assert [parts[0]] + parts[1..] == parts;
    } else {
      assert (p + t)[1..] == p[1..] + t;
      assert (p + t)[0] == p[0];
      SplitConcat(p[1..], t, sep);
      assert [p[0]] + (p[1..] + Split(t, sep)[0]) == p + Split(t, sep)[0];
    }
  }

  /** A leading separator yields an empty first piece. */
  lemma SplitAfterSep(t: string, sep: char)
    ensures Split([sep] + t, sep) == [""] + Split(t, sep)
  {
    assert ([sep] + t)[1..] == t;
  }

  /** Splitting undoes joining when no part contains the separator. */
  lemma {:induction false} SplitJoin(parts: seq<string>, sep: char)
    requires |parts| >= 1
    requires forall i :: 0 <= i < |parts| ==> sep !in parts[i]
    ensures Split(Join(parts, [sep]), sep) == parts
    decreases |parts|
  {
    if |parts| == 1 {
      SplitConcat(parts[0], "", sep);
      assert parts[0] + "" == parts[0];
    } else {
      var rest := Join(parts[1..], [sep]);
      assert Join(parts, [sep]) == parts[0] + ([sep] + rest);
      SplitJoin(parts[1..], sep);
      SplitAfterSep(rest, sep);
      SplitConcat(parts[0], [sep] + rest, sep);
      var pieces := Split([sep] + rest, sep);
      assert pieces[0] == "" && pieces[1..] == parts[1..];
      assert parts[0] + pieces[0] == parts[0];
      assert [parts[0]] + parts[1..] == parts;
    }
  }

  /** A part ending in the separator joins like that part without it followed
      by an empty part. */
  lemma JoinEmbeddedSep(a: string, x: string, post: seq<string>, sep: string)
    ensures Join([a, x + sep] + post, sep) == Join([a, x, ""] + post, sep)
  {
    assert ([a, x + sep] + post)[1..] == [x + sep] + post;
    assert ([a, x, ""] + post)[1..] == [x, ""] + post;
    assert ([x, ""] + post)[1..] == [""] + post;
    if |post| == 0 {
      assert Join([x + sep] + post, sep) == x + sep;
      assert Join([""] + post, sep) == "";
    } else {
      assert ([x + sep] + post)[1..] == post;
      assert ([""] + post)[1..] == post;
      assert Join([x + sep] + post, sep) == x + sep + sep + Join(post, sep);
      assert Join([""] + post, sep) == "" + sep + Join(post, sep);
    }
  }
}
