/**
 * Slash-separated paths: the joining that the orb cache path is built with
 * (Go's path.Join, without its lexical clean-up), and splitting a path back into segments.
 */
module Paths {

  /** The elements of `elems` that are not empty, in their order. */
  function NonEmpty(elems: seq<string>): (r: seq<string>)
    ensures forall e :: e in r <==> e in elems && e != ""
    ensures |r| <= |elems|
  {
    if elems == [] then []
    else (if elems[0] == "" then [] else [elems[0]]) + NonEmpty(elems[1..])
  }

  /** The segments written one after another with one slash between neighbours. */
  function Concat(segs: seq<string>): (r: string)
    ensures |segs| > 0 ==> |segs[0]| <= |r| && r[..|segs[0]|] == segs[0]
  {
    if |segs| == 0 then ""
    else if |segs| == 1 then segs[0]
    else segs[0] + "/" + Concat(segs[1..])
  }

  /** path.Join: the non-empty elements separated by slashes; "" when all are empty. */
  function Join(elems: seq<string>): (r: string)
    ensures r == "" <==> forall e :: e in elems ==> e == ""
  {
    var segs := NonEmpty(elems);
    assert segs != [] ==> segs[0] in segs;
    Concat(segs)
  }

  /** The segments of `s` between its slashes (a string without a slash is one segment). */
  function Split(s: string): (r: seq<string>)
    ensures |r| >= 1
    decreases |s|
  {
    if s == [] then [""]
    else
      var rest := Split(s[1..]);
      if s[0] == '/' then [""] + rest
      else [[s[0]] + rest[0]] + rest[1..]
  }

  /** `p` ends with the whole segments of `suffix`: it is `suffix`, or something, a slash and `suffix`. */
  predicate EndsWithPath(p: string, suffix: string)
  {
    p == suffix || (|suffix| < |p| && p[|p| - |suffix|..] == suffix && p[|p| - |suffix| - 1] == '/')
  }

  /** Filtering keeps a list whose elements are all non-empty as it is. */
  lemma {:induction false} NonEmptyOfNonEmpty(elems: seq<string>)
    requires forall i :: 0 <= i < |elems| ==> elems[i] != ""
    ensures NonEmpty(elems) == elems
    decreases |elems|
  {
    if elems != [] {
      NonEmptyOfNonEmpty(elems[1..]);
      assert [elems[0]] + elems[1..] == elems;
    }
  }

  /** Filtering a concatenation filters each part. */
  lemma {:induction false} NonEmptyAppend(front: seq<string>, back: seq<string>)
    ensures NonEmpty(front + back) == NonEmpty(front) + NonEmpty(back)
    decreases |front|
  {
    if front == [] {
      assert front + back == back;
    } else {
      assert (front + back)[0] == front[0];
      assert (front + back)[1..] == front[1..] + back;
      NonEmptyAppend(front[1..], back);
    }
  }

  /** Concatenating two non-empty lists of segments puts one slash between their concatenations. */
  lemma {:induction false} ConcatAppend(front: seq<string>, back: seq<string>)
    requires front != [] && back != []
    ensures Concat(front + back) == Concat(front) + "/" + Concat(back)
    decreases |front|
  {
    if |front| == 1 {
      assert (front + back)[0] == front[0];
      assert (front + back)[1..] == back;
    } else {
      assert (front + back)[0] == front[0];
      assert (front + back)[1..] == front[1..] + back;
      ConcatAppend(front[1..], back);
    }
  }

  /** Joining one element in front of non-empty elements adds it and a slash, unless it is empty. */
  lemma JoinInFront(front: string, back: seq<string>)
    requires back != []
    requires forall i :: 0 <= i < |back| ==> back[i] != ""
    ensures Join([front] + back) == if front == "" then Concat(back) else front + "/" + Concat(back)
  {
    NonEmptyAppend([front], back);
    NonEmptyOfNonEmpty(back);
    assert NonEmpty([front]) == if front == "" then [] else [front];
    if front != "" {
      ConcatAppend([front], back);
    } else {
      assert [] + back == back;
    }
  }

  /** Whatever stands before a slash, the path ends with what follows it. */
  lemma EndsWithAfterSeparator(a: string, b: string)
    ensures EndsWithPath(a + "/" + b, b)
  {
    var p := a + "/" + b;
    assert p[|p| - |b|..] == b;
    assert p[|p| - |b| - 1] == '/';
  }

  /** Joining two elements, the second non-empty. */
  lemma JoinPair(a: string, b: string)
    requires b != ""
    ensures Join([a, b]) == if a == "" then b else a + "/" + b
    ensures EndsWithPath(Join([a, b]), b)
  {
    assert [a] + [b] == [a, b];
    JoinInFront(a, [b]);
    EndsWithAfterSeparator(a, b);
  }

  /** Joining three elements, the last two non-empty. */
  lemma JoinTriple(a: string, b: string, c: string)
    requires b != "" && c != ""
    ensures Join([a, b, c]) == if a == "" then b + "/" + c else a + "/" + b + "/" + c
    ensures EndsWithPath(Join([a, b, c]), c)
    ensures EndsWithPath(Join([a, b, c]), b + "/" + c)
  {
    var tail := b + "/" + c;
    assert [a] + [b, c] == [a, b, c];
    assert [b] + [c] == [b, c];
    JoinInFront(a, [b, c]);
    ConcatAppend([b], [c]);
    assert Concat([b, c]) == tail;
    EndsWithAfterSeparator(b, c);
    if a != "" {
      EndsWithAfterSeparator(a, tail);
      assert a + "/" + tail == (a + "/" + b) + "/" + c;
      EndsWithAfterSeparator(a + "/" + b, c);
    }
  }

  /** A slash splits a path into the segments before it and the segments after it. */
  lemma {:induction false} SplitAtSeparator(a: string, b: string)
    ensures Split(a + "/" + b) == Split(a) + Split(b)
    decreases |a|
  {
    if a == [] {
      assert a + "/" + b == "/" + b;
      assert ("/" + b)[1..] == b;
    } else {
      var tail := a[1..] + "/" + b;
      assert (a + "/" + b)[0] == a[0];
      assert (a + "/" + b)[1..] == tail;
      SplitAtSeparator(a[1..], b);
    }
  }

  /** A string without a slash is a single segment. */
  lemma {:induction false} SplitNoSeparator(s: string)
    requires '/' !in s
    ensures Split(s) == [s]
    decreases |s|
  {
    if s != [] {
      assert '/' !in s[1..];
      SplitNoSeparator(s[1..]);
      assert [s[0]] + s[1..] == s;
    }
  }

  /** Splitting undoes concatenation when no segment holds a slash. */
  lemma {:induction false} SplitConcat(segs: seq<string>)
    requires |segs| >= 1
    requires forall i :: 0 <= i < |segs| ==> '/' !in segs[i]
    ensures Split(Concat(segs)) == segs
    decreases |segs|
  {
    SplitNoSeparator(segs[0]);
    if |segs| > 1 {
      SplitConcat(segs[1..]);
      SplitAtSeparator(segs[0], Concat(segs[1..]));
      assert [segs[0]] + segs[1..] == segs;
    }
  }

  /** Splitting undoes Join: the segments of a joined path are the non-empty elements. */
  lemma SplitJoin(elems: seq<string>)
    requires NonEmpty(elems) != []
    requires forall e :: e in elems ==> '/' !in e
    ensures Split(Join(elems)) == NonEmpty(elems)
  {
    var segs := NonEmpty(elems);
    forall i | 0 <= i < |segs| ensures '/' !in segs[i] {
      assert segs[i] in segs;
    }
    SplitConcat(segs);
  }

  /** A path that ends with the segments of `suffix` splits into segments ending with those of `suffix`. */
  lemma SplitEndsWithPath(p: string, suffix: string)
    requires EndsWithPath(p, suffix)
    ensures |Split(suffix)| <= |Split(p)|
    ensures Split(p)[|Split(p)| - |Split(suffix)|..] == Split(suffix)
  {
    if p != suffix {
      var prefix := p[..|p| - |suffix| - 1];
      assert p == prefix + "/" + suffix;
      SplitAtSeparator(prefix, suffix);
    }
  }
}
