/** Searching and set-like appending on lists of names. */
module Arrays {

  /** No name occurs twice in `s`. */
  predicate NoDuplicates(s: seq<string>)
  {
    forall i, j :: 0 <= i < j < |s| ==> s[i] != s[j]
  }

  /**
   * FindInArray: the index of the first occurrence of `value` in `arr`,
   * or -1 when `value` does not occur.
   */
  method FindInArray(arr: seq<string>, value: string) returns (index: int)
    ensures -1 <= index < |arr|
    ensures index == -1 <==> value !in arr
    ensures 0 <= index ==> arr[index] == value && value !in arr[..index]
  {
    var i := 0;
    while i < |arr|
      invariant 0 <= i <= |arr|
      invariant value !in arr[..i]
    {
      if arr[i] == value {
        return i;
      }
      i := i + 1;
    }
    assert arr[..i] == arr;
    return -1;
  }

  /**
   * The list after adding `v` to it as to a set: appended at the end
   * when absent, the list as it was when present.
   */
  function AppendUnique(vars: seq<string>, v: string): (r: seq<string>)
    ensures forall x :: x in r <==> x in vars || x == v
    ensures |vars| <= |r| <= |vars| + 1 && r[..|vars|] == vars
    ensures r == vars <==> v in vars
    ensures NoDuplicates(vars) ==> NoDuplicates(r)
  {
    if v in vars then vars else vars + [v]
  }

  /** In a duplicate-free list every name occurs at most once. */
  lemma {:induction false} NoDuplicatesOccursOnce(s: seq<string>, x: string)
    requires NoDuplicates(s)
    ensures multiset(s)[x] == if x in s then 1 else 0
  {
    if s != [] {
      assert s == [s[0]] + s[1..];
      assert NoDuplicates(s[1..]) by {
        forall i, j | 0 <= i < j < |s[1..]| ensures s[1..][i] != s[1..][j] {
          assert s[1..][i] == s[i + 1] && s[1..][j] == s[j + 1];
        }
      }
      NoDuplicatesOccursOnce(s[1..], x);
      assert s[0] !in s[1..] by {
        forall j | 0 <= j < |s[1..]| ensures s[1..][j] != s[0] {
          assert s[1..][j] == s[j + 1];
        }
      }
    }
  }

  /** Adding the same name twice is adding it once, whatever the list. */
  lemma AppendUniqueIdempotent(vars: seq<string>, v: string)
    ensures AppendUnique(AppendUnique(vars, v), v) == AppendUnique(vars, v)
  {
  }

  /** After adding a name to a duplicate-free list, the list holds that name exactly once. */
  lemma AppendUniqueOccursOnce(vars: seq<string>, v: string)
    requires NoDuplicates(vars)
    ensures multiset(AppendUnique(vars, v))[v] == 1
  {
    NoDuplicatesOccursOnce(AppendUnique(vars, v), v);
  }
}
