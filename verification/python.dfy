/**
 * The small pieces of Python semantics the runner relies on: how a list or
 * NumPy axis index (possibly negative) selects a position, and how
 * `str.split("/")` and `"/".join(...)` behave on strings.
 */
module Python {
  import opened Wrappers

  /** The position an index `i` selects in a dimension of length `n`, or None
      when Python raises IndexError. Negative indices count from the back. */
  function Resolve(i: int, n: nat): (r: Option<nat>)
    ensures r.Some? <==> -(n as int) <= i < n
    ensures r.Some? ==> r.value < n && r.value == i % n
  {
    if 0 <= i < n then Some(i)
    else if -(n as int) <= i < 0 then Some(n + i)
    else None
  }

  /** `s[i]` on a Python list: the element, or None for IndexError. */
  function Lookup<T>(s: seq<T>, i: int): (r: Option<T>)
    ensures r.Some? <==> -|s| <= i < |s|
    ensures r.Some? ==> r.value == s[i % |s|]
  {
    match Resolve(i, |s|)
    case None => None
    case Some(k) => Some(s[k])
  }

  /** `s.split("/")`: the pieces between separators, empty ones included,
      so there is always at least one part. */
  function Split(s: string): (parts: seq<string>)
    ensures |parts| >= 1
    ensures forall k :: 0 <= k < |parts| ==> '/' !in parts[k]
    decreases |s|
  {
    if s == [] then [""]
    else
      var rest := Split(s[1..]);
      if s[0] == '/' then [""] + rest
      else [[s[0]] + rest[0]] + rest[1..]
  }

  /** `"/".join(parts)`. */
  function Join(parts: seq<string>): (joined: string)
  {
    if |parts| == 0 then ""
    else if |parts| == 1 then parts[0]
    else parts[0] + "/" + Join(parts[1..])
  }

  /** Joining the parts of a split gives back the original string. */
  lemma {:induction false} JoinSplit(s: string)
    ensures Join(Split(s)) == s
    decreases |s|
  {
    if s != [] {
      var rest := Split(s[1..]);
      JoinSplit(s[1..]);
      if s[0] == '/' {
        assert Split(s) == [""] + rest;
        assert Join(Split(s)) == "" + "/" + Join(rest);
        assert s == [s[0]] + s[1..];
      } else if |rest| == 1 {
        assert Split(s) == [[s[0]] + rest[0]];
        assert s == [s[0]] + s[1..];
      } else {
        var parts := Split(s);
        assert parts == [[s[0]] + rest[0]] + rest[1..];
        assert parts[1..] == rest[1..];
        assert Join(rest) == rest[0] + "/" + Join(rest[1..]);
        assert s == [s[0]] + s[1..];
      }
    }
  }

  /** A string splits into a single part exactly when it holds no separator. */
  lemma {:induction false} SplitSingle(s: string)
    ensures |Split(s)| == 1 <==> '/' !in s
  {
    JoinSplit(s);
    if '/' !in s {
      SplitWithoutSeparator(s);
    }
  }

  lemma {:induction false} SplitWithoutSeparator(s: string)
    requires '/' !in s
    ensures Split(s) == [s]
    decreases |s|
  {
    if s != [] {
      assert '/' !in s[1..] by {
        forall k | 0 <= k < |s[1..]| ensures s[1..][k] != '/' {
          assert s[1..][k] == s[k + 1];
        }
      }
      SplitWithoutSeparator(s[1..]);
      assert s == [s[0]] + s[1..];
    }
  }

  /** Appending one more part to a non-empty list adds one separator. */
  lemma {:induction false} JoinSnoc(init: seq<string>, last: string)
    requires |init| >= 1
    ensures Join(init + [last]) == Join(init) + "/" + last
    decreases |init|
  {
    if |init| > 1 {
      JoinSnoc(init[1..], last);
      assert (init + [last])[1..] == init[1..] + [last];
    } else {
      assert init + [last] == [init[0], last];
      assert [init[0], last][1..] == [last];
    }
  }
}
