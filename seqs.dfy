/** Sequence operations that several parts of the model need: splitting on a
    separator and joining back (Rust's `split` on slices and strings), reversal,
    filtering, the short-circuiting collection of fallible results (Rust's
    `collect::<Result<Vec<_>, _>>()` and the `?` inside a push loop), and the
    "last one wins" reading of a list of settings. */
module Seqs {
  import opened Wrappers

  // ---------------------------------------------------------------- split / join

  /** The pieces of `s` between the occurrences of `sep`, in order; like Rust's
      `split`, an empty input gives one empty piece and a separator at either
      end gives an empty piece there. */
  function Split<T(==)>(s: seq<T>, sep: T): (parts: seq<seq<T>>)
    ensures |parts| >= 1
    decreases |s|
  {
    if |s| == 0 then [[]]
    else
      var rest := Split(s[1..], sep);
      if s[0] == sep then [[]] + rest
      else [[s[0]] + rest[0]] + rest[1..]
  }

  /** The pieces glued together with `sep` between neighbours. */
  function Join<T>(parts: seq<seq<T>>, sep: seq<T>): seq<T>
  {
    if |parts| == 0 then []
    else if |parts| == 1 then parts[0]
    else parts[0] + sep + Join(parts[1..], sep)
  }

  /** The number of occurrences of `x` in `s`. */
  function Count<T(==)>(s: seq<T>, x: T): nat
  {
    if |s| == 0 then 0 else (if s[0] == x then 1 else 0) + Count(s[1..], x)
  }

  /** Joining the pieces with the separator gives back the input. */
  lemma {:induction false} JoinSplit<T>(s: seq<T>, sep: T)
    ensures Join(Split(s, sep), [sep]) == s
    decreases |s|
  {
    if |s| > 0 {
      var rest := Split(s[1..], sep);
      JoinSplit(s[1..], sep);
      if s[0] == sep {
        assert Split(s, sep) == [[]] + rest;
        assert Join([[]] + rest, [sep]) == [] + [sep] + Join(rest, [sep]);
      } else {
        var parts := Split(s, sep);
        assert parts == [[s[0]] + rest[0]] + rest[1..];
        if |rest| == 1 {
          assert Join(parts, [sep]) == [s[0]] + rest[0];
        } else {
          assert parts[1..] == rest[1..];
          assert Join(parts, [sep]) == [s[0]] + rest[0] + [sep] + Join(rest[1..], [sep]);
        }
      }
    }
  }

  /** No piece contains the separator. */
  lemma {:induction false} SplitPiecesFree<T>(s: seq<T>, sep: T)
    ensures forall k :: 0 <= k < |Split(s, sep)| ==> sep !in Split(s, sep)[k]
    decreases |s|
  {
    if |s| > 0 {
      SplitPiecesFree(s[1..], sep);
      var rest := Split(s[1..], sep);
      if s[0] != sep {
        assert sep !in rest[0];
        assert sep !in [s[0]] + rest[0];
      }
    }
  }

  /** There is one more piece than there are separators. */
  lemma {:induction false} SplitLength<T>(s: seq<T>, sep: T)
    ensures |Split(s, sep)| == Count(s, sep) + 1
    decreases |s|
  {
    if |s| > 0 {
      SplitLength(s[1..], sep);
    }
  }

  /** Appending a piece at the end of a join. */
  lemma {:induction false} JoinSnoc<T>(parts: seq<seq<T>>, p: seq<T>, sep: seq<T>)
    ensures Join(parts + [p], sep) == if |parts| == 0 then p else Join(parts, sep) + sep + p
    decreases |parts|
  {
    if |parts| >= 2 {
      assert (parts + [p])[1..] == parts[1..] + [p];
      JoinSnoc(parts[1..], p, sep);
    } else if |parts| == 1 {
      assert (parts + [p])[1..] == [p];
    }
  }

  /** A piece without the separator splits into itself. */
  lemma {:induction false} SplitNoSep<T>(p: seq<T>, sep: T)
    requires sep !in p
    ensures Split(p, sep) == [p]
    decreases |p|
  {
    if |p| > 0 {
      assert sep !in p[1..];
      SplitNoSep(p[1..], sep);
      assert [p[0]] + p[1..] == p;
    }
  }

  /** A leading piece without the separator comes off first. */
  lemma {:induction false} SplitAfter<T>(p: seq<T>, rest: seq<T>, sep: T)
    requires sep !in p
    ensures Split(p + [sep] + rest, sep) == [p] + Split(rest, sep)
    decreases |p|
  {
    var s := p + [sep] + rest;
    if |p| == 0 {
      assert s[1..] == rest;
    } else {
      assert s[1..] == p[1..] + [sep] + rest;
      assert sep !in p[1..];
      SplitAfter(p[1..], rest, sep);
      assert [p[0]] + p[1..] == p;
    }
  }

  /** Splitting a join of separator-free pieces gives the pieces back. */
  lemma {:induction false} SplitJoin<T>(parts: seq<seq<T>>, sep: T)
    requires |parts| >= 1
    requires forall k :: 0 <= k < |parts| ==> sep !in parts[k]
    ensures Split(Join(parts, [sep]), sep) == parts
    decreases |parts|
  {
    if |parts| == 1 {
      SplitNoSep(parts[0], sep);
    } else {
      SplitJoin(parts[1..], sep);
      SplitAfter(parts[0], Join(parts[1..], [sep]), sep);
      assert [parts[0]] + parts[1..] == parts;
    }
  }

  // ---------------------------------------------------------------- reverse / filter

  /** Regrouping a three-part concatenation. */
  lemma ConcatAssoc3<T>(a: seq<T>, b: seq<T>, c: seq<T>)
    ensures a + b + c == a + (b + c)
  { }

  /** Regrouping a four-part concatenation. */
  lemma ConcatAssoc<T>(a: seq<T>, b: seq<T>, c: seq<T>, d: seq<T>)
    ensures a + (b + c + d) == (a + b) + c + d
  { }

  /** The two ends of a three-part concatenation. */
  lemma ConcatParts<T>(a: seq<T>, b: seq<T>, c: seq<T>)
    ensures (a + b + c)[..|a| + |b|] == a + b && (a + b + c)[|a| + |b|..] == c
  {
  }

  /** `s` back to front, as `iter().rev()` visits it. */
  function Reverse<T>(s: seq<T>): (r: seq<T>)
    ensures |r| == |s|
    ensures forall i :: 0 <= i < |s| ==> r[i] == s[|s| - 1 - i]
  {
    if |s| == 0 then [] else Reverse(s[1..]) + [s[0]]
  }

  /** The elements of `s` that satisfy `p`, in their order in `s`. */
  function Filter<T>(s: seq<T>, p: T -> bool): (r: seq<T>)
    ensures |r| <= |s|
    ensures forall x :: x in r ==> x in s && p(x)
  {
    if |s| == 0 then []
    else Filter(s[..|s| - 1], p) + (if p(s[|s| - 1]) then [s[|s| - 1]] else [])
  }

  /** Reversal turns a snoc into a cons. */
  lemma ReverseSnoc<T>(s: seq<T>, a: T)
    ensures Reverse(s + [a]) == [a] + Reverse(s)
  {
  }

  /** Visiting a filtered sequence back to front looks at the last element first. */
  lemma ReverseFilterSnoc<T>(s: seq<T>, a: T, p: T -> bool)
    ensures Reverse(Filter(s + [a], p)) == (if p(a) then [a] else []) + Reverse(Filter(s, p))
  {
    assert (s + [a])[..|s + [a]| - 1] == s;
    if p(a) {
      ReverseSnoc(Filter(s, p), a);
    }
  }

  /** An element of `s` that satisfies `p` survives the filter. */
  lemma {:induction false} FilterKeeps<T>(s: seq<T>, p: T -> bool, x: T)
    requires x in s && p(x)
    ensures x in Filter(s, p)
    decreases |s|
  {
    if s[|s| - 1] != x {
      assert x in s[..|s| - 1];
      FilterKeeps(s[..|s| - 1], p, x);
    }
  }

  /** A non-empty sequence is its front followed by its last element. */
  lemma SnocLast<T>(s: seq<T>)
    requires |s| > 0
    ensures s[..|s| - 1] + [s[|s| - 1]] == s
  { }

  /** Filtering one more element of a prefix. */
  lemma FilterPrefixStep<T>(s: seq<T>, j: nat, p: T -> bool)
    requires j < |s|
    ensures Filter(s[..j + 1], p) == Filter(s[..j], p) + (if p(s[j]) then [s[j]] else [])
  {
    assert s[..j + 1][..j] == s[..j];
  }

  /** A filter that every element passes keeps the whole sequence. */
  lemma {:induction false} FilterAll<T>(s: seq<T>, p: T -> bool)
    requires forall i :: 0 <= i < |s| ==> p(s[i])
    ensures Filter(s, p) == s
    decreases |s|
  {
    if |s| > 0 {
      var init, last := s[..|s| - 1], s[|s| - 1];
      assert Filter(init, p) == init by {
        assert forall i :: 0 <= i < |init| ==> init[i] == s[i];
        FilterAll(init, p);
      }
      assert Filter(s, p) == Filter(init, p) + [last] by {
        assert p(last);
      }
      SnocLast(s);
    }
  }

  /** A filter that no element passes keeps nothing. */
  lemma {:induction false} FilterNone<T>(s: seq<T>, p: T -> bool)
    requires forall x :: x in s ==> !p(x)
    ensures Filter(s, p) == []
    decreases |s|
  {
    if |s| > 0 {
      assert forall x :: x in s[..|s| - 1] ==> x in s;
      FilterNone(s[..|s| - 1], p);
    }
  }

  // ---------------------------------------------------------------- fallible collection

  /** Apply `f` to every element in order and stop at the first error. */
  function TryMap<A, B, E>(xs: seq<A>, f: A -> Result<B, E>): Result<seq<B>, E>
  {
    if |xs| == 0 then Ok([])
    else match f(xs[0])
      case Err(e) => Err(e)
      case Ok(y) => PrependOk([y], TryMap(xs[1..], f))
  }

  /** `r` with `prefix` put in front of its success value. */
  function PrependOk<B, E>(prefix: seq<B>, r: Result<seq<B>, E>): (p: Result<seq<B>, E>)
    ensures p.Ok? <==> r.Ok?
    ensures p.Ok? ==> p.value == prefix + r.value
    ensures p.Err? ==> p == r
  {
    match r
    case Ok(v) => Ok(prefix + v)
    case Err(e) => Err(e)
  }

  /** Prepending nothing, or appending nothing, changes nothing. */
  lemma PrependOkNothing<B, E>(r: Result<seq<B>, E>, v: seq<B>)
    ensures PrependOk([], r) == r
    ensures PrependOk<B, E>(v, Ok([])) == Ok(v)
  {
    if r.Ok? {
      assert [] + r.value == r.value;
    }
    assert v + [] == v;
  }

  /** Prepending twice is prepending the concatenation. */
  lemma PrependOkTwice<B, E>(a: seq<B>, b: seq<B>, r: Result<seq<B>, E>)
    ensures PrependOk(a, PrependOk(b, r)) == PrependOk(a + b, r)
  {
    if r.Ok? {
      assert a + (b + r.value) == (a + b) + r.value;
    }
  }

  /** One step of `TryMap` at position `i`, the shape a loop over `xs` sees. */
  lemma TryMapAt<A, B, E>(xs: seq<A>, i: nat, f: A -> Result<B, E>)
    requires i < |xs|
    ensures TryMap(xs[i..], f) == match f(xs[i])
                                  case Err(e) => Err(e)
                                  case Ok(y) => PrependOk([y], TryMap(xs[i + 1..], f))
  {
    assert xs[i..][1..] == xs[i + 1..];
  }

  /** `TryMap` succeeds exactly when `f` succeeds on every element, and then it
      holds one result per element, in order. */
  lemma {:induction false} TryMapOk<A, B, E>(xs: seq<A>, f: A -> Result<B, E>)
    ensures TryMap(xs, f).Ok? <==> forall i :: 0 <= i < |xs| ==> f(xs[i]).Ok?
    ensures TryMap(xs, f).Ok? ==>
              |TryMap(xs, f).value| == |xs| &&
              forall i :: 0 <= i < |xs| ==> f(xs[i]) == Ok(TryMap(xs, f).value[i])
    decreases |xs|
  {
    if |xs| > 0 {
      TryMapOk(xs[1..], f);
      if f(xs[0]).Ok? && TryMap(xs[1..], f).Ok? {
        var v := TryMap(xs, f).value;
        assert v == [f(xs[0]).value] + TryMap(xs[1..], f).value;
        forall i | 0 <= i < |xs|
          ensures f(xs[i]) == Ok(v[i])
        {
          if i > 0 {
            assert xs[i] == xs[1..][i - 1];
          }
        }
      } else if f(xs[0]).Ok? {
        var i :| 0 <= i < |xs[1..]| && !f(xs[1..][i]).Ok?;
        assert xs[1..][i] == xs[i + 1];
      }
    }
  }

  /** When `TryMap` fails, its error is the one of the first element on which `f`
      fails. */
  lemma {:induction false} TryMapErr<A, B, E>(xs: seq<A>, f: A -> Result<B, E>)
    requires TryMap(xs, f).Err?
    ensures exists k :: 0 <= k < |xs| && f(xs[k]) == Err(TryMap(xs, f).error) &&
                        forall j :: 0 <= j < k ==> f(xs[j]).Ok?
    decreases |xs|
  {
    if f(xs[0]).Err? {
      assert f(xs[0]) == Err(TryMap(xs, f).error);
    } else {
      TryMapErr(xs[1..], f);
      var k :| 0 <= k < |xs[1..]| && f(xs[1..][k]) == Err(TryMap(xs[1..], f).error) &&
               forall j :: 0 <= j < k ==> f(xs[1..][j]).Ok?;
      assert f(xs[k + 1]) == Err(TryMap(xs, f).error);
      forall j | 0 <= j < k + 1
        ensures f(xs[j]).Ok?
      {
        if j > 0 {
          assert xs[j] == xs[1..][j - 1];
        }
      }
    }
  }

  // ---------------------------------------------------------------- last one wins

  /** The value that the last element selected by `sel` carries, if any element is
      selected: the setting that a left-to-right sequence of assignments leaves. */
  function LastOf<A, T>(xs: seq<A>, sel: A -> Option<T>): (r: Option<T>)
    ensures r.Some? <==> exists i :: 0 <= i < |xs| && sel(xs[i]).Some?
  {
    if |xs| == 0 then None
    else match LastOf(xs[1..], sel)
      case Some(v) => Some(v)
      case None => sel(xs[0])
  }

  /** The element that `LastOf` reads: selected, and no later element is. */
  lemma {:induction false} LastOfIsLast<A, T>(xs: seq<A>, sel: A -> Option<T>)
    requires LastOf(xs, sel).Some?
    ensures exists i :: 0 <= i < |xs| && sel(xs[i]) == LastOf(xs, sel) &&
                        forall j :: i < j < |xs| ==> sel(xs[j]).None?
    decreases |xs|
  {
    if LastOf(xs[1..], sel).Some? {
      LastOfIsLast(xs[1..], sel);
      var i :| 0 <= i < |xs[1..]| && sel(xs[1..][i]) == LastOf(xs[1..], sel) &&
               forall j :: i < j < |xs[1..]| ==> sel(xs[1..][j]).None?;
      assert sel(xs[i + 1]) == LastOf(xs, sel);
      forall j | i + 1 < j < |xs|
        ensures sel(xs[j]).None?
      {
        assert xs[j] == xs[1..][j - 1];
      }
    } else {
      forall j | 0 < j < |xs|
        ensures sel(xs[j]).None?
      {
        assert xs[j] == xs[1..][j - 1];
      }
    }
  }
}
