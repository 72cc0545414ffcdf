/** Helpers of the integration tests (libspawner_tests/common.rs): approximate
    comparison of measured values, and the path of a test program. */
module TestCommon {

  /** `approx_eq` over the integers: `a` lies strictly between `b - diff` and
      `b + diff`. */
  predicate ApproxEq(a: int, b: int, diff: int)
  {
    a > b - diff && a < b + diff
  }

  function Abs(x: int): nat
  {
    if x < 0 then -x else x
  }

  /** `approx_eq` holds exactly when `a` and `b` are less than `diff` apart. */
  lemma ApproxEqDistance(a: int, b: int, diff: int)
    ensures ApproxEq(a, b, diff) <==> Abs(a - b) < diff
  {
  }

  /** A tolerance that is not positive admits nothing, not even equality; any
      positive one admits equality. */
  lemma ApproxEqNeedsPositiveDiff(a: int, b: int, diff: int)
    ensures diff <= 0 ==> !ApproxEq(a, b, diff)
    ensures ApproxEq(b, b, diff) <==> diff > 0
  {
  }

  /** The comparison is symmetric, and a wider tolerance admits more. */
  lemma ApproxEqSymmetricMonotone(a: int, b: int, diff: int, wider: int)
    ensures ApproxEq(a, b, diff) <==> ApproxEq(b, a, diff)
    ensures ApproxEq(a, b, diff) && diff <= wider ==> ApproxEq(a, b, wider)
  {
  }

  const ExeDir := "../target/debug/"
  const ExeSuffix := ".exe"

  /** `exe!`: the path of a test program built in the debug target directory. */
  function Exe(s: string): (path: string)
    ensures |path| == |ExeDir| + |s| + |ExeSuffix|
  {
    ExeDir + s + ExeSuffix
  }

  /** The program name can be read back from its path, so different programs get
      different paths. */
  lemma ExeParts(s: string, t: string)
    ensures var p := Exe(s);
            p[..|ExeDir|] == ExeDir && p[|p| - |ExeSuffix|..] == ExeSuffix &&
            p[|ExeDir|..|p| - |ExeSuffix|] == s
    ensures Exe(s) == Exe(t) ==> s == t
  {
    var p := Exe(s);
    assert p[|ExeDir|..|p| - |ExeSuffix|] == s;
    if Exe(s) == Exe(t) {
      var q := Exe(t);
      assert q[|ExeDir|..|q| - |ExeSuffix|] == t;
    }
  }
}
