/** Small vocabulary shared by the other modules. */
module Prelude {
  datatype Option<+T> = None | Some(value: T) {
    function GetOr(default: T): T {
      if Some? then value else default
    }
  }

  datatype Side = Bid | Ask

  function Max(a: real, b: real): real {
    if a < b then b else a
  }

  function Min(a: real, b: real): real {
    if b < a then b else a
  }

  function Abs(a: real): real {
    if a < 0.0 then -a else a
  }

  /** `a` multiplied `n` times by `factor`. */
  function Scaled(a: real, factor: real, n: nat): real {
    if n == 0 then a else Scaled(a, factor, n - 1) * factor
  }

  /** Those below n that are marked. */
  function Marked(mark: nat -> bool, n: nat): set<nat> {
    set i: nat | i < n && mark(i)
  }

  lemma OneMoreMarked(mark: nat -> bool, n: nat)
    ensures |Marked(mark, n + 1)| == |Marked(mark, n)| + if mark(n) then 1 else 0
    ensures |Marked(mark, 0)| == 0
  {
    assert Marked(mark, n + 1) == if mark(n) then Marked(mark, n) + {n} else Marked(mark, n);
    assert Marked(mark, 0) == {};
  }
}
