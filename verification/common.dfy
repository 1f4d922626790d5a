/** Small shared vocabulary: optional values, defined-or-undefined outcomes,
    and the view of a string that C++ code gets through a `const char*`. */
module Common {

  /** A value that may be absent. */
  datatype Option<+T> = None | Some(value: T)

  /** The result of running C++ code whose behaviour may be undefined on
      some inputs (a failed rapidjson assertion, say). */
  datatype Outcome<+T> = Defined(value: T) | Undefined

  /** The characters of `s` up to, not including, its first NUL: what a
      `std::string` built from `s.c_str()` (or a loop that stops at the
      terminating zero) sees. */
  function CString(s: string): (r: string)
    ensures r <= s
    ensures '\0' !in r
    ensures |r| < |s| ==> s[|r|] == '\0'
  {
    if |s| == 0 || s[0] == '\0' then "" else [s[0]] + CString(s[1..])
  }

  /** A string without NUL characters is its own C view. */
  lemma {:induction false} CStringOfNulFree(s: string)
    requires '\0' !in s
    ensures CString(s) == s
  {
    if |s| > 0 {
      CStringOfNulFree(s[1..]);
    }
  }

  /** Positions counted from the second element of a sequence, renumbered
      to count from the first. */
  function ShiftUp(positions: set<nat>): set<nat> {
    set i | i in positions :: i + 1
  }

  /** Renumbering keeps the count and never yields position 0. */
  lemma {:induction false} ShiftUpCard(positions: set<nat>)
    ensures 0 !in ShiftUp(positions)
    ensures |ShiftUp(positions)| == |positions|
    decreases |positions|
  {
    if positions != {} {
      var x :| x in positions;
      var rest := positions - {x};
      forall j | j in ShiftUp(positions) ensures j in ShiftUp(rest) + {x + 1} {
        var i :| i in positions && j == i + 1;
        if i != x { assert i in rest; }
      }
      assert ShiftUp(positions) == ShiftUp(rest) + {x + 1};
      assert forall i :: i in rest ==> i + 1 != x + 1;
      ShiftUpCard(rest);
      assert positions == rest + {x};
    }
  }

  /** Concatenation regrouped; stated once so that proofs about long
      records need not rediscover it element by element. */
  lemma ConcatAssoc<T>(x: seq<T>, y: seq<T>, z: seq<T>)
    ensures x + (y + z) == (x + y) + z
  {
  }
}
