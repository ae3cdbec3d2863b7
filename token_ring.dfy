/** The circular index over the token sequence: the wrap-around step of
    `updateIndex(by:)` and the clamp applied when the sequence is replaced. */
module TokenRing {

  /** One step of `updateIndex(by:)`: add `value`, then undo one overshoot by
      adding or subtracting `count` once. There is no modulo, so the result
      is only guaranteed in range for |value| <= count; on an empty sequence
      the index simply moves by `value`. */
  function WrapIndex(index: int, value: int, count: nat): (r: int)
    ensures 0 <= index < count && -(count as int) <= value <= count ==> 0 <= r < count
    ensures count == 0 ==> r == index + value
  {
    var i := index + value;
    if i < 0 then i + count
    else if i >= count then i - count
    else i
  }

  /** Within its range, `WrapIndex` is addition modulo the length: from 0, a
      step of -1 on three tokens lands on 2. */
  lemma WrapIndexIsMod(index: int, value: int, count: nat)
    requires 0 <= index < count && -(count as int) <= value <= count
    ensures WrapIndex(index, value, count) == (index + value) % count
  {
    var i := index + value;
    if i < 0 {
      DivModUnique(i, count, -1, i + count);
    } else if i >= count {
      DivModUnique(i, count, 1, i - count);
    } else {
      DivModUnique(i, count, 0, i);
    }
  }

  function Sum(steps: seq<int>): int
  {
    if steps == [] then 0 else steps[0] + Sum(steps[1..])
  }

  /** The index reached after applying every step of `steps` with `WrapIndex`:
      it stays in range when it starts in range and no step exceeds the
      length. */
  function Walk(index: int, steps: seq<int>, count: nat): (r: int)
    ensures 0 <= index < count && StepsWithin(steps, count) ==> 0 <= r < count
    decreases |steps|
  {
    if steps == [] then index
    else Walk(WrapIndex(index, steps[0], count), steps[1..], count)
  }

  predicate StepsWithin(steps: seq<int>, count: nat)
  {
    forall k :: 0 <= k < |steps| ==> -(count as int) <= steps[k] <= count
  }

  lemma ModAddLeft(a: int, b: int, n: int)
    requires n > 0
    ensures (a % n + b) % n == (a + b) % n
  {
    var q := a / n;
    assert a == n * q + a % n;
    ModShift(a % n + b, q, n);
  }

  lemma {:induction false} ModShift(x: int, q: int, n: int)
    requires n > 0
    ensures (x + n * q) % n == x % n
    decreases if q < 0 then -q else q
  {
    if q > 0 {
      ModShift(x, q - 1, n);
      ModStep(x + n * (q - 1), n);
      assert x + n * q == x + n * (q - 1) + n;
    } else if q < 0 {
      ModShift(x, q + 1, n);
      ModStep(x + n * q, n);
      assert x + n * (q + 1) == x + n * q + n;
    }
  }

  lemma ModStep(x: int, n: int)
    requires n > 0
    ensures (x + n) % n == x % n
  {
    var r := x % n;
    var d := x / n;
    assert x == n * d + r;
    assert x + n == n * (d + 1) + r;
    assert 0 <= r < n;
    DivModUnique(x + n, n, d + 1, r);
  }

  lemma DivModUnique(x: int, n: int, d: int, r: int)
    requires n > 0 && 0 <= r < n && x == n * d + r
    ensures x % n == r
  {
    var d' := x / n;
    var r' := x % n;
    assert x == n * d' + r';
    if d > d' {
      assert n * (d - d') == r' - r;
      MulAtLeast(n, d - d');
    } else if d < d' {
      assert n * (d' - d) == r - r';
      MulAtLeast(n, d' - d);
    }
  }

  lemma {:induction false} MulAtLeast(n: int, e: int)
    requires n > 0 && e > 0
    ensures n * e >= n
    decreases e
  {
    if e > 1 {
      MulAtLeast(n, e - 1);
      assert n * e == n * (e - 1) + n;
    }
  }

  /** Any run of next/previous moves (each of magnitude at most the length)
      leaves the index at the start plus the sum of the moves, modulo the
      length: the repeated add-or-subtract is modular arithmetic. */
  lemma {:induction false} WalkIsModularSum(index: int, steps: seq<int>, count: nat)
    requires 0 <= index < count
    requires StepsWithin(steps, count)
    ensures Walk(index, steps, count) == (index + Sum(steps)) % count
    ensures 0 <= Walk(index, steps, count) < count
    decreases |steps|
  {
    if steps == [] {
      DivModUnique(index, count, 0, index);
    } else {
      var rest := steps[1..];
      var a, b := index + steps[0], Sum(rest);
      var next := WrapIndex(index, steps[0], count);
      WrapIndexIsMod(index, steps[0], count);
      StepsWithinTail(steps, count);
      WalkIsModularSum(next, rest, count);
      ModAddLeft(a, b, count);
      calc {
        Walk(index, steps, count);
        Walk(next, rest, count);
        (a % count + b) % count;
        (a + b) % count;
        { assert a + b == index + Sum(steps); }
        (index + Sum(steps)) % count;
      }
    }
  }

  /** Two runs of moves one after the other reach the same index as the
      single run made of both. */
  lemma {:induction false} WalkConcat(index: int, first: seq<int>, second: seq<int>, count: nat)
    ensures Walk(index, first + second, count) == Walk(Walk(index, first, count), second, count)
    decreases |first|
  {
    if first != [] {
      assert (first + second)[0] == first[0];
      assert (first + second)[1..] == first[1..] + second;
      WalkConcat(WrapIndex(index, first[0], count), first[1..], second, count);
    } else {
      assert first + second == second;
    }
  }

  lemma StepsWithinTail(steps: seq<int>, count: nat)
    requires steps != [] && StepsWithin(steps, count)
    ensures StepsWithin(steps[1..], count)
  {
    forall k | 0 <= k < |steps[1..]| ensures -(count as int) <= steps[1..][k] <= count {
      assert steps[1..][k] == steps[k + 1];
    }
  }

  /** The clamp the `tokens` setter applies, as written: Swift's
      `min(currentIndex, tokens.count)`, which can return `count` itself. */
  function ClampIndexAsWritten(index: int, count: nat): (r: int)
    ensures r <= index && r <= count
    ensures r == index || r == count
  {
    if count < index then count else index
  }

  /** Whenever the index does not already fit the new sequence, the clamp as
      written lands one past its end, where `redrawToken` then reads. */
  lemma ClampIndexAsWrittenOverruns(index: int, count: nat)
    requires index >= count
    ensures ClampIndexAsWritten(index, count) == count
    ensures !(ClampIndexAsWritten(index, count) < count)
  {
  }

  /** Shrinking three tokens to two with the index on the last one. */
  lemma ClampIndexAsWrittenExample()
    ensures ClampIndexAsWritten(2, 2) == 2
  {
  }

  /** The clamp as written only yields a readable index when it changed
      nothing: it never actually moves an index back into range. */
  lemma ClampIndexAsWrittenNeverHelps(index: int, count: nat)
    requires ClampIndexAsWritten(index, count) < count
    ensures ClampIndexAsWritten(index, count) == index
  {
  }

  /** The intended clamp: to the last valid index of a non-empty sequence. */
  function ClampIndex(index: int, count: nat): (r: int)
    requires count > 0 && index >= 0
    ensures 0 <= r < count
    ensures index < count ==> r == index
    ensures index >= count ==> r == count - 1
  {
    if count - 1 < index then count - 1 else index
  }
}
