/** Small shared vocabulary: optional values and the saturating clock difference. */
module Prelude {

  datatype Option<+T> = None | Some(value: T)

  /** Unsigned saturating subtraction, as every elapsed-time test in the source uses. */
  function SatSub(a: nat, b: nat): nat {
    if a >= b then a - b else 0
  }

  function Min(a: int, b: int): int {
    if a <= b then a else b
  }

  function Max(a: int, b: int): int {
    if a >= b then a else b
  }

  const U64_MAX: nat := 0xFFFF_FFFF_FFFF_FFFF

  /** Unsigned 64-bit saturating multiplication. */
  function SatMul(a: nat, b: nat): nat {
    if a * b <= U64_MAX then a * b else U64_MAX
  }

  function RMin(a: real, b: real): real {
    if a <= b then a else b
  }

  function RMax(a: real, b: real): real {
    if a >= b then a else b
  }

  /** A sweep that has reached `i` and now settles element `i`. */
  lemma Frontier<T>(before: seq<T>, after: seq<T>, i: nat)
    requires |before| == |after| && i < |before|
    ensures (after[..i] + before[i..])[i] == before[i]
    ensures (after[..i] + before[i..])[i := after[i]] == after[..i + 1] + before[i + 1..]
  {
  }

  lemma FrontierDone<T>(before: seq<T>, after: seq<T>)
    requires |before| == |after|
    ensures after[..|before|] + before[|before|..] == after && after[..0] + before[0..] == before
  {
  }

  /** What holds at `m` and is lost exactly where it is broken holds up to `n` exactly when nothing breaks it. */
  lemma {:induction false} UnbrokenIff(holds: nat -> bool, breaks: nat -> bool, m: nat, n: nat)
    requires m <= n && holds(m)
    requires forall k: nat | m <= k < n :: holds(k) ==> (holds(k + 1) <==> !breaks(k))
    ensures (forall k: nat | m <= k <= n :: holds(k)) <==> (forall k: nat | m <= k < n :: !breaks(k))
    decreases n
  {
    if m < n {
      UnbrokenIff(holds, breaks, m, n - 1);
      assert holds(n - 1) ==> (holds(n - 1 + 1) <==> !breaks(n - 1));
    }
  }

  /** A trace of steps followed by one more step. */
  lemma TraceExtends<S, E>(ss: seq<S>, es: seq<E>, e: E, s: S, step: (S, E, S) -> bool)
    requires |ss| == |es| + 1 && step(ss[|es|], e, s)
    requires forall n | 0 <= n < |es| :: step(ss[n], es[n], ss[n + 1])
    ensures forall n | 0 <= n < |es + [e]| :: step((ss + [s])[n], (es + [e])[n], (ss + [s])[n + 1])
  {
  }
}
