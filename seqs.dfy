/** Concatenation and sums over sequences, as `b"".join`, list `+` and `sum` compute them. */
module Seqs {
  /** `b"".join(parts)` (and list concatenation in general). */
  function Concat<T>(parts: seq<seq<T>>): seq<T> {
    if parts == [] then [] else Concat(parts[..|parts| - 1]) + parts[|parts| - 1]
  }

  lemma {:induction false} ConcatAppend<T>(a: seq<seq<T>>, b: seq<seq<T>>)
    ensures Concat(a + b) == Concat(a) + Concat(b)
    decreases |b|
  {
    if b == [] {
      assert a + b == a;
    } else {
      var b', x := b[..|b| - 1], b[|b| - 1];
      assert (a + b)[..|a + b| - 1] == a + b';
      assert (a + b)[|a + b| - 1] == x;
      calc {
        Concat(a + b);
        Concat(a + b') + x;
        { ConcatAppend(a, b'); }
        Concat(a) + Concat(b') + x;
        Concat(a) + (Concat(b') + x);
      }
    }
  }

  /** `Concat` of a sequence is `Concat` of its first element followed by the rest. */
  lemma ConcatCons<T>(parts: seq<seq<T>>)
    requires parts != []
    ensures Concat(parts) == parts[0] + Concat(parts[1..])
  {
    ConcatAppend([parts[0]], parts[1..]);
    assert [parts[0]] + parts[1..] == parts;
    ConcatSingle(parts[0]);
  }

  /** `sum(counts)`. */
  function Sum(counts: seq<nat>): nat {
    if counts == [] then 0 else Sum(counts[..|counts| - 1]) + counts[|counts| - 1]
  }

  /** `sum(len(x) for x in parts)`. */
  function SumLengths<T>(parts: seq<seq<T>>): nat {
    if parts == [] then 0 else SumLengths(parts[..|parts| - 1]) + |parts[|parts| - 1]|
  }

  /** The size `_create_job` measures is the size of the aggregated object. */
  lemma {:induction false} SumLengthsIsJoinedLength<T>(parts: seq<seq<T>>)
    ensures SumLengths(parts) == |Concat(parts)|
  {
    if parts != [] {
      SumLengthsIsJoinedLength(parts[..|parts| - 1]);
    }
  }

  lemma ConcatSingle<T>(x: seq<T>)
    ensures Concat([x]) == x
  {
    assert [x][..0] == [];
  }

  /** Joining the first `i + 1` inputs adds input `i` to the join of the first `i`. */
  lemma ConcatPrefixStep<T>(parts: seq<seq<T>>, i: nat)
    requires i < |parts|
    ensures Concat(parts[..i + 1]) == Concat(parts[..i]) + parts[i]
  {
    var ax := parts[..i + 1];
    assert ax[..|ax| - 1] == parts[..i];
    assert ax[|ax| - 1] == parts[i];
  }

  /** Joining all inputs joins those before `k` and those from `k` on. */
  lemma JoinAt<T>(parts: seq<seq<T>>, k: nat)
    requires k <= |parts|
    ensures Concat(parts) == Concat(parts[..k]) + Concat(parts[k..])
  {
    assert parts[..k] + parts[k..] == parts;
    ConcatAppend(parts[..k], parts[k..]);
  }

  /** The joined inputs are the inputs before `i`, input `i`, and the inputs after it. */
  lemma ConcatAround<T>(parts: seq<seq<T>>, i: nat)
    requires i < |parts|
    ensures Concat(parts) == Concat(parts[..i]) + parts[i] + Concat(parts[i + 1..])
  {
    ConcatPrefixStep(parts, i);
    JoinAt(parts, i + 1);
  }
}
