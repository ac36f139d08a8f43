/** The thread swizzle table: a map from a ray tracing thread's logical id to
    the id of the work item it runs. Only the default, identity, strategy is
    built; the table's size is fixed by the frame resolution constant. */
module ThreadSwizzle {
  import opened SceneTypes

  const FrameWidth: nat := 1280
  const FrameHeight: nat := 720

  /** Number of entries of the table: one per pixel of the fixed frame. */
  const SwizzleSize: nat := FrameWidth * FrameHeight

  /** Some entry of `t` holds `v`. */
  ghost predicate Covers(t: seq<Word>, v: int)
  {
    exists i | 0 <= i < |t| :: t[i] == v
  }

  /** `t` is a bijection of `[0, |t|)` onto itself. */
  ghost predicate IsBijection(t: seq<Word>)
  {
    && (forall i | 0 <= i < |t| :: t[i] < |t|)
    && (forall i, j | 0 <= i < j < |t| :: t[i] != t[j])
    && (forall v | 0 <= v < |t| :: Covers(t, v))
  }

  /** The identity table of `n` entries: entry `i` holds `i`. */
  function IdentityTable(n: nat): (t: seq<Word>)
    requires n <= WordRange
    ensures |t| == n
  {
    seq(n, i requires 0 <= i < n => i)
  }

  /** The identity table is a bijection of `[0, n)` onto itself. */
  lemma IdentityTableIsBijection(n: nat)
    requires n <= WordRange
    ensures IsBijection(IdentityTable(n))
  {
    var t := IdentityTable(n);
    forall v | 0 <= v < n
      ensures Covers(t, v)
    {
      assert t[v] == v;
    }
  }

  /** Allocates a zero-filled table of `SwizzleSize` entries and writes each
      entry's own position into it. */
  method BuildIdentitySwizzle() returns (table: seq<Word>)
    ensures table == IdentityTable(SwizzleSize)
    ensures |table| == SwizzleSize && forall i | 0 <= i < |table| :: table[i] == i
  {
    var t := new Word[SwizzleSize];
    var threadId := 0;
    while threadId < t.Length
      invariant 0 <= threadId <= t.Length
      invariant forall i | 0 <= i < threadId :: t[i] == i
    {
      t[threadId] := threadId;
      threadId := threadId + 1;
    }
    table := t[..];
  }
}
