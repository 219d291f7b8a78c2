/** The text order, said by the first place where two texts differ. */
module OrderingLaws {
  import opened Ordering

  /** The texts agree up to k, where the first ends or has the smaller letter. */
  ghost predicate DiffersAt(a: string, b: string, k: nat) {
    k <= |a| && k < |b| && a[..k] == b[..k] && (k == |a| || a[k] < b[k])
  }

  ghost predicate TextBefore(a: string, b: string) {
    exists k: nat :: DiffersAt(a, b, k)
  }

  lemma AgreeAhead(a: string, b: string, k: nat)
    requires DiffersAt(a, b, k)
    ensures k > 0 ==> a[0] == b[0]
  {
    if k > 0 {
      assert a[..k][0] == b[..k][0];
    }
  }

  lemma {:induction false} LessIsTextBefore(a: string, b: string)
    ensures Less(a, b) <==> TextBefore(a, b)
    decreases |a|
  {
    if |a| == 0 || |b| == 0 || a[0] != b[0] {
      if Less(a, b) {
        assert DiffersAt(a, b, 0);
      }
      if k: nat :| DiffersAt(a, b, k) {
        AgreeAhead(a, b, k);
      }
    } else {
      LessIsTextBefore(a[1..], b[1..]);
      if k: nat :| DiffersAt(a[1..], b[1..], k) {
        assert a[..k + 1] == [a[0]] + a[1..][..k] && b[..k + 1] == [b[0]] + b[1..][..k];
        assert DiffersAt(a, b, k + 1);
      }
      if k: nat :| DiffersAt(a, b, k) {
        assert a[1..][..k - 1] == a[..k][1..] && b[1..][..k - 1] == b[..k][1..];
        assert DiffersAt(a[1..], b[1..], k - 1);
      }
    }
  }
}
