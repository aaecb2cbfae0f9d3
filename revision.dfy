/**
 * revision.go: optimistic concurrency. A resource type that implements
 * `Revisioner` reports a revision number; an update may be merged only when
 * the body carries the revision that is stored.
 */
module Revision {
  import opened Records

  /** `CanMerge(current, updated)`: the two revisions are equal. Neither record is changed. */
  function CanMerge(current: Record, updated: Record): (ok: bool)
    ensures ok <==> current.rev == updated.rev
  {
    current.rev == updated.rev
  }

  /** A record can always be merged with itself. */
  lemma CanMergeReflexive(x: Record)
    ensures CanMerge(x, x)
  {
  }

  /** The check does not depend on which record is the stored one. */
  lemma CanMergeSymmetric(x: Record, y: Record)
    ensures CanMerge(x, y) == CanMerge(y, x)
  {
  }

  /** Only the revisions take part: the key and the other columns never decide a conflict. */
  lemma CanMergeOnlyRevisions(x: Record, y: Record, x': Record, y': Record)
    requires x.rev == x'.rev && y.rev == y'.rev
    ensures CanMerge(x, y) == CanMerge(x', y')
  {
  }
}
