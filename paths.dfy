/**
 * Windows path handling used by the manifest builder: `os.path.split` and
 * `os.path.join` on backslash-separated paths (the empty path is the root),
 * and `mask_path`, which turns a group-local path into the stable relative
 * key by dropping the mask prefix and the separator after it.
 */
module Paths {

  const Sep: char := '\\'

  /** A path that starts with a separator; for these the simplified split does not round-trip. */
  predicate Anchored(p: string) {
    |p| > 0 && p[0] == Sep
  }

  /** The index of the last separator in `p`, or -1 when there is none. */
  function LastSep(p: string): (k: int)
    ensures -1 <= k < |p|
  {
    if p == [] then -1
    else if p[|p| - 1] == Sep then |p| - 1
    else LastSep(p[..|p| - 1])
  }

  /** `LastSep` finds a separator, and none follows it. */
  lemma {:induction false} LastSepIsLast(p: string)
    ensures var k := LastSep(p);
      && (k >= 0 ==> p[k] == Sep)
      && (forall j :: k < j < |p| ==> p[j] != Sep)
    decreases |p|
  {
    if p != [] && p[|p| - 1] != Sep {
      var q := p[..|p| - 1];
      LastSepIsLast(q);
      assert forall j :: 0 <= j < |q| ==> q[j] == p[j];
    }
  }

  /**
   * `os.path.split`: the head before the last separator and the tail after it.
   * A path without a separator splits into the root "" and itself, so only the
   * root splits into a head equal to the path. `SplitShape` states the rest.
   */
  function Split(p: string): (r: (string, string))
    ensures r.0 == p <==> p == ""
    ensures p != "" ==> |r.0| < |p|
  {
    var k := LastSep(p);
    if k < 0 then ("", p) else (p[..k], p[k + 1..])
  }

  /** The tail of a split has no separator, and the two parts around the last separator make up the path. */
  lemma SplitShape(p: string)
    ensures Sep !in Split(p).1
    ensures Sep in p ==> p == Split(p).0 + [Sep] + Split(p).1
    ensures Sep !in p ==> Split(p) == ("", p)
  {
    LastSepIsLast(p);
    var k := LastSep(p);
    if k >= 0 {
      assert p == p[..k] + [Sep] + p[k + 1..];
    }
  }

  /** `os.path.join` of a head and one more segment; joining onto the root gives the segment. */
  function Join(head: string, tail: string): string {
    if head == "" then tail else head + [Sep] + tail
  }

  /** A joined path ends with the segment, after the head and one separator; joining onto the root adds no separator. */
  lemma JoinLayout(head: string, tail: string)
    ensures var r := Join(head, tail);
      && |r| == |tail| + (if head == "" then 0 else |head| + 1)
      && r[|r| - |tail|..] == tail
      && (head != "" ==> r[..|head| + 1] == head + [Sep])
  {
  }

  /** Splitting a path that does not start with a separator and joining the parts gives it back. */
  lemma JoinSplit(p: string)
    requires !Anchored(p)
    ensures Join(Split(p).0, Split(p).1) == p
  {
    SplitShape(p);
    if Sep in p && Split(p).0 == "" {
      assert false;
    }
  }

  /** Joining a separator-free segment onto a head and splitting again gives the two parts back. */
  lemma {:induction false} SplitJoin(head: string, tail: string)
    requires Sep !in tail
    ensures Split(Join(head, tail)) == (head, tail)
  {
    var p := Join(head, tail);
    LastSepIsLast(p);
    var k := LastSep(p);
    if head != "" {
      assert p[|head|] == Sep;
      assert forall j :: |head| < j < |p| ==> p[j] == tail[j - |head| - 1];
      assert k == |head|;
      assert p[..k] == head;
      assert p[k + 1..] == tail;
    } else {
      assert p == tail;
      assert k < 0;
    }
  }

  /** The head of a path that does not start with a separator does not start with one either. */
  lemma HeadNotAnchored(p: string)
    requires !Anchored(p)
    ensures !Anchored(Split(p).0)
  {
    SplitShape(p);
    if Sep in p {
      var h := Split(p).0;
      if h != "" {
        assert h[0] == p[0];
      }
    }
  }

  /**
   * `mask_path`: the path with its first `|mask| + 1` characters removed
   * (Python slicing: nothing is left when the path is shorter than that).
   */
  function MaskPath(mask: string, path: string): (r: string)
    ensures |r| == if |mask| < |path| then |path| - |mask| - 1 else 0
    ensures r == path[|path| - |r|..]
  {
    if |mask| + 1 <= |path| then path[|mask| + 1..] else ""
  }

  /** Masking a path that lies under the mask gives the part after the mask's separator. */
  lemma MaskPathUnderMask(mask: string, rest: string)
    ensures MaskPath(mask, mask + [Sep] + rest) == rest
  {
    var p := mask + [Sep] + rest;
    assert p[|mask| + 1..] == rest;
  }

  /**
   * With the mask taken as the head of the group root (as `scan_group` does),
   * a masked path is relative to the root's parent: the root itself masks to
   * its last segment, and a path below the root keeps that segment in front.
   */
  lemma {:induction false} MaskedRelativeToParent(root: string, sub: string)
    requires Sep in root && Split(root).1 != ""
    ensures MaskPath(Split(root).0, root) == Split(root).1
    ensures MaskPath(Split(root).0, Join(root, sub)) == Join(Split(root).1, sub)
  {
    SplitShape(root);
    var mask, name := Split(root).0, Split(root).1;
    assert root == mask + [Sep] + name;
    MaskPathUnderMask(mask, name);
    assert Join(root, sub) == mask + [Sep] + (name + [Sep] + sub);
    MaskPathUnderMask(mask, name + [Sep] + sub);
  }
}
