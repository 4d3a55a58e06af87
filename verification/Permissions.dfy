/** Device access permissions: strings over the letters r, w and m, with set operations done on three bits. */
module Permissions {

  /** A set of permissions: the three mask bits (read, write, mknod). */
  datatype Mask = Mask(read: bool, write: bool, mknod: bool) {
    function Or(o: Mask): Mask {
      Mask(read || o.read, write || o.write, mknod || o.mknod)
    }

    function And(o: Mask): Mask {
      Mask(read && o.read, write && o.write, mknod && o.mknod)
    }

    function AndNot(o: Mask): Mask {
      Mask(read && !o.read, write && !o.write, mknod && !o.mknod)
    }

    predicate IsNone() {
      !read && !write && !mknod
    }

    predicate Within(o: Mask) {
      (read ==> o.read) && (write ==> o.write) && (mknod ==> o.mknod)
    }

    predicate Overlaps(o: Mask) {
      (read && o.read) || (write && o.write) || (mknod && o.mknod)
    }
  }

  /** The mask is accumulated letter by letter; unknown letters are skipped. */
  method ToSet(p: string) returns (mask: Mask)
    ensures mask == MaskOf(p)
  {
    mask := Mask(false, false, false);
    for i := 0 to |p|
      invariant mask == MaskOf(p[..i])
    {
      match p[i]
      case 'r' => mask := mask.(read := true);
      case 'w' => mask := mask.(write := true);
      case 'm' => mask := mask.(mknod := true);
      case _ =>
    }
    assert p[..|p|] == p;
  }

  /** The set a permission string stands for: the known letters that occur in it. */
  function MaskOf(p: string): Mask {
    Mask('r' in p, 'w' in p, 'm' in p)
  }

  function FromSet(mask: Mask): string {
    (if mask.read then "r" else "") +
    (if mask.write then "w" else "") +
    (if mask.mknod then "m" else "")
  }

  function Union(p: string, o: string): string {
    FromSet(MaskOf(p).Or(MaskOf(o)))
  }

  function Difference(p: string, o: string): string {
    FromSet(MaskOf(p).AndNot(MaskOf(o)))
  }

  function Intersection(p: string, o: string): string {
    FromSet(MaskOf(p).And(MaskOf(o)))
  }

  predicate IsEmpty(p: string) {
    p == ""
  }

  predicate IsValid(p: string) {
    p == FromSet(MaskOf(p))
  }

  lemma FromSetIsCanonical(mask: Mask)
    ensures MaskOf(FromSet(mask)) == mask
    ensures IsValid(FromSet(mask))
  {
    var p := FromSet(mask);
    assert 'r' in p <==> mask.read;
    assert 'w' in p <==> mask.write;
    assert 'm' in p <==> mask.mknod;
  }

  /** The string operations are the set operations, and their results are canonical. */
  lemma OperationsAreSetOperations(p: string, o: string)
    ensures MaskOf(Union(p, o)) == MaskOf(p).Or(MaskOf(o))
    ensures MaskOf(Difference(p, o)) == MaskOf(p).AndNot(MaskOf(o))
    ensures MaskOf(Intersection(p, o)) == MaskOf(p).And(MaskOf(o))
    ensures IsValid(Union(p, o)) && IsValid(Difference(p, o)) && IsValid(Intersection(p, o))
    ensures IsEmpty(Difference(p, o)) <==> MaskOf(p).Within(MaskOf(o))
    ensures IsEmpty(Intersection(p, o)) <==> !MaskOf(p).Overlaps(MaskOf(o))
  {
    FromSetIsCanonical(MaskOf(p).Or(MaskOf(o)));
    FromSetIsCanonical(MaskOf(p).AndNot(MaskOf(o)));
    FromSetIsCanonical(MaskOf(p).And(MaskOf(o)));
  }

  /** Canonical strings are equal exactly when their sets are, and only the empty one is empty. */
  lemma ValidIsDeterminedByMask(p: string, o: string)
    requires IsValid(p) && IsValid(o)
    ensures p == o <==> MaskOf(p) == MaskOf(o)
    ensures IsEmpty(p) <==> MaskOf(p).IsNone()
  {
  }
}
