/**
 * Array shapes and the four logical sizes of a 4D-STEM datacube:
 * two real-space scan sizes (R_Ny, R_Nx) and two diffraction-space
 * detector sizes (Q_Ny, Q_Nx).
 */
module Shapes {

  /** Number of elements of an array with the given shape (numpy's `size`). */
  function Product(shape: seq<nat>): nat
  {
    if |shape| == 0 then 1 else shape[0] * Product(shape[1..])
  }

  /** Scan and detector sizes, in the order R_Ny, R_Nx, Q_Ny, Q_Nx. */
  datatype Dims = Dims(rNy: nat, rNx: nat, qNy: nat, qNx: nat) {

    /** The element count the four sizes describe. */
    function Count(): nat
    {
      rNy * rNx * qNy * qNx
    }

    /** The sizes read as a rank-4 shape. */
    function AsShape(): seq<nat>
    {
      [rNy, rNx, qNy, qNx]
    }
  }

  /** The four sizes multiply to the element count of the shape they spell. */
  lemma CountIsProduct(d: Dims)
    ensures d.Count() == Product(d.AsShape())
  {
    var s := d.AsShape();
    assert Product(s[3..]) == d.qNx;
    assert Product(s[2..]) == d.qNy * d.qNx;
    assert Product(s[1..]) == d.rNx * (d.qNy * d.qNx);
  }

  /** Inserting a 1-wide axis anywhere in a shape leaves its element count unchanged. */
  lemma {:induction false} ProductInsertUnitAxis(s: seq<nat>, i: nat)
    requires i <= |s|
    ensures Product(s[..i] + [1] + s[i..]) == Product(s)
  {
    var t := s[..i] + [1] + s[i..];
    if i == 0 {
      assert t[1..] == s;
    } else {
      assert t[0] == s[0];
      assert t[1..] == s[1..][..i - 1] + [1] + s[1..][i - 1..];
      ProductInsertUnitAxis(s[1..], i - 1);
    }
  }
}
