/** The fixed-size grids of `Types.hpp`. `at` hands out a reference to one
    cell; here reading through it is `At` and writing through it is `Set`.
    Indexing is unchecked in the source, so both require in-range indices. */
module Types {

  /** `Array2D<T, X, Y>`: an X by Y grid, stored as `data[x][y]`. */
  class Array2D<T(0)> {
    const width: nat
    const height: nat
    const data: array2<T>

    ghost predicate Valid()
      reads this
    {
      data.Length0 == width && data.Length1 == height
    }

    /** The cells start with whatever the element type's default gives. */
    constructor (x: nat, y: nat)
      ensures Valid() && fresh(data) && width == x && height == y
    {
      width, height := x, y;
      data := new T[x, y];
    }

    /** Reading through `at(x, y)`: cell `data[x][y]`. */
    function At(x: nat, y: nat): (r: T)
      reads this, data
      requires Valid() && x < width && y < height
      ensures r == data[x, y]
    {
      data[x, y]
    }

    /** Writing through `at(x, y)`: that cell alone changes. */
    method Set(x: nat, y: nat, v: T)
      requires Valid() && x < width && y < height
      modifies data
      ensures Valid()
      ensures data[x, y] == v
      ensures forall i, j :: 0 <= i < width && 0 <= j < height && (i, j) != (x, y) ==>
        data[i, j] == old(data[i, j])
    {
      data[x, y] := v;
    }
  }

  /** `Array3D<T, X, Y, Z>`: an X by Y by Z grid, stored as `data[x][y][z]`. */
  class Array3D<T(0)> {
    const sizeX: nat
    const sizeY: nat
    const sizeZ: nat
    const data: array3<T>

    ghost predicate Valid()
      reads this
    {
      data.Length0 == sizeX && data.Length1 == sizeY && data.Length2 == sizeZ
    }

    constructor (x: nat, y: nat, z: nat)
      ensures Valid() && fresh(data) && sizeX == x && sizeY == y && sizeZ == z
    {
      sizeX, sizeY, sizeZ := x, y, z;
      data := new T[x, y, z];
    }

    /** Reading through `at(x, y, z)`: cell `data[x][y][z]`. */
    function At(x: nat, y: nat, z: nat): (r: T)
      reads this, data
      requires Valid() && x < sizeX && y < sizeY && z < sizeZ
      ensures r == data[x, y, z]
    {
      data[x, y, z]
    }

    /** Writing through `at(x, y, z)`: that cell alone changes. */
    method Set(x: nat, y: nat, z: nat, v: T)
      requires Valid() && x < sizeX && y < sizeY && z < sizeZ
      modifies data
      ensures Valid()
      ensures data[x, y, z] == v
      ensures forall i, j, k :: 0 <= i < sizeX && 0 <= j < sizeY && 0 <= k < sizeZ && (i, j, k) != (x, y, z) ==>
        data[i, j, k] == old(data[i, j, k])
    {
      data[x, y, z] := v;
    }
  }
}
