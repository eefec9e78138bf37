/** Global memory as the kernels see it: flat tensors that a program reads and writes one cell at
    a time. Every load and store is recorded, so that freedom from data races can be stated. */
module DeviceMemory {
  import opened Arithmetic

  datatype Access = Access(pid: int, cell: int, write: bool)

  /** No two programs of a launch meet in a cell unless both of them only load it. */
  ghost predicate RaceFree(accesses: set<Access>) {
    forall a, b | a in accesses && b in accesses && a.cell == b.cell && a.pid != b.pid ::
      !a.write && !b.write
  }

  class Tensor {
    const data: array<int>
    ghost var accesses: set<Access>  // since the last barrier

    constructor (size: nat, fill: int)
      ensures fresh(data) && data.Length == size && accesses == {}
      ensures data[..] == seq(size, _ => fill)
    {
      data := new int[size](_ => fill);
      accesses := {};
    }

    /** The end of a launch: what earlier launches did cannot race with what follows. */
    ghost method Barrier()
      modifies this`accesses
      ensures accesses == {}
    {
      accesses := {};
    }

    method Load(pid: int, cell: int) returns (value: int)
      requires 0 <= cell < data.Length
      modifies this`accesses
      ensures value == data[cell]
      ensures accesses == old(accesses) + {Access(pid, cell, false)}
    {
      value := data[cell];
      accesses := accesses + {Access(pid, cell, false)};
    }

    method Store(pid: int, cell: int, value: int)
      requires 0 <= cell < data.Length
      modifies data, this`accesses
      ensures data[..] == old(data[..])[cell := value]
      ensures accesses == old(accesses) + {Access(pid, cell, true)}
    {
      data[cell] := value;
      accesses := accesses + {Access(pid, cell, true)};
    }
  }

  /** A row-major matrix as the flat sequence of its cells. */
  ghost function Flat(rows: seq<seq<int>>): seq<int> {
    if rows == [] then [] else Flat(rows[..|rows| - 1]) + rows[|rows| - 1]
  }

  ghost predicate Matrix(rows: seq<seq<int>>, height: nat, width: nat) {
    |rows| == height && forall r | 0 <= r < height :: |rows[r]| == width
  }

  ghost function Zeros(height: nat, width: nat): seq<seq<int>> {
    seq(height, _ => seq(width, _ => 0))
  }

  lemma {:induction false} FlatLength(rows: seq<seq<int>>, height: nat, width: nat)
    requires Matrix(rows, height, width)
    ensures |Flat(rows)| == Times(height, width)
    decreases height
  {
    if height > 0 {
      FlatLength(rows[..height - 1], height - 1, width);
    }
  }

  /** Address arithmetic: cell `r * width + c` of the flat tensor is column `c` of row `r`, and
      storing there changes that matrix entry and no other. */
  lemma {:induction false} FlatCell(rows: seq<seq<int>>, height: nat, width: nat, r: nat, c: nat, value: int)
    requires Matrix(rows, height, width) && r < height && c < width
    ensures Times(r, width) + c < |Flat(rows)| == Times(height, width)
    ensures Flat(rows)[Times(r, width) + c] == rows[r][c]
    ensures Flat(rows)[Times(r, width) + c := value] == Flat(rows[r := rows[r][c := value]])
    decreases height
  {
    var init := rows[..height - 1];
    FlatLength(init, height - 1, width);
    var changed := rows[r := rows[r][c := value]];
    if r == height - 1 {
      assert changed[..height - 1] == init;
    } else {
      FlatCell(init, height - 1, width, r, c, value);
      assert changed[..height - 1] == init[r := init[r][c := value]];
    }
  }

  lemma {:induction false} FlatZeros(height: nat, width: nat)
    ensures Flat(Zeros(height, width)) == seq(Times(height, width), _ => 0)
    decreases height
  {
    if height > 0 {
      FlatZeros(height - 1, width);
      assert Zeros(height, width)[..height - 1] == Zeros(height - 1, width);
    }
  }

  /** Every access so far was made by the program that owns the cell. */
  ghost predicate Owned(accesses: set<Access>, owner: seq<int>) {
    forall a | a in accesses :: 0 <= a.cell < |owner| && owner[a.cell] == a.pid
  }

  lemma OwnedAccess(accesses: set<Access>, owner: seq<int>, pid: int, cell: int, write: bool)
    requires Owned(accesses, owner) && 0 <= cell < |owner| && owner[cell] == pid
    ensures Owned(accesses + {Access(pid, cell, write)}, owner)
  {
  }

  lemma OwnedIsRaceFree(accesses: set<Access>, owner: seq<int>)
    requires Owned(accesses, owner)
    ensures RaceFree(accesses)
  {
  }

  lemma LoadsAreRaceFree(accesses: set<Access>)
    requires forall a | a in accesses :: !a.write
    ensures RaceFree(accesses)
  {
  }

  /** Loads an entry of a matrix, by a program that owns it. */
  method LoadEntry(t: Tensor, pid: int, cell: int, ghost rows: seq<seq<int>>, ghost height: nat, ghost width: nat,
                   ghost r: nat, ghost c: nat, ghost owners: seq<seq<int>>)
    returns (value: int)
    requires Matrix(rows, height, width) && Matrix(owners, height, width) && r < height && c < width
    requires t.data[..] == Flat(rows) && cell == Times(r, width) + c
    requires Owned(t.accesses, Flat(owners)) && owners[r][c] == pid
    modifies t`accesses
    ensures value == rows[r][c]
    ensures Owned(t.accesses, Flat(owners))
  {
    FlatCell(rows, height, width, r, c, 0);
    FlatCell(owners, height, width, r, c, 0);
    value := t.Load(pid, cell);
    assert value == t.data[..][cell];
  }

  /** Stores an entry of a matrix, by a program that owns it. */
  method StoreEntry(t: Tensor, pid: int, cell: int, value: int, ghost rows: seq<seq<int>>, ghost height: nat,
                    ghost width: nat, ghost r: nat, ghost c: nat, ghost owners: seq<seq<int>>)
    requires Matrix(rows, height, width) && Matrix(owners, height, width) && r < height && c < width
    requires t.data[..] == Flat(rows) && cell == Times(r, width) + c
    requires Owned(t.accesses, Flat(owners)) && owners[r][c] == pid
    modifies t.data, t`accesses
    ensures t.data[..] == Flat(rows[r := rows[r][c := value]])
    ensures Owned(t.accesses, Flat(owners))
  {
    FlatCell(rows, height, width, r, c, value);
    FlatCell(owners, height, width, r, c, 0);
    t.Store(pid, cell, value);
  }

  // ---- launches -------------------------------------------------------------------------------

  /** Steps that the programs of a launch can still take. */
  ghost function Work<S>(programs: seq<S>, fuel: (int, S) -> nat): nat {
    if programs == [] then 0
    else Work(programs[..|programs| - 1], fuel) + fuel(|programs| - 1, programs[|programs| - 1])
  }

  /** When one program takes a step and the others wait, less remains to be done. */
  lemma {:induction false} WorkDecreases<S>(programs: seq<S>, fuel: (int, S) -> nat, p: nat, next: S)
    requires p < |programs| && fuel(p, next) < fuel(p, programs[p])
    ensures Work(programs[p := next], fuel) < Work(programs, fuel)
  {
    var n := |programs| - 1;
    if p == n {
      assert programs[p := next][..n] == programs[..n];
    } else {
      WorkDecreases(programs[..n], fuel, p, next);
      assert programs[p := next][..n] == programs[..n][p := next];
    }
  }
}
