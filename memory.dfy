/** The emulated 64 KiB memory: a bounds-checked store of bytes.  The three
    copies of the `Memory` struct in the repository (one per engine) are
    identical, so one class models them all. */
module MainMemory {
  import opened Words
  import opened Outcomes

  /** `MAX_MEMORY = 1024 * 64`. */
  const MAX_MEMORY: nat := 1024 * 64

  /** The contents of memory as a value: one byte per address. */
  type Ram = m: seq<Byte> | |m| == MAX_MEMORY witness Zeroed()

  /** Memory in which every cell holds 0. */
  function Zeroed(): (z: seq<Byte>)
    ensures |z| == MAX_MEMORY
    ensures forall i :: 0 <= i < |z| ==> z[i] == 0
  {
    seq(MAX_MEMORY, _ => 0)
  }

  /** `IndexOutOfRangeException("Index out of range.")` of the indexer. */
  datatype MemoryError = IndexOutOfRange

  class Memory {
    /** `public readonly Byte[] Data`: the array is fixed, its cells are not. */
    const data: array<Byte>

    ghost predicate Valid()
    {
      data.Length == MAX_MEMORY
    }

    /** The current contents. */
    ghost function Cells(): Ram
      reads data
      requires Valid()
    {
      data[..]
    }

    /** `new Byte[MAX_MEMORY]`: a fresh array, zero-filled by the runtime. */
    constructor ()
      ensures Valid() && fresh(data)
      ensures Cells() == Zeroed()
    {
      data := new Byte[MAX_MEMORY](_ => 0);
    }

    /** The indexer's getter: the byte at `address`, or an error when the
        address is not below `MAX_MEMORY`. */
    method Get(address: U32) returns (r: Result<Byte, MemoryError>)
      requires Valid()
      ensures address < MAX_MEMORY ==> r == Ok(data[address])
      ensures address >= MAX_MEMORY ==> r == Err(IndexOutOfRange)
    {
      if address < 0 || address >= MAX_MEMORY {
        return Err(IndexOutOfRange);
      }
      return Ok(data[address]);
    }

    /** The indexer's setter: overwrites exactly the cell at `address`, or
        fails without changing anything when the address is out of range. */
    method Set(address: U32, value: Byte) returns (r: Outcome<MemoryError>)
      requires Valid()
      modifies data
      ensures address < MAX_MEMORY ==> r == Pass && Cells() == old(Cells())[address := value]
      ensures address >= MAX_MEMORY ==> r == Fail(IndexOutOfRange) && Cells() == old(Cells())
    {
      if address < 0 || address >= MAX_MEMORY {
        return Fail(IndexOutOfRange);
      }
      data[address] := value;
      return Pass;
    }

    /** `Initialize`: zero every cell.  The result does not depend on the
        previous contents, so initializing twice is initializing once. */
    method Initialize()
      requires Valid()
      modifies data
      ensures Cells() == Zeroed()
    {
      for i := 0 to MAX_MEMORY
        invariant forall j :: 0 <= j < i ==> data[j] == 0
      {
        data[i] := 0;
      }
    }
  }
}
