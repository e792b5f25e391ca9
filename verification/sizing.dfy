/** The sizes asked for when an instance is created, in unsigned 64-bit arithmetic. */
module Sizing {
  import opened Types

  const WORD: nat := 0x1_0000_0000_0000_0000
  const GIB: nat := 1024 * 1024 * 1024

  /** The most whole GiB whose bytes an unsigned 64-bit word can hold. */
  const MAX_BYTE_COUNT_GIB: nat := (WORD - 1) / GIB

  newtype uint64 = x: int | 0 <= x < 0x1_0000_0000_0000_0000

  function Wrap(x: nat): uint64 {
    (x % WORD) as uint64
  }

  /** The limits a validated configuration respects. */
  predicate ValidSizes(bootDiskGiB: uint64, memoryGiB: uint64) {
    bootDiskGiB as int <= MAX_BYTE_COUNT_GIB && 0 < memoryGiB as int <= MAX_BYTE_COUNT_GIB
  }

  /** `gib` whole GiB hold the image and the configured disk. */
  predicate Holds(gib: nat, image: nat, configured: nat) {
    image <= gib * GIB && configured <= gib
  }

  ghost predicate Least(gib: nat, image: nat, configured: nat) {
    Holds(gib, image, configured) && forall k: nat :: k < gib ==> !Holds(k, image, configured)
  }

  lemma LeastOf(gib: nat, imageGiB: nat, image: nat, configured: nat)
    requires image <= imageGiB * GIB && (imageGiB > 0 ==> (imageGiB - 1) * GIB < image)
    requires gib == Max(configured, imageGiB)
    ensures Least(gib, image, configured)
  {
    forall k: nat | k < gib ensures !Holds(k, image, configured) {
      if gib == imageGiB {
        assert k * GIB <= (imageGiB - 1) * GIB;
      }
    }
  }

  /** The boot disk in whole GiB, and its bytes as sent. */
  method BootDisk(image: uint64, configured: uint64) returns (gib: uint64, bytes: uint64)
    ensures Least(gib as nat, image as nat, configured as nat)
    ensures bytes == Wrap(gib as nat * GIB)
  {
    var imageGiB: uint64 := image / 1073741824;
    if image % 1073741824 != 0 {
      imageGiB := imageGiB + 1;
    }
    gib := if configured < imageGiB then imageGiB else configured;
    bytes := Wrap(gib as nat * GIB);
    LeastOf(gib as nat, imageGiB as nat, image as nat, configured as nat);
  }

  function Bytes(gib: nat): nat {
    gib * GIB
  }

  lemma Fits(gib: nat)
    ensures Bytes(gib) < WORD <==> gib <= MAX_BYTE_COUNT_GIB
  {
    assert MAX_BYTE_COUNT_GIB == 0x3_FFFF_FFFF;
  }

  /** The bytes sent are those of the disk exactly when the image is no larger than the
      most GiB a word can hold; any larger image is asked to fit on a disk of no bytes. */
  lemma BootDiskExact(image: uint64, configured: uint64, gib: nat)
    requires configured as nat <= MAX_BYTE_COUNT_GIB
    requires Least(gib, image as nat, configured as nat)
    ensures Wrap(Bytes(gib)) as nat == Bytes(gib) <==> image as nat <= MAX_BYTE_COUNT_GIB * GIB
    ensures image as nat > MAX_BYTE_COUNT_GIB * GIB ==> Wrap(Bytes(gib)) == 0
  {
    var most := MAX_BYTE_COUNT_GIB;
    assert most == 0x3_FFFF_FFFF;
    if image as nat <= most * GIB {
      assert Holds(most, image as nat, configured as nat);
      assert gib <= most;
      Fits(gib);
    } else {
      assert Holds(most + 1, image as nat, configured as nat);
      assert gib <= most + 1;
      assert gib == most + 1;
      assert Bytes(gib) == WORD;
    }
  }

  /** The memory asked for is exact precisely within the limit validation sets. */
  lemma MemoryExact(memoryGiB: uint64)
    ensures Wrap(Bytes(memoryGiB as nat)) as nat == Bytes(memoryGiB as nat) <==> memoryGiB as nat <= MAX_BYTE_COUNT_GIB
  {
    Fits(memoryGiB as nat);
  }

  /** Under a validated configuration nothing wraps, unless the image is near 2^64 bytes. */
  lemma ValidatedSizesExact(bootDiskGiB: uint64, memoryGiB: uint64, image: uint64, gib: nat)
    requires ValidSizes(bootDiskGiB, memoryGiB)
    requires Least(gib, image as nat, bootDiskGiB as nat)
    ensures Wrap(Bytes(memoryGiB as nat)) as nat == Bytes(memoryGiB as nat)
    ensures image as nat <= MAX_BYTE_COUNT_GIB * GIB ==>
              Wrap(Bytes(gib)) as nat == Bytes(gib) && image as nat <= Wrap(Bytes(gib)) as nat
  {
    MemoryExact(memoryGiB);
    BootDiskExact(image, bootDiskGiB, gib);
  }
}
