/**
  The constant requantization tables of the cluster test. Each row holds
  two words; the comment beside it lists the six bytes they pack, least
  significant byte first: four in the first word, two in the second.
 */
module RequantTables {
  import opened Words

  const RequantEpsMult: seq<seq<Word>> :=
    [[1751606885, 27241], [1920036975, 29811], [2088467065, 32381]]
  const RequantRightShift: seq<seq<Word>> :=
    [[3604337875, 55511], [3772767965, 58081], [3941198055, 60651]]
  const RequantAdd: seq<seq<Word>> :=
    [[67305985, 1541], [235736075, 4111], [404166165, 6681]]

  /** The byte lists recorded beside the rows of each table. */
  const EpsMultBytes: seq<seq<nat>> :=
    [[101, 102, 103, 104, 105, 106], [111, 112, 113, 114, 115, 116], [121, 122, 123, 124, 125, 126]]
  const RightShiftBytes: seq<seq<nat>> :=
    [[211, 212, 213, 214, 215, 216], [221, 222, 223, 224, 225, 226], [231, 232, 233, 234, 235, 236]]
  const AddBytes: seq<seq<nat>> :=
    [[1, 2, 3, 4, 5, 6], [11, 12, 13, 14, 15, 16], [21, 22, 23, 24, 25, 26]]

  function Pow256(n: nat): (r: nat)
    ensures r >= 1
  {
    if n == 0 then 1 else 256 * Pow256(n - 1)
  }

  /** The number whose little-endian base-256 digits are `bs`. */
  function LittleEndian(bs: seq<nat>): nat
  {
    if bs == [] then 0 else bs[0] + 256 * LittleEndian(bs[1..])
  }

  /** The `n` least significant bytes of `x`, least significant first. */
  function Bytes(x: nat, n: nat): (bs: seq<nat>)
    ensures |bs| == n
    ensures forall i :: 0 <= i < n ==> bs[i] < 256
  {
    if n == 0 then [] else [x % 256] + Bytes(x / 256, n - 1)
  }

  predicate IsByteString(bs: seq<nat>)
  {
    forall i :: 0 <= i < |bs| ==> bs[i] < 256
  }

  /** A number that fits in `n` bytes is recovered from its `n` bytes. */
  lemma {:induction false} BytesRoundTrip(x: nat, n: nat)
    requires x < Pow256(n)
    ensures LittleEndian(Bytes(x, n)) == x
  {
    if n > 0 {
      var bs := Bytes(x, n);
      assert bs[1..] == Bytes(x / 256, n - 1);
      BytesRoundTrip(x / 256, n - 1);
    }
  }

  /** A byte string is recovered from the number it denotes, which fits in as many bytes. */
  lemma {:induction false} LittleEndianRoundTrip(bs: seq<nat>)
    requires IsByteString(bs)
    ensures LittleEndian(bs) < Pow256(|bs|)
    ensures Bytes(LittleEndian(bs), |bs|) == bs
  {
    if bs != [] {
      var rest := bs[1..];
      assert IsByteString(rest);
      LittleEndianRoundTrip(rest);
      var x := LittleEndian(bs);
      assert x == bs[0] + 256 * LittleEndian(rest);
      assert x % 256 == bs[0] && x / 256 == LittleEndian(rest);
      assert Bytes(x, |bs|) == [bs[0]] + Bytes(LittleEndian(rest), |rest|);
    }
  }

  /** The value of a four-byte string, written out. */
  lemma LittleEndianFour(bs: seq<nat>)
    requires |bs| == 4
    ensures LittleEndian(bs) == bs[0] + 0x100 * bs[1] + 0x1_0000 * bs[2] + 0x100_0000 * bs[3]
  {
    assert LittleEndian(bs[3..]) == bs[3] by {
      assert bs[3..][1..] == [];
    }
    assert LittleEndian(bs[2..]) == bs[2] + 0x100 * bs[3] by {
      assert bs[2..][1..] == bs[3..];
    }
    assert LittleEndian(bs[1..]) == bs[1] + 0x100 * bs[2] + 0x1_0000 * bs[3] by {
      assert bs[1..][1..] == bs[2..];
    }
  }

  /** The value of a two-byte string, written out. */
  lemma LittleEndianTwo(bs: seq<nat>)
    requires |bs| == 2
    ensures LittleEndian(bs) == bs[0] + 0x100 * bs[1]
  {
    assert LittleEndian(bs[1..]) == bs[1] by {
      assert bs[1..][1..] == [];
    }
  }

  /** The two words of a row pack `bs` as its comment says. */
  predicate RowPacks(row: seq<Word>, bs: seq<nat>)
    requires |row| == 2 && |bs| == 6
  {
    row[0] == LittleEndian(bs[..4]) && row[1] == LittleEndian(bs[4..])
  }

  /** Every row of the three tables holds exactly the bytes its comment lists. */
  lemma TablesMatchComments()
    ensures forall k :: 0 <= k < 3 ==>
              && RowPacks(RequantEpsMult[k], EpsMultBytes[k])
              && RowPacks(RequantRightShift[k], RightShiftBytes[k])
              && RowPacks(RequantAdd[k], AddBytes[k])
  {
    forall k | 0 <= k < 3
      ensures && RowPacks(RequantEpsMult[k], EpsMultBytes[k])
              && RowPacks(RequantRightShift[k], RightShiftBytes[k])
              && RowPacks(RequantAdd[k], AddBytes[k])
    {
      var tables := [EpsMultBytes[k], RightShiftBytes[k], AddBytes[k]];
      forall t | 0 <= t < 3 ensures |tables[t]| == 6 {
      }
      LittleEndianFour(EpsMultBytes[k][..4]);
      LittleEndianTwo(EpsMultBytes[k][4..]);
      LittleEndianFour(RightShiftBytes[k][..4]);
      LittleEndianTwo(RightShiftBytes[k][4..]);
      LittleEndianFour(AddBytes[k][..4]);
      LittleEndianTwo(AddBytes[k][4..]);
    }
  }
}
