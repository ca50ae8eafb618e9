/**
 * The SAD (SURGE Animation Data) file: a NUL-terminated identification
 * string, a 32-bit animation count (host order, taken as little-endian), and
 * `count` fixed-size animation records. The record size is a parameter: the
 * record type's declaration is not part of this model.
 */
module SadFile {
  import opened Machine
  import opened Wrappers

  /** "SAD - SURGE Animation Data File" as bytes. */
  const ID_BYTES: seq<u8> := [83, 65, 68, 32, 45, 32, 83, 85, 82, 71, 69, 32, 65, 110, 105, 109,
                              97, 116, 105, 111, 110, 32, 68, 97, 116, 97, 32, 70, 105, 108, 101]

  /** The identification string with its terminating NUL. */
  const ID_SIZE: nat := |ID_BYTES| + 1

  /** The identification string and the 32-bit animation count. */
  const HEADER_SIZE: nat := ID_SIZE + 4

  datatype LoadError = IoFailure | TooShort | BadHeader | SizeMismatch

  /** The stored animation count, read from the four bytes after the identification string. */
  function AnimationCount(file: seq<u8>): (r: nat)
    requires |file| >= HEADER_SIZE
    ensures r < U32_MODULUS
  {
    Pow256Four();
    DecodeLE(file[ID_SIZE..HEADER_SIZE])
  }

  lemma Pow256Four()
    ensures Pow256(4) == U32_MODULUS
  {
    assert Pow256(2) == 0x1_0000;
  }

  /** The offset of record `index`. */
  function RecordStart(index: nat, recordSize: nat): nat
  {
    HEADER_SIZE + index * recordSize
  }

  /**
   * `load_sad_file`: the read (or its failure) is a parameter. A file is
   * refused when shorter than the header, when `strcmp` finds its first
   * `ID_SIZE` bytes differ from the NUL-terminated identification string,
   * or when its size is not the header plus `count` records.
   */
  function Load(read: Option<seq<u8>>, recordSize: nat): (r: Result<seq<u8>, LoadError>)
    ensures read.None? <==> r == Err(IoFailure)
    ensures r == Err(TooShort) <==> read.Some? && |read.value| < HEADER_SIZE
    ensures r == Err(BadHeader) <==>
      read.Some? && |read.value| >= HEADER_SIZE && read.value[..ID_SIZE] != ID_BYTES + [0]
    ensures r.Ok? <==>
      && read.Some? && |read.value| >= HEADER_SIZE && read.value[..ID_SIZE] == ID_BYTES + [0]
      && |read.value| == RecordStart(AnimationCount(read.value), recordSize)
    ensures r.Ok? ==> read == Some(r.value)
  {
    match read
    case None => Err(IoFailure)
    case Some(file) =>
      if |file| < HEADER_SIZE then Err(TooShort)
      else if file[..ID_SIZE] != ID_BYTES + [0] then Err(BadHeader)
      else if |file| != AnimationCount(file) * recordSize + HEADER_SIZE then Err(SizeMismatch)
      else Ok(file)
  }

  /** A file `load_sad_file` accepts. */
  predicate Loaded(file: seq<u8>, recordSize: nat)
  {
    Load(Some(file), recordSize) == Ok(file)
  }

  /**
   * `get_animation`: with bound checking, an index past the count is
   * refused; without it the caller must stay below the count, as the read
   * is otherwise outside the file.
   */
  function GetAnimation(file: seq<u8>, index: nat, boundCheck: bool, recordSize: nat): (r: Option<seq<u8>>)
    requires Loaded(file, recordSize)
    requires !boundCheck ==> index < AnimationCount(file)
    ensures r.None? <==> index >= AnimationCount(file)
    ensures r.Some? ==>
      && RecordStart(index + 1, recordSize) <= |file|
      && r.value == file[RecordStart(index, recordSize)..RecordStart(index + 1, recordSize)]
  {
    if boundCheck && index >= AnimationCount(file) then None
    else
      MulMonotone(index + 1, AnimationCount(file), recordSize);
      Some(file[RecordStart(index, recordSize)..RecordStart(index + 1, recordSize)])
  }

  /** The records laid out one after another. */
  function Concat(records: seq<seq<u8>>): seq<u8>
    decreases |records|
  {
    if records == [] then [] else records[0] + Concat(records[1..])
  }

  predicate Uniform(records: seq<seq<u8>>, recordSize: nat)
  {
    forall i :: 0 <= i < |records| ==> |records[i]| == recordSize
  }

  lemma MulSucc(i: nat, m: nat)
    ensures (i + 1) * m == i * m + m
  {
  }

  /** A slice past the first operand of a concatenation is a slice of the second. */
  lemma SliceOfAppend(a: seq<u8>, b: seq<u8>, lo: nat, hi: nat)
    requires |a| <= lo <= hi <= |a| + |b|
    ensures (a + b)[lo..hi] == b[lo - |a|..hi - |a|]
  {
  }

  lemma {:induction false} ConcatLength(records: seq<seq<u8>>, recordSize: nat)
    requires Uniform(records, recordSize)
    ensures |Concat(records)| == |records| * recordSize
    decreases |records|
  {
    if records != [] {
      ConcatLength(records[1..], recordSize);
      MulSucc(|records| - 1, recordSize);
    }
  }

  /** Record `i` occupies bytes `i * size` to `(i + 1) * size` of the concatenation. */
  lemma {:induction false} ConcatRecordAt(records: seq<seq<u8>>, recordSize: nat, i: nat)
    requires Uniform(records, recordSize) && i < |records|
    ensures (i + 1) * recordSize <= |Concat(records)|
    ensures Concat(records)[i * recordSize..(i + 1) * recordSize] == records[i]
    decreases i
  {
    ConcatLength(records, recordSize);
    MulMonotone(i + 1, |records|, recordSize);
    var rest := records[1..];
    assert Concat(records) == records[0] + Concat(rest);
    if i > 0 {
      ConcatRecordAt(rest, recordSize, i - 1);
      MulSucc(i - 1, recordSize);
      MulSucc(i, recordSize);
      ConcatLength(rest, recordSize);
      SliceOfAppend(records[0], Concat(rest), i * recordSize, (i + 1) * recordSize);
      assert rest[i - 1] == records[i];
    }
  }

  /** The file that stores `records`, as the editor writes it. */
  function Build(records: seq<seq<u8>>): seq<u8>
    requires |records| < U32_MODULUS
  {
    ID_BYTES + [0] + EncodeLE(|records|, 4) + Concat(records)
  }

  /**
   * Every file built from records of the record size loads, stores their
   * count, and gives each record back under bound checking; an index past
   * the count is refused.
   */
  lemma BuildLoadsAndReads(records: seq<seq<u8>>, recordSize: nat)
    requires |records| < U32_MODULUS && Uniform(records, recordSize)
    ensures var file := Build(records);
      && Loaded(file, recordSize) && AnimationCount(file) == |records|
      && (forall i :: 0 <= i < |records| ==> GetAnimation(file, i, true, recordSize) == Some(records[i]))
      && GetAnimation(file, |records|, true, recordSize) == None
  {
    BuildLoads(records, recordSize);
    forall i | 0 <= i < |records|
      ensures GetAnimation(Build(records), i, true, recordSize) == Some(records[i])
    {
      BuildReadsRecord(records, recordSize, i);
    }
  }

  /** A built file passes `load` and holds the record count in its header. */
  lemma BuildLoads(records: seq<seq<u8>>, recordSize: nat)
    requires |records| < U32_MODULUS && Uniform(records, recordSize)
    ensures Loaded(Build(records), recordSize) && AnimationCount(Build(records)) == |records|
  {
    var file := Build(records);
    var header := ID_BYTES + [0] + EncodeLE(|records|, 4);
    assert file == header + Concat(records);
    ConcatLength(records, recordSize);
    Pow256Four();
    assert file[ID_SIZE..HEADER_SIZE] == EncodeLE(|records|, 4);
    DecodeEncodeLE(|records|, 4);
    assert file[..ID_SIZE] == ID_BYTES + [0];
  }

  /** Record `i` of a built file reads back as the `i`-th record. */
  lemma BuildReadsRecord(records: seq<seq<u8>>, recordSize: nat, i: nat)
    requires |records| < U32_MODULUS && Uniform(records, recordSize) && i < |records|
    ensures Loaded(Build(records), recordSize)
    ensures GetAnimation(Build(records), i, true, recordSize) == Some(records[i])
  {
    BuildLoads(records, recordSize);
    var header := ID_BYTES + [0] + EncodeLE(|records|, 4);
    assert Build(records) == header + Concat(records);
    ConcatRecordAt(records, recordSize, i);
    MulSucc(i, recordSize);
    SliceOfAppend(header, Concat(records), RecordStart(i, recordSize), RecordStart(i + 1, recordSize));
  }

  /** A file whose identification bytes are damaged is refused, whatever its size. */
  lemma DamagedHeaderRefused(file: seq<u8>, recordSize: nat, k: nat)
    requires |file| >= HEADER_SIZE && k < ID_SIZE && file[k] != (ID_BYTES + [0])[k]
    ensures Load(Some(file), recordSize) == Err(BadHeader)
  {
    assert file[..ID_SIZE][k] == file[k];
  }
}
