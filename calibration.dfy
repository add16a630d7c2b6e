/**
 * The calibration file: six records in face order U, R, F, D, L, B, each
 * record the `n` channels of a reference colour packed with struct format
 * `nI` (n unsigned 32-bit words, native little-endian byte order, no
 * padding): `4I`, 16 bytes, on the Pi and `3I`, 12 bytes, on the SPIKE hub.
 * Saving packs the references one after the other; loading reads one record
 * after the other and stops at the first short read.
 */
module Calibration {
  import opened Wrappers
  import opened Classifier

  type Byte = b: int | 0 <= b < 256

  function Pow256(k: nat): nat
  {
    if k == 0 then 1 else 256 * Pow256(k - 1)
  }

  /** The `k` bytes of `w`, least significant first. */
  function LittleEndian(w: int, k: nat): seq<Byte>
    requires 0 <= w
    decreases k
  {
    if k == 0 then [] else [w % 256] + LittleEndian(w / 256, k - 1)
  }

  function FromLittleEndian(b: seq<Byte>): int
    decreases |b|
  {
    if b == [] then 0 else b[0] as int + 256 * FromLittleEndian(b[1..])
  }

  lemma {:induction false} LittleEndianRoundTrip(w: int, k: nat, b: seq<Byte>)
    requires 0 <= w < Pow256(k)
    ensures |LittleEndian(w, k)| == k && FromLittleEndian(LittleEndian(w, k)) == w
    ensures 0 <= FromLittleEndian(b) < Pow256(|b|) && LittleEndian(FromLittleEndian(b), |b|) == b
    decreases k + |b|
  {
    if k > 0 {
      LittleEndianRoundTrip(w / 256, k - 1, []);
    }
    if b != [] {
      LittleEndianRoundTrip(0, 0, b[1..]);
      var rest := FromLittleEndian(b[1..]);
      var x := FromLittleEndian(b);
      assert x == b[0] as int + 256 * rest;
      assert x % 256 == b[0] as int && x / 256 == rest;
    }
  }

  function EncodeWord(w: int): seq<Byte>
    requires IsWord(w)
  {
    LittleEndian(w, 4)
  }

  function DecodeWord(b: seq<Byte>): int
    requires |b| == 4
  {
    FromLittleEndian(b)
  }

  /** A word survives encoding and decoding, and four bytes survive decoding and encoding. */
  lemma WordRoundTrip(w: int, b: seq<Byte>)
    requires IsWord(w) && |b| == 4
    ensures |EncodeWord(w)| == 4 && DecodeWord(EncodeWord(w)) == w
    ensures IsWord(DecodeWord(b)) && EncodeWord(DecodeWord(b)) == b
  {
    assert Pow256(4) == 0x1_0000_0000;
    LittleEndianRoundTrip(w, 4, b);
  }

  /** `struct.pack` of one record: its words in order, four bytes each. */
  function PackRecord(r: Color): seq<Byte>
    requires WordColor(r)
    decreases |r|
  {
    if r == [] then [] else EncodeWord(r[0]) + PackRecord(r[1..])
  }

  /** `struct.unpack` of one record. */
  function UnpackRecord(b: seq<Byte>): Color
    requires |b| % 4 == 0
    decreases |b|
  {
    if b == [] then [] else [DecodeWord(b[..4])] + UnpackRecord(b[4..])
  }

  /** Packing a record and unpacking it gives the record back, and the other way round. */
  lemma {:induction false} RecordRoundTrip(r: Color, b: seq<Byte>)
    requires WordColor(r) && |b| % 4 == 0
    ensures |PackRecord(r)| == 4 * |r| && UnpackRecord(PackRecord(r)) == r
    ensures |UnpackRecord(b)| * 4 == |b| && WordColor(UnpackRecord(b)) && PackRecord(UnpackRecord(b)) == b
    decreases |r| + |b|
  {
    if r != [] {
      WordRoundTrip(r[0], EncodeWord(r[0]));
      RecordRoundTrip(r[1..], []);
      var p := PackRecord(r);
      assert p[..4] == EncodeWord(r[0]) && p[4..] == PackRecord(r[1..]);
    }
    if b != [] {
      WordRoundTrip(0, b[..4]);
      RecordRoundTrip([], b[4..]);
      assert b == b[..4] + b[4..];
    }
  }

  /** A reference slot `struct.pack('nI', *rgb)` accepts: present, n channels, each an unsigned 32-bit value. */
  predicate Packable(o: Option<Color>, n: nat)
  {
    o.Some? && |o.value| == n && WordColor(o.value)
  }

  /** Saving raises at the first slot that is unset (TypeError) or does not fit the format (struct.error). */
  datatype SaveError = MissingRecord(face: nat) | BadRecord(face: nat)

  function PackAll(refs: seq<Option<Color>>, n: nat): seq<Byte>
    requires forall i :: 0 <= i < |refs| ==> Packable(refs[i], n)
    decreases |refs|
  {
    if refs == [] then []
    else
      var last := refs[|refs| - 1];
      assert Packable(last, n);
      PackAll(refs[..|refs| - 1], n) + PackRecord(last.value)
  }

  /** The `f`-th read of `size` bytes from the file, or None when the file runs short before it. */
  function RecordAt(data: seq<Byte>, size: nat, f: nat): (r: Option<seq<Byte>>)
    requires size > 0
    ensures r.Some? ==> |r.value| == size
    decreases f
  {
    if |data| < size then None
    else if f == 0 then Some(data[..size])
    else RecordAt(data[size..], size, f - 1)
  }

  lemma {:induction false} PackRecordLength(r: Color)
    requires WordColor(r)
    ensures |PackRecord(r)| == 4 * |r|
    decreases |r|
  {
    if r != [] {
      PackRecordLength(r[1..]);
    }
  }

  lemma {:induction false} PackAllLength(refs: seq<Option<Color>>, n: nat)
    requires forall i :: 0 <= i < |refs| ==> Packable(refs[i], n)
    ensures |PackAll(refs, n)| == |refs| * (4 * n)
    decreases |refs|
  {
    if refs != [] {
      var k := |refs| - 1;
      var size := 4 * n;
      PackAllLength(refs[..k], n);
      PackRecordLength(refs[k].value);
      assert |PackAll(refs, n)| == |PackAll(refs[..k], n)| + size;
      assert (k + 1) * size == k * size + size;
    }
  }

  /** The records packed one after the other are read back one by one. */
  lemma {:induction false} PackAllRecords(refs: seq<Option<Color>>, n: nat, f: nat)
    requires n > 0 && f < |refs|
    requires forall i :: 0 <= i < |refs| ==> Packable(refs[i], n)
    ensures RecordAt(PackAll(refs, n), 4 * n, f) == Some(PackRecord(refs[f].value))
    decreases |refs|
  {
    var last := |refs| - 1;
    var front := refs[..last];
    var tail := PackRecord(refs[last].value);
    PackRecordLength(refs[last].value);
    assert PackAll(refs, n) == PackAll(front, n) + tail;
    if f < last {
      PackAllRecords(front, n, f);
      assert front[f] == refs[f];
      RecordAtPrefix(PackAll(front, n), tail, 4 * n, f);
    } else {
      assert f == last;
      PackAllLength(front, n);
      RecordAtAfter(PackAll(front, n), tail, 4 * n, f);
    }
  }

  lemma {:induction false} RecordAtPrefix(a: seq<Byte>, b: seq<Byte>, size: nat, f: nat)
    requires size > 0 && RecordAt(a, size, f).Some?
    ensures RecordAt(a + b, size, f) == RecordAt(a, size, f)
    decreases f
  {
    assert |a| >= size;
    if f == 0 {
      assert (a + b)[..size] == a[..size];
    } else {
      assert (a + b)[size..] == a[size..] + b;
      RecordAtPrefix(a[size..], b, size, f - 1);
    }
  }

  lemma {:induction false} RecordAtAfter(a: seq<Byte>, b: seq<Byte>, size: nat, f: nat)
    requires size > 0 && |a| == f * size && |b| == size
    ensures RecordAt(a + b, size, f) == Some(b)
    decreases f
  {
    if f == 0 {
      assert a + b == b && b[..size] == b;
    } else {
      assert f * size == (f - 1) * size + size;
      assert (a + b)[size..] == a[size..] + b;
      RecordAtAfter(a[size..], b, size, f - 1);
    }
  }

  /**
   * Saving (`for rgb in colorReference: file.write(struct.pack('nI', *rgb))`).
   * It succeeds exactly when all six slots are packable, and then every
   * record reads back as the reference it came from; otherwise it stops at
   * the first bad slot with the records before it already written.
   */
  method SaveReferences(refs: seq<Option<Color>>, n: nat) returns (data: seq<Byte>, err: Option<SaveError>)
    requires |refs| == 6 && n > 0
    ensures err.None? <==> forall i :: 0 <= i < 6 ==> Packable(refs[i], n)
    ensures err.None? ==>
              && data == PackAll(refs, n)
              && |data| == 6 * (4 * n)
              && forall f :: 0 <= f < 6 ==>
                   && RecordAt(data, 4 * n, f).Some?
                   && UnpackRecord(RecordAt(data, 4 * n, f).value) == refs[f].value
    ensures err.Some? ==>
              var f := err.value.face;
              && f < 6 && !Packable(refs[f], n)
              && (forall i :: 0 <= i < f ==> Packable(refs[i], n))
              && (err.value.MissingRecord? <==> refs[f].None?)
              && data == PackAll(refs[..f], n)
  {
    data := [];
    for face := 0 to 6
      invariant forall i :: 0 <= i < face ==> Packable(refs[i], n)
      invariant data == PackAll(refs[..face], n)
    {
      var rgb := refs[face];
      if rgb.None? {
        return data, Some(MissingRecord(face));
      }
      if |rgb.value| != n || !(forall i :: 0 <= i < |rgb.value| ==> IsWord(rgb.value[i])) {
        return data, Some(BadRecord(face));
      }
      PackAllStep(refs, n, face);
      data := data + PackRecord(rgb.value);
    }
    err := None;
    assert refs[..6] == refs;
    PackAllReadsBack(refs, n);
  }

  /** Saving one more slot appends its record. */
  lemma PackAllStep(refs: seq<Option<Color>>, n: nat, face: nat)
    requires face < |refs| && forall i :: 0 <= i <= face ==> Packable(refs[i], n)
    ensures PackAll(refs[..face + 1], n) == PackAll(refs[..face], n) + PackRecord(refs[face].value)
  {
    assert refs[..face + 1][..face] == refs[..face];
    assert refs[..face + 1][face] == refs[face];
  }

  /** Every record of a saved file reads back as the reference it came from. */
  lemma PackAllReadsBack(refs: seq<Option<Color>>, n: nat)
    requires n > 0 && forall i :: 0 <= i < |refs| ==> Packable(refs[i], n)
    ensures |PackAll(refs, n)| == |refs| * (4 * n)
    ensures forall f :: 0 <= f < |refs| ==>
              && RecordAt(PackAll(refs, n), 4 * n, f).Some?
              && UnpackRecord(RecordAt(PackAll(refs, n), 4 * n, f).value) == refs[f].value
  {
    forall f | 0 <= f < |refs|
      ensures RecordAt(PackAll(refs, n), 4 * n, f).Some?
      ensures UnpackRecord(RecordAt(PackAll(refs, n), 4 * n, f).value) == refs[f].value
    {
      PackAllRecords(refs, n, f);
      RecordRoundTrip(refs[f].value, []);
    }
    PackAllLength(refs, n);
  }

  /**
   * Loading (`colorReference[face] = struct.unpack('nI', file.read(4n))` for
   * each face, inside a bare `except`). A missing file loads nothing; a file
   * that runs short keeps the records read before the short one; bytes past
   * the sixth record are ignored.
   */
  method LoadReferences(file: Option<seq<Byte>>, n: nat) returns (refs: seq<Option<Color>>, ok: bool)
    requires n > 0
    ensures |refs| == 6
    ensures ok <==> file.Some? && RecordAt(file.value, 4 * n, 5).Some?
    ensures forall f :: 0 <= f < 6 ==> refs[f] == Loaded(file, n, f)
  {
    refs := [None, None, None, None, None, None];
    if file.None? {
      return refs, false;
    }
    var data := file.value;
    var rest := data;
    var size := 4 * n;
    for face := 0 to 6
      invariant |refs| == 6
      invariant rest == Skip(data, size, face)
      invariant forall f :: 0 <= f < face ==> refs[f] == Loaded(file, n, f) && refs[f].Some?
      invariant forall f :: face <= f < 6 ==> refs[f] == None
    {
      if |rest| < size {
        ShortLoad(file, n, face);
        return refs, false;
      }
      FullLoad(file, n, face);
      refs := refs[face := Some(UnpackRecord(rest[..size]))];
      rest := rest[size..];
    }
    assert Loaded(file, n, 5).Some?;
    ok := true;
  }

  /** What loading puts in slot `f`: the unpacked `f`-th record, or nothing when the file lacks it. */
  function Loaded(file: Option<seq<Byte>>, n: nat, f: nat): Option<Color>
    requires n > 0
  {
    if file.Some? && RecordAt(file.value, 4 * n, f).Some?
    then Some(UnpackRecord(RecordAt(file.value, 4 * n, f).value))
    else None
  }

  /** Loading stops at a short read: slot `face` and every later one stay empty, so the sixth record is missing. */
  lemma ShortLoad(file: Option<seq<Byte>>, n: nat, face: nat)
    requires n > 0 && face < 6 && file.Some? && |Skip(file.value, 4 * n, face)| < 4 * n
    ensures forall f :: face <= f ==> Loaded(file, n, f).None?
    ensures RecordAt(file.value, 4 * n, 5).None?
  {
    ShortRead(file.value, 4 * n, face);
  }

  /** A full read loads slot `face` with the unpacked current record. */
  lemma FullLoad(file: Option<seq<Byte>>, n: nat, face: nat)
    requires n > 0 && file.Some? && |Skip(file.value, 4 * n, face)| >= 4 * n
    ensures Loaded(file, n, face) == Some(UnpackRecord(Skip(file.value, 4 * n, face)[..4 * n]))
    ensures Skip(file.value, 4 * n, face + 1) == Skip(file.value, 4 * n, face)[4 * n..]
  {
    FullRead(file.value, 4 * n, face);
  }

  /** A loaded reference has the record's `n` channels, each an unsigned 32-bit value, and packs back to the bytes read. */
  lemma LoadedWellFormed(file: Option<seq<Byte>>, n: nat, f: nat)
    requires n > 0
    ensures Loaded(file, n, f).Some? ==>
              && |Loaded(file, n, f).value| == n
              && WordColor(Loaded(file, n, f).value)
              && PackRecord(Loaded(file, n, f).value) == RecordAt(file.value, 4 * n, f).value
  {
    if Loaded(file, n, f).Some? {
      RecordRoundTrip([], RecordAt(file.value, 4 * n, f).value);
    }
  }

  /** Loading what a successful save wrote gives back every reference, and all six are there. */
  lemma SaveLoadRoundTrip(refs: seq<Option<Color>>, n: nat, f: nat)
    requires |refs| == 6 && n > 0 && f < 6
    requires forall i :: 0 <= i < 6 ==> Packable(refs[i], n)
    ensures Loaded(Some(PackAll(refs, n)), n, f) == refs[f]
    ensures RecordAt(PackAll(refs, n), 4 * n, 5).Some?
  {
    PackAllRecords(refs, n, f);
    PackAllRecords(refs, n, 5);
    RecordRoundTrip(refs[f].value, []);
  }

  /** The bytes left after reading `k` records, or the short remainder where reading stopped. */
  function Skip(data: seq<Byte>, size: nat, k: nat): seq<Byte>
    requires size > 0
    decreases k
  {
    if k == 0 || |data| < size then data else Skip(data[size..], size, k - 1)
  }

  /** Record `k + g` of the file is record `g` of what is left after `k` reads. */
  lemma {:induction false} SkipRecords(data: seq<Byte>, size: nat, k: nat, g: nat)
    requires size > 0
    ensures RecordAt(data, size, k + g) == RecordAt(Skip(data, size, k), size, g)
    decreases k
  {
    if k > 0 && |data| >= size {
      SkipRecords(data[size..], size, k - 1, g);
    }
  }

  /** When the remaining bytes fall short of a record, no record from here on is there. */
  lemma ShortRead(data: seq<Byte>, size: nat, face: nat)
    requires size > 0 && |Skip(data, size, face)| < size
    ensures forall f :: face <= f ==> RecordAt(data, size, f).None?
  {
    forall f | face <= f
      ensures RecordAt(data, size, f).None?
    {
      SkipRecords(data, size, face, f - face);
    }
  }

  /** A full read yields the current record and moves the remaining bytes on by one record. */
  lemma {:induction false} FullRead(data: seq<Byte>, size: nat, face: nat)
    requires size > 0 && |Skip(data, size, face)| >= size
    ensures RecordAt(data, size, face) == Some(Skip(data, size, face)[..size])
    ensures Skip(data, size, face + 1) == Skip(data, size, face)[size..]
    decreases face
  {
    SkipRecords(data, size, face, 0);
    if face > 0 {
      FullRead(data[size..], size, face - 1);
    }
  }

  /** Record `f` is there exactly when the file holds `f + 1` records' worth of bytes. */
  lemma {:induction false} RecordAtShape(data: seq<Byte>, size: nat, f: nat)
    requires size > 0
    ensures RecordAt(data, size, f).Some? <==> |data| >= size * (f + 1)
    decreases f
  {
    if |data| >= size && f > 0 {
      RecordAtShape(data[size..], size, f - 1);
      assert size * (f + 1) == size * f + size;
    }
  }
}
