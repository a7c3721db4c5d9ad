/**
 * The content address the console computes before a multipart upload
 * (utils/fileUpload.ts): the file is cut into 1 MiB parts, each part is
 * digested with MD5, and the hash sent to the server is the MD5 of the
 * part digests joined with commas.
 */
module FileHashing {
  import opened JsText
  import opened Md5

  /** The part size `calculateFileHash` always uses, whatever the server later answers. */
  const PART_SIZE: nat := 1024 * 1024

  function Min(a: int, b: int): int
  {
    if a <= b then a else b
  }

  /** `Math.ceil(size / partSize)`. */
  function PartCount(size: nat, partSize: nat): nat
    requires partSize > 0
  {
    (size + partSize - 1) / partSize
  }

  lemma MulMono(a: nat, b: nat, k: nat)
    requires a <= b
    ensures a * k <= b * k
  {
  }

  /** The part count is the least number of whole parts that covers the file. */
  lemma PartCountBounds(size: nat, partSize: nat)
    requires partSize > 0
    ensures PartCount(size, partSize) * partSize >= size
    ensures PartCount(size, partSize) > 0 ==> (PartCount(size, partSize) - 1) * partSize < size
    ensures PartCount(size, partSize) == 0 <==> size == 0
  {
    var c := PartCount(size, partSize);
    var m := size + partSize - 1;
    assert c * partSize + m % partSize == m;
    if c > 0 {
      assert (c - 1) * partSize == c * partSize - partSize;
    }
  }

  /** Part `i` starts before the end of the file. */
  lemma PartStartsInside(size: nat, partSize: nat, i: nat)
    requires partSize > 0 && i < PartCount(size, partSize)
    ensures i * partSize < size
  {
    PartCountBounds(size, partSize);
    MulMono(i, PartCount(size, partSize) - 1, partSize);
  }

  /** `file.slice(i * partSize, Math.min(i * partSize + partSize, file.size))`. */
  function Chunk(bytes: seq<byte>, partSize: nat, i: nat): (c: seq<byte>)
    requires partSize > 0 && i < PartCount(|bytes|, partSize)
  {
    PartStartsInside(|bytes|, partSize, i);
    bytes[i * partSize .. Min(i * partSize + partSize, |bytes|)]
  }

  /** The digests `calculatePartMD5s` collects, one per part, in part order. */
  function PartDigests(md5: Hasher, bytes: seq<byte>, partSize: nat): (r: seq<string>)
    requires partSize > 0
    ensures |r| == PartCount(|bytes|, partSize)
    ensures forall i :: 0 <= i < |r| ==> IsDigest(r[i])
  {
    var r := seq(PartCount(|bytes|, partSize), i requires 0 <= i < PartCount(|bytes|, partSize) => md5(Chunk(bytes, partSize, i)));
    assert forall i :: 0 <= i < |r| ==> r[i] == md5(Chunk(bytes, partSize, i)) && IsDigest(md5(Chunk(bytes, partSize, i)));
    r
  }

  /** `calculatePartMD5s`: one pass over the parts, pushing each part's digest. */
  method CalculatePartMD5s(md5: Hasher, bytes: seq<byte>, partSize: nat) returns (parts: seq<string>)
    requires partSize > 0
    ensures parts == PartDigests(md5, bytes, partSize)
  {
    parts := [];
    var totalParts := PartCount(|bytes|, partSize);
    var i := 0;
    while i < totalParts
      invariant 0 <= i <= totalParts
      invariant |parts| == i
      invariant forall k :: 0 <= k < i ==> parts[k] == md5(Chunk(bytes, partSize, k))
    {
      PartStartsInside(|bytes|, partSize, i);
      var start := i * partSize;
      var end := Min(start + partSize, |bytes|);
      var chunk := bytes[start..end];
      assert chunk == Chunk(bytes, partSize, i);
      parts := parts + [md5(chunk)];
      i := i + 1;
    }
    DigestsPerPart(md5, bytes, partSize, parts);
  }

  lemma DigestsPerPart(md5: Hasher, bytes: seq<byte>, partSize: nat, parts: seq<string>)
    requires partSize > 0 && |parts| == PartCount(|bytes|, partSize)
    requires forall k :: 0 <= k < |parts| ==> parts[k] == md5(Chunk(bytes, partSize, k))
    ensures parts == PartDigests(md5, bytes, partSize)
  {
  }

  /** The parts laid end to end. */
  function Concat(chunks: seq<seq<byte>>): seq<byte>
  {
    if |chunks| == 0 then [] else Concat(chunks[..|chunks| - 1]) + chunks[|chunks| - 1]
  }

  function Chunks(bytes: seq<byte>, partSize: nat): (r: seq<seq<byte>>)
    requires partSize > 0
    ensures |r| == PartCount(|bytes|, partSize)
  {
    seq(PartCount(|bytes|, partSize), i requires 0 <= i < PartCount(|bytes|, partSize) => Chunk(bytes, partSize, i))
  }

  lemma {:induction false} ConcatPrefix(bytes: seq<byte>, partSize: nat, k: nat)
    requires partSize > 0 && k <= PartCount(|bytes|, partSize)
    ensures Concat(Chunks(bytes, partSize)[..k]) == bytes[..Min(k * partSize, |bytes|)]
  {
    if k > 0 {
      var cs := Chunks(bytes, partSize);
      ConcatPrefix(bytes, partSize, k - 1);
      assert cs[..k][..k - 1] == cs[..k - 1];
      PartStartsInside(|bytes|, partSize, k - 1);
      assert (k - 1) * partSize + partSize == k * partSize;
      assert Concat(cs[..k]) == bytes[..(k - 1) * partSize] + bytes[(k - 1) * partSize .. Min(k * partSize, |bytes|)];
    }
  }

  /** The parts cover the file exactly: no byte is skipped or hashed twice. */
  lemma PartsCoverFile(bytes: seq<byte>, partSize: nat)
    requires partSize > 0
    ensures Concat(Chunks(bytes, partSize)) == bytes
  {
    var c := PartCount(|bytes|, partSize);
    ConcatPrefix(bytes, partSize, c);
    PartCountBounds(|bytes|, partSize);
    assert Chunks(bytes, partSize)[..c] == Chunks(bytes, partSize);
  }

  /** Every part but the last is exactly `partSize` long; the last is non-empty and at most that long. */
  lemma PartLengths(bytes: seq<byte>, partSize: nat, i: nat)
    requires partSize > 0 && i < PartCount(|bytes|, partSize)
    ensures i + 1 < PartCount(|bytes|, partSize) ==> |Chunk(bytes, partSize, i)| == partSize
    ensures 0 < |Chunk(bytes, partSize, i)| <= partSize
  {
    PartStartsInside(|bytes|, partSize, i);
    if i + 1 < PartCount(|bytes|, partSize) {
      PartStartsInside(|bytes|, partSize, i + 1);
      assert (i + 1) * partSize == i * partSize + partSize;
    }
  }

  /** `{hash, parts}` as `calculateFileHash` returns it. */
  datatype FileHash = FileHash(hash: string, parts: seq<string>)

  /** `calculateMD5String(parts.join(','))`. */
  function CombinedHash(md5: Hasher, parts: seq<string>): (r: string)
    ensures IsDigest(r)
  {
    HashText(md5, Join(parts, ","))
  }

  /** `calculateFileHash`: the part digests at the fixed 1 MiB part size and their combined hash. */
  method CalculateFileHash(md5: Hasher, bytes: seq<byte>) returns (h: FileHash)
    ensures h.parts == PartDigests(md5, bytes, PART_SIZE)
    ensures h.hash == CombinedHash(md5, h.parts)
    ensures |h.parts| == PartCount(|bytes|, PART_SIZE)
    ensures |bytes| == 0 ==> h.parts == [] && h.hash == HashText(md5, "")
  {
    var parts := CalculatePartMD5s(md5, bytes, PART_SIZE);
    var combinedParts := Join(parts, ",");
    h := FileHash(HashText(md5, combinedParts), parts);
    PartCountBounds(|bytes|, PART_SIZE);
  }

  lemma DigestHasNoComma(d: string)
    requires IsDigest(d)
    ensures Excludes(d, ',')
  {
  }

  lemma JoinOfDigestsNonEmpty(parts: seq<string>)
    requires |parts| >= 1 && IsDigest(parts[0])
    ensures |Join(parts, ",")| >= 32
  {
  }

  /**
   * The text whose MD5 is the combined hash determines the part list:
   * two different lists of part digests never give the same input to the
   * final MD5.
   */
  lemma CombinedInputDeterminesParts(p: seq<string>, q: seq<string>)
    requires forall i :: 0 <= i < |p| ==> IsDigest(p[i])
    requires forall i :: 0 <= i < |q| ==> IsDigest(q[i])
    requires Utf8Encode(Join(p, ",")) == Utf8Encode(Join(q, ","))
    ensures p == q
  {
    Utf8EncodeInjective(Join(p, ","), Join(q, ","));
    if |p| == 0 && |q| > 0 {
      JoinOfDigestsNonEmpty(q);
    } else if |q| == 0 && |p| > 0 {
      JoinOfDigestsNonEmpty(p);
    } else if |p| > 0 && |q| > 0 {
      forall i | 0 <= i < |p| { DigestHasNoComma(p[i]); }
      forall i | 0 <= i < |q| { DigestHasNoComma(q[i]); }
      SplitJoin(p, ',');
      SplitJoin(q, ',');
    }
  }
}
