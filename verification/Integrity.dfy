/** The size and hash an upload is accepted with, and the check a worker makes of
    the stored object, each over its own chunks, under the configured upload limit. */
module Integrity {
  import opened Records

  /** An incremental hash: updating it chunk by chunk hashes their concatenation. */
  datatype Hasher = Hasher(absorbed: Bytes) {
    function Update(chunk: Bytes): Hasher {
      Hasher(absorbed + chunk)
    }
    function Result(): Digest {
      Sha256(absorbed)
    }
  }

  function Concat(chunks: seq<Bytes>): Bytes {
    if chunks == [] then [] else Concat(chunks[..|chunks| - 1]) + chunks[|chunks| - 1]
  }

  datatype Verdict = TooLarge | WrongSize | Accepted(size: nat, sha256: Digest)

  /** What becomes of an upload of the declared size and the given content. */
  function VerdictOn(limit: nat, declared: nat, content: Bytes): Verdict {
    if declared > limit || |content| > limit then TooLarge
    else if |content| != declared then WrongSize
    else Accepted(|content|, Sha256(content))
  }

  lemma {:induction false} PrefixIsShorter(chunks: seq<Bytes>, i: nat)
    requires i <= |chunks|
    ensures |Concat(chunks[..i])| <= |Concat(chunks)|
    decreases |chunks|
  {
    if i == |chunks| {
      assert chunks[..i] == chunks;
    } else {
      assert chunks[..|chunks| - 1][..i] == chunks[..i];
      PrefixIsShorter(chunks[..|chunks| - 1], i);
    }
  }

  /** The serializer's loop: count and hash the chunks, stopping early if too large. */
  method ValidateFile(limit: nat, declared: nat, chunks: seq<Bytes>) returns (verdict: Verdict)
    ensures verdict == VerdictOn(limit, declared, Concat(chunks))
  {
    if declared > limit {
      return TooLarge;
    }
    var digest := Hasher([]);
    var total := 0;
    for i := 0 to |chunks|
      invariant digest.absorbed == Concat(chunks[..i])
      invariant total == |digest.absorbed| <= limit
    {
      assert chunks[..i + 1][..i] == chunks[..i];
      total := total + |chunks[i]|;
      if total > limit {
        PrefixIsShorter(chunks, i + 1);
        return TooLarge;
      }
      digest := digest.Update(chunks[i]);
    }
    assert chunks[..|chunks|] == chunks;
    verdict := if total != declared then WrongSize else Accepted(total, digest.Result());
  }

  /** One read of the stored object: bytes, none of them at the end, or a fault. */
  datatype Chunk = Data(bytes: Bytes) | Fault

  datatype Original = Intact(content: Bytes) | Corrupt | Unavailable

  datatype Gathered = Got(content: Bytes) | Oversize | Faulted

  /** What a series of parts adds to the bytes read so far. */
  function Gather(limit: nat, parts: seq<Chunk>, got: Bytes): Gathered
    decreases |parts|
  {
    if parts == [] then Got(got)
    else if parts[0].Fault? then Faulted
    else if parts[0].bytes == [] then Got(got)
    else if |got| + |parts[0].bytes| > limit then Oversize
    else Gather(limit, parts[1..], got + parts[0].bytes)
  }

  /** What a worker makes of a stored object, given the row's size and hash. */
  function Judged(limit: nat, parts: seq<Chunk>, size: nat, sha256: Digest): Original {
    match Gather(limit, parts, [])
    case Faulted => Unavailable
    case Oversize => Corrupt
    case Got(content) => if |content| != size || Sha256(content) != sha256 then Corrupt else Intact(content)
  }

  /** The worker's loop. */
  method ReadOriginal(limit: nat, parts: seq<Chunk>, size: nat, sha256: Digest) returns (original: Original)
    ensures original == Judged(limit, parts, size, sha256)
  {
    var digest := Hasher([]);
    var count := 0;
    var i := 0;
    while i < |parts|
      invariant i <= |parts|
      invariant count == |digest.absorbed|
      invariant Gather(limit, parts, []) == Gather(limit, parts[i..], digest.absorbed)
    {
      if parts[i].Fault? {
        return Unavailable;
      }
      if parts[i].bytes == [] {
        break;
      }
      count := count + |parts[i].bytes|;
      if count > limit {
        return Corrupt;
      }
      digest := digest.Update(parts[i].bytes);
      i := i + 1;
    }
    original := if count != size || digest.Result() != sha256 then Corrupt else Intact(digest.absorbed);
  }

  /** A complete read: chunks of any sizes but zero, and no fault. */
  predicate Complete(parts: seq<Chunk>) {
    forall i | 0 <= i < |parts| :: parts[i].Data? && parts[i].bytes != []
  }

  function Joined(parts: seq<Chunk>): Bytes
    requires Complete(parts)
  {
    if parts == [] then [] else parts[0].bytes + Joined(parts[1..])
  }

  lemma {:induction false} GatherIsConcat(limit: nat, parts: seq<Chunk>, got: Bytes)
    requires Complete(parts)
    ensures Gather(limit, parts, got)
            == if |got| + |Joined(parts)| > limit && parts != [] then Oversize else Got(got + Joined(parts))
    decreases |parts|
  {
    if parts == [] {
      assert got + [] == got;
    } else if |got| + |parts[0].bytes| <= limit {
      GatherIsConcat(limit, parts[1..], got + parts[0].bytes);
      assert got + parts[0].bytes + Joined(parts[1..]) == got + Joined(parts);
    }
  }

  /** An accepted upload read back completely passes the worker's check exactly
      when its bytes are unmodified and within the limit the worker is configured
      with, however either side cuts its chunks. */
  lemma AcceptedUploadVerifiesIffUnmodified(
    limit: nat, declared: nat, chunks: seq<Bytes>, workerLimit: nat, parts: seq<Chunk>)
    requires VerdictOn(limit, declared, Concat(chunks)).Accepted? && Complete(parts)
    ensures var accepted := VerdictOn(limit, declared, Concat(chunks));
            Judged(workerLimit, parts, accepted.size, accepted.sha256)
            == if Joined(parts) == Concat(chunks) && |Joined(parts)| <= workerLimit then Intact(Concat(chunks))
               else Corrupt
  {
    GatherIsConcat(workerLimit, parts, []);
    assert [] + Joined(parts) == Joined(parts);
    if parts == [] {
      assert Joined(parts) == [];
    }
  }

  /** What passes the check has the recorded size and hash, and so is the content
      the upload was accepted with. */
  lemma IntactIsTheUpload(limit: nat, declared: nat, uploaded: Bytes, workerLimit: nat, parts: seq<Chunk>)
    requires VerdictOn(limit, declared, uploaded).Accepted?
    ensures var accepted := VerdictOn(limit, declared, uploaded);
            var original := Judged(workerLimit, parts, accepted.size, accepted.sha256);
            original.Intact? ==> original == Intact(uploaded)
  {}

  /** What chunks after a complete part of the read come to. */
  lemma {:induction false} GatherGoesOn(limit: nat, parts: seq<Chunk>, rest: seq<Chunk>, got: Bytes)
    requires Complete(parts) && |got| <= limit
    ensures Gather(limit, parts + rest, got)
            == if |got| + |Joined(parts)| > limit then Oversize else Gather(limit, rest, got + Joined(parts))
    decreases |parts|
  {
    if parts == [] {
      assert parts + rest == rest && got + [] == got;
    } else {
      assert (parts + rest)[1..] == parts[1..] + rest;
      if |got| + |parts[0].bytes| <= limit {
        GatherGoesOn(limit, parts[1..], rest, got + parts[0].bytes);
        assert got + parts[0].bytes + Joined(parts[1..]) == got + Joined(parts);
      }
    }
  }

  /** A read that breaks off says nothing of the object, unless it was too large by
      then; and what is empty ends the read, whatever comes after. */
  lemma BrokenReadIsUnavailable(limit: nat, parts: seq<Chunk>, rest: seq<Chunk>, size: nat, sha256: Digest)
    requires Complete(parts)
    ensures Judged(limit, parts + [Fault] + rest, size, sha256)
            == if |Joined(parts)| > limit then Corrupt else Unavailable
    ensures Judged(limit, parts + [Data([])] + rest, size, sha256) == Judged(limit, parts, size, sha256)
  {
    assert parts + [Fault] + rest == parts + ([Fault] + rest);
    assert parts + [Data([])] + rest == parts + ([Data([])] + rest);
    GatherGoesOn(limit, parts, [Fault] + rest, []);
    GatherGoesOn(limit, parts, [Data([])] + rest, []);
    GatherGoesOn(limit, parts, [], []);
    assert parts + [] == parts;
  }

  /** Exactly which uploads are accepted, and as what. */
  lemma AcceptedIffAsDeclared(limit: nat, declared: nat, content: Bytes)
    ensures VerdictOn(limit, declared, content) == Accepted(declared, Sha256(content)) <==>
              |content| == declared <= limit
    ensures VerdictOn(limit, declared, content).Accepted? ==>
              VerdictOn(limit, declared, content) == Accepted(declared, Sha256(content))
    ensures VerdictOn(limit, declared, content) == TooLarge <==> declared > limit || |content| > limit
  {}
}
