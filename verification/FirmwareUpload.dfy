/** Sending a firmware image to the modem in numbered chunks (c_modules/modem/src/modem.c). */
module FirmwareUpload {
  type Bytes = seq<bv8>

  const CHUNK: nat := 1024   // CONFIG_LTE_FOTA_CHUNK_SIZE_MAX
  const U16: nat := 0x1_0000

  datatype Chunk = Chunk(num: nat, total: nat, data: Bytes)

  /** What happens to one chunk: it is read, sent and accepted, or where that fails. */
  datatype Fate = Accepted | ReadFails | NoMemory | SendFails | NoReply | Refused

  datatype Upload = Upload(sent: seq<Chunk>, ret: int)

  /** The bytes of chunk `i`: what a read at its position returns. */
  function Block(file: Bytes, i: nat): (b: Bytes)
    requires i * CHUNK <= |file|
    ensures |b| <= CHUNK
  {
    if |file| < (i + 1) * CHUNK then file[i * CHUNK..] else file[i * CHUNK..(i + 1) * CHUNK]
  }

  function ChunkOf(file: Bytes, i: nat): Chunk
    requires i * CHUNK <= |file|
  {
    Chunk(i % U16, (|file| / CHUNK) % U16, Block(file, i))
  }

  /** The upload from chunk `i` on; `fate` says what happens to each chunk. */
  function UploadFrom(file: Bytes, i: nat, fate: nat -> Fate): Upload
    requires i * CHUNK <= |file|
    decreases |file| - i * CHUNK
  {
    match fate(i)
    case ReadFails => Upload([], 0)
    case NoMemory => Upload([], -1)
    case SendFails => Upload([], -1)
    case NoReply => Upload([ChunkOf(file, i)], -1)
    case Refused => Upload([ChunkOf(file, i)], -1)
    case Accepted =>
      if |Block(file, i)| < CHUNK then Upload([ChunkOf(file, i)], 0)
      else
        var rest := UploadFrom(file, i + 1, fate);
        rest.(sent := [ChunkOf(file, i)] + rest.sent)
  }

  lemma UploadUnfold(file: Bytes, i: nat, fate: nat -> Fate, done: seq<Chunk>)
    requires i * CHUNK <= |file| && fate(i).Accepted? && |Block(file, i)| == CHUNK
    ensures (i + 1) * CHUNK <= |file|
    ensures done + UploadFrom(file, i, fate).sent == (done + [ChunkOf(file, i)]) + UploadFrom(file, i + 1, fate).sent
    ensures UploadFrom(file, i, fate).ret == UploadFrom(file, i + 1, fate).ret
  {
    hide ChunkOf;
  }

  /** The upload ends at chunk `i`. */
  lemma UploadEnds(file: Bytes, i: nat, fate: nat -> Fate, done: seq<Chunk>)
    requires i * CHUNK <= |file|
    ensures var u := UploadFrom(file, i, fate);
            match fate(i)
            case ReadFails => u.ret == 0 && done + u.sent == done
            case NoMemory => u.ret == -1 && done + u.sent == done
            case SendFails => u.ret == -1 && done + u.sent == done
            case NoReply => u.ret == -1 && done + u.sent == done + [ChunkOf(file, i)]
            case Refused => u.ret == -1 && done + u.sent == done + [ChunkOf(file, i)]
            case Accepted => |Block(file, i)| < CHUNK ==> u.ret == 0 && done + u.sent == done + [ChunkOf(file, i)]
  {
    hide ChunkOf, Block;
  }

  lemma BlockIs(file: Bytes, i: nat)
    requires i * CHUNK <= |file|
    ensures var rc := if |file| - i * CHUNK < CHUNK then |file| - i * CHUNK else CHUNK;
            Block(file, i) == file[i * CHUNK..i * CHUNK + rc]
  {
  }

  /** modem_upload_fw once the file is open and its size known; `position` is the file's. */
  method ModemUploadFw(file: Bytes, fate: nat -> Fate) returns (ret: int, sent: seq<Chunk>)
    ensures Upload(sent, ret) == UploadFrom(file, 0, fate)
  {
    var fileSize := |file|;
    var position, i := 0, 0;
    sent := [];
    hide UploadFrom, Block;
    while true
      invariant position == i * CHUNK <= |file|
      invariant sent + UploadFrom(file, i, fate).sent == UploadFrom(file, 0, fate).sent
      invariant UploadFrom(file, i, fate).ret == UploadFrom(file, 0, fate).ret
      decreases |file| - position
    {
      UploadEnds(file, i, fate, sent);
      BlockIs(file, i);
      if fate(i).ReadFails? {
        break;
      }
      var rc := if |file| - position < CHUNK then |file| - position else CHUNK;
      var block := file[position..position + rc];
      if fate(i).NoMemory? || fate(i).SendFails? {
        return -1, sent;
      }
      if fate(i).Accepted? && rc == CHUNK {
        UploadUnfold(file, i, fate, sent);
      }
      sent := sent + [Chunk(i % U16, (fileSize / CHUNK) % U16, block)];
      if fate(i).NoReply? || fate(i).Refused? {
        return -1, sent;
      }
      position := position + rc;
      i := i + 1;
      if rc < CHUNK {
        break;
      }
    }
    return 0, sent;
  }

  // ----- A complete upload -----

  /** The chunks of a file from `i` on. */
  function AllChunks(file: Bytes, i: nat): (r: seq<Chunk>)
    requires i * CHUNK <= |file|
    ensures |r| == |file| / CHUNK + 1 - i
    decreases |file| - i * CHUNK
  {
    if |file| < (i + 1) * CHUNK then [ChunkOf(file, i)] else [ChunkOf(file, i)] + AllChunks(file, i + 1)
  }

  lemma {:induction false} AllChunksAre(file: Bytes, i: nat)
    requires i * CHUNK <= |file|
    ensures |AllChunks(file, i)| == |file| / CHUNK + 1 - i
    ensures forall k :: 0 <= k < |AllChunks(file, i)| ==>
              (i + k) * CHUNK <= |file| && AllChunks(file, i)[k] == ChunkOf(file, i + k)
    decreases |file| - i * CHUNK
  {
    hide ChunkOf;
    if |file| >= (i + 1) * CHUNK {
      AllChunksAre(file, i + 1);
      var all, rest := AllChunks(file, i), AllChunks(file, i + 1);
      assert all == [ChunkOf(file, i)] + rest;
      hide AllChunks;
      forall k | 0 <= k < |all|
        ensures (i + k) * CHUNK <= |file| && all[k] == ChunkOf(file, i + k)
      {
        if k > 0 {
          assert all[k] == rest[k - 1] && i + 1 + (k - 1) == i + k;
        }
      }
    }
  }

  function Payload(sent: seq<Chunk>): Bytes {
    if sent == [] then [] else sent[0].data + Payload(sent[1..])
  }

  lemma {:induction false} PayloadIsFile(file: Bytes, i: nat)
    requires i * CHUNK <= |file|
    ensures Payload(AllChunks(file, i)) == file[i * CHUNK..]
    decreases |file| - i * CHUNK
  {
    var all := AllChunks(file, i);
    if |file| < (i + 1) * CHUNK {
      assert all[1..] == [];
    } else {
      PayloadIsFile(file, i + 1);
      assert all[1..] == AllChunks(file, i + 1);
      assert file[i * CHUNK..] == file[i * CHUNK..(i + 1) * CHUNK] + file[(i + 1) * CHUNK..];
    }
  }

  /** The first chunk from `i` on that is not accepted, or one past the last chunk. */
  function FirstFailure(file: Bytes, i: nat, fate: nat -> Fate): (k: nat)
    requires i * CHUNK <= |file|
    ensures i <= k <= |file| / CHUNK + 1
    ensures forall j :: i <= j < k ==> fate(j).Accepted?
    ensures k <= |file| / CHUNK ==> !fate(k).Accepted?
    decreases |file| - i * CHUNK
  {
    if !fate(i).Accepted? then i
    else if |file| < (i + 1) * CHUNK then i + 1
    else FirstFailure(file, i + 1, fate)
  }

  /** Exactly the chunks up to the first failure are sent, with the failing one when it fails only
      after being sent.  The result is 0 when all are accepted - and also when a read fails. */
  lemma {:induction false} SentUpToFailure(file: Bytes, i: nat, fate: nat -> Fate)
    requires i * CHUNK <= |file|
    ensures var u, k, all := UploadFrom(file, i, fate), FirstFailure(file, i, fate), AllChunks(file, i);
            if k > |file| / CHUNK then u == Upload(all, 0)
            else && (u.ret == 0 <==> fate(k).ReadFails?)
                 && u.sent == all[..k - i + if fate(k).NoReply? || fate(k).Refused? then 1 else 0]
    decreases |file| - i * CHUNK
  {
    hide ChunkOf;
    if fate(i).Accepted? && |file| >= (i + 1) * CHUNK {
      SentUpToFailure(file, i + 1, fate);
      AllChunksAre(file, i + 1);
      var all, rest := AllChunks(file, i), AllChunks(file, i + 1);
      assert all == [ChunkOf(file, i)] + rest;
      var n := FirstFailure(file, i, fate) - i - 1;
      assert n + 1 <= |rest| ==> all[..n + 2] == [ChunkOf(file, i)] + rest[..n + 1];
      assert n <= |rest| ==> all[..n + 1] == [ChunkOf(file, i)] + rest[..n];
    }
  }

  /** When every chunk is accepted: the chunks are numbered 0, 1, ... up to the announced total, all
      but the last are full, the last is shorter (empty when the size divides evenly), and the
      payloads put together are the file. */
  lemma CompleteUpload(file: Bytes, fate: nat -> Fate)
    requires forall k :: fate(k).Accepted?
    ensures var u := UploadFrom(file, 0, fate);
            && u.ret == 0 && Payload(u.sent) == file
            && |u.sent| == |file| / 1024 + 1
            && (forall k :: 0 <= k < |u.sent| ==>
                  && u.sent[k].num == k % 65536 && u.sent[k].total == |file| / 1024 % 65536
                  && (if k < |u.sent| - 1 then |u.sent[k].data| == 1024 else |u.sent[k].data| == |file| % 1024))
            && u.sent[|u.sent| - 1].num == u.sent[|u.sent| - 1].total
  {
    SentUpToFailure(file, 0, fate);
    PayloadIsFile(file, 0);
    AllChunksAre(file, 0);
    assert file[0..] == file;
    var all := AllChunks(file, 0);
    hide AllChunks, UploadFrom, FirstFailure, Payload, Block;
    forall k | 0 <= k < |all|
      ensures && all[k].num == k % U16 && all[k].total == (|file| / CHUNK) % U16
              && (if k < |all| - 1 then |all[k].data| == CHUNK else |all[k].data| == |file| % CHUNK)
    {
    }
  }

  /** The 16-bit numbers are the chunks' positions exactly for files below 64 MiB. */
  lemma NumbersArePositions(file: Bytes)
    ensures (forall k :: 0 <= k < |AllChunks(file, 0)| ==> AllChunks(file, 0)[k].num == k) <==> |file| < 67_108_864
  {
    var all := AllChunks(file, 0);
    AllChunksAre(file, 0);
    hide AllChunks, Block;
    if |file| >= U16 * CHUNK {
      assert all[U16] == ChunkOf(file, U16) && all[U16].num == 0;
    } else {
      assert |file| / CHUNK < U16;
      assert forall k :: 0 <= k < U16 ==> k % U16 == k;
    }
  }

  /** A successful upload has sent the whole file exactly when no read failed on the way. */
  lemma {:induction false} SuccessMeansComplete(file: Bytes, fate: nat -> Fate)
    requires UploadFrom(file, 0, fate).ret == 0
    ensures var k := FirstFailure(file, 0, fate);
            UploadFrom(file, 0, fate).sent == AllChunks(file, 0) <==> k > |file| / CHUNK
  {
    SentUpToFailure(file, 0, fate);
    hide AllChunks, UploadFrom, FirstFailure, ChunkOf;
    var k, all := FirstFailure(file, 0, fate), AllChunks(file, 0);
    if k <= |file| / CHUNK {
      assert |all[..k]| < |all|;
    }
  }
}
