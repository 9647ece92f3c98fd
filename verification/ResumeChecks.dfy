/**
 The two checks that a resumed process runs on the receipt of a transaction, test by test
 (src/executor/transaction-authority.ts). False stands for the error that is thrown.
 */
module ResumeChecks {
  import opened Prelude
  import opened Effects
  import opened Transaction
  import opened Preparation

  /** expectedPostimage: the digest of the payload in the pack, which must be the registered one. */
  method ExpectedPostimage(sha: Bytes -> Digest, pack: Pack, source: PackOp) returns (ok: bool, post: Option<Digest>)
    ensures ok <==> !PayloadFor(sha, pack, source).Unbound?
    ensures ok ==> post == match PayloadFor(sha, pack, source)
                           case Payload(bytes) => Some(sha(bytes))
                           case _ => None
  {
    if source.kind == Delete {
      return true, None;
    }
    if source.payloadEntry == None || source.payloadEntry.value !in pack.entries {
      return false, None;
    }
    var digest := sha(pack.entries[source.payloadEntry.value]);
    if Some(digest) != source.payloadSha {
      return false, None;
    }
    ok, post := true, Some(digest);
  }

  /** assertOne. */
  method AssertOneOperation(sha: Bytes -> Digest, pack: Pack, op: Op, source: PackOp) returns (ok: bool)
    ensures ok <==> AssertOne(sha, pack, op, source)
  {
    var bound, post := ExpectedPostimage(sha, pack, source);
    if !bound || op.id != source.id || op.kind != source.kind || op.path != source.path || op.pre != source.pre
       || op.post != post {
      return false;
    }
    if source.kind == Create {
      return op.backupName == None && op.backupSha == None && op.mode == None;
    }
    var expected := if source.pre == None then None else Some(BackupName(source.id, source.pre.value));
    ok := op.backupName == expected && op.backupSha == source.pre && op.mode != None;
  }

  /** assertExecutorTransactionBoundToPack: each registered operation against the entry of its identifier. */
  method AssertBoundToPack(sha: Bytes -> Digest, pack: Pack, ops: seq<Op>) returns (ok: bool)
    ensures ok <==> BoundToPack(sha, pack, ops)
  {
    hide AssertOne;
    if |ops| != |pack.ops| {
      return false;
    }
    var byId: map<string, Op> := map[];
    var i := 0;
    while i < |ops|
      invariant i <= |ops|
      invariant forall id :: ById(ops[..i], id) == if id in byId then Some(byId[id]) else None
    {
      byId := byId[ops[i].id := ops[i]];
      assert ops[..i + 1][..i] == ops[..i];
      i := i + 1;
    }
    assert ops[..i] == ops;
    var k := 0;
    while k < |pack.ops|
      invariant k <= |pack.ops|
      invariant forall j :: 0 <= j < k ==>
                  var found := ById(ops, pack.ops[j].id);
                  found.Some? && AssertOne(sha, pack, found.value, pack.ops[j])
    {
      var source := pack.ops[k];
      if source.id !in byId {
        return false;
      }
      var one := AssertOneOperation(sha, pack, byId[source.id], source);
      if !one {
        return false;
      }
      k := k + 1;
    }
    ok := true;
  }

  /** attestExecutorTransactionBackups: every backup is there, under its canonical name, with its bytes. */
  method AttestBackups(sha: Bytes -> Digest, backups: map<BackupName, Bytes>, ops: seq<Op>) returns (ok: bool)
    ensures ok <==> BackupsAttested(sha, backups, ops)
  {
    var i := 0;
    while i < |ops|
      invariant i <= |ops| && BackupsAttested(sha, backups, ops[..i])
    {
      var op := ops[i];
      if op.kind != Create {
        if op.backupName == None || op.backupSha == None {
          return false;
        }
        var expected := BackupName(op.id, op.backupSha.value);
        if op.backupName.value != expected || expected !in backups || |backups[expected]| > 8 * 1024 * 1024
           || sha(backups[expected]) != op.backupSha.value {
          return false;
        }
      }
      i := i + 1;
    }
    assert ops[..i] == ops;
    ok := true;
  }
}
