/**
 The evidence files behind the digests of an executor receipt (src/executor/evidence-store.ts, and
 the order in which src/executor/service.ts installs a file and writes its digest).
 */
module GateEvidence {
  import opened Prelude

  const MAX_EVIDENCE_BYTES: nat := 512 * 1024

  datatype Gate = Verification | Terra | Sol

  /** `<gate>-<round>-<digest>.json`. */
  datatype FileName = FileName(gate: Gate, round: nat, digest: Digest)

  /** The rounds of a gate and the digest of its latest evidence. */
  datatype Record = Record(rounds: nat, evidence: Option<Digest>)

  datatype Receipt = Receipt(verification: Record, terra: Record, sol: Record)

  type Files = map<FileName, Bytes>

  function Of(r: Receipt, gate: Gate): Record {
    match gate
    case Verification => r.verification
    case Terra => r.terra
    case Sol => r.sol
  }

  function With(r: Receipt, gate: Gate, record: Record): Receipt {
    match gate
    case Verification => r.(verification := record)
    case Terra => r.(terra := record)
    case Sol => r.(sol := record)
  }

  /** The digest in the receipt, if any, names an installed file with those very bytes. */
  predicate Backed(sha: Bytes -> Digest, files: Files, r: Receipt, gate: Gate) {
    var record := Of(r, gate);
    record.evidence.Some? ==>
      && var name := FileName(gate, record.rounds, record.evidence.value);
      && name in files && |files[name]| <= MAX_EVIDENCE_BYTES && sha(files[name]) == name.digest
  }

  predicate Attested(sha: Bytes -> Digest, files: Files, r: Receipt) {
    Backed(sha, files, r, Verification) && Backed(sha, files, r, Terra) && Backed(sha, files, r, Sol)
  }

  /** A file is named by the digest of its bytes, and bounded. */
  ghost predicate WellNamed(sha: Bytes -> Digest, files: Files) {
    forall name :: name in files ==> sha(files[name]) == name.digest && |files[name]| <= MAX_EVIDENCE_BYTES
  }

  ghost predicate Kept(before: Files, after: Files) {
    forall name :: name in before ==> name in after && after[name] == before[name]
  }

  lemma MoreFilesStillAttest(sha: Bytes -> Digest, before: Files, after: Files, r: Receipt)
    requires Attested(sha, before, r) && Kept(before, after)
    ensures Attested(sha, after, r)
  {
  }

  /** The file a receipt names is there, within 512 KiB, with the bytes of its digest. */
  predicate Intact(sha: Bytes -> Digest, files: Files, gate: Gate, record: Record) {
    match record.evidence
    case None => true
    case Some(digest) =>
      var name := FileName(gate, record.rounds, digest);
      name in files && |files[name]| <= 524288 && sha(files[name]) == digest
  }

  /** Attestation is exactly that each of the three gates is intact. */
  lemma AttestedExactly(sha: Bytes -> Digest, files: Files, r: Receipt)
    ensures Attested(sha, files, r) <==>
            Intact(sha, files, Verification, r.verification) && Intact(sha, files, Terra, r.terra)
            && Intact(sha, files, Sol, r.sol)
  {
  }

  /** Losing or altering the file of any gate is noticed, whichever gate it is. */
  lemma LossIsNoticed(sha: Bytes -> Digest, files: Files, r: Receipt, name: FileName, bytes: Option<Bytes>)
    requires match name.gate
             case Verification => r.verification == Record(name.round, Some(name.digest))
             case Terra => r.terra == Record(name.round, Some(name.digest))
             case Sol => r.sol == Record(name.round, Some(name.digest))
    requires Attested(sha, files, r)
    ensures name in files
    ensures !Attested(sha, files - {name}, r)
    ensures bytes.Some? && |bytes.value| > 524288 ==> !Attested(sha, files[name := bytes.value], r)
    ensures bytes.Some? && bytes.value != files[name] && CollisionFree(sha) ==>
              !Attested(sha, files[name := bytes.value], r)
  {
    var r' := if bytes.Some? then files[name := bytes.value] else files;
    AttestedExactly(sha, files, r);
    AttestedExactly(sha, files - {name}, r);
    AttestedExactly(sha, r', r);
    hide Attested, Backed;
  }

  /** What the service does to the evidence: a gate answers, or a repair is applied. */
  datatype Event = Answered(answer: Answer) | Repaired

  datatype Fault = Fine | FailBefore | FailAfter | CrashBefore | CrashAfter
  datatype Status = Running | Threw | Crashed

  /** A gate's answer: its evidence as bytes, with the digest the gate reports for it. */
  datatype Answer = Answer(gate: Gate, bytes: Bytes, digest: Digest)

  /** An applied repair drops the verification, but not its rounds; the reviews stay. */
  function Cleared(r: Receipt): Receipt {
    r.(verification := r.verification.(evidence := None))
  }

  class Store {
    const sha: Bytes -> Digest
    var files: Files
    var durable: Receipt
    var faults: seq<Fault>
    var status: Status

    constructor (sha: Bytes -> Digest)
      ensures Valid() && this.sha == sha && status == Running && faults == []
      ensures durable == Receipt(Record(0, None), Record(0, None), Record(0, None)) && files == map[]
    {
      this.sha := sha;
      files, faults, status := map[], [], Running;
      durable := Receipt(Record(0, None), Record(0, None), Record(0, None));
    }

    /** At every moment the durable receipt passes the attestation that a resume begins with. */
    ghost predicate Valid()
      reads this
    {
      WellNamed(sha, files) && Attested(sha, files, durable)
    }

    method Take() returns (takesEffect: bool)
      modifies `faults, `status
      ensures faults == if old(faults) == [] then [] else old(faults)[1..]
      ensures match if old(faults) == [] then Fine else old(faults)[0]
              case Fine => takesEffect && status == old(status)
              case FailBefore => !takesEffect && status == Threw
              case FailAfter => takesEffect && status == Threw
              case CrashBefore => !takesEffect && status == Crashed
              case CrashAfter => takesEffect && status == Crashed
    {
      var fault := if faults == [] then Fine else faults[0];
      faults := if faults == [] then [] else faults[1..];
      takesEffect := !fault.FailBefore? && !fault.CrashBefore?;
      if fault.CrashBefore? || fault.CrashAfter? {
        status := Crashed;
      } else if fault.FailBefore? || fault.FailAfter? {
        status := Threw;
      }
    }

    /** persistExecutorEvidence: install once; the same name may only hold the same bytes. */
    method Install(gate: Gate, round: nat, bytes: Bytes, expected: Digest)
      requires Valid() && status.Running?
      modifies `files, `faults, `status
      ensures Valid() && Kept(old(files), files)
      ensures forall name :: name in files && name !in old(files) ==> name == FileName(gate, round, expected)
      ensures status.Running? ==>
                var name := FileName(gate, round, expected);
                name in files && files[name] == bytes && sha(bytes) == expected
      ensures old(faults) == [] && CollisionFree(sha) ==>
                && status == (if |bytes| <= 524288 && sha(bytes) == expected then Running else Threw)
                && faults == []
    {
      if |bytes| > MAX_EVIDENCE_BYTES || sha(bytes) != expected {
        status := Threw;
        return;
      }
      var name := FileName(gate, round, expected);
      if name in files {
        if files[name] != bytes {
          status := Threw;
        }
        return;
      }
      var done := Take();
      if done {
        ghost var before := files;
        files := files[name := bytes];
        MoreFilesStillAttest(sha, before, files, durable);
      }
    }

    /** One gate in the service: install its evidence, then write the receipt that names it. */
    method RecordGate(answer: Answer)
      requires Valid() && status.Running?
      modifies `files, `durable, `faults, `status
      ensures Valid() && Kept(old(files), files)
      ensures durable == old(durable) ||
              durable == With(old(durable), answer.gate,
                              Record(Of(old(durable), answer.gate).rounds + 1, Some(answer.digest)))
      ensures status.Running? ==>
                match answer.gate
                case Verification =>
                  durable == old(durable).(verification := Record(old(durable).verification.rounds + 1,
                                                                  Some(answer.digest)))
                case Terra => durable == old(durable).(terra :=
                                                       Record(old(durable).terra.rounds + 1, Some(answer.digest)))
                case Sol => durable == old(durable).(sol := Record(old(durable).sol.rounds + 1, Some(answer.digest)))
      ensures old(faults) == [] && CollisionFree(sha) ==>
                (status.Running? <==> |answer.bytes| <= MAX_EVIDENCE_BYTES && sha(answer.bytes) == answer.digest)
    {
      var round := Of(durable, answer.gate).rounds + 1;
      Install(answer.gate, round, answer.bytes, answer.digest);
      if !status.Running? {
        return;
      }
      var next := With(durable, answer.gate, Record(round, Some(answer.digest)));
      NextIsAttested(sha, files, durable, answer.gate, round, answer.digest);
      var done := Take();
      if done {
        durable := next;
      }
    }

    /** The APPLIED write of a repair: the receipt no longer names the verification evidence. */
    method Clear()
      requires Valid() && status.Running?
      modifies `durable, `faults, `status
      ensures Valid() && (durable == old(durable) || durable == Cleared(old(durable)))
      ensures status.Running? ==>
                && durable.verification == Record(old(durable).verification.rounds, None)
                && durable.terra == old(durable).terra && durable.sol == old(durable).sol
      ensures old(faults) == [] ==> status.Running?
    {
      var done := Take();
      if done {
        durable := Cleared(durable);
      }
    }

    /** attestPersistedExecutorGateEvidence. */
    method Attest() returns (ok: bool)
      ensures ok == Attested(sha, files, durable)
      ensures ok <==> Intact(sha, files, Verification, durable.verification) && Intact(sha, files, Terra, durable.terra)
                      && Intact(sha, files, Sol, durable.sol)
    {
      AttestedExactly(sha, files, durable);
      var verification := Backed(sha, files, durable, Verification);
      var terra, sol := Backed(sha, files, durable, Terra), Backed(sha, files, durable, Sol);
      ok := verification && terra && sol;
    }

    /** Any number of gates, repairs and processes: whatever fails or crashes, the next resume attests. */
    method Run(events: seq<Event>, schedules: seq<seq<Fault>>) returns (resumes: bool)
      requires Valid() && |events| == |schedules|
      modifies this
      ensures Valid() && resumes && Kept(old(files), files)
    {
      for k := 0 to |events|
        invariant Valid() && Kept(old(files), files)
      {
        status, faults := Running, schedules[k];
        match events[k] {
          case Answered(answer) => RecordGate(answer);
          case Repaired => Clear();
        }
      }
      resumes := Attest();
    }
  }

  lemma NextIsAttested(sha: Bytes -> Digest, files: Files, r: Receipt, gate: Gate, round: nat, digest: Digest)
    requires WellNamed(sha, files) && Attested(sha, files, r) && FileName(gate, round, digest) in files
    ensures Attested(sha, files, With(r, gate, Record(round, Some(digest))))
  {
  }
}
