/**
  Anchoring one memory snapshot (`uploadToDsn`): read the previous CID from
  the ledger, sign `{data, previousCid, timestamp}`, upload the record with
  retries, hash the returned CID, take the next nonce and submit the hash
  with retries.

  Storage, ledger, signing and hashing are foreign calls and appear as the
  parameters gathered in `Services`. `Anchor` is the whole operation as a
  function of those parameters and the nonce counter; `MemoryUploader` holds
  the module-level counter `currentNonce` and runs the steps in order.
*/
module DsnUpload {
  import opened Wrappers
  import opened JsonValue
  import opened Retry

  /** What `signMessage` is given. */
  datatype SigningPayload = SigningPayload(data: map<string, Json>, previousCid: string, timestamp: string)

  /** The options passed to `uploadFile`. */
  datatype UploadOptions = UploadOptions(compression: bool, password: Option<string>)

  /** The file handed to `uploadFile`: the record (serialised by `JSON.stringify`), its name and MIME type. */
  datatype MemoryFile = MemoryFile(record: map<string, Json>, name: string, mimeType: string)

  datatype UploadRequest = UploadRequest(file: MemoryFile, options: UploadOptions)

  /** The arguments of `setLastMemoryHash`. */
  datatype Submission = Submission(hash: string, nonce: int)

  /** What `uploadToDsn` resolves with. `previousCid` is `None` for `null`. */
  datatype AnchorResult = AnchorResult(success: bool, cid: string, previousCid: Option<string>)

  /** The module's configuration: the agent's Twitter username and `DSN_ENCRYPTION_PASSWORD`. */
  datatype DsnConfig = DsnConfig(username: string, encryptionPassword: Option<string>)

  /**
    The foreign calls one `uploadToDsn` makes:
    `lastMemoryCid` is what `getLastMemoryCid()` resolves with (`None` for
    `undefined`) or the error it throws; `sign` is `signMessage`; `upload(q, k)`
    and `submit(s, k)` are the k-th attempts of `uploadFile` and
    `setLastMemoryHash` (a transaction hash when they resolve); `cidHash` is
    `hexlify(blake3HashFromCid(stringToCid(cid)))`, which throws on a malformed
    CID; `now` is `new Date().toISOString()`.
  */
  datatype Services = Services(
    lastMemoryCid: Result<Option<string>, Failure>,
    sign: SigningPayload -> Result<string, Failure>,
    upload: (UploadRequest, nat) -> Outcome<string>,
    cidHash: string -> Result<string, Failure>,
    submit: (Submission, nat) -> Outcome<string>,
    now: string)

  /** What the operation handed to each foreign call, and how many attempts the two retried ones took. */
  datatype Trace = Trace(
    signed: Option<SigningPayload>,
    uploaded: Option<UploadRequest>,
    uploadAttempts: nat,
    submitted: Option<Submission>,
    submitAttempts: nat)

  /** The outcome of one anchoring and the value of the nonce counter after it. */
  datatype Anchoring = Anchoring(result: Result<AnchorResult, Failure>, trace: Trace, nextNonce: int)

  const NoTrace := Trace(None, None, 0, None, 0)

  /** The record fields the operation writes over the caller's data. */
  const ReservedKeys: set<string> := {"previousCid", "signature", "timestamp"}

  /** `getPreviousCid`: the ledger's last CID, `''` when it is undefined or empty; a failed read propagates. */
  function GetPreviousCid(lastMemoryCid: Result<Option<string>, Failure>): (r: Result<string, Failure>)
    ensures r.Err? <==> lastMemoryCid.Err?
    ensures r.Err? ==> r.error == lastMemoryCid.error
    ensures r == Ok("") <==> lastMemoryCid == Ok(None) || lastMemoryCid == Ok(Some(""))
    ensures r.Ok? && r.value != "" ==> lastMemoryCid == Ok(Some(r.value))
  {
    match lastMemoryCid
    case Err(e) => Err(e)
    case Ok(None) => Ok("")
    case Ok(Some(cid)) => Ok(cid)
  }

  /** `previousCid || null`. */
  function NullIfEmpty(cid: string): (r: Option<string>)
    ensures r.None? <==> cid == ""
    ensures r.Some? ==> r.value == cid
  {
    if cid == "" then None else Some(cid)
  }

  /**
    `{...data, previousCid, signature, timestamp}`: the caller's fields, with
    the three anchoring fields added and overriding any of the same name.
  */
  function DsnRecord(data: map<string, Json>, previousCid: string, signature: string, timestamp: string)
    : (record: map<string, Json>)
    ensures record.Keys == data.Keys + ReservedKeys
    ensures record["previousCid"] == JStr(previousCid)
    ensures record["signature"] == JStr(signature)
    ensures record["timestamp"] == JStr(timestamp)
    ensures forall k :: k in data && k !in ReservedKeys ==> record[k] == data[k]
  {
    data + map["previousCid" := JStr(previousCid), "signature" := JStr(signature), "timestamp" := JStr(timestamp)]
  }

  /** What a verifier reads back from a stored record: the signed payload and the signature, when present as strings. */
  function RecoverSigned(record: map<string, Json>): Option<(SigningPayload, string)> {
    if && "previousCid" in record && record["previousCid"].JStr?
       && "signature" in record && record["signature"].JStr?
       && "timestamp" in record && record["timestamp"].JStr?
    then Some((SigningPayload(record - ReservedKeys, record["previousCid"].s, record["timestamp"].s),
               record["signature"].s))
    else None
  }

  /**
    A stored record gives back exactly the message that was signed and its
    signature, provided the caller's data used none of the three anchoring
    field names (otherwise those fields of the data are lost from the record).
  */
  lemma RecordRecoversSignedPayload(data: map<string, Json>, previousCid: string, signature: string, timestamp: string)
    requires data.Keys !! ReservedKeys
    ensures RecoverSigned(DsnRecord(data, previousCid, signature, timestamp))
            == Some((SigningPayload(data, previousCid, timestamp), signature))
  {
    var record := DsnRecord(data, previousCid, signature, timestamp);
    assert record - ReservedKeys == data;
  }

  /** The memory file's name: `<username>-agent-memory-<timestamp>.json`. */
  function MemoryFileName(username: string, timestamp: string): (name: string)
    ensures |name| == |username| + 14 + |timestamp| + 5
    ensures username + "-agent-memory-" <= name
    ensures name[|name| - 5..] == ".json"
    ensures name[|username| + 14..|name| - 5] == timestamp
  {
    username + "-agent-memory-" + timestamp + ".json"
  }

  /** `{compression: true, password: DSN_ENCRYPTION_PASSWORD || undefined}`. */
  function UploadOptionsFor(config: DsnConfig): (o: UploadOptions)
    ensures o.compression
    ensures o.password.None? <==> config.encryptionPassword.None? || config.encryptionPassword == Some("")
    ensures o.password.Some? ==> o.password == config.encryptionPassword
  {
    UploadOptions(true, if config.encryptionPassword == Some("") then None else config.encryptionPassword)
  }

  /** The file and options uploaded for a signed payload: the overlaid record, its name and the options. */
  function UploadRequestFor(config: DsnConfig, payload: SigningPayload, signature: string): (q: UploadRequest)
    ensures q.file.record == DsnRecord(payload.data, payload.previousCid, signature, payload.timestamp)
    ensures q.file.name == MemoryFileName(config.username, payload.timestamp)
    ensures q.file.mimeType == "application/json"
    ensures q.options == UploadOptionsFor(config)
  {
    UploadRequest(MemoryFile(DsnRecord(payload.data, payload.previousCid, signature, payload.timestamp),
                             MemoryFileName(config.username, payload.timestamp), "application/json"),
                  UploadOptionsFor(config))
  }

  /** The message signed once the ledger read has succeeded. */
  function PayloadFor(s: Services, data: map<string, Json>): (p: SigningPayload)
    requires s.lastMemoryCid.Ok?
    ensures p.data == data && p.timestamp == s.now
    ensures p.previousCid == GetPreviousCid(s.lastMemoryCid).value
  {
    SigningPayload(data, GetPreviousCid(s.lastMemoryCid).value, s.now)
  }

  /**
    The submission step: `submitMemoryHash(hash, currentNonce++)` after
    `uploaded`, then the result `{success: true, cid, previousCid || null}`.
    The counter has moved whether or not the submission succeeds.
  */
  function SubmitStep(s: Services, uploaded: Trace, cid: string, previousCid: string, hash: string, nonce: int)
    : (a: Anchoring)
    ensures a.nextNonce == nonce + 1
    ensures a.trace == uploaded.(submitted := Some(Submission(hash, nonce)),
                                 submitAttempts := Retried(s.submit, Submission(hash, nonce), DefaultMaxRetries).attempts)
    ensures a.trace.submitAttempts <= 6
    ensures var sub := Retried(s.submit, Submission(hash, nonce), DefaultMaxRetries);
            && (sub.result.Err? ==> a.result == Err(sub.result.error))
            && (sub.result.Ok? ==> a.result == Ok(AnchorResult(true, cid, NullIfEmpty(previousCid))))
  {
    var submission := Submission(hash, nonce);
    var sub := Retried(s.submit, submission, DefaultMaxRetries);
    DefaultBudget(s.submit, submission);
    var submitted := uploaded.(submitted := Some(submission), submitAttempts := sub.attempts);
    match sub.result
    case Err(e) => Anchoring(Err(e), submitted, nonce + 1)
    case Ok(_) => Anchoring(Ok(AnchorResult(true, cid, NullIfEmpty(previousCid))), submitted, nonce + 1)
  }

  /**
    The steps after signing: upload the record with retries, hash the CID,
    submit the hash. An upload or hashing error is rethrown, before the
    counter is touched.
  */
  function UploadStep(config: DsnConfig, s: Services, payload: SigningPayload, signature: string, nonce: int)
    : (a: Anchoring)
    ensures var request := UploadRequestFor(config, payload, signature);
            var up := Retried(s.upload, request, DefaultMaxRetries);
            && a.trace.signed == Some(payload)
            && a.trace.uploaded == Some(request)
            && a.trace.uploadAttempts == up.attempts
            && 1 <= a.trace.uploadAttempts <= 6
            && a.trace.submitAttempts <= 6
            && (a.trace.submitted.None? ==> a.nextNonce == nonce && a.result.Err? && a.trace.submitAttempts == 0)
            && match up.result
               case Err(e) => a.result == Err(e) && a.trace.submitted.None?
               case Ok(cid) =>
                 match s.cidHash(cid)
                 case Err(e) => a.result == Err(e) && a.trace.submitted.None?
                 case Ok(hash) => a == SubmitStep(s, a.trace.(submitted := None, submitAttempts := 0),
                                                  cid, payload.previousCid, hash, nonce)
  {
    var request := UploadRequestFor(config, payload, signature);
    var up := Retried(s.upload, request, DefaultMaxRetries);
    DefaultBudget(s.upload, request);
    var uploaded := Trace(Some(payload), Some(request), up.attempts, None, 0);
    match up.result
    case Err(e) => Anchoring(Err(e), uploaded, nonce)
    case Ok(cid) =>
      match s.cidHash(cid)
      case Err(e) => Anchoring(Err(e), uploaded, nonce)
      case Ok(hash) => SubmitStep(s, uploaded, cid, payload.previousCid, hash, nonce)
  }

  /**
    `uploadToDsn({data})` with the counter at `nonce`: the result, what each
    foreign call was given, and the counter afterwards. The steps run in
    order and the first error is rethrown as it is: the ledger read, then
    signing, then the upload (retried), then hashing the CID, then the
    submission (retried). The counter moves by one exactly when a hash is
    submitted, whether or not the submission then succeeds, and the
    submission carries the counter's old value. When every step succeeds the
    call reports the uploaded CID and the previous CID, `null` for `''`.
  */
  function Anchor(config: DsnConfig, s: Services, data: map<string, Json>, nonce: int): (a: Anchoring)
    ensures a.trace.submitted.Some? <==> a.nextNonce == nonce + 1
    ensures a.trace.submitted.None? <==> a.nextNonce == nonce
    ensures a.trace.submitted.Some? ==> a.trace.submitted.value.nonce == nonce
    ensures a.trace.uploadAttempts <= 6 && a.trace.submitAttempts <= 6
    ensures a.trace.uploaded.Some? ==> a.trace.signed.Some? && a.trace.uploadAttempts >= 1
    ensures a.trace.submitted.Some? ==> a.trace.uploaded.Some?
    ensures a.trace.submitted.None? ==> a.result.Err? && a.trace.submitAttempts == 0
    ensures a.trace.uploaded.Some? &&
            (forall k :: 0 <= k < 6 ==> s.upload(a.trace.uploaded.value, k).Rejected?) ==>
              a.result.Err? && a.trace.submitted.None? && a.nextNonce == nonce && a.trace.uploadAttempts == 6
    // the ledger read, then signing
    ensures s.lastMemoryCid.Err? ==> a.result == Err(s.lastMemoryCid.error) && a.trace == NoTrace
    ensures s.lastMemoryCid.Ok? ==>
              match s.sign(PayloadFor(s, data))
              case Err(e) => a == Anchoring(Err(e), NoTrace.(signed := Some(PayloadFor(s, data))), nonce)
              case Ok(signature) => a == UploadStep(config, s, PayloadFor(s, data), signature, nonce)
    ensures a.result.Ok? ==>
              var prev := GetPreviousCid(s.lastMemoryCid).value;
              && a.trace.signed == Some(SigningPayload(data, prev, s.now))
              && a.result.value.success
              && a.result.value.previousCid == NullIfEmpty(prev)
              && s.upload(a.trace.uploaded.value, a.trace.uploadAttempts - 1) == Resolved(a.result.value.cid)
              && s.cidHash(a.result.value.cid) == Ok(a.trace.submitted.value.hash)
  {
    match GetPreviousCid(s.lastMemoryCid)
    case Err(e) => Anchoring(Err(e), NoTrace, nonce)
    case Ok(previousCid) =>
      var payload := SigningPayload(data, previousCid, s.now);
      match s.sign(payload)
      case Err(e) => Anchoring(Err(e), NoTrace.(signed := Some(payload)), nonce)
      case Ok(signature) => UploadStep(config, s, payload, signature, nonce)
  }

  /** A failed signature is rethrown; nothing is uploaded or submitted and the counter stays. */
  lemma SignFailureFailsCall(config: DsnConfig, s: Services, data: map<string, Json>, nonce: int, e: Failure)
    requires s.lastMemoryCid.Ok?
    requires s.sign(PayloadFor(s, data)) == Err(e)
    ensures Anchor(config, s, data, nonce) == Anchoring(Err(e), NoTrace.(signed := Some(PayloadFor(s, data))), nonce)
  {
  }

  /**
    An upload rejected on all six attempts fails the call with the sixth
    attempt's error; no hash is submitted and the counter stays.
  */
  lemma UploadFailureFailsCall(config: DsnConfig, s: Services, data: map<string, Json>, nonce: int, signature: string)
    requires s.lastMemoryCid.Ok?
    requires s.sign(PayloadFor(s, data)) == Ok(signature)
    requires forall k :: 0 <= k < 6 ==> s.upload(UploadRequestFor(config, PayloadFor(s, data), signature), k).Rejected?
    ensures var a := Anchor(config, s, data, nonce);
            && a.result == Err(s.upload(UploadRequestFor(config, PayloadFor(s, data), signature), 5).error)
            && a.trace.uploadAttempts == 6
            && a.trace.submitted.None?
            && a.nextNonce == nonce
  {
    var request := UploadRequestFor(config, PayloadFor(s, data), signature);
    DefaultBudget(s.upload, request);
  }

  /** A CID that cannot be hashed fails the call with that error; nothing is submitted and the counter stays. */
  lemma HashFailureFailsCall(config: DsnConfig, s: Services, data: map<string, Json>, nonce: int,
                             signature: string, cid: string, e: Failure)
    requires s.lastMemoryCid.Ok?
    requires s.sign(PayloadFor(s, data)) == Ok(signature)
    requires Retried(s.upload, UploadRequestFor(config, PayloadFor(s, data), signature), DefaultMaxRetries).result == Ok(cid)
    requires s.cidHash(cid) == Err(e)
    ensures var a := Anchor(config, s, data, nonce);
            a.result == Err(e) && a.trace.submitted.None? && a.nextNonce == nonce
  {
  }

  /**
    A hash submission rejected on all six attempts fails the call with the
    sixth attempt's error, but the counter has already moved past the nonce.
  */
  lemma SubmitFailureFailsCall(config: DsnConfig, s: Services, data: map<string, Json>, nonce: int,
                               signature: string, cid: string, hash: string)
    requires s.lastMemoryCid.Ok?
    requires s.sign(PayloadFor(s, data)) == Ok(signature)
    requires Retried(s.upload, UploadRequestFor(config, PayloadFor(s, data), signature), DefaultMaxRetries).result == Ok(cid)
    requires s.cidHash(cid) == Ok(hash)
    requires forall k :: 0 <= k < 6 ==> s.submit(Submission(hash, nonce), k).Rejected?
    ensures var a := Anchor(config, s, data, nonce);
            && a.result == Err(s.submit(Submission(hash, nonce), 5).error)
            && a.trace.submitted == Some(Submission(hash, nonce))
            && a.trace.submitAttempts == 6
            && a.nextNonce == nonce + 1
  {
    DefaultBudget(s.submit, Submission(hash, nonce));
  }

  /**
    When every step succeeds the call resolves with `{success: true, cid,
    previousCid || null}` and the counter has advanced by one.
  */
  lemma AllStepsSucceed(config: DsnConfig, s: Services, data: map<string, Json>, nonce: int,
                        signature: string, cid: string, hash: string)
    requires s.lastMemoryCid.Ok?
    requires s.sign(PayloadFor(s, data)) == Ok(signature)
    requires Retried(s.upload, UploadRequestFor(config, PayloadFor(s, data), signature), DefaultMaxRetries).result == Ok(cid)
    requires s.cidHash(cid) == Ok(hash)
    requires Retried(s.submit, Submission(hash, nonce), DefaultMaxRetries).result.Ok?
    ensures var a := Anchor(config, s, data, nonce);
            && a.result == Ok(AnchorResult(true, cid, NullIfEmpty(GetPreviousCid(s.lastMemoryCid).value)))
            && a.trace.submitted == Some(Submission(hash, nonce))
            && a.nextNonce == nonce + 1
  {
  }

  /**
    Two successful calls in a row starting from an empty ledger: the first
    signs `''` as its predecessor and reports `null`; once the ledger
    returns the first CID, the second signs it, reports it and submits with
    the next nonce.
  */
  lemma TwoCallChain(config: DsnConfig, s1: Services, d1: map<string, Json>, s2: Services, d2: map<string, Json>,
                     nonce: int, sig1: string, cid1: string, hash1: string, sig2: string, cid2: string, hash2: string)
    requires s1.lastMemoryCid == Ok(None)
    requires s1.sign(PayloadFor(s1, d1)) == Ok(sig1)
    requires Retried(s1.upload, UploadRequestFor(config, PayloadFor(s1, d1), sig1), DefaultMaxRetries).result == Ok(cid1)
    requires s1.cidHash(cid1) == Ok(hash1)
    requires Retried(s1.submit, Submission(hash1, nonce), DefaultMaxRetries).result.Ok?
    requires cid1 != "" && s2.lastMemoryCid == Ok(Some(cid1))
    requires s2.sign(PayloadFor(s2, d2)) == Ok(sig2)
    requires Retried(s2.upload, UploadRequestFor(config, PayloadFor(s2, d2), sig2), DefaultMaxRetries).result == Ok(cid2)
    requires s2.cidHash(cid2) == Ok(hash2)
    requires Retried(s2.submit, Submission(hash2, nonce + 1), DefaultMaxRetries).result.Ok?
    ensures var a1 := Anchor(config, s1, d1, nonce);
            var a2 := Anchor(config, s2, d2, a1.nextNonce);
            && a1.trace.signed == Some(SigningPayload(d1, "", s1.now))
            && a1.result == Ok(AnchorResult(true, cid1, None))
            && a1.trace.submitted == Some(Submission(hash1, nonce))
            && a2.trace.signed == Some(SigningPayload(d2, cid1, s2.now))
            && a2.result == Ok(AnchorResult(true, cid2, Some(cid1)))
            && a2.trace.submitted == Some(Submission(hash2, nonce + 1))
            && a2.nextNonce == nonce + 2
  {
    AllStepsSucceed(config, s1, d1, nonce, sig1, cid1, hash1);
    AllStepsSucceed(config, s2, d2, nonce + 1, sig2, cid2, hash2);
  }

  /** One call of `uploadToDsn` in a sequence of calls. */
  datatype Call = Call(services: Services, data: map<string, Json>)

  /** Successive calls, each starting from the counter the previous one left. */
  function AnchorAll(config: DsnConfig, calls: seq<Call>, nonce: int): (rs: seq<Anchoring>)
    ensures |rs| == |calls|
    ensures forall i :: 0 <= i < |calls| ==>
              rs[i] == Anchor(config, calls[i].services, calls[i].data, if i == 0 then nonce else rs[i - 1].nextNonce)
    decreases |calls|
  {
    if calls == [] then []
    else
      var a := Anchor(config, calls[0].services, calls[0].data, nonce);
      var tail := AnchorAll(config, calls[1..], a.nextNonce);
      assert forall i :: 1 <= i < |calls| ==> calls[i] == calls[1..][i - 1];
      [a] + tail
  }

  /** How many of the anchorings submitted a hash. */
  function SubmittedCount(rs: seq<Anchoring>): (n: nat)
    ensures n <= |rs|
    decreases |rs|
  {
    if rs == [] then 0
    else (if rs[0].trace.submitted.Some? then 1 else 0) + SubmittedCount(rs[1..])
  }

  /** The counter after a sequence of calls: the one the last call left, or the start when there are none. */
  function FinalNonce(config: DsnConfig, calls: seq<Call>, nonce: int): int {
    var rs := AnchorAll(config, calls, nonce);
    if rs == [] then nonce else rs[|rs| - 1].nextNonce
  }

  lemma SubmittedCountAppend(xs: seq<Anchoring>, ys: seq<Anchoring>)
    ensures SubmittedCount(xs + ys) == SubmittedCount(xs) + SubmittedCount(ys)
    decreases |xs|
  {
    if xs != [] {
      assert (xs + ys)[0] == xs[0];
      assert (xs + ys)[1..] == xs[1..] + ys;
      SubmittedCountAppend(xs[1..], ys);
    } else {
      assert xs + ys == ys;
    }
  }

  /** Over a sequence of calls, the counter advances once per submission, failed ones included. */
  lemma {:induction false} FinalNonceCount(config: DsnConfig, calls: seq<Call>, nonce: int)
    ensures FinalNonce(config, calls, nonce) == nonce + SubmittedCount(AnchorAll(config, calls, nonce))
    decreases |calls|
  {
    if calls != [] {
      var rs := AnchorAll(config, calls, nonce);
      var a := rs[0];
      var tail := AnchorAll(config, calls[1..], a.nextNonce);
      assert rs == [a] + tail;
      assert rs[1..] == tail;
      FinalNonceCount(config, calls[1..], a.nextNonce);
      if tail != [] {
        assert rs[|rs| - 1] == tail[|tail| - 1];
      }
    }
  }

  /**
    Over a sequence of calls, the counter advances once per submission, and
    the i-th call's submission uses the starting nonce plus the number of
    earlier submissions, whether or not those succeeded.
  */
  lemma {:induction false} NonceSequence(config: DsnConfig, calls: seq<Call>, nonce: int, i: nat)
    requires i < |calls|
    ensures FinalNonce(config, calls, nonce) == nonce + SubmittedCount(AnchorAll(config, calls, nonce))
    ensures AnchorAll(config, calls, nonce)[i].trace.submitted.Some? ==>
              AnchorAll(config, calls, nonce)[i].trace.submitted.value.nonce
              == nonce + SubmittedCount(AnchorAll(config, calls, nonce)[..i])
    decreases |calls|
  {
    FinalNonceCount(config, calls, nonce);
    var rs := AnchorAll(config, calls, nonce);
    var a := rs[0];
    var tail := AnchorAll(config, calls[1..], a.nextNonce);
    assert rs == [a] + tail;
    assert rs[1..] == tail;
    if i > 0 {
      NonceSequence(config, calls[1..], a.nextNonce, i - 1);
      assert rs[..i] == [a] + tail[..i - 1];
      assert rs[..i][1..] == tail[..i - 1];
    }
  }

  /**
    The per-call facts carry over to a sequence: call i of the sequence is the
    anchoring of its own services and data, and when it reaches submission it
    uses the counter the previous call left.
  */
  lemma SequenceCallIsAnchor(config: DsnConfig, calls: seq<Call>, nonce: int, i: nat)
    requires 0 < i < |calls|
    ensures var rs := AnchorAll(config, calls, nonce);
            && rs[i] == Anchor(config, calls[i].services, calls[i].data, rs[i - 1].nextNonce)
            && (rs[i].trace.submitted.Some? ==> rs[i].trace.submitted.value.nonce == rs[i - 1].nextNonce)
  {
  }

  /** No two submissions in a sequence of calls use the same nonce: later ones use strictly larger nonces. */
  lemma {:induction false} NoncesStrictlyIncrease(config: DsnConfig, calls: seq<Call>, nonce: int, i: nat, j: nat)
    requires i < j < |calls|
    requires AnchorAll(config, calls, nonce)[i].trace.submitted.Some?
    requires AnchorAll(config, calls, nonce)[j].trace.submitted.Some?
    ensures AnchorAll(config, calls, nonce)[i].trace.submitted.value.nonce
            < AnchorAll(config, calls, nonce)[j].trace.submitted.value.nonce
  {
    NonceSequence(config, calls, nonce, i);
    NonceSequence(config, calls, nonce, j);
    SubmittedCountGrows(AnchorAll(config, calls, nonce), i, j);
  }

  /** A submission at position i counts towards every prefix that reaches past it. */
  lemma SubmittedCountGrows(rs: seq<Anchoring>, i: nat, j: nat)
    requires i < j <= |rs|
    requires rs[i].trace.submitted.Some?
    ensures SubmittedCount(rs[..i]) < SubmittedCount(rs[..j])
  {
    assert rs[..j] == rs[..i] + rs[i..j];
    SubmittedCountAppend(rs[..i], rs[i..j]);
    assert rs[i..j] == [rs[i]] + rs[i..j][1..];
  }

  /**
    Two calls in a row: the second starts from the counter the first left,
    so when both reach submission the second uses the next nonce; and when
    the ledger reports the first call's CID, the second signs and stores it
    as its predecessor.
  */
  lemma ConsecutiveAnchors(config: DsnConfig, s1: Services, d1: map<string, Json>,
                           s2: Services, d2: map<string, Json>, nonce: int)
    requires Anchor(config, s1, d1, nonce).result.Ok?
    requires s2.lastMemoryCid == Ok(Some(Anchor(config, s1, d1, nonce).result.value.cid))
    ensures var a1 := Anchor(config, s1, d1, nonce);
            var a2 := Anchor(config, s2, d2, a1.nextNonce);
            && (a2.trace.submitted.Some? ==> a2.trace.submitted.value.nonce == a1.trace.submitted.value.nonce + 1)
            && (a2.trace.signed.Some? ==> a2.trace.signed.value.previousCid == a1.result.value.cid)
            && (a2.result.Ok? && a1.result.value.cid != "" ==> a2.result.value.previousCid == Some(a1.result.value.cid))
  {
  }

  /** A snapshot signed over `previousCid` is stored with that same `previousCid`, and the result reports it. */
  lemma StoredRecordLinksPredecessor(config: DsnConfig, s: Services, data: map<string, Json>, nonce: int)
    requires Anchor(config, s, data, nonce).trace.uploaded.Some?
    ensures var a := Anchor(config, s, data, nonce);
            var prev := GetPreviousCid(s.lastMemoryCid);
            && prev.Ok?
            && a.trace.signed == Some(SigningPayload(data, prev.value, s.now))
            && s.sign(a.trace.signed.value).Ok?
            && a.trace.uploaded.value.file.record
               == DsnRecord(data, prev.value, s.sign(a.trace.signed.value).value, s.now)
            && a.trace.uploaded.value.file.name == MemoryFileName(config.username, s.now)
            && (a.result.Ok? ==> a.result.value.previousCid == NullIfEmpty(prev.value))
  {
  }

  /** The owner of the module-level nonce counter. */
  class MemoryUploader {
    const config: DsnConfig
    /** `currentNonce`, seeded from `wallet.getNonce()` when the module loads. */
    var currentNonce: int

    constructor (config: DsnConfig, walletNonce: int)
      ensures this.config == config && currentNonce == walletNonce
    {
      this.config := config;
      currentNonce := walletNonce;
    }

    /** `currentNonce++`: the nonce to use, and the counter one past it. */
    method ReserveNonce() returns (nonce: int)
      modifies this
      ensures nonce == old(currentNonce) && currentNonce == old(currentNonce) + 1
    {
      nonce := currentNonce;
      currentNonce := currentNonce + 1;
    }

    /** `uploadToDsn({data})`, step by step. */
    method UploadToDsn(s: Services, uploadJitter: nat -> Jitter, submitJitter: nat -> Jitter, data: map<string, Json>)
      returns (r: Result<AnchorResult, Failure>, trace: Trace)
      modifies this
      ensures Anchoring(r, trace, currentNonce) == Anchor(config, s, data, old(currentNonce))
    {
      var previous := GetPreviousCid(s.lastMemoryCid);
      if previous.Err? {
        return Err(previous.error), NoTrace;
      }
      var previousCid := previous.value;
      var payload := SigningPayload(data, previousCid, s.now);
      var signature := s.sign(payload);
      if signature.Err? {
        return Err(signature.error), NoTrace.(signed := Some(payload));
      }
      var request := UploadRequestFor(config, payload, signature.value);
      var uploadedCid, uploadAttempts, _ := UploadFileToDsn(s.upload, request, uploadJitter);
      trace := Trace(Some(payload), Some(request), uploadAttempts, None, 0);
      if uploadedCid.Err? {
        return Err(uploadedCid.error), trace;
      }
      var hash := s.cidHash(uploadedCid.value);
      if hash.Err? {
        return Err(hash.error), trace;
      }
      var nonce := ReserveNonce();
      var submission := Submission(hash.value, nonce);
      var tx, submitAttempts, _ := SubmitMemoryHash(s.submit, submission, submitJitter);
      trace := trace.(submitted := Some(submission), submitAttempts := submitAttempts);
      if tx.Err? {
        return Err(tx.error), trace;
      }
      r := Ok(AnchorResult(true, uploadedCid.value, NullIfEmpty(previousCid)));
    }
  }

  /** `uploadFileToDsn`: the upload retried with the default policy. */
  method UploadFileToDsn(upload: (UploadRequest, nat) -> Outcome<string>, request: UploadRequest, jitter: nat -> Jitter)
    returns (cid: Result<string, Failure>, attempts: nat, waits: seq<real>)
    ensures RetryRun(cid, attempts) == Retried(upload, request, DefaultMaxRetries)
    ensures attempts <= 6
    ensures waits == Waits(DefaultInitialDelayMs, jitter, attempts - 1)
  {
    cid, attempts, waits := WithRetry(upload, request, jitter, DefaultMaxRetries, DefaultInitialDelayMs);
  }

  /** `submitMemoryHash`: the hash submission retried with the default policy, every attempt with the same nonce. */
  method SubmitMemoryHash(submit: (Submission, nat) -> Outcome<string>, submission: Submission, jitter: nat -> Jitter)
    returns (tx: Result<string, Failure>, attempts: nat, waits: seq<real>)
    ensures RetryRun(tx, attempts) == Retried(submit, submission, DefaultMaxRetries)
    ensures attempts <= 6
    ensures waits == Waits(DefaultInitialDelayMs, jitter, attempts - 1)
  {
    tx, attempts, waits := WithRetry(submit, submission, jitter, DefaultMaxRetries, DefaultInitialDelayMs);
  }
}
