/** Properties of the builder that relate several calls: routing-order
    defaults over a run of add_signer calls, what an import keeps of the listed
    signers, and how prefill data travels from add_file_payloads to the
    created payload. */
module EtchPacketProperties {
  import opened Wrappers
  import opened EtchPayload
  import opened EtchPacket

  // ---------------------------------------------------------------------------
  // Runs of add_signer

  /** Signers added without a routing order after signers ordered 1..n get
      n+1, n+2, ... in call order. */
  lemma {:induction false} DefaultOrdersContinue(existing: seq<Signer>, listed: seq<Signer>, ids: nat -> string, k: nat)
    requires forall j :: 0 <= j < |existing| ==> existing[j].routingOrder == Some(j + 1)
    requires forall j :: 0 <= j < |listed| ==>
      ValidSignerType(listed[j].signerType) && !IntTruthy(listed[j].routingOrder)
    ensures AddSigners(existing, listed, ids, k).Success?
    ensures var r := AddSigners(existing, listed, ids, k).value;
      |r| == |existing| + |listed| && forall j :: 0 <= j < |r| ==> r[j].routingOrder == Some(j + 1)
    decreases |listed|
  {
    if listed != [] {
      if existing != [] {
        assert OrZero(existing[|existing| - 1].routingOrder) == |existing|;
      }
      var s := PrepareSigner(existing, listed[0], ids(k)).value;
      assert s.routingOrder == Some(|existing| + 1);
      var next := existing + [s];
      assert forall j :: 0 <= j < |listed| - 1 ==> listed[1..][j] == listed[j + 1];
      DefaultOrdersContinue(next, listed[1..], ids, k + 1);
    }
  }

  /** Signers without routing orders, added one by one to an empty builder,
      are ordered 1, 2, 3, ... */
  lemma {:induction false} DefaultOrdersFromEmpty(listed: seq<Signer>, ids: nat -> string)
    requires forall j :: 0 <= j < |listed| ==>
      ValidSignerType(listed[j].signerType) && !IntTruthy(listed[j].routingOrder)
    ensures AddSigners([], listed, ids, 0).Success?
    ensures var r := AddSigners([], listed, ids, 0).value;
      |r| == |listed| && forall j :: 0 <= j < |r| ==> r[j].routingOrder == Some(j + 1)
  {
    DefaultOrdersContinue([], listed, ids, 0);
  }

  /** A run of add_signer calls succeeds exactly when every signer type is
      valid; then it keeps the existing signers, appends one signer per listed
      one in list order, and each is settled against all signers before it:
      truthy ids and orders kept, missing ids given the generated id, missing
      orders set to one more than the largest earlier order. */
  lemma {:induction false} AddSignersShape(existing: seq<Signer>, listed: seq<Signer>, ids: nat -> string, k: nat)
    ensures AddSigners(existing, listed, ids, k).Success? <==>
      forall j :: 0 <= j < |listed| ==> ValidSignerType(listed[j].signerType)
    ensures AddSigners(existing, listed, ids, k).Success? ==>
      var r := AddSigners(existing, listed, ids, k).value;
      && |r| == |existing| + |listed|
      && r[..|existing|] == existing
      && forall j :: 0 <= j < |listed| ==>
           Settled(listed[j], r[|existing| + j], ids(k + j), r[..|existing| + j])
  {
    var result := AddSigners(existing, listed, ids, k);
    if result.Success? {
      forall j | 0 <= j < |listed| {
        SettledAt(existing, listed, ids, k, j, listed[j], |existing| + j, k + j);
      }
    }
  }

  /** The i-th listed signer of a successful run, given, placed at position p
      after the existing signers, is settled against every signer before it,
      the existing ones and the listed ones already added; q is the index of
      the id offered for it. */
  lemma {:induction false} SettledAt(existing: seq<Signer>, listed: seq<Signer>, ids: nat -> string, k: nat,
                                     i: nat, given: Signer, p: nat, q: nat)
    requires AddSigners(existing, listed, ids, k).Success? && i < |listed|
    requires given == listed[i] && p == |existing| + i && q == k + i
    ensures var r := AddSigners(existing, listed, ids, k).value;
      Settled(given, r[p], ids(q), r[..p])
    decreases i
  {
    var next := FirstAdded(existing, listed, ids, k);
    if i == 0 {
      FirstSettled(existing, next, given, ids, k, q, AddSigners(next, listed[1..], ids, k + 1).value, p);
    } else {
      TailIndex(listed, i);
      SettledAt(next, listed[1..], ids, k + 1, i - 1, given, p, q);
    }
  }

  /** Position i of a list is position i - 1 of its tail. */
  lemma TailIndex(s: seq<Signer>, i: nat)
    requires 0 < i < |s|
    ensures s[1..][i - 1] == s[i]
  {
  }

  /** A successful run that is not empty adds its first listed signer as
      PrepareSigner settles it, then runs on with the rest. */
  lemma FirstAdded(existing: seq<Signer>, listed: seq<Signer>, ids: nat -> string, k: nat) returns (next: seq<Signer>)
    requires listed != [] && AddSigners(existing, listed, ids, k).Success?
    ensures |next| == |existing| + 1 && next[..|existing|] == existing
    ensures Settled(listed[0], next[|existing|], ids(k), existing)
    ensures AddSigners(existing, listed, ids, k) == AddSigners(next, listed[1..], ids, k + 1)
    ensures AddSigners(next, listed[1..], ids, k + 1).value[..|next|] == next
  {
    next := existing + [PrepareSigner(existing, listed[0], ids(k)).value];
    assert next[..|existing|] == existing;
  }

  /** The first step of SettledAt: the signer a run places right after the
      existing ones, at position p, is the one PrepareSigner settled against
      them. */
  lemma FirstSettled(existing: seq<Signer>, next: seq<Signer>, given: Signer, ids: nat -> string, k: nat, q: nat,
                      r: seq<Signer>, p: nat)
    requires |next| == |existing| + 1 && next[..|existing|] == existing
    requires Settled(given, next[|existing|], ids(k), existing)
    requires |next| <= |r| && r[..|next|] == next && p == |existing| && q == k
    ensures Settled(given, r[p], ids(q), r[..p])
  {
    assert r[..p] == r[..|next|][..p];
    assert r[p] == r[..|next|][p];
  }

  /** A failed run of add_signer calls raises the ValueError of the first
      listed signer whose type is invalid. */
  lemma {:induction false} AddSignersReportsFirstBadType(existing: seq<Signer>, listed: seq<Signer>, ids: nat -> string, k: nat)
    requires AddSigners(existing, listed, ids, k).Failure?
    ensures exists j ::
      && 0 <= j < |listed|
      && (forall t :: 0 <= t < j ==> ValidSignerType(listed[t].signerType))
      && !ValidSignerType(listed[j].signerType)
      && AddSigners(existing, listed, ids, k).error == ValueError(BadSignerType(listed[j].signerType))
    decreases |listed|
  {
    var e := AddSigners(existing, listed, ids, k).error;
    if ValidSignerType(listed[0].signerType) {
      var s := PrepareSigner(existing, listed[0], ids(k)).value;
      AddSignersReportsFirstBadType(existing + [s], listed[1..], ids, k + 1);
      var j :|
        && 0 <= j < |listed[1..]|
        && (forall t :: 0 <= t < j ==> ValidSignerType(listed[1..][t].signerType))
        && !ValidSignerType(listed[1..][j].signerType)
        && e == ValueError(BadSignerType(listed[1..][j].signerType));
      assert forall t :: 1 <= t < j + 1 ==> listed[t] == listed[1..][t - 1];
      assert listed[j + 1] == listed[1..][j];
    } else {
      assert e == ValueError(BadSignerType(listed[0].signerType));
    }
  }

  // ---------------------------------------------------------------------------
  // Files and prefill data

  /** Adding a file and then prefill data for it keeps every prefill key the
      id of an added file, so a later create_payload passes its check. */
  lemma {:induction false} AddFileThenFillKeepsKeys(files: seq<AttachableFile>, filePayloads: map<string, Json>,
                                                     f: AttachableFile, guess: string -> Option<string>, data: Json)
    requires FillKeysAdded(files, filePayloads)
    ensures f.Id() in FileIds(files + [PrepareFile(f, guess)])
    ensures FillKeysAdded(files + [PrepareFile(f, guess)], filePayloads[f.Id() := data])
  {
    var after := files + [PrepareFile(f, guess)];
    assert FileIds(after)[|files|] == f.Id();
    forall key | key in filePayloads[f.Id() := data]
      ensures key in FileIds(after)
    {
      if key != f.Id() {
        var i :| 0 <= i < |files| && FileIds(files)[i] == key;
        assert FileIds(after)[i] == key;
      }
    }
  }

  // ---------------------------------------------------------------------------
  // Client scenarios on the builder

  /** A builder constructed from a name alone is not a draft, is a test
      packet, and starts with no signers, files or prefill data. */
  method ConstructWithNameOnly(name: string) returns (packet: CreateEtchPacket)
    requires name != ""
    ensures !packet.options.isDraft && packet.options.isTest
    ensures packet.signers == [] && packet.files == [] && packet.filePayloads == map[]
  {
    var created := CreateEtchPacket.New(DefaultOptions().(name := Some(name)), None, None, None);
    packet := created.value;
  }

  /** Three signers without routing orders added to an empty builder are
      ordered 1, 2 and 3. */
  method RepeatedDefaultAdds(name: string, a: Signer, b: Signer, c: Signer, idA: string, idB: string, idC: string)
    returns (orders: seq<Option<int>>)
    requires name != ""
    requires ValidSignerType(a.signerType) && !IntTruthy(a.routingOrder)
    requires ValidSignerType(b.signerType) && !IntTruthy(b.routingOrder)
    requires ValidSignerType(c.signerType) && !IntTruthy(c.routingOrder)
    ensures orders == [Some(1), Some(2), Some(3)]
  {
    var created := CreateEtchPacket.New(DefaultOptions().(name := Some(name)), None, None, None);
    var packet := created.value;
    var _ := packet.AddSigner(SignerObject(a), idA);
    var _ := packet.AddSigner(SignerDict(b), idB);
    var _ := packet.AddSigner(SignerObject(c), idC);
    orders := [packet.signers[0].routingOrder, packet.signers[1].routingOrder, packet.signers[2].routingOrder];
  }

  /** With files A and B added, prefill data for A is accepted, prefill data
      for an id that is neither is refused, and the payload carries exactly the
      data for A. */
  method FillPayloadReachesPayload(name: string, fileA: AttachableFile, fileB: AttachableFile, other: string,
                                   data: Json, guess: string -> Option<string>)
    returns (forOther: Outcome<Error>, r: Result<Payload, Error>)
    requires name != ""
    requires other != fileA.Id() && other != fileB.Id()
    ensures forOther == Fail(ValueError(FileNotAdded(other)))
    ensures r.Success?
    ensures r.value.files == [PrepareFile(fileA, guess), PrepareFile(fileB, guess)]
    ensures r.value.data.payloads == map[fileA.Id() := data]
  {
    var created := CreateEtchPacket.New(DefaultOptions().(name := Some(name)), None, None, None);
    var packet := created.value;
    packet.AddFile(fileA, guess);
    packet.AddFile(fileB, guess);
    var _ := packet.AddFilePayloads(fileA.Id(), data);
    forOther := packet.AddFilePayloads(other, data);
    assert FileIds(packet.files)[0] == fileA.Id();
    r := packet.CreatePayload();
  }

  /** A builder given a complete payload and no name returns that payload
      unchanged, even after signers are added. */
  method PresuppliedPayloadIsReturned(p: Payload, input: SignerInput, uniqueId: string)
    returns (r: Result<Payload, Error>)
    ensures r == Success(p)
  {
    var created := CreateEtchPacket.New(DefaultOptions().(payload := Some(p)), None, None, None);
    var packet := created.value;
    var _ := packet.AddSigner(input, uniqueId);
    r := packet.CreatePayload();
  }

  /** Two create_payload calls on an unchanged builder agree: both fail, or
      both return the same payload. */
  method CreatePayloadIsRepeatable(packet: CreateEtchPacket) returns (first: Result<Payload, Error>, second: Result<Payload, Error>)
    ensures first.Success? <==> second.Success?
    ensures first.Success? ==> first == second
  {
    first := packet.CreatePayload();
    second := packet.CreatePayload();
  }
}
