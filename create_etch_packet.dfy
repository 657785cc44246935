/** The createEtchPacket mutation builder: it collects signers, attachable files
    and per-file prefill data, applies the defaults of `add_signer` and
    `add_file`, checks that prefill data names added files, and assembles one
    `CreateEtchPacketPayload`.

    Collaborators whose source is not part of this model become parameters:
    `create_unique_id("signer")` is random, so each call site receives the id it
    would return; `mimetypes.guess_type` is a pure lookup from file name to an
    optional MIME type, passed as `guess`. */
module EtchPacket {
  import opened Wrappers
  import opened EtchPayload

  // ---------------------------------------------------------------------------
  // Python truthiness, where the builder relies on it

  /** `bool(s)` for an optional string: None and "" are falsy. */
  predicate StrTruthy(s: Option<string>) {
    s.Some? && s.value != ""
  }

  /** `bool(n)` for an optional integer: None and 0 are falsy. */
  predicate IntTruthy(n: Option<int>) {
    n.Some? && n.value != 0
  }

  /** `n or 0` for an optional integer. */
  function OrZero(n: Option<int>): (z: int) {
    if IntTruthy(n) then n.value else 0
  }

  // ---------------------------------------------------------------------------
  // Errors

  /** Why a `TypeError` is raised. */
  datatype TypeErrorCause =
    | MissingName                               // neither `name` nor `payload`
    | UnexpectedKeywords(keys: set<string>)     // keyword arguments `__init__` does not take

  /** Why a `ValueError` is raised. */
  datatype ValueErrorCause =
    | InvalidMapping(cause: TypeErrorCause)     // create_from_dict wraps the constructor's TypeError
    | NotASigner                                // add_signer got neither a dict nor an EtchSigner
    | BadSignerType(signerType: string)         // signer_type is not "embedded" or "email"
    | FileNotAdded(fileId: string)              // prefill data for a file id that was not added

  /** An exception the builder raises: its Python class and its cause. */
  datatype Error = TypeError(typeCause: TypeErrorCause) | ValueError(valueCause: ValueErrorCause)

  // ---------------------------------------------------------------------------
  // Construction arguments

  /** The packet-level constructor arguments, which no method changes after
      `__init__` stores them. */
  datatype Options = Options(
    name: Option<string>,
    signatureEmailSubject: Option<string>,
    signatureEmailBody: Option<string>,
    signaturePageOptions: Option<map<string, Json>>,
    isDraft: bool,
    isTest: bool,
    payload: Option<Payload>,
    webhookUrl: Option<string>,
    replyToName: Option<string>,
    replyToEmail: Option<string>,
    mergePdfs: Option<bool>,
    enableEmails: Option<EnableEmails>,
    createCastTemplatesFromUploads: Option<bool>,
    duplicateCasts: Option<bool>)

  /** The defaults of `__init__`'s keyword arguments. */
  function DefaultOptions(): (o: Options) {
    Options(None, None, None, None, false, true, None, None, None, None, None, None, None, None)
  }

  /** `__init__` accepts its arguments: a payload object (always truthy) or a
      truthy name. */
  predicate AcceptsOptions(options: Options) {
    options.payload.Some? || StrTruthy(options.name)
  }

  /** The TypeError the constructor raises for a mapping's keys, if any:
      Python rejects unexpected keywords before the body's own check runs. */
  function InitCheck(options: Options, unknownKeys: set<string>): (r: Option<TypeErrorCause>)
    ensures r.None? <==> unknownKeys == {} && (options.payload.Some? || StrTruthy(options.name))
    ensures unknownKeys != {} ==> r == Some(UnexpectedKeywords(unknownKeys))
    ensures r.Some? && unknownKeys == {} ==> r == Some(MissingName)
  {
    if unknownKeys != {} then Some(UnexpectedKeywords(unknownKeys))
    else if !AcceptsOptions(options) then Some(MissingName)
    else None
  }

  /** A raw `dict` given to `create_from_dict`. Each key that names a
      constructor parameter is read into `options` or `filePayloads` (an absent
      key reads as that parameter's default); the "signers" and "files" entries
      are kept apart, already converted by `EtchSigner(**signer)` and
      `DocumentUpload(**file)`; `unknownKeys` are the keys that name no
      constructor parameter. */
  datatype PacketMapping = PacketMapping(
    options: Options,
    filePayloads: Option<map<string, Json>>,
    signers: Option<seq<Signer>>,
    files: Option<seq<DocumentUpload>>,
    unknownKeys: set<string>)

  // ---------------------------------------------------------------------------
  // add_signer

  /** What `add_signer` may be given. */
  datatype SignerInput =
    | SignerDict(converted: Signer)   // a dict, as `EtchSigner(**signer)` converts it
    | SignerObject(signer: Signer)    // an EtchSigner
    | NotSigner                       // any other value

  predicate ValidSignerType(t: string) {
    t in ["embedded", "email"]
  }

  /** The largest `routing_order or 0` among the signers. */
  function MaxOrder(signers: seq<Signer>): (m: int)
    requires signers != []
    ensures forall j :: 0 <= j < |signers| ==> OrZero(signers[j].routingOrder) <= m
    ensures exists j :: 0 <= j < |signers| && m == OrZero(signers[j].routingOrder)
    decreases |signers|
  {
    var head := OrZero(signers[0].routingOrder);
    if |signers| == 1 then head
    else
      var rest := MaxOrder(signers[1..]);
      assert forall j :: 1 <= j < |signers| ==> signers[j] == signers[1..][j - 1];
      if head >= rest then head else rest
  }

  /** The routing order given to a signer that has none: 1 when there are no
      signers, otherwise one more than the largest existing `routing_order or 0`
      (a signer without an order counts as 0). */
  function NextRoutingOrder(existing: seq<Signer>): (n: int)
    ensures forall j :: 0 <= j < |existing| ==> OrZero(existing[j].routingOrder) < n
    ensures existing == [] ==> n == 1
    ensures existing != [] ==> exists j :: 0 <= j < |existing| && n == OrZero(existing[j].routingOrder) + 1
  {
    if existing == [] then 1 else MaxOrder(existing) + 1
  }

  /** `placed` is `given` as add_signer stores it after `earlier`, with
      `uniqueId` the id the generator offered: a truthy id or routing order is
      kept, a missing id becomes `uniqueId`, a missing routing order becomes
      NextRoutingOrder(earlier), one more than the largest earlier order (1
      when there is none), and nothing else changes. */
  ghost predicate Settled(given: Signer, placed: Signer, uniqueId: string, earlier: seq<Signer>) {
    && (StrTruthy(given.id) ==> placed.id == given.id)
    && (!StrTruthy(given.id) ==> placed.id == Some(uniqueId))
    && (IntTruthy(given.routingOrder) ==> placed.routingOrder == given.routingOrder)
    && (!IntTruthy(given.routingOrder) ==>
          placed.routingOrder == Some(NextRoutingOrder(earlier)))
    && placed.signerType == given.signerType
    && placed.name == given.name
    && placed.email == given.email
    && placed.fields == given.fields
  }

  /** add_signer's checks and defaults for an EtchSigner added after
      `existing`: the signer to append, or the ValueError raised. */
  function PrepareSigner(existing: seq<Signer>, s: Signer, uniqueId: string): (r: Result<Signer, Error>)
    ensures r.Failure? <==> !ValidSignerType(s.signerType)
    ensures r.Failure? ==> r.error == ValueError(BadSignerType(s.signerType))
    ensures r.Success? ==> Settled(s, r.value, uniqueId, existing)
  {
    if !ValidSignerType(s.signerType) then
      Failure(ValueError(BadSignerType(s.signerType)))
    else
      var withId := if StrTruthy(s.id) then s else s.(id := Some(uniqueId));
      if IntTruthy(s.routingOrder) then Success(withId)
      else Success(withId.(routingOrder := Some(NextRoutingOrder(existing))))
  }

  /** add_signer from its argument: a dict or EtchSigner is checked and
      completed by PrepareSigner, anything else is refused first. */
  function SignerToAdd(existing: seq<Signer>, input: SignerInput, uniqueId: string): (r: Result<Signer, Error>)
    ensures input.NotSigner? ==> r == Failure(ValueError(NotASigner))
    ensures !input.NotSigner? ==>
      var given := if input.SignerDict? then input.converted else input.signer;
      && (r.Failure? <==> !ValidSignerType(given.signerType))
      && (r.Failure? ==> r.error == ValueError(BadSignerType(given.signerType)))
      && (r.Success? ==> Settled(given, r.value, uniqueId, existing))
  {
    match input
    case SignerDict(s) => PrepareSigner(existing, s, uniqueId)
    case SignerObject(s) => PrepareSigner(existing, s, uniqueId)
    case NotSigner => Failure(ValueError(NotASigner))
  }

  /** The signers listed in a mapping, added one by one after `existing` as
      `create_from_dict` does; `ids(k)` is the id the generator offers while the
      k-th listed signer is added. The first ValueError stops the import. */
  function AddSigners(existing: seq<Signer>, listed: seq<Signer>, ids: nat -> string, k: nat): (r: Result<seq<Signer>, Error>)
    ensures r.Success? <==> forall j :: 0 <= j < |listed| ==> ValidSignerType(listed[j].signerType)
    ensures r.Success? ==> |r.value| == |existing| + |listed| && r.value[..|existing|] == existing
    ensures r.Failure? ==> r.error.ValueError? && r.error.valueCause.BadSignerType?
    decreases |listed|
  {
    if listed == [] then Success(existing)
    else
      match PrepareSigner(existing, listed[0], ids(k))
      case Failure(e) => Failure(e)
      case Success(s) =>
        assert forall j :: 1 <= j < |listed| ==> listed[j] == listed[1..][j - 1];
        var rest := AddSigners(existing + [s], listed[1..], ids, k + 1);
        assert rest.Success? ==> rest.value[..|existing|] == rest.value[..|existing| + 1][..|existing|];
        rest
  }

  /** The signers a mapping yields, starting from the empty list. */
  function ImportedSigners(m: PacketMapping, ids: nat -> string): (r: Result<seq<Signer>, Error>)
    ensures r.Success? <==> m.signers.None? || forall j :: 0 <= j < |m.signers.value| ==> ValidSignerType(m.signers.value[j].signerType)
    ensures r.Success? ==> |r.value| == if m.signers.Some? then |m.signers.value| else 0
  {
    if m.signers.Some? then AddSigners([], m.signers.value, ids, 0) else Success([])
  }

  // ---------------------------------------------------------------------------
  // add_file

  /** add_file guesses a content type only for a DocumentUpload whose content
      is a buffered stream without one. */
  predicate NeedsContentType(f: AttachableFile) {
    f.Upload? && f.doc.file.BufferedStream? && f.doc.file.contentType.None?
  }

  /** The file as add_file appends it. */
  function PrepareFile(f: AttachableFile, guess: string -> Option<string>): (r: AttachableFile)
    ensures r.Id() == f.Id()
    ensures !NeedsContentType(f) ==> r == f
    ensures NeedsContentType(f) ==>
      && r.Upload?
      && r.doc.file == BufferedStream(f.doc.file.name, guess(f.doc.file.name))
      && r.doc.(file := f.doc.file) == f.doc
  {
    if NeedsContentType(f) then
      Upload(f.doc.(file := f.doc.file.(contentType := guess(f.doc.file.name))))
    else f
  }

  /** The files a mapping yields: each listed DocumentUpload as add_file
      appends it, in list order. */
  function ImportedFiles(m: PacketMapping, guess: string -> Option<string>): (r: seq<AttachableFile>) {
    if m.files.None? then []
    else
      var docs := m.files.value;
      seq(|docs|, i requires 0 <= i < |docs| => PrepareFile(Upload(docs[i]), guess))
  }

  // ---------------------------------------------------------------------------
  // Prefill data

  /** `[f.id for f in self.files if f]`: every file object is truthy. */
  function FileIds(files: seq<AttachableFile>): (ids: seq<string>) {
    seq(|files|, i requires 0 <= i < |files| => files[i].Id())
  }

  /** Every key of the prefill map is the id of an added file. */
  ghost predicate FillKeysAdded(files: seq<AttachableFile>, filePayloads: map<string, Json>) {
    forall k :: k in filePayloads ==> k in FileIds(files)
  }

  // ---------------------------------------------------------------------------
  // The builder

  class CreateEtchPacket {
    /** The packet-level attributes set by `__init__`. */
    var options: Options
    var signers: seq<Signer>
    var files: seq<AttachableFile>
    /** `file_payloads`: prefill data by file id. */
    var filePayloads: map<string, Json>

    /** The attribute assignments of `__init__`, once its check has passed:
        each absent list or dict becomes empty. */
    constructor (options: Options, signers: Option<seq<Signer>>, files: Option<seq<AttachableFile>>,
                 filePayloads: Option<map<string, Json>>)
      requires AcceptsOptions(options)
      ensures this.options == options
      ensures this.signers == signers.GetOr([])
      ensures this.files == files.GetOr([])
      ensures this.filePayloads == filePayloads.GetOr(map[])
    {
      this.options := options;
      this.signers := signers.GetOr([]);
      this.files := files.GetOr([]);
      this.filePayloads := filePayloads.GetOr(map[]);
    }

    /** `CreateEtchPacket(...)`: a TypeError when neither a payload nor a
        truthy name is given, otherwise a builder holding the arguments. */
    static method New(options: Options, signers: Option<seq<Signer>>, files: Option<seq<AttachableFile>>,
                      filePayloads: Option<map<string, Json>>)
      returns (r: Result<CreateEtchPacket, Error>)
      ensures r.Failure? <==> options.payload.None? && !StrTruthy(options.name)
      ensures r.Failure? ==> r.error == TypeError(MissingName)
      ensures r.Success? ==>
        && fresh(r.value)
        && r.value.options == options
        && r.value.signers == signers.GetOr([])
        && r.value.files == files.GetOr([])
        && r.value.filePayloads == filePayloads.GetOr(map[])
    {
      if !AcceptsOptions(options) {
        return Failure(TypeError(MissingName));
      }
      var packet := new CreateEtchPacket(options, signers, files, filePayloads);
      return Success(packet);
    }

    /** `create_from_dict`: the constructor gets every key except "signers"
        and "files" (its TypeError becomes a ValueError), then each listed
        signer goes through add_signer and each listed file through add_file,
        in list order; a ValueError from add_signer propagates. */
    static method CreateFromDict(m: PacketMapping, ids: nat -> string, guess: string -> Option<string>)
      returns (r: Result<CreateEtchPacket, Error>)
      ensures InitCheck(m.options, m.unknownKeys).Some? ==>
        r == Failure(ValueError(InvalidMapping(InitCheck(m.options, m.unknownKeys).value)))
      ensures InitCheck(m.options, m.unknownKeys).None? && ImportedSigners(m, ids).Failure? ==>
        r == Failure(ImportedSigners(m, ids).error)
      ensures InitCheck(m.options, m.unknownKeys).None? && ImportedSigners(m, ids).Success? ==>
        && r.Success?
        && fresh(r.value)
        && r.value.options == m.options
        && r.value.signers == ImportedSigners(m, ids).value
        && r.value.files == ImportedFiles(m, guess)
        && r.value.filePayloads == m.filePayloads.GetOr(map[])
    {
      var cause := InitCheck(m.options, m.unknownKeys);
      if cause.Some? {
        return Failure(ValueError(InvalidMapping(cause.value)));
      }
      var packet := new CreateEtchPacket(m.options, None, None, m.filePayloads);
      if m.signers.Some? {
        var listed := m.signers.value;
        var i := 0;
        while i < |listed|
          invariant 0 <= i <= |listed|
          invariant AddSigners(packet.signers, listed[i..], ids, i) == ImportedSigners(m, ids)
          invariant packet.options == m.options && packet.files == []
          invariant packet.filePayloads == m.filePayloads.GetOr(map[])
        {
          assert listed[i..][1..] == listed[i + 1..];
          var outcome := packet.AddSigner(SignerObject(listed[i]), ids(i));
          if outcome.Fail? {
            return Failure(outcome.error);
          }
          i := i + 1;
        }
        assert listed[i..] == [];
      }
      if m.files.Some? {
        var docs := m.files.value;
        for j := 0 to |docs|
          invariant |packet.files| == j
          invariant forall t :: 0 <= t < j ==> packet.files[t] == PrepareFile(Upload(docs[t]), guess)
          invariant packet.options == m.options && Success(packet.signers) == ImportedSigners(m, ids)
          invariant packet.filePayloads == m.filePayloads.GetOr(map[])
        {
          packet.AddFile(Upload(docs[j]), guess);
        }
      }
      return Success(packet);
    }

    /** `add_signer`: appends exactly one signer, or raises and leaves the
        signers as they were. */
    method AddSigner(input: SignerInput, uniqueId: string) returns (r: Outcome<Error>)
      modifies this`signers
      ensures match SignerToAdd(old(signers), input, uniqueId)
        case Success(s) => r == Pass && signers == old(signers) + [s]
        case Failure(e) => r == Fail(e) && signers == old(signers)
    {
      var data: Signer;
      match input {
        case SignerDict(s) => data := s;
        case SignerObject(s) => data := s;
        case NotSigner => return Fail(ValueError(NotASigner));
      }
      if !ValidSignerType(data.signerType) {
        return Fail(ValueError(BadSignerType(data.signerType)));
      }
      if !StrTruthy(data.id) {
        data := data.(id := Some(uniqueId));
      }
      if !IntTruthy(data.routingOrder) {
        var num: int;
        if signers != [] {
          num := MaxOrder(signers) + 1;
        } else {
          num := 1;
        }
        data := data.(routingOrder := Some(num));
      }
      signers := signers + [data];
      return Pass;
    }

    /** `add_file`: appends the file, with a guessed content type where
        PrepareFile supplies one. */
    method AddFile(file: AttachableFile, guess: string -> Option<string>)
      modifies this`files
      ensures files == old(files) + [PrepareFile(file, guess)]
    {
      var f := file;
      if f.Upload? && f.doc.file.BufferedStream? && f.doc.file.contentType.None? {
        var contentType := guess(f.doc.file.name);
        f := Upload(f.doc.(file := f.doc.file.(contentType := contentType)));
      }
      files := files + [f];
    }

    /** `add_file_payloads`: a ValueError for an id that is not an added
        file's, otherwise the entry for that id is set (or replaced). */
    method AddFilePayloads(fileId: string, fillPayload: Json) returns (r: Outcome<Error>)
      modifies this`filePayloads
      ensures fileId !in FileIds(files) ==>
        r == Fail(ValueError(FileNotAdded(fileId))) && filePayloads == old(filePayloads)
      ensures fileId in FileIds(files) ==>
        r == Pass && filePayloads == old(filePayloads)[fileId := fillPayload]
    {
      var existing := FileIds(files);
      if fileId !in existing {
        return Fail(ValueError(FileNotAdded(fileId)));
      }
      filePayloads := filePayloads[fileId := fillPayload];
      return Pass;
    }

    /** The ValueError names a prefill key that is not an added file's id. */
    ghost predicate ReportsUnaddedFile(e: Error)
      reads this
    {
      e.ValueError? && e.valueCause.FileNotAdded?
      && e.valueCause.fileId in filePayloads && e.valueCause.fileId !in FileIds(files)
    }

    /** `get_file_payloads`: the prefill map when every key names an added
        file, otherwise a ValueError naming an offending key. */
    method GetFilePayloads() returns (r: Result<map<string, Json>, Error>)
      ensures r.Success? <==> FillKeysAdded(files, filePayloads)
      ensures r.Success? ==> r.value == filePayloads
      ensures r.Failure? ==> ReportsUnaddedFile(r.error)
    {
      var existing := FileIds(files);
      var remaining := filePayloads.Keys;
      while remaining != {}
        invariant remaining <= filePayloads.Keys
        invariant forall k :: k in filePayloads && k !in remaining ==> k in existing
        decreases remaining
      {
        var key :| key in remaining;
        if key !in existing {
          return Failure(ValueError(FileNotAdded(key)));
        }
        remaining := remaining - {key};
      }
      return Success(filePayloads);
    }

    /** `p` is the payload create_payload assembles from this builder: the
        packet-level attributes, the builder's signer and file lists, the
        prefill map as `data`, and signature page options defaulting to {}. */
    ghost predicate IsAssembledPayload(p: Payload)
      reads this
    {
      && options.name == Some(p.name)
      && p.isTest == options.isTest
      && p.isDraft == options.isDraft
      && p.signers == signers
      && p.files == files
      && p.data == FilePayload(filePayloads)
      && p.signatureEmailSubject == options.signatureEmailSubject
      && p.signatureEmailBody == options.signatureEmailBody
      && p.signaturePageOptions == options.signaturePageOptions.GetOr(map[])
      && p.webhookUrl == options.webhookUrl
      && p.replyToEmail == options.replyToEmail
      && p.replyToName == options.replyToName
      && p.mergePdfs == options.mergePdfs
      && p.enableEmails == options.enableEmails
      && p.createCastTemplatesFromUploads == options.createCastTemplatesFromUploads
      && p.duplicateCasts == options.duplicateCasts
    }

    /** `create_payload`: a pre-supplied payload is returned as it is;
        otherwise a falsy name raises TypeError, an unadded prefill key raises
        ValueError, and else the assembled payload is returned. Read-only. */
    method CreatePayload() returns (r: Result<Payload, Error>)
      ensures options.payload.Some? ==> r == Success(options.payload.value)
      ensures options.payload.None? && !StrTruthy(options.name) ==> r == Failure(TypeError(MissingName))
      ensures options.payload.None? && StrTruthy(options.name) ==>
        && (r.Success? <==> FillKeysAdded(files, filePayloads))
        && (r.Success? ==> IsAssembledPayload(r.value))
        && (r.Failure? ==> ReportsUnaddedFile(r.error))
    {
      if options.payload.Some? {
        return Success(options.payload.value);
      }
      if !StrTruthy(options.name) {
        return Failure(TypeError(MissingName));
      }
      var payloads := GetFilePayloads();
      if payloads.Failure? {
        return Failure(payloads.error);
      }
      var p := Payload(
        isTest := options.isTest,
        isDraft := options.isDraft,
        name := options.name.value,
        signers := signers,
        files := files,
        data := FilePayload(payloads.value),
        signatureEmailSubject := options.signatureEmailSubject,
        signatureEmailBody := options.signatureEmailBody,
        signaturePageOptions := options.signaturePageOptions.GetOr(map[]),
        webhookUrl := options.webhookUrl,
        replyToEmail := options.replyToEmail,
        replyToName := options.replyToName,
        mergePdfs := options.mergePdfs,
        enableEmails := options.enableEmails,
        createCastTemplatesFromUploads := options.createCastTemplatesFromUploads,
        duplicateCasts := options.duplicateCasts);
      return Success(p);
    }
  }
}
