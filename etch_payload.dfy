/** Records for the payload entities the builder handles: signers, attachable
    files, the prefill data and the assembled packet payload. They stand for the
    classes of `belfry_python_anvil.api_resources.payload`, whose source is not
    part of this model, so they carry no validation of their own. */
module EtchPayload {
  import opened Wrappers

  /** Any JSON value: prefill data, signature page options, field definitions. */
  datatype Json =
    | Null
    | Bool(b: bool)
    | Number(n: int)
    | String(s: string)
    | Array(items: seq<Json>)
    | Object(members: map<string, Json>)

  /** One signing field assigned to a signer: a field of one attached file. */
  datatype SignerField = SignerField(fileId: string, fieldId: string)

  /** An `EtchSigner`. `id` and `routingOrder` are optional, and Python treats
      the empty string and 0 as missing too. */
  datatype Signer = Signer(
    id: Option<string>,
    routingOrder: Option<int>,
    signerType: string,
    name: string,
    email: string,
    fields: seq<SignerField>)

  /** What a `DocumentUpload` carries as its `file`: an open binary stream
      (a `BufferedIOBase`, with its file name and an optional `content_type`
      attribute), or any other content object, kept opaque. */
  datatype UploadContent =
    | BufferedStream(name: string, contentType: Option<string>)
    | OtherContent(value: Json)

  /** A `DocumentUpload`: a new file sent with the packet. */
  datatype DocumentUpload = DocumentUpload(
    id: string,
    title: string,
    file: UploadContent,
    fields: seq<Json>)

  /** An `AttachableEtchFile`: a document upload, or any other attachable
      kind (kept opaque apart from its id). */
  datatype AttachableFile =
    | Upload(doc: DocumentUpload)
    | OtherAttachable(otherId: string, value: Json)
  {
    /** The file's `id` attribute. */
    function Id(): string {
      match this
      case Upload(d) => d.id
      case OtherAttachable(i, _) => i
    }
  }

  /** `enable_emails`: a flag for all emails, or a list of email kinds. */
  datatype EnableEmails = AllEmails(enabled: bool) | SomeEmails(kinds: seq<string>)

  /** `CreateEtchFilePayload`: the prefill data per file id. */
  datatype FilePayload = FilePayload(payloads: map<string, Json>)

  /** `CreateEtchPacketPayload`: the variables of one createEtchPacket request. */
  datatype Payload = Payload(
    isTest: bool,
    isDraft: bool,
    name: string,
    signers: seq<Signer>,
    files: seq<AttachableFile>,
    data: FilePayload,
    signatureEmailSubject: Option<string>,
    signatureEmailBody: Option<string>,
    signaturePageOptions: map<string, Json>,
    webhookUrl: Option<string>,
    replyToEmail: Option<string>,
    replyToName: Option<string>,
    mergePdfs: Option<bool>,
    enableEmails: Option<EnableEmails>,
    createCastTemplatesFromUploads: Option<bool>,
    duplicateCasts: Option<bool>)
}
