# CreateEtchPacket builder, modelled in Dafny

This project models the `CreateEtchPacket` mutation builder of the Anvil
Python client (`belfry_python_anvil/api_resources/mutations/create_etch_packet.py`).
The builder collects the packet's signers, its attachable files and prefill
data per file. It fills in missing signer ids and routing orders. It guesses
a content type for uploaded streams that lack one. It checks that prefill data
names added files, and it assembles one `CreateEtchPacketPayload`.

Files:

- `wrappers.dfy`: module `Wrappers`. `Option`, `Result` (a return value or a
  raised exception) and `Outcome` (Python's `None` return, or an exception).
- `etch_payload.dfy`: module `EtchPayload`. Records for `EtchSigner`,
  `DocumentUpload` and other attachable files, the stream carried by an upload,
  JSON data, and `CreateEtchPacketPayload`.
- `create_etch_packet.dfy`: module `EtchPacket`. The class `CreateEtchPacket`,
  whose methods change its `signers`, `files` and `filePayloads` fields in place
  as the Python methods do. Beside it are the pure functions that specify each
  step (`PrepareSigner`, `NextRoutingOrder`, `PrepareFile`, `AddSigners` for
  the import loop, and `FileIds`).
- `etch_packet_properties.dfy`: module `EtchPacketProperties`. Lemmas about runs
  of `add_signer`, about prefill keys, and client methods that drive the class
  through client scenarios that span several calls.

How the Python semantics are represented:

- Truthiness is explicit. `StrTruthy` treats `None` and `""` as missing.
  `IntTruthy` treats `None` and `0` as missing, so an explicit routing order of
  0 is replaced. `OrZero` is `routing_order or 0`. A payload object is truthy
  exactly when it is present.
- Exceptions are values. `Error` records the Python class (`TypeError` or
  `ValueError`) and the cause.
- `__init__` can raise, and Dafny constructors cannot fail. So
  `CreateEtchPacket.New` performs the check and then calls the constructor,
  which stores the attributes.
- The packet-level attributes that no method changes are kept together in
  one `options` field. The three mutated collections are separate fields.
- `create_unique_id("signer")` is random and its source is not part of this
  model. Each `AddSigner` call therefore receives the id the generator would
  return (`uniqueId`). An import receives `ids(k)`, the id offered while the
  k-th listed signer is added. The generator's value is used only when the
  signer's id is falsy.
- `mimetypes.guess_type(name)[0]` is the parameter `guess`, a function from a
  file name to an optional MIME type.
- A `dict` given to `create_from_dict` becomes a `PacketMapping`. The keys that
  name constructor parameters are read as typed values; an absent key takes
  the parameter's default. Its `signers` and `files` entries are already
  converted by `EtchSigner(**signer)` and `DocumentUpload(**file)`. The keys
  that name no parameter are `unknownKeys`; Python refuses them with a
  TypeError, which `create_from_dict` turns into a ValueError.

Behaviour of the code that the model keeps as written:

- When there are no signers the default routing order is 1. Otherwise it is
  `max(routing_order or 0) + 1` over the existing signers. That is also 1 when
  the maximum is 0, for example after signers passed to `__init__` without
  orders, or after a defaulted 0. When every existing order is negative the
  default is below 1: after a signer with order -5 it is -4, and after -1 it is
  0, which a later `add_signer` again counts as missing. What always holds is
  that a defaulted order is greater than every earlier signer's
  `routing_order or 0`.
- `create_payload` puts the builder's `signers` and `files` into the payload as
  they are at the time of the call, with no copying or filtering. Python hands
  over the same list objects; that sharing is under "## Left out".
- `create_from_dict` reads the uploads from the key `files`.
- All errors are Python `ValueError` or `TypeError`; the builder defines no
  exception classes of its own.

## Model

| member | source | states |
|---|---|---|
| `EtchPacket.MaxOrder` | belfry_python_anvil/api_resources/mutations/create_etch_packet.py:183-184 | the result is at least `routing_order or 0` of every signer and equals that of one of them |
| `EtchPacket.NextRoutingOrder` | belfry_python_anvil/api_resources/mutations/create_etch_packet.py:178-187 | the default order is greater than every existing signer's `routing_order or 0`; it is 1 for an empty list and otherwise one more than some existing signer's `routing_order or 0` |
| `EtchPacket.PrepareSigner` | belfry_python_anvil/api_resources/mutations/create_etch_packet.py:171-187 | fails exactly when `signer_type` is not "embedded" or "email", with that ValueError; otherwise keeps a truthy id and a truthy routing order, uses the generated id for a falsy id, gives a falsy order exactly the largest existing `routing_order or 0` plus one (1 when there are none), hence above every existing order, and changes nothing else |
| `EtchPacket.PrepareFile` | belfry_python_anvil/api_resources/mutations/create_etch_packet.py:197-207 | keeps the file id; sets the guessed content type only on a DocumentUpload whose content is a buffered stream without one, changing nothing else; returns every other file unchanged, so an existing content type is never overwritten |
| `EtchPacket.InitCheck` | belfry_python_anvil/api_resources/mutations/create_etch_packet.py:141-143 | the constructor call in create_from_dict raises TypeError exactly when the mapping has keys naming no parameter (reported first) or when it has neither a payload nor a truthy name (line 113) |
| `EtchPacket.SignerToAdd` | belfry_python_anvil/api_resources/mutations/create_etch_packet.py:164-187 | an argument that is neither a dict nor an EtchSigner raises ValueError before anything else; a dict and an EtchSigner are treated alike: bad signer type raises ValueError, otherwise the signer is settled as PrepareSigner states |
| `EtchPacket.AddSigners` | belfry_python_anvil/api_resources/mutations/create_etch_packet.py:148-150 | the import loop of add_signer calls succeeds exactly when every listed signer type is valid; then it keeps the existing signers and appends one signer per listed one; a failure is a bad-signer-type ValueError |
| `EtchPacket.ImportedSigners` | belfry_python_anvil/api_resources/mutations/create_etch_packet.py:148-150 | the signers a mapping yields: none without a "signers" key; otherwise success exactly when every listed type is valid, with one signer per listed one |
| `EtchPacket.CreateEtchPacket.constructor` | belfry_python_anvil/api_resources/mutations/create_etch_packet.py:119-135 | stores the options; absent signers, files and prefill map become empty |
| `EtchPacket.CreateEtchPacket.New` | belfry_python_anvil/api_resources/mutations/create_etch_packet.py:112-135 | raises TypeError exactly when no payload and no truthy name are given; otherwise a new builder holds the arguments, with empty defaults for absent collections |
| `EtchPacket.CreateEtchPacket.CreateFromDict` | belfry_python_anvil/api_resources/mutations/create_etch_packet.py:137-156 | a constructor TypeError (unknown keys, or no name and no payload) becomes ValueError; otherwise the first failing add_signer's ValueError is raised, or the builder holds the mapping's options and prefill data, the listed signers as successive add_signer calls leave them, and the listed files as add_file leaves them |
| `EtchPacket.CreateEtchPacket.AddSigner` | belfry_python_anvil/api_resources/mutations/create_etch_packet.py:158-189 | appends exactly the prepared signer at the end; on an argument that is not a signer or a bad signer type raises ValueError and leaves the signers unchanged; touches no other field |
| `EtchPacket.CreateEtchPacket.AddFile` | belfry_python_anvil/api_resources/mutations/create_etch_packet.py:191-209 | appends the prepared file as one new last element; touches no other field |
| `EtchPacket.CreateEtchPacket.AddFilePayloads` | belfry_python_anvil/api_resources/mutations/create_etch_packet.py:211-218 | an id that is not an added file's raises ValueError and leaves the map unchanged; otherwise it sets that key, overwriting an old value, and keeps all other keys |
| `EtchPacket.CreateEtchPacket.GetFilePayloads` | belfry_python_anvil/api_resources/mutations/create_etch_packet.py:220-229 | returns the prefill map unchanged exactly when every key is an added file's id; otherwise raises a ValueError naming a key that is not |
| `EtchPacket.CreateEtchPacket.CreatePayload` | belfry_python_anvil/api_resources/mutations/create_etch_packet.py:231-264 | returns a pre-supplied payload unchanged; else raises TypeError for a falsy name; else succeeds exactly when every prefill key is an added file, with a payload whose data is exactly the prefill map, whose signers and files are the builder's lists, whose page options default to {} and whose other fields are the builder's options; else a ValueError naming an unadded key; it modifies nothing |
| `EtchPacketProperties.DefaultOrdersContinue` | belfry_python_anvil/api_resources/mutations/create_etch_packet.py:178-189 | after signers ordered 1..n, signers added without routing orders are ordered n+1, n+2, ... in call order |
| `EtchPacketProperties.DefaultOrdersFromEmpty` | belfry_python_anvil/api_resources/mutations/create_etch_packet.py:148-150 | importing signers without routing orders into an empty builder orders them 1, 2, 3, ... |
| `EtchPacketProperties.AddSignersShape` | belfry_python_anvil/api_resources/mutations/create_etch_packet.py:148-189 | a run of add_signer calls succeeds exactly when every signer type is valid; then earlier signers are unchanged, one signer is appended per input in order, truthy ids and orders are kept, missing ids take the generated id, and missing orders are one more than the largest earlier order, so they come after all of them |
| `EtchPacketProperties.AddSignersReportsFirstBadType` | belfry_python_anvil/api_resources/mutations/create_etch_packet.py:148-174 | a failed run raises the ValueError of the first listed signer with an invalid type |
| `EtchPacketProperties.AddFileThenFillKeepsKeys` | belfry_python_anvil/api_resources/mutations/create_etch_packet.py:209-229 | after add_file, the file's id is accepted by add_file_payloads, and prefill keys that all named added files still all do after both calls |
| `EtchPacketProperties.ConstructWithNameOnly` | belfry_python_anvil/api_resources/mutations/create_etch_packet.py:113-127 | a builder made from a name alone is not a draft, is a test packet, and has no signers, files or prefill data |
| `EtchPacketProperties.RepeatedDefaultAdds` | belfry_python_anvil/api_resources/mutations/create_etch_packet.py:178-189 | three signers added without routing orders to an empty builder get 1, 2 and 3 |
| `EtchPacketProperties.FillPayloadReachesPayload` | belfry_python_anvil/api_resources/mutations/create_etch_packet.py:211-251 | with files A and B added, prefill data for another id is refused, and the payload holds both files and exactly the data given for A |
| `EtchPacketProperties.PresuppliedPayloadIsReturned` | belfry_python_anvil/api_resources/mutations/create_etch_packet.py:238-240 | a builder given a payload and no name returns that exact payload, even after add_signer |
| `EtchPacketProperties.CreatePayloadIsRepeatable` | belfry_python_anvil/api_resources/mutations/create_etch_packet.py:231-264 | two create_payload calls on an unchanged builder both fail or return the same payload |

## Left out

- The GraphQL texts `DEFAULT_RESPONSE_QUERY` and `CREATE_ETCH_PACKET` (lines 21-85) and the class attributes that hold them are not modelled. They are static strings, and this file performs no substitution into them.
- `BaseQuery` and the payload classes (`EtchSigner`, `DocumentUpload`, `CreateEtchPacketPayload`, ...) are not part of this model. They are plain records here, with none of the field validation those classes may do. Failures of `EtchSigner(**signer)` and `DocumentUpload(**file)` are therefore not modelled.
- `create_unique_id` is not part of this model. Its result is an input, so nothing is proved about its prefix or uniqueness.
- `mimetypes.guess_type` is an opaque input function. `logger.debug` is logging and is left out.
- In-place updates are not modelled. Python changes the caller's own `EtchSigner` (`id`, `routing_order`) and the upload's stream object (`content_type`), and the builder keeps the lists passed to `__init__` by reference. Here signers and files are values, so that sharing, and the later effect of builder changes on an already-built payload, cannot be expressed.
- Dynamic typing is not modelled. Each value in an imported mapping is assumed to have its parameter's declared type, and an argument of some other type is modelled only as "not a signer" for `add_signer`.
- Callers that assign the builder's attributes directly (Python allows `packet.name = None`) are not modelled. With only the constructor, `CreatePayload`'s TypeError branch cannot be reached, but it is still modelled.
- EtchPacket.CreateEtchPacket.GetFilePayloads: Python reports the first offending key in dict insertion order. Dafny maps are unordered, so the model states only that the reported key is one that names no added file.
- EtchPacket.CreateEtchPacket.CreatePayload: its ValueError comes from `get_file_payloads` (line 251) and has the same gap: the model states only that the reported key names no added file, not that it is the first in insertion order.
- CreateFromDict: Python names only one unexpected keyword in its message. The model carries the whole set of unknown keys.
- EtchPacket.CreateEtchPacket.AddFile: a buffered stream is assumed to have a `name`. Python accepts any `BufferedIOBase` (line 199) and reads `file.file.name` at line 203, so for a stream without one (an `io.BytesIO`, say) and no `content_type` it raises AttributeError and appends nothing. The model always appends.
- EtchPacket.CreateEtchPacket.CreateFromDict: the `signers` and `files` values are assumed to be lists. A present key whose value is None passes the membership test at line 148 or 152, and the loop at line 149 or 153 then raises TypeError, outside the `try` at lines 140-147, so it is not turned into ValueError. The model reads such a key as absent.
