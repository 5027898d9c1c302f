/** The strict object codec (server/src/codec.rs): what `parse_open` accepts, what
    columns the server indexes, and the one way back to the bytes. */
module ObjectCodec {
  import opened Wrappers
  import opened ByteStrings

  type Blob = b: Bytes | |b| < 0x1_0000_0000

  /** Everything an object's bytes say, per tag, in the order of the layout. The
      tombstone is kept as the raw byte, and a grant's expiry as the `u64` it is read as. */
  datatype Object =
    | Vault(vaultId: Blob, syncTarget: Byte, nameBlob: Blob, wrappedVk: Blob, version: U64, tombstone: Byte,
            sig: Blob, author: Blob, keyEpoch: U64, cachePolicy: Byte)
    | Item(vaultId: Blob, itemId: Blob, itemType: U32, content: Blob, wrappedItemKey: Blob, version: U64,
           tombstone: Byte, sig: Blob, author: Blob, keyEpoch: U64)
    | Manifest(vaultId: Blob, keyEpoch: U64, manifestBlob: Blob, sig: Blob, author: Blob)
    | Grant(vaultId: Blob, member: Blob, keyEpoch: U64, role: Byte, notAfter: U64, wrappedVk: Blob,
            sig: Blob, author: Blob)
    | Audit(vaultId: Blob, entryBlob: Blob, sig: Blob, author: Blob)
    | Keyset(keysetBlob: Blob)
    | AccountState(version: U64, payload: Blob, sig: Blob, author: Blob)

  /** The ranges the decoder enforces. */
  predicate InRange(o: Object) {
    match o
    case Vault(_, st, _, _, _, _, _, _, _, cp) => st <= 1 && cp <= 1
    case Grant(_, _, _, role, _, _, _, _) => role <= 2
    case _ => true
  }

  // ---------- signature and author, in a row in every signed object ----------

  function TakeSeal(b: Bytes): (r: Option<(Bytes, Bytes, Bytes)>)
    ensures r.Some? ==> |r.value.0| < 0x1_0000_0000 && |r.value.1| < 0x1_0000_0000
  {
    var (sig, b) :- TakeBlob(b);
    var (author, b) :- TakeBlob(b);
    Some((sig, author, b))
  }

  function PutSeal(sig: Blob, author: Blob, rest: Bytes): (r: Bytes)
    ensures TakeSeal(r) == Some((sig, author, rest))
  {
    PutBlob(sig, PutBlob(author, rest))
  }

  lemma SealBack(b: Bytes)
    ensures TakeSeal(b).Some? ==> PutSeal(TakeSeal(b).value.0, TakeSeal(b).value.1, TakeSeal(b).value.2) == b
  {
    BlobBack(b);
    if TakeBlob(b).Some? {
      BlobBack(TakeBlob(b).value.1);
    }
  }

  lemma SealThen(sig: Blob, author: Blob, x: Bytes, y: Bytes)
    ensures PutSeal(sig, author, x + y) == PutSeal(sig, author, x) + y
  {
    BlobThen(author, x, y);
    BlobThen(sig, PutBlob(author, x), y);
  }

  // ---------- the layout of each tag, with `rest` after it ----------

  function PrintVault(o: Object, rest: Bytes): Bytes
    requires o.Vault?
  {
    PutBlob(o.vaultId, PutOctet(o.syncTarget, PrintVaultKeys(o, rest)))
  }

  /** A vault's layout from its name on. */
  function PrintVaultKeys(o: Object, rest: Bytes): Bytes
    requires o.Vault?
  {
    PutBlob(o.nameBlob, PutBlob(o.wrappedVk, PutU64(o.version, PutOctet(o.tombstone,
    PutSeal(o.sig, o.author, PutU64(o.keyEpoch, PutOctet(o.cachePolicy, rest)))))))
  }

  function PrintItem(o: Object, rest: Bytes): Bytes
    requires o.Item?
  {
    PutBlob(o.vaultId, PutBlob(o.itemId, PutU32(o.itemType, PutBlob(o.content, PutBlob(o.wrappedItemKey,
    PutU64(o.version, PutOctet(o.tombstone, PutSeal(o.sig, o.author, PutU64(o.keyEpoch, rest)))))))))
  }

  function PrintManifest(o: Object, rest: Bytes): Bytes
    requires o.Manifest?
  {
    PutBlob(o.vaultId, PutU64(o.keyEpoch, PutBlob(o.manifestBlob, PutSeal(o.sig, o.author, rest))))
  }

  function PrintGrant(o: Object, rest: Bytes): Bytes
    requires o.Grant?
  {
    PutBlob(o.vaultId, PutBlob(o.member, PutU64(o.keyEpoch, PutOctet(o.role, PutU64(o.notAfter,
    PutBlob(o.wrappedVk, PutSeal(o.sig, o.author, rest)))))))
  }

  function PrintAudit(o: Object, rest: Bytes): Bytes
    requires o.Audit?
  {
    PutBlob(o.vaultId, PutBlob(o.entryBlob, PutSeal(o.sig, o.author, rest)))
  }

  function PrintAccountState(o: Object, rest: Bytes): Bytes
    requires o.AccountState?
  {
    PutU64(o.version, PutBlob(o.payload, PutSeal(o.sig, o.author, rest)))
  }

  function Tag(o: Object): (tag: Byte)
    ensures 1 <= tag <= 7
  {
    match o
    case Vault(_, _, _, _, _, _, _, _, _, _) => 1
    case Item(_, _, _, _, _, _, _, _, _, _) => 2
    case Manifest(_, _, _, _, _) => 3
    case Grant(_, _, _, _, _, _, _, _) => 4
    case Audit(_, _, _, _) => 5
    case Keyset(_) => 6
    case AccountState(_, _, _, _) => 7
  }

  function PrintBody(o: Object, rest: Bytes): Bytes {
    if o.Vault? then PrintVault(o, rest)
    else if o.Item? then PrintItem(o, rest)
    else if o.Manifest? then PrintManifest(o, rest)
    else if o.Grant? then PrintGrant(o, rest)
    else if o.Audit? then PrintAudit(o, rest)
    else if o.Keyset? then PutBlob(o.keysetBlob, rest)
    else PrintAccountState(o, rest)
  }

  function Print(o: Object, rest: Bytes): Bytes {
    PutOctet(Tag(o), PrintBody(o, rest))
  }

  // ---------- decoding ----------

  function DecodeVault(b: Bytes): Option<(Object, Bytes)> {
    var (v, b) :- TakeBlob(b);
    var (st, b) :- TakeOctet(b);
    if st > 1 then None else DecodeVaultKeys(v, st, b)
  }

  function DecodeVaultKeys(v: Blob, st: Byte, b: Bytes): Option<(Object, Bytes)> {
    var (name, b) :- TakeBlob(b);
    var (vk, b) :- TakeBlob(b);
    var (version, b) :- TakeU64(b);
    var (tombstone, b) :- TakeOctet(b);
    var (sig, author, b) :- TakeSeal(b);
    var (epoch, b) :- TakeU64(b);
    var (cp, b) :- TakeOctet(b);
    if cp > 1 then None else
    Some((Vault(v, st, name, vk, version, tombstone, sig, author, epoch, cp), b))
  }

  function DecodeItem(b: Bytes): Option<(Object, Bytes)> {
    var (v, b) :- TakeBlob(b);
    var (i, b) :- TakeBlob(b);
    var (kind, b) :- TakeU32(b);
    var (content, b) :- TakeBlob(b);
    var (key, b) :- TakeBlob(b);
    var (version, b) :- TakeU64(b);
    var (tombstone, b) :- TakeOctet(b);
    var (sig, author, b) :- TakeSeal(b);
    var (epoch, b) :- TakeU64(b);
    Some((Item(v, i, kind, content, key, version, tombstone, sig, author, epoch), b))
  }

  function DecodeManifest(b: Bytes): Option<(Object, Bytes)> {
    var (v, b) :- TakeBlob(b);
    var (epoch, b) :- TakeU64(b);
    var (manifest, b) :- TakeBlob(b);
    var (sig, author, b) :- TakeSeal(b);
    Some((Manifest(v, epoch, manifest, sig, author), b))
  }

  function DecodeGrant(b: Bytes): Option<(Object, Bytes)> {
    var (v, b) :- TakeBlob(b);
    var (member, b) :- TakeBlob(b);
    var (epoch, b) :- TakeU64(b);
    var (role, b) :- TakeOctet(b);
    if role > 2 then None else
    var (notAfter, b) :- TakeU64(b);
    var (vk, b) :- TakeBlob(b);
    var (sig, author, b) :- TakeSeal(b);
    Some((Grant(v, member, epoch, role, notAfter, vk, sig, author), b))
  }

  function DecodeAudit(b: Bytes): Option<(Object, Bytes)> {
    var (v, b) :- TakeBlob(b);
    var (entry, b) :- TakeBlob(b);
    var (sig, author, b) :- TakeSeal(b);
    Some((Audit(v, entry, sig, author), b))
  }

  function DecodeKeyset(b: Bytes): Option<(Object, Bytes)> {
    var (keyset, b) :- TakeBlob(b);
    Some((Keyset(keyset), b))
  }

  function DecodeAccountState(b: Bytes): Option<(Object, Bytes)> {
    var (version, b) :- TakeU64(b);
    var (payload, b) :- TakeBlob(b);
    var (sig, author, b) :- TakeSeal(b);
    Some((AccountState(version, payload, sig, author), b))
  }

  function DecodeBody(tag: Byte, b: Bytes): Option<(Object, Bytes)> {
    match tag
    case 1 => DecodeVault(b)
    case 2 => DecodeItem(b)
    case 3 => DecodeManifest(b)
    case 4 => DecodeGrant(b)
    case 5 => DecodeAudit(b)
    case 6 => DecodeKeyset(b)
    case 7 => DecodeAccountState(b)
    case _ => None
  }

  /** The whole buffer, or nothing. */
  function Decode(bytes: Bytes): Option<Object> {
    var (tag, b) :- TakeOctet(bytes);
    var (o, b) :- DecodeBody(tag, b);
    if b == [] then Some(o) else None
  }

  lemma VaultKeysForth(o: Object, rest: Bytes)
    requires o.Vault? && o.cachePolicy <= 1
    ensures DecodeVaultKeys(o.vaultId, o.syncTarget, PrintVaultKeys(o, rest)) == Some((o, rest))
  {
  }

  lemma VaultForth(o: Object, rest: Bytes)
    requires o.Vault? && o.syncTarget <= 1 && o.cachePolicy <= 1
    ensures DecodeVault(PrintVault(o, rest)) == Some((o, rest))
  {
    VaultKeysForth(o, rest);
  }

  lemma VaultBack(b: Bytes)
    requires DecodeVault(b).Some?
    ensures var (o, rest) := DecodeVault(b).value; o.Vault? && InRange(o) && PrintVault(o, rest) == b
  {
    BlobBack(b);
    var b1 := TakeBlob(b).value.1;
    OctetBack(b1);
    var b2 := TakeOctet(b1).value.1;
    BlobBack(b2);
    var b3 := TakeBlob(b2).value.1;
    BlobBack(b3);
    var b4 := TakeBlob(b3).value.1;
    U64Back(b4);
    var b5 := TakeU64(b4).value.1;
    OctetBack(b5);
    var b6 := TakeOctet(b5).value.1;
    SealBack(b6);
    var b7 := TakeSeal(b6).value.2;
    U64Back(b7);
    var b8 := TakeU64(b7).value.1;
    OctetBack(b8);
  }

  lemma ItemForth(o: Object, rest: Bytes)
    requires o.Item? && InRange(o)
    ensures DecodeItem(PrintItem(o, rest)) == Some((o, rest))
  {
  }

  lemma ItemBack(b: Bytes)
    requires DecodeItem(b).Some?
    ensures var (o, rest) := DecodeItem(b).value; o.Item? && InRange(o) && PrintItem(o, rest) == b
  {
    BlobBack(b);
    var b1 := TakeBlob(b).value.1;
    BlobBack(b1);
    var b2 := TakeBlob(b1).value.1;
    U32Back(b2);
    var b3 := TakeU32(b2).value.1;
    BlobBack(b3);
    var b4 := TakeBlob(b3).value.1;
    BlobBack(b4);
    var b5 := TakeBlob(b4).value.1;
    U64Back(b5);
    var b6 := TakeU64(b5).value.1;
    OctetBack(b6);
    var b7 := TakeOctet(b6).value.1;
    SealBack(b7);
    var b8 := TakeSeal(b7).value.2;
    U64Back(b8);
  }

  lemma ManifestForth(o: Object, rest: Bytes)
    requires o.Manifest? && InRange(o)
    ensures DecodeManifest(PrintManifest(o, rest)) == Some((o, rest))
  {
  }

  lemma ManifestBack(b: Bytes)
    requires DecodeManifest(b).Some?
    ensures var (o, rest) := DecodeManifest(b).value; o.Manifest? && InRange(o) && PrintManifest(o, rest) == b
  {
    BlobBack(b);
    var b1 := TakeBlob(b).value.1;
    U64Back(b1);
    var b2 := TakeU64(b1).value.1;
    BlobBack(b2);
    var b3 := TakeBlob(b2).value.1;
    SealBack(b3);
  }

  lemma GrantForth(o: Object, rest: Bytes)
    requires o.Grant? && InRange(o)
    ensures DecodeGrant(PrintGrant(o, rest)) == Some((o, rest))
  {
  }

  lemma GrantBack(b: Bytes)
    requires DecodeGrant(b).Some?
    ensures var (o, rest) := DecodeGrant(b).value; o.Grant? && InRange(o) && PrintGrant(o, rest) == b
  {
    BlobBack(b);
    var b1 := TakeBlob(b).value.1;
    BlobBack(b1);
    var b2 := TakeBlob(b1).value.1;
    U64Back(b2);
    var b3 := TakeU64(b2).value.1;
    OctetBack(b3);
    var b4 := TakeOctet(b3).value.1;
    U64Back(b4);
    var b5 := TakeU64(b4).value.1;
    BlobBack(b5);
    var b6 := TakeBlob(b5).value.1;
    SealBack(b6);
  }

  lemma AuditForth(o: Object, rest: Bytes)
    requires o.Audit? && InRange(o)
    ensures DecodeAudit(PrintAudit(o, rest)) == Some((o, rest))
  {
  }

  lemma AuditBack(b: Bytes)
    requires DecodeAudit(b).Some?
    ensures var (o, rest) := DecodeAudit(b).value; o.Audit? && InRange(o) && PrintAudit(o, rest) == b
  {
    BlobBack(b);
    var b1 := TakeBlob(b).value.1;
    BlobBack(b1);
    var b2 := TakeBlob(b1).value.1;
    SealBack(b2);
  }

  lemma AccountStateForth(o: Object, rest: Bytes)
    requires o.AccountState? && InRange(o)
    ensures DecodeAccountState(PrintAccountState(o, rest)) == Some((o, rest))
  {
  }

  lemma AccountStateBack(b: Bytes)
    requires DecodeAccountState(b).Some?
    ensures var (o, rest) := DecodeAccountState(b).value;
            o.AccountState? && InRange(o) && PrintAccountState(o, rest) == b
  {
    U64Back(b);
    var b1 := TakeU64(b).value.1;
    BlobBack(b1);
    var b2 := TakeBlob(b1).value.1;
    SealBack(b2);
  }

  lemma BodyForth(o: Object, rest: Bytes)
    requires InRange(o)
    ensures DecodeBody(Tag(o), PrintBody(o, rest)) == Some((o, rest))
  {
    match Tag(o) {
      case 1 => VaultForth(o, rest);
      case 2 => ItemForth(o, rest);
      case 3 => ManifestForth(o, rest);
      case 4 => GrantForth(o, rest);
      case 5 => AuditForth(o, rest);
      case 6 =>
      case 7 => AccountStateForth(o, rest);
    }
  }

  lemma BodyBack(tag: Byte, b: Bytes)
    requires DecodeBody(tag, b).Some?
    ensures var (o, rest) := DecodeBody(tag, b).value; Tag(o) == tag && InRange(o) && PrintBody(o, rest) == b
  {
    match tag {
      case 1 => VaultBack(b);
      case 2 => ItemBack(b);
      case 3 => ManifestBack(b);
      case 4 => GrantBack(b);
      case 5 => AuditBack(b);
      case 6 => BlobBack(b);
      case 7 => AccountStateBack(b);
    }
  }

  /** Decoding undoes printing, and anything after the print is refused. */
  lemma DecodesWhatIsPrinted(o: Object, rest: Bytes)
    requires InRange(o)
    ensures Decode(Print(o, rest)) == if rest == [] then Some(o) else None
  {
    BodyForth(o, rest);
  }

  /** Printing undoes decoding: an accepted buffer is the print of what was read. */
  lemma PrintsWhatWasDecoded(bytes: Bytes)
    requires Decode(bytes).Some?
    ensures InRange(Decode(bytes).value) && Print(Decode(bytes).value, []) == bytes
  {
    OctetBack(bytes);
    BodyBack(bytes[0], bytes[1..]);
  }

  /** Accepted exactly when it is the print of an object, which is then the only one. */
  lemma AcceptedIffPrinted(bytes: Bytes, o: Object)
    ensures Decode(bytes) == Some(o) <==> InRange(o) && Print(o, []) == bytes
  {
    if Decode(bytes) == Some(o) {
      PrintsWhatWasDecoded(bytes);
    }
    if InRange(o) {
      DecodesWhatIsPrinted(o, []);
    }
  }

  lemma VaultThen(o: Object, rest: Bytes)
    requires o.Vault?
    ensures PrintVault(o, rest) == PrintVault(o, []) + rest
  {
    assert rest == [] + rest;
    OctetThen(o.cachePolicy, [], rest);
    var x1 := PutOctet(o.cachePolicy, []);
    U64Then(o.keyEpoch, x1, rest);
    var x2 := PutU64(o.keyEpoch, x1);
    SealThen(o.sig, o.author, x2, rest);
    var x3 := PutSeal(o.sig, o.author, x2);
    OctetThen(o.tombstone, x3, rest);
    var x4 := PutOctet(o.tombstone, x3);
    U64Then(o.version, x4, rest);
    var x5 := PutU64(o.version, x4);
    BlobThen(o.wrappedVk, x5, rest);
    var x6 := PutBlob(o.wrappedVk, x5);
    BlobThen(o.nameBlob, x6, rest);
    var x7 := PutBlob(o.nameBlob, x6);
    OctetThen(o.syncTarget, x7, rest);
    var x8 := PutOctet(o.syncTarget, x7);
    BlobThen(o.vaultId, x8, rest);
  }

  lemma ItemThen(o: Object, rest: Bytes)
    requires o.Item?
    ensures PrintItem(o, rest) == PrintItem(o, []) + rest
  {
    assert rest == [] + rest;
    U64Then(o.keyEpoch, [], rest);
    var x1 := PutU64(o.keyEpoch, []);
    SealThen(o.sig, o.author, x1, rest);
    var x2 := PutSeal(o.sig, o.author, x1);
    OctetThen(o.tombstone, x2, rest);
    var x3 := PutOctet(o.tombstone, x2);
    U64Then(o.version, x3, rest);
    var x4 := PutU64(o.version, x3);
    BlobThen(o.wrappedItemKey, x4, rest);
    var x5 := PutBlob(o.wrappedItemKey, x4);
    BlobThen(o.content, x5, rest);
    var x6 := PutBlob(o.content, x5);
    U32Then(o.itemType, x6, rest);
    var x7 := PutU32(o.itemType, x6);
    BlobThen(o.itemId, x7, rest);
    var x8 := PutBlob(o.itemId, x7);
    BlobThen(o.vaultId, x8, rest);
  }

  lemma ManifestThen(o: Object, rest: Bytes)
    requires o.Manifest?
    ensures PrintManifest(o, rest) == PrintManifest(o, []) + rest
  {
    assert rest == [] + rest;
    SealThen(o.sig, o.author, [], rest);
    var x1 := PutSeal(o.sig, o.author, []);
    BlobThen(o.manifestBlob, x1, rest);
    var x2 := PutBlob(o.manifestBlob, x1);
    U64Then(o.keyEpoch, x2, rest);
    var x3 := PutU64(o.keyEpoch, x2);
    BlobThen(o.vaultId, x3, rest);
  }

  lemma GrantThen(o: Object, rest: Bytes)
    requires o.Grant?
    ensures PrintGrant(o, rest) == PrintGrant(o, []) + rest
  {
    assert rest == [] + rest;
    SealThen(o.sig, o.author, [], rest);
    var x1 := PutSeal(o.sig, o.author, []);
    BlobThen(o.wrappedVk, x1, rest);
    var x2 := PutBlob(o.wrappedVk, x1);
    U64Then(o.notAfter, x2, rest);
    var x3 := PutU64(o.notAfter, x2);
    OctetThen(o.role, x3, rest);
    var x4 := PutOctet(o.role, x3);
    U64Then(o.keyEpoch, x4, rest);
    var x5 := PutU64(o.keyEpoch, x4);
    BlobThen(o.member, x5, rest);
    var x6 := PutBlob(o.member, x5);
    BlobThen(o.vaultId, x6, rest);
  }

  lemma AuditThen(o: Object, rest: Bytes)
    requires o.Audit?
    ensures PrintAudit(o, rest) == PrintAudit(o, []) + rest
  {
    assert rest == [] + rest;
    SealThen(o.sig, o.author, [], rest);
    var x1 := PutSeal(o.sig, o.author, []);
    BlobThen(o.entryBlob, x1, rest);
    var x2 := PutBlob(o.entryBlob, x1);
    BlobThen(o.vaultId, x2, rest);
  }

  lemma AccountStateThen(o: Object, rest: Bytes)
    requires o.AccountState?
    ensures PrintAccountState(o, rest) == PrintAccountState(o, []) + rest
  {
    assert rest == [] + rest;
    SealThen(o.sig, o.author, [], rest);
    var x1 := PutSeal(o.sig, o.author, []);
    BlobThen(o.payload, x1, rest);
    var x2 := PutBlob(o.payload, x1);
    U64Then(o.version, x2, rest);
  }

  lemma PrintThen(o: Object, rest: Bytes)
    ensures Print(o, rest) == Print(o, []) + rest
  {
    match Tag(o) {
      case 1 => VaultThen(o, rest);
      case 2 => ItemThen(o, rest);
      case 3 => ManifestThen(o, rest);
      case 4 => GrantThen(o, rest);
      case 5 => AuditThen(o, rest);
      case 6 =>
        assert rest == [] + rest;
        BlobThen(o.keysetBlob, [], rest);
      case 7 => AccountStateThen(o, rest);
    }
    OctetThen(Tag(o), PrintBody(o, []), rest);
  }

  /** No buffer that is accepted is a proper prefix of another. */
  lemma AcceptedArePrefixFree(bytes: Bytes, tail: Bytes)
    requires Decode(bytes).Some? && tail != []
    ensures Decode(bytes + tail) == None
  {
    var o := Decode(bytes).value;
    PrintsWhatWasDecoded(bytes);
    PrintThen(o, tail);
    DecodesWhatIsPrinted(o, tail);
  }

  // ---------- the columns the server indexes ----------

  datatype Columns = Columns(
    tag: Byte,
    vaultId: Option<Bytes> := None,
    itemId: Option<Bytes> := None,
    memberPubkey: Option<Bytes> := None,
    objVersion: Option<U64> := None,
    keyEpoch: Option<U64> := None,
    tombstone: Option<bool> := None,
    itemType: Option<U32> := None,
    syncTarget: Option<Byte> := None,
    cachePolicy: Option<Byte> := None,
    role: Option<Byte> := None,
    notAfter: Option<I64> := None,
    authorPubkey: Option<Bytes> := None,
    signature: Option<Bytes> := None,
    manifestBlob: Option<Bytes> := None,
    wrappedVk: Option<Bytes> := None,
    entryBlob: Option<Bytes> := None)

  function VaultColumns(o: Object): Columns
    requires o.Vault?
  {
    Columns(1, vaultId := Some(o.vaultId), objVersion := Some(o.version), keyEpoch := Some(o.keyEpoch),
            tombstone := Some(o.tombstone != 0), syncTarget := Some(o.syncTarget), cachePolicy := Some(o.cachePolicy),
            authorPubkey := Some(o.author), signature := Some(o.sig))
  }

  function ItemColumns(o: Object): Columns
    requires o.Item?
  {
    Columns(2, vaultId := Some(o.vaultId), itemId := Some(o.itemId),
            objVersion := Some(o.version), keyEpoch := Some(o.keyEpoch),
            tombstone := Some(o.tombstone != 0), itemType := Some(o.itemType),
            authorPubkey := Some(o.author), signature := Some(o.sig))
  }

  function ManifestColumns(o: Object): Columns
    requires o.Manifest?
  {
    Columns(3, vaultId := Some(o.vaultId), keyEpoch := Some(o.keyEpoch), manifestBlob := Some(o.manifestBlob),
            authorPubkey := Some(o.author), signature := Some(o.sig))
  }

  function GrantColumns(o: Object): Columns
    requires o.Grant?
  {
    Columns(4, vaultId := Some(o.vaultId), memberPubkey := Some(o.member),
            keyEpoch := Some(o.keyEpoch), role := Some(o.role),
            notAfter := Some(Signed(o.notAfter)), wrappedVk := Some(o.wrappedVk),
            authorPubkey := Some(o.author), signature := Some(o.sig))
  }

  function AuditColumns(o: Object): Columns
    requires o.Audit?
  {
    Columns(5, vaultId := Some(o.vaultId), entryBlob := Some(o.entryBlob),
            authorPubkey := Some(o.author), signature := Some(o.sig))
  }

  function AccountStateColumns(o: Object): Columns
    requires o.AccountState?
  {
    Columns(7, objVersion := Some(o.version), authorPubkey := Some(o.author), signature := Some(o.sig))
  }

  function OpenColumns(o: Object): Columns {
    if o.Vault? then VaultColumns(o)
    else if o.Item? then ItemColumns(o)
    else if o.Manifest? then ManifestColumns(o)
    else if o.Grant? then GrantColumns(o)
    else if o.Audit? then AuditColumns(o)
    else if o.Keyset? then Columns(6)
    else AccountStateColumns(o)
  }

  /** The columns an object's tag fills, field by field. */
  ghost predicate IdsIndexed(c: Columns, o: Object) {
    && c.tag == Tag(o)
    && c.vaultId == (if o.Keyset? || o.AccountState? then None else Some(o.vaultId))
    && c.itemId == (if o.Item? then Some(o.itemId) else None)
    && c.memberPubkey == (if o.Grant? then Some(o.member) else None)
    && c.authorPubkey == (if o.Keyset? then None else Some(o.author))
    && c.signature == (if o.Keyset? then None else Some(o.sig))
  }

  ghost predicate NumbersIndexed(c: Columns, o: Object) {
    && c.objVersion == (if o.Vault? || o.Item? || o.AccountState? then Some(o.version) else None)
    && c.keyEpoch == (if o.Vault? || o.Item? || o.Manifest? || o.Grant? then Some(o.keyEpoch) else None)
    && c.itemType == (if o.Item? then Some(o.itemType) else None)
    && c.syncTarget == (if o.Vault? then Some(o.syncTarget) else None)
    && c.cachePolicy == (if o.Vault? then Some(o.cachePolicy) else None)
    && c.role == (if o.Grant? then Some(o.role) else None)
  }

  /** A record is indexed as deleted exactly when its tombstone byte is not 0, and an expiry
      is the number whose two's complement was sent. */
  ghost predicate StateIndexed(c: Columns, o: Object) {
    && (c.tombstone.Some? <==> o.Vault? || o.Item?)
    && (c.tombstone == Some(true) ==> o.tombstone != 0) && (c.tombstone == Some(false) ==> o.tombstone == 0)
    && (c.notAfter.Some? <==> o.Grant?) && (o.Grant? ==> Unsigned(c.notAfter.value) == o.notAfter)
  }

  ghost predicate BlobsIndexed(c: Columns, o: Object) {
    && c.manifestBlob == (if o.Manifest? then Some(o.manifestBlob) else None)
    && c.wrappedVk == (if o.Grant? then Some(o.wrappedVk) else None)
    && c.entryBlob == (if o.Audit? then Some(o.entryBlob) else None)
  }

  ghost predicate Indexed(c: Columns, o: Object) {
    IdsIndexed(c, o) && NumbersIndexed(c, o) && StateIndexed(c, o) && BlobsIndexed(c, o)
  }

  lemma ColumnsIndexed(o: Object)
    ensures Indexed(OpenColumns(o), o)
  {
    if o.Grant? {
      SignedUnsigned(0, o.notAfter);
    }
  }

  /** The cursor over a buffer; each read moves it past the field. */
  class Reader {
    var b: Bytes

    constructor (bytes: Bytes)
      ensures b == bytes
    {
      b := bytes;
    }

    method U8() returns (r: Option<Byte>)
      modifies this
      ensures r.Some? <==> TakeOctet(old(b)).Some?
      ensures r.Some? ==> r.value == TakeOctet(old(b)).value.0 && b == TakeOctet(old(b)).value.1
    {
      if b == [] {
        return None;
      }
      r := Some(b[0]);
      b := b[1..];
    }

    method Take(n: nat) returns (r: Option<Bytes>)
      modifies this
      ensures r.Some? <==> TakeBytes(old(b), n).Some?
      ensures r.Some? ==> r.value == TakeBytes(old(b), n).value.0 && b == TakeBytes(old(b), n).value.1
    {
      if |b| < n {
        return None;
      }
      r := Some(b[..n]);
      b := b[n..];
    }

    method Word32() returns (r: Option<U32>)
      modifies this
      ensures r.Some? <==> TakeU32(old(b)).Some?
      ensures r.Some? ==> r.value == TakeU32(old(b)).value.0 && b == TakeU32(old(b)).value.1
    {
      var s :- Take(4);
      Widths();
      r := Some(FromBe(s));
    }

    method Word64() returns (r: Option<U64>)
      modifies this
      ensures r.Some? <==> TakeU64(old(b)).Some?
      ensures r.Some? ==> r.value == TakeU64(old(b)).value.0 && b == TakeU64(old(b)).value.1
    {
      var s :- Take(8);
      Widths();
      r := Some(FromBe(s));
    }

    method Field() returns (r: Option<Bytes>)
      modifies this
      ensures r.Some? <==> TakeBlob(old(b)).Some?
      ensures r.Some? ==> r.value == TakeBlob(old(b)).value.0 && b == TakeBlob(old(b)).value.1
      ensures r.Some? ==> |r.value| < 0x1_0000_0000
    {
      var n :- Word32();
      r := Take(n);
    }

    /** The signature and its author, which every signed object carries in a row. */
    method Seal() returns (r: Option<(Bytes, Bytes)>)
      modifies this
      ensures r.Some? <==> TakeSeal(old(b)).Some?
      ensures r.Some? ==> r.value.0 == TakeSeal(old(b)).value.0 && r.value.1 == TakeSeal(old(b)).value.1
      ensures r.Some? ==> b == TakeSeal(old(b)).value.2
    {
      var sig :- Field();
      var author :- Field();
      r := Some((sig, author));
    }
  }

  method OpenVault(r: Reader) returns (c: Option<Columns>)
    modifies r
    ensures c.Some? <==> DecodeVault(old(r.b)).Some?
    ensures c.Some? ==> var (o, rest) := DecodeVault(old(r.b)).value;
                        o.Vault? && c.value == VaultColumns(o) && r.b == rest
  {
    var p := Columns(1);
    var v :- r.Field();
    p := p.(vaultId := Some(v));
    var st :- r.U8();
    if st > 1 {
      return None;
    }
    p := p.(syncTarget := Some(st));
    var nameBlob :- r.Field();
    var wrappedVk :- r.Field();
    var version :- r.Word64();
    p := p.(objVersion := Some(version));
    var tombstone :- r.U8();
    p := p.(tombstone := Some(tombstone != 0));
    var seal :- r.Seal();
    p := p.(signature := Some(seal.0), authorPubkey := Some(seal.1));
    var epoch :- r.Word64();
    p := p.(keyEpoch := Some(epoch));
    var cp :- r.U8();
    if cp > 1 {
      return None;
    }
    c := Some(p.(cachePolicy := Some(cp)));
  }

  method OpenItem(r: Reader) returns (c: Option<Columns>)
    modifies r
    ensures c.Some? <==> DecodeItem(old(r.b)).Some?
    ensures c.Some? ==> var (o, rest) := DecodeItem(old(r.b)).value;
                        o.Item? && c.value == ItemColumns(o) && r.b == rest
  {
    var p := Columns(2);
    var v :- r.Field();
    p := p.(vaultId := Some(v));
    var i :- r.Field();
    p := p.(itemId := Some(i));
    var kind :- r.Word32();
    p := p.(itemType := Some(kind));
    var content :- r.Field();
    var wrappedItemKey :- r.Field();
    var version :- r.Word64();
    p := p.(objVersion := Some(version));
    var tombstone :- r.U8();
    p := p.(tombstone := Some(tombstone != 0));
    var seal :- r.Seal();
    p := p.(signature := Some(seal.0), authorPubkey := Some(seal.1));
    var epoch :- r.Word64();
    c := Some(p.(keyEpoch := Some(epoch)));
  }

  method OpenManifest(r: Reader) returns (c: Option<Columns>)
    modifies r
    ensures c.Some? <==> DecodeManifest(old(r.b)).Some?
    ensures c.Some? ==> var (o, rest) := DecodeManifest(old(r.b)).value;
                        o.Manifest? && c.value == ManifestColumns(o) && r.b == rest
  {
    var p := Columns(3);
    var v :- r.Field();
    p := p.(vaultId := Some(v));
    var epoch :- r.Word64();
    p := p.(keyEpoch := Some(epoch));
    var manifest :- r.Field();
    p := p.(manifestBlob := Some(manifest));
    var seal :- r.Seal();
    c := Some(p.(signature := Some(seal.0), authorPubkey := Some(seal.1)));
  }

  method OpenGrant(r: Reader) returns (c: Option<Columns>)
    modifies r
    ensures c.Some? <==> DecodeGrant(old(r.b)).Some?
    ensures c.Some? ==> var (o, rest) := DecodeGrant(old(r.b)).value;
                        o.Grant? && c.value == GrantColumns(o) && r.b == rest
  {
    var p := Columns(4);
    var v :- r.Field();
    p := p.(vaultId := Some(v));
    var member :- r.Field();
    p := p.(memberPubkey := Some(member));
    var epoch :- r.Word64();
    p := p.(keyEpoch := Some(epoch));
    var role :- r.U8();
    if role > 2 {
      return None;
    }
    p := p.(role := Some(role));
    var notAfter :- r.Word64();
    p := p.(notAfter := Some(Signed(notAfter)));
    var vk :- r.Field();
    p := p.(wrappedVk := Some(vk));
    var seal :- r.Seal();
    c := Some(p.(signature := Some(seal.0), authorPubkey := Some(seal.1)));
  }

  method OpenAudit(r: Reader) returns (c: Option<Columns>)
    modifies r
    ensures c.Some? <==> DecodeAudit(old(r.b)).Some?
    ensures c.Some? ==> var (o, rest) := DecodeAudit(old(r.b)).value;
                        o.Audit? && c.value == AuditColumns(o) && r.b == rest
  {
    var p := Columns(5);
    var v :- r.Field();
    p := p.(vaultId := Some(v));
    var entry :- r.Field();
    p := p.(entryBlob := Some(entry));
    var seal :- r.Seal();
    c := Some(p.(signature := Some(seal.0), authorPubkey := Some(seal.1)));
  }

  method OpenAccountState(r: Reader) returns (c: Option<Columns>)
    modifies r
    ensures c.Some? <==> DecodeAccountState(old(r.b)).Some?
    ensures c.Some? ==> var (o, rest) := DecodeAccountState(old(r.b)).value;
                        o.AccountState? && c.value == AccountStateColumns(o) && r.b == rest
  {
    var p := Columns(7);
    var version :- r.Word64();
    p := p.(objVersion := Some(version));
    var payload :- r.Field();
    var seal :- r.Seal();
    c := Some(p.(signature := Some(seal.0), authorPubkey := Some(seal.1)));
  }

  /** `parse_open`: the columns of the one object the buffer prints, or an error
      when it prints none. */
  method ParseOpen(bytes: Bytes) returns (c: Option<Columns>)
    ensures c.Some? ==> exists o :: InRange(o) && Print(o, []) == bytes && Indexed(c.value, o)
    ensures c.None? ==> forall o :: InRange(o) ==> Print(o, []) != bytes
    ensures c == if Decode(bytes).Some? then Some(OpenColumns(Decode(bytes).value)) else None
  {
    forall o | InRange(o)
      ensures Print(o, []) == bytes ==> Decode(bytes).Some?
    {
      DecodesWhatIsPrinted(o, []);
    }
    if Decode(bytes).Some? {
      PrintsWhatWasDecoded(bytes);
      ColumnsIndexed(Decode(bytes).value);
    }
    var r := new Reader(bytes);
    var tag :- r.U8();
    match tag {
      case 1 => c := OpenVault(r);
      case 2 => c := OpenItem(r);
      case 3 => c := OpenManifest(r);
      case 4 => c := OpenGrant(r);
      case 5 => c := OpenAudit(r);
      case 6 =>
        var keysetBlob :- r.Field();
        c := Some(Columns(6));
      case 7 => c := OpenAccountState(r);
      case _ => return None;
    }
    if c.Some? && r.b != [] {
      c := None;
    }
  }
}
