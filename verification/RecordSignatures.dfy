/** What gets signed (server/src/crypto.rs): the second, independent parser over
    the same blobs, the canonical encoders, and why no two messages coincide.

    Ed25519 and SHA-256 stay abstract: a digest is 32 bytes, a signature check a
    predicate on key, message and signature. */
module RecordSignatures {
  import opened Wrappers
  import opened ByteStrings
  import opened ObjectCodec

  type Digest = b: Bytes | |b| == 32 witness seq(32, _ => 0)
  type Key = b: Bytes | |b| == 32 witness seq(32, _ => 0)

  datatype Crypto = Crypto(sha256: Bytes -> Digest, isPoint: Key -> bool, verifies: (Key, Bytes, Bytes) -> bool)

  // ---------- messages ----------

  /** Everything any client signs. */
  datatype Message =
    | RecordMessage(vaultId: Bytes, itemId: Bytes, version: U64, digest: Digest)
    | AccountMessage(version: U64, digest: Digest)
    | RegistrationMessage(payload: Bytes)
    | ServerAuthMessage(payload: Bytes)
    | AuditMessage(payload: Bytes)

  predicate Encodable(m: Message) {
    m.RecordMessage? ==> |m.vaultId| < 0x1_0000 && |m.itemId| < 0x1_0000
  }

  function RecordDomain(): (d: Bytes)
    ensures |d| == 13 && d[0] == 'u' as int && d[7] == 's' as int
  {
    var d := "unissh-sig-v1";
    assert d[0] == 'u' && d[7] == 's';
    Ascii(d)
  }

  function AccountStateDomain(): (d: Bytes)
    ensures |d| == 23 && d[0] == 'u' as int && d[7] == 'a' as int
  {
    var d := "unissh-account-state-v1";
    assert d[0] == 'u' && d[7] == 'a';
    Ascii(d)
  }

  function RegistrationDomain(): (d: Bytes)
    ensures |d| == 22
  {
    Ascii("unissh-registration-v1")
  }

  function ServerAuthDomain(): (d: Bytes)
    ensures |d| == 21
  {
    Ascii("unissh-server-auth-v1")
  }

  function AuditDomain(): (d: Bytes)
    ensures |d| == 15
  {
    Ascii("unissh-audit-v1")
  }

  function GrantDomain(): Bytes { Ascii("unissh-grant-v1") }

  /** The ids that stand in for an item's in the records of a vault and of its manifest. */
  function VaultMarker(): Bytes { Ascii("__vault__") }

  function ManifestMarker(): Bytes { Ascii("__manifest__") }

  function Aad(vaultId: Bytes, itemId: Bytes, version: U64, rest: Bytes): Bytes
    requires |vaultId| < 0x1_0000 && |itemId| < 0x1_0000
  {
    PutShort(vaultId, PutShort(itemId, PutU64(version, rest)))
  }

  function MessageBytes(m: Message): Bytes
    requires Encodable(m)
  {
    match m
    case RecordMessage(v, i, version, digest) => RecordDomain() + Aad(v, i, version, digest)
    case AccountMessage(version, digest) => AccountStateDomain() + PutU64(version, digest)
    case RegistrationMessage(payload) => PutShort(RegistrationDomain(), payload)
    case ServerAuthMessage(payload) => PutShort(ServerAuthDomain(), payload)
    case AuditMessage(payload) => PutShort(AuditDomain(), payload)
  }

  /** The message's own marks: its first byte, and one more. */
  lemma Marks(m: Message)
    requires Encodable(m)
    ensures var b := MessageBytes(m);
            && |b| > 7
            && (m.RecordMessage? <==> b[0] == 'u' as int && b[7] == 's' as int)
            && (m.AccountMessage? <==> b[0] == 'u' as int && b[7] == 'a' as int)
            && (m.RegistrationMessage? <==> b[0] == 0 && b[1] == 22)
            && (m.ServerAuthMessage? <==> b[0] == 0 && b[1] == 21)
            && (m.AuditMessage? <==> b[0] == 0 && b[1] == 15)
  {
    if !m.RecordMessage? && !m.AccountMessage? {
      var n := if m.RegistrationMessage? then 22 else if m.ServerAuthMessage? then 21 else 15;
      assert Be(2, n) == [0, n];
      assert MessageBytes(m)[..2] == Be(2, n);
    }
  }

  lemma Stripped(p: Bytes, x: Bytes, y: Bytes)
    requires p + x == p + y
    ensures x == y
  {
    assert x == (p + x)[|p|..] && y == (p + y)[|p|..];
  }

  /** No two messages share their bytes, in one domain or across domains. */
  lemma MessagesAreUnambiguous(m: Message, n: Message)
    requires Encodable(m) && Encodable(n) && MessageBytes(m) == MessageBytes(n)
    ensures m == n
  {
    Marks(m);
    Marks(n);
    match m {
      case RecordMessage(v, i, version, digest) =>
        Stripped(RecordDomain(), Aad(v, i, version, digest), Aad(n.vaultId, n.itemId, n.version, n.digest));
      case AccountMessage(version, digest) =>
        Stripped(AccountStateDomain(), PutU64(version, digest), PutU64(n.version, n.digest));
      case _ =>
    }
  }

  // ---------- signed contents ----------

  function GrantContent(role: Byte, notAfter: U64, wrappedVk: Bytes): Bytes {
    GrantDomain() + PutOctet(role, PutU64(notAfter, wrappedVk))
  }

  /** The domain, the role, the expiry and the wrapped key, in this order. */
  lemma GrantContentInARow(role: Byte, notAfter: U64, wrappedVk: Bytes)
    ensures GrantContent(role, notAfter, wrappedVk) == Ascii("unissh-grant-v1") + [role] + Be(8, notAfter) + wrappedVk
  {
  }

  lemma GrantContentIsUnambiguous(role: Byte, notAfter: U64, vk: Bytes, role': Byte, notAfter': U64, vk': Bytes)
    requires GrantContent(role, notAfter, vk) == GrantContent(role', notAfter', vk')
    ensures role == role' && notAfter == notAfter' && vk == vk'
  {
    Stripped(GrantDomain(), PutOctet(role, PutU64(notAfter, vk)), PutOctet(role', PutU64(notAfter', vk')));
    assert PutU64(notAfter, vk) == PutU64(notAfter', vk');
  }

  lemma SplitNeedsALength(x: Bytes, y: Bytes, x': Bytes, y': Bytes)
    requires x + y == x' + y'
    ensures x == x' && y == y' <==> |x| == |x'|
  {
    if |x| == |x'| {
      assert x == (x + y)[..|x|] && x' == (x' + y')[..|x'|];
      Stripped(x, y, y');
    }
  }

  // ---------- the second parser ----------

  /** What `verify_record_sig` takes out of a blob. */
  datatype Signing =
    | Versioned(author: Bytes, vaultId: Bytes, itemId: Bytes, version: U64, content: Bytes, sig: Bytes)
    | Account(author: Bytes, version: U64, payload: Bytes, sig: Bytes)
    | Unsigned

  function ReadVault(b: Bytes): Option<Signing> {
    var (v, b) :- TakeBlob(b);
    var (_, b) :- TakeOctet(b);
    var (name, b) :- TakeBlob(b);
    var (vk, b) :- TakeBlob(b);
    var (version, b) :- TakeU64(b);
    var (_, b) :- TakeOctet(b);
    var (sig, author, b) :- TakeSeal(b);
    Some(Versioned(author, v, VaultMarker(), version, vk + name, sig))
  }

  function ReadItem(b: Bytes): Option<Signing> {
    var (v, b) :- TakeBlob(b);
    var (i, b) :- TakeBlob(b);
    var (_, b) :- TakeU32(b);
    var (content, b) :- TakeBlob(b);
    var (_, b) :- TakeBlob(b);
    var (version, b) :- TakeU64(b);
    var (_, b) :- TakeOctet(b);
    var (sig, author, b) :- TakeSeal(b);
    Some(Versioned(author, v, i, version, content, sig))
  }

  function ReadManifest(b: Bytes): Option<Signing> {
    var (v, b) :- TakeBlob(b);
    var (epoch, b) :- TakeU64(b);
    var (manifest, b) :- TakeBlob(b);
    var (sig, author, b) :- TakeSeal(b);
    Some(Versioned(author, v, ManifestMarker(), epoch, manifest, sig))
  }

  function ReadGrant(b: Bytes): Option<Signing> {
    var (v, b) :- TakeBlob(b);
    var (member, b) :- TakeBlob(b);
    var (epoch, b) :- TakeU64(b);
    var (role, b) :- TakeOctet(b);
    var (notAfter, b) :- TakeU64(b);
    var (vk, b) :- TakeBlob(b);
    var (sig, author, b) :- TakeSeal(b);
    Some(Versioned(author, v, member, epoch, GrantContent(role, notAfter, vk), sig))
  }

  function ReadAccountState(b: Bytes): Option<Signing> {
    var (version, b) :- TakeU64(b);
    var (payload, b) :- TakeBlob(b);
    var (sig, author, b) :- TakeSeal(b);
    Some(Account(author, version, payload, sig))
  }

  function ReadBody(tag: Byte, b: Bytes): Option<Signing> {
    match tag
    case 1 => ReadVault(b)
    case 2 => ReadItem(b)
    case 3 => ReadManifest(b)
    case 4 => ReadGrant(b)
    case 5 => Some(Unsigned)
    case 6 => Some(Unsigned)
    case 7 => ReadAccountState(b)
    case _ => None
  }

  function ReadSigning(bytes: Bytes): Option<Signing> {
    var (tag, b) :- TakeOctet(bytes);
    ReadBody(tag, b)
  }

  /** What an object has signed. */
  function SigningOf(o: Object): Signing {
    if o.Vault? then Versioned(o.author, o.vaultId, VaultMarker(), o.version, o.wrappedVk + o.nameBlob, o.sig)
    else if o.Item? then Versioned(o.author, o.vaultId, o.itemId, o.version, o.content, o.sig)
    else if o.Manifest? then Versioned(o.author, o.vaultId, ManifestMarker(), o.keyEpoch, o.manifestBlob, o.sig)
    else if o.Grant? then
      Versioned(o.author, o.vaultId, o.member, o.keyEpoch, GrantContent(o.role, o.notAfter, o.wrappedVk), o.sig)
    else if o.AccountState? then Account(o.author, o.version, o.payload, o.sig)
    else Unsigned
  }

  lemma ReadsVault(o: Object, rest: Bytes)
    requires o.Vault?
    ensures ReadVault(PrintVault(o, rest)) == Some(SigningOf(o))
  {
  }

  lemma ReadsItem(o: Object, rest: Bytes)
    requires o.Item?
    ensures ReadItem(PrintItem(o, rest)) == Some(SigningOf(o))
  {
  }

  lemma ReadsManifest(o: Object, rest: Bytes)
    requires o.Manifest?
    ensures ReadManifest(PrintManifest(o, rest)) == Some(SigningOf(o))
  {
  }

  lemma ReadsGrant(o: Object, rest: Bytes)
    requires o.Grant?
    ensures ReadGrant(PrintGrant(o, rest)) == Some(SigningOf(o))
  {
  }

  lemma ReadsAccountState(o: Object, rest: Bytes)
    requires o.AccountState?
    ensures ReadAccountState(PrintAccountState(o, rest)) == Some(SigningOf(o))
  {
  }

  lemma ReadsBody(o: Object, rest: Bytes)
    ensures ReadBody(Tag(o), PrintBody(o, rest)) == Some(SigningOf(o))
  {
    match Tag(o) {
      case 1 => ReadsVault(o, rest);
      case 2 => ReadsItem(o, rest);
      case 3 => ReadsManifest(o, rest);
      case 4 => ReadsGrant(o, rest);
      case 5 =>
      case 6 =>
      case 7 => ReadsAccountState(o, rest);
    }
  }

  /** The second parser reads what an object has signed out of its print; whatever
      follows the print it does not look at. */
  lemma SecondParserReads(o: Object, rest: Bytes)
    ensures ReadSigning(Print(o, rest)) == Some(SigningOf(o))
  {
    ReadsBody(o, rest);
  }

  /** The columns and what is signed name the same object. */
  ghost predicate Matches(c: Columns, s: Signing) {
    match s
    case Unsigned => c.tag == 5 || c.tag == 6
    case Account(author, version, _, sig) =>
      c.tag == 7 && c.authorPubkey == Some(author) && c.signature == Some(sig) && c.objVersion == Some(version)
    case Versioned(author, v, i, version, content, sig) =>
      && 1 <= c.tag <= 4
      && c.authorPubkey == Some(author) && c.signature == Some(sig) && c.vaultId == Some(v)
      && Some(version) == (if c.tag <= 2 then c.objVersion else c.keyEpoch)
      && Some(i) == (match c.tag
                     case 1 => Some(VaultMarker())
                     case 2 => c.itemId
                     case 3 => Some(ManifestMarker())
                     case _ => c.memberPubkey)
      && (c.tag == 3 ==> c.manifestBlob == Some(content))
      && (c.tag == 4 ==>
            && c.role.Some? && c.notAfter.Some? && c.wrappedVk.Some?
            && content == GrantContent(c.role.value, ByteStrings.Unsigned(c.notAfter.value), c.wrappedVk.value))
  }

  lemma ColumnsMatchSigning(o: Object)
    ensures Matches(OpenColumns(o), SigningOf(o))
  {
    if o.Grant? {
      SignedUnsigned(0, o.notAfter);
    }
  }

  /** Whatever the strict codec accepts, the second parser reads too, and takes out of
      it exactly the identities, versions and grant terms the server indexes. */
  lemma ParsersAgree(bytes: Bytes)
    requires Decode(bytes).Some?
    ensures ReadSigning(bytes) == Some(SigningOf(Decode(bytes).value))
    ensures Matches(OpenColumns(Decode(bytes).value), ReadSigning(bytes).value)
  {
    var o := Decode(bytes).value;
    PrintsWhatWasDecoded(bytes);
    SecondParserReads(o, []);
    ColumnsMatchSigning(o);
  }

  /** On its own the second parser is not strict: it reads the same with anything
      appended, which the codec refuses. */
  lemma SecondParserIgnoresTail(bytes: Bytes, tail: Bytes)
    requires Decode(bytes).Some? && tail != []
    ensures ReadSigning(bytes + tail) == ReadSigning(bytes)
    ensures Decode(bytes + tail) == None
  {
    var o := Decode(bytes).value;
    PrintsWhatWasDecoded(bytes);
    PrintThen(o, tail);
    SecondParserReads(o, []);
    SecondParserReads(o, tail);
    AcceptedArePrefixFree(bytes, tail);
  }

  // ---------- verification ----------

  /** `parse_sig_blob`: a three-byte header and the 64-byte signature. */
  function ParseSigBlob(blob: Bytes): Option<Bytes> {
    if |blob| == 67 && blob[0] == 1 && FromBe(blob[1..3]) == 0x20 then Some(blob[3..]) else None
  }

  lemma SigBlobIff(blob: Bytes, raw: Bytes)
    ensures ParseSigBlob(blob) == Some(raw) <==> |raw| == 64 && blob == [1, 0, 0x20] + raw
  {
    assert Be(2, 0x20) == [0, 0x20];
    Widths();
    FromBeOfBe(2, 0x20);
    if |blob| == 67 {
      BeOfFromBe(blob[1..3]);
      assert blob == blob[..1] + blob[1..3] + blob[3..];
    }
    if blob == [1, 0, 0x20] + raw {
      assert |raw| == 64 ==> blob[1..3] == [0, 0x20] && blob[3..] == raw;
    }
  }

  /** The message a signing is over; `None` when an id does not fit its length. */
  function MessageOf(crypto: Crypto, s: Signing): (m: Option<Message>)
    requires !s.Unsigned?
    ensures m.Some? ==> Encodable(m.value)
  {
    match s
    case Versioned(_, v, i, version, content, _) =>
      if |v| < 0x1_0000 && |i| < 0x1_0000 then Some(RecordMessage(v, i, version, crypto.sha256(content))) else None
    case Account(_, version, payload, _) => Some(AccountMessage(version, crypto.sha256(payload)))
  }

  /** Two signed objects have the same message exactly when they agree on vault, on
      item (or the id that stands for it), on version and on the digest of the content. */
  lemma SameMessageIff(crypto: Crypto, o: Object, o': Object)
    requires var s, s' := SigningOf(o), SigningOf(o');
             !s.Unsigned? && !s'.Unsigned? && MessageOf(crypto, s).Some? && MessageOf(crypto, s').Some?
    ensures var s, s' := SigningOf(o), SigningOf(o');
            MessageBytes(MessageOf(crypto, s).value) == MessageBytes(MessageOf(crypto, s').value) <==>
            if s.Account? then
              s'.Account? && s.version == s'.version && crypto.sha256(s.payload) == crypto.sha256(s'.payload)
            else s'.Versioned? && s.vaultId == s'.vaultId && s.itemId == s'.itemId && s.version == s'.version
                 && crypto.sha256(s.content) == crypto.sha256(s'.content)
  {
    var m, m' := MessageOf(crypto, SigningOf(o)).value, MessageOf(crypto, SigningOf(o')).value;
    if MessageBytes(m) == MessageBytes(m') {
      MessagesAreUnambiguous(m, m');
    }
  }

  /** The two have the same message, and not for a collision of their contents' digests. */
  ghost predicate OneMessage(crypto: Crypto, o: Object, o': Object)
    requires SigningOf(o).Versioned? && SigningOf(o').Versioned?
  {
    var s, s' := SigningOf(o), SigningOf(o');
    && MessageOf(crypto, s).Some? && MessageOf(crypto, s').Some?
    && MessageBytes(MessageOf(crypto, s).value) == MessageBytes(MessageOf(crypto, s').value)
    && (crypto.sha256(s.content) == crypto.sha256(s'.content) ==> s.content == s'.content)
  }

  /** With no digest shared by two contents, a grant's message fixes every term of the
      grant: no other grant, and no other member, role or expiry, is signed by it. */
  lemma GrantMessageFixesTerms(crypto: Crypto, o: Object, o': Object)
    requires o.Grant? && o'.Grant?
    ensures OneMessage(crypto, o, o') ==>
              && o.vaultId == o'.vaultId && o.member == o'.member && o.keyEpoch == o'.keyEpoch
              && o.role == o'.role && o.notAfter == o'.notAfter && o.wrappedVk == o'.wrappedVk
  {
    if OneMessage(crypto, o, o') {
      SameMessageIff(crypto, o, o');
      GrantContentIsUnambiguous(o.role, o.notAfter, o.wrappedVk, o'.role, o'.notAfter, o'.wrappedVk);
    }
  }

  /** A vault's content is its wrapped key followed by its name, with nothing between:
      without a digest collision its message fixes vault and version, and key and name
      exactly when the key's length is known. */
  lemma VaultMessageFixesTermsIff(crypto: Crypto, o: Object, o': Object)
    requires o.Vault? && o'.Vault?
    ensures OneMessage(crypto, o, o') ==>
              && o.vaultId == o'.vaultId && o.version == o'.version
              && (o.wrappedVk == o'.wrappedVk && o.nameBlob == o'.nameBlob <==> |o.wrappedVk| == |o'.wrappedVk|)
  {
    if OneMessage(crypto, o, o') {
      SameMessageIff(crypto, o, o');
      SplitNeedsALength(o.wrappedVk, o.nameBlob, o'.wrappedVk, o'.nameBlob);
    }
  }

  /** The boundary can be anywhere: every cut of a vault's content makes a vault that is
      accepted and has the same message. */
  lemma AnyCutSharesMessage(crypto: Crypto, o: Object, i: nat)
    requires o.Vault? && InRange(o) && MessageOf(crypto, SigningOf(o)).Some?
    requires |o.wrappedVk| + |o.nameBlob| < 0x1_0000_0000 && i <= |o.wrappedVk| + |o.nameBlob|
    ensures var content := o.wrappedVk + o.nameBlob;
            var o' := o.(wrappedVk := content[..i], nameBlob := content[i..]);
            && Decode(Print(o', [])) == Some(o')
            && MessageOf(crypto, SigningOf(o')) == MessageOf(crypto, SigningOf(o))
  {
    var content := o.wrappedVk + o.nameBlob;
    var o' := o.(wrappedVk := content[..i], nameBlob := content[i..]);
    assert content[..i] + content[i..] == content;
    DecodesWhatIsPrinted(o', []);
  }

  lemma SmallVault() returns (o: Object)
    ensures o.Vault? && InRange(o) && o.vaultId == [] && o.wrappedVk == [2] && o.nameBlob == [1]
  {
    o := Vault([], 0, [1], [2], 1, 0, [], [], 1, 0);
  }

  /** Two accepted vaults with different keys and names and one message. */
  lemma TwoVaultsOneMessage(crypto: Crypto) returns (o: Object, o': Object)
    ensures Decode(Print(o, [])) == Some(o) && Decode(Print(o', [])) == Some(o')
    ensures o.Vault? && o'.Vault? && o.wrappedVk != o'.wrappedVk && o.nameBlob != o'.nameBlob
    ensures MessageOf(crypto, SigningOf(o)).Some? && MessageOf(crypto, SigningOf(o)) == MessageOf(crypto, SigningOf(o'))
  {
    o := SmallVault();
    DecodesWhatIsPrinted(o, []);
    AnyCutSharesMessage(crypto, o, 2);
    o' := o.(wrappedVk := (o.wrappedVk + o.nameBlob)[..2], nameBlob := (o.wrappedVk + o.nameBlob)[2..]);
  }

  /** A message does not say what kind of record it is for. That of an item or a grant is
      a vault's or a manifest's exactly when its id is the one that stands in there and
      vault, version and content digest agree. */
  lemma StandInSharesMessageIff(crypto: Crypto, o: Object, o': Object)
    requires (o.Item? || o.Grant?) && (o'.Vault? || o'.Manifest?)
    requires MessageOf(crypto, SigningOf(o)).Some? && MessageOf(crypto, SigningOf(o')).Some?
    ensures var s, s' := SigningOf(o), SigningOf(o');
            MessageBytes(MessageOf(crypto, s).value) == MessageBytes(MessageOf(crypto, s').value) <==>
            && (if o.Item? then o.itemId else o.member)
               == (if o'.Vault? then Ascii("__vault__") else Ascii("__manifest__"))
            && o.vaultId == o'.vaultId && s.version == s'.version
            && crypto.sha256(s.content) == crypto.sha256(s'.content)
  {
    SameMessageIff(crypto, o, o');
  }

  /** Every vault has such an item: accepted, with the stand-in id and the vault's content,
      and with the vault's message. */
  lemma StandInItem(crypto: Crypto, o: Object)
    requires o.Vault? && MessageOf(crypto, SigningOf(o)).Some? && |o.wrappedVk| + |o.nameBlob| < 0x1_0000_0000
    ensures var i := Item(o.vaultId, VaultMarker(), 0, o.wrappedVk + o.nameBlob, [], o.version, 0, o.sig, o.author, 0);
            Decode(Print(i, [])) == Some(i) && MessageOf(crypto, SigningOf(i)) == MessageOf(crypto, SigningOf(o))
  {
    var i := Item(o.vaultId, VaultMarker(), 0, o.wrappedVk + o.nameBlob, [], o.version, 0, o.sig, o.author, 0);
    DecodesWhatIsPrinted(i, []);
  }

  /** An accepted item and an accepted vault with one message. */
  lemma ItemAndVaultOneMessage(crypto: Crypto) returns (o: Object, o': Object)
    ensures o.Item? && o'.Vault? && Decode(Print(o, [])) == Some(o) && Decode(Print(o', [])) == Some(o')
    ensures MessageOf(crypto, SigningOf(o)).Some? && MessageOf(crypto, SigningOf(o)) == MessageOf(crypto, SigningOf(o'))
  {
    o' := SmallVault();
    DecodesWhatIsPrinted(o', []);
    StandInItem(crypto, o');
    o := Item(o'.vaultId, VaultMarker(), 0, o'.wrappedVk + o'.nameBlob, [], o'.version, 0, o'.sig, o'.author, 0);
  }

  /** The fields a signature covers: all of a manifest, a grant and an account state, but
      of a vault neither sync target, tombstone, key epoch nor cache policy, and of an
      item neither type, wrapped key, tombstone nor key epoch. */
  predicate AgreeOnSigned(o: Object, o': Object) {
    match o
    case Vault(v, _, name, vk, version, _, sig, author, _, _) =>
      && o'.Vault? && v == o'.vaultId && version == o'.version && sig == o'.sig && author == o'.author
      && vk + name == o'.wrappedVk + o'.nameBlob
    case Item(v, i, _, content, _, version, _, sig, author, _) =>
      && o'.Item? && v == o'.vaultId && i == o'.itemId && version == o'.version && sig == o'.sig && author == o'.author
      && content == o'.content
    case _ => o' == o
  }

  /** On accepted objects of one signed kind the second parser reads the same exactly when
      they agree on those fields; the verdict is then the same. */
  lemma SameSigningIff(bytes: Bytes, bytes': Bytes)
    ensures Decode(bytes).Some? && Decode(bytes').Some? ==>
              var o, o' := Decode(bytes).value, Decode(bytes').value;
              Tag(o) == Tag(o') && !SigningOf(o).Unsigned? ==>
                (ReadSigning(bytes) == ReadSigning(bytes') <==> AgreeOnSigned(o, o'))
  {
    if Decode(bytes).Some? && Decode(bytes').Some? {
      var o, o' := Decode(bytes).value, Decode(bytes').value;
      ParsersAgree(bytes);
      ParsersAgree(bytes');
      if Tag(o) == Tag(o') && !SigningOf(o).Unsigned? {
        SigningsAgreeIff(o, o');
      }
    }
  }

  lemma SigningsAgreeIff(o: Object, o': Object)
    requires Tag(o) == Tag(o') && !SigningOf(o).Unsigned?
    ensures SigningOf(o) == SigningOf(o') <==> AgreeOnSigned(o, o')
  {
    if o.Grant? && SigningOf(o) == SigningOf(o') {
      GrantContentIsUnambiguous(o.role, o.notAfter, o.wrappedVk, o'.role, o'.notAfter, o'.wrappedVk);
    }
  }

  /** The author's key signed the message. */
  ghost predicate Authentic(crypto: Crypto, s: Signing) {
    s.Unsigned? ||
    (&& |s.author| == 32 && crypto.isPoint(s.author)
     && ParseSigBlob(s.sig).Some? && MessageOf(crypto, s).Some?
     && crypto.verifies(s.author, MessageBytes(MessageOf(crypto, s).value), ParseSigBlob(s.sig).value))
  }

  /** The key is one, and the signature blob holds `raw` under the Ed25519 header. */
  ghost predicate Presents(crypto: Crypto, key: Bytes, sig: Bytes, raw: Bytes) {
    |key| == 32 && crypto.isPoint(key) && |raw| == 64 && sig == [1, 0, 0x20] + raw
  }

  lemma PresentsIff(crypto: Crypto, key: Bytes, sig: Bytes, raw: Bytes)
    ensures Presents(crypto, key, sig, raw) <==> |key| == 32 && crypto.isPoint(key) && ParseSigBlob(sig) == Some(raw)
  {
    SigBlobIff(sig, raw);
  }

  /** What a record's signature is over, byte for byte, and when it holds. */
  lemma RecordAuthenticIff(crypto: Crypto, s: Signing)
    requires s.Versioned?
    ensures Authentic(crypto, s) <==>
            && |s.vaultId| < 0x1_0000 && |s.itemId| < 0x1_0000
            && exists raw: Bytes ::
                 && Presents(crypto, s.author, s.sig, raw)
                 && var aad := Be(2, |s.vaultId|) + s.vaultId + (Be(2, |s.itemId|) + s.itemId) + Be(8, s.version);
                 crypto.verifies(s.author, Ascii("unissh-sig-v1") + (aad + crypto.sha256(s.content)), raw)
  {
    if |s.vaultId| < 0x1_0000 && |s.itemId| < 0x1_0000 {
      AadInARow(s.vaultId, s.itemId, s.version, crypto.sha256(s.content));
    }
    forall raw: Bytes
      ensures Presents(crypto, s.author, s.sig, raw) <==>
              |s.author| == 32 && crypto.isPoint(s.author) && ParseSigBlob(s.sig) == Some(raw)
    {
      PresentsIff(crypto, s.author, s.sig, raw);
    }
    if ParseSigBlob(s.sig).Some? {
      PresentsIff(crypto, s.author, s.sig, ParseSigBlob(s.sig).value);
    }
  }

  /** The same for an account state. */
  lemma AccountAuthenticIff(crypto: Crypto, s: Signing)
    requires s.Account?
    ensures Authentic(crypto, s) <==>
            exists raw: Bytes ::
              && Presents(crypto, s.author, s.sig, raw)
              && var msg := Ascii("unissh-account-state-v1") + (Be(8, s.version) + crypto.sha256(s.payload));
              crypto.verifies(s.author, msg, raw)
  {
    forall raw: Bytes
      ensures Presents(crypto, s.author, s.sig, raw) <==>
              |s.author| == 32 && crypto.isPoint(s.author) && ParseSigBlob(s.sig) == Some(raw)
    {
      PresentsIff(crypto, s.author, s.sig, raw);
    }
    if ParseSigBlob(s.sig).Some? {
      PresentsIff(crypto, s.author, s.sig, ParseSigBlob(s.sig).value);
    }
  }

  /** `aad_canonical`, appended piece by piece. */
  method AadCanonical(vaultId: Bytes, itemId: Bytes, version: U64) returns (out: Option<Bytes>)
    ensures out.Some? <==> |vaultId| < 0x1_0000 && |itemId| < 0x1_0000
    ensures out.Some? ==> forall digest: Bytes :: out.value + digest == Aad(vaultId, itemId, version, digest)
  {
    if |vaultId| >= 0x1_0000 || |itemId| >= 0x1_0000 {
      return None;
    }
    var b := Be(2, |vaultId|);
    b := b + vaultId;
    b := b + Be(2, |itemId|);
    b := b + itemId;
    assert b == Short(vaultId) + Short(itemId);
    b := b + Be(8, version);
    forall digest: Bytes
      ensures b + digest == Aad(vaultId, itemId, version, digest)
    {
      AadInARow(vaultId, itemId, version, digest);
    }
    out := Some(b);
  }

  lemma AadInARow(vaultId: Bytes, itemId: Bytes, version: U64, digest: Bytes)
    requires |vaultId| < 0x1_0000 && |itemId| < 0x1_0000
    ensures Short(vaultId) + Short(itemId) + Be(8, version) + digest == Aad(vaultId, itemId, version, digest)
  {
    var tail := PutU64(version, digest);
    ShortThenRest(Short(vaultId), itemId, tail);
    ShortThenRest([], vaultId, PutShort(itemId, tail));
    assert Short(vaultId) + Short(itemId) + Be(8, version) + digest == (Short(vaultId) + Short(itemId)) + tail;
    assert [] + Short(vaultId) == Short(vaultId);
  }

  method VerifyVersioned(crypto: Crypto, author: Bytes, vaultId: Bytes, itemId: Bytes, version: U64, content: Bytes,
                         sig: Bytes)
    returns (ok: bool)
    ensures ok <==> Authentic(crypto, Versioned(author, vaultId, itemId, version, content, sig))
  {
    var raw := ParseSigBlob(sig);
    var aad := AadCanonical(vaultId, itemId, version);
    if |author| != 32 || !crypto.isPoint(author) || raw.None? || aad.None? {
      return false;
    }
    var msg := RecordDomain() + aad.value;
    msg := msg + crypto.sha256(content);
    assert msg == RecordDomain() + (aad.value + crypto.sha256(content));
    assert aad.value + crypto.sha256(content) == Aad(vaultId, itemId, version, crypto.sha256(content));
    ok := crypto.verifies(author, msg, raw.value);
  }

  method VerifyAccountState(crypto: Crypto, author: Bytes, version: U64, payload: Bytes, sig: Bytes) returns (ok: bool)
    ensures ok <==> Authentic(crypto, Account(author, version, payload, sig))
  {
    var raw := ParseSigBlob(sig);
    if |author| != 32 || !crypto.isPoint(author) || raw.None? {
      return false;
    }
    var msg := AccountStateDomain() + Be(8, version);
    msg := msg + crypto.sha256(payload);
    assert msg == AccountStateDomain() + (Be(8, version) + crypto.sha256(payload));
    ok := crypto.verifies(author, msg, raw.value);
  }

  method VerifyVault(crypto: Crypto, r: Reader) returns (ok: bool)
    modifies r
    ensures ok <==> ReadVault(old(r.b)).Some? && Authentic(crypto, ReadVault(old(r.b)).value)
  {
    var v := r.Field();
    if v.None? { return false; }
    var syncTarget := r.U8();
    if syncTarget.None? { return false; }
    var name := r.Field();
    if name.None? { return false; }
    var vk := r.Field();
    if vk.None? { return false; }
    var version := r.Word64();
    if version.None? { return false; }
    var tombstone := r.U8();
    if tombstone.None? { return false; }
    var seal := r.Seal();
    if seal.None? { return false; }
    var content := vk.value + name.value;
    ok := VerifyVersioned(crypto, seal.value.1, v.value, VaultMarker(), version.value, content, seal.value.0);
  }

  method VerifyItem(crypto: Crypto, r: Reader) returns (ok: bool)
    modifies r
    ensures ok <==> ReadItem(old(r.b)).Some? && Authentic(crypto, ReadItem(old(r.b)).value)
  {
    var v := r.Field();
    if v.None? { return false; }
    var i := r.Field();
    if i.None? { return false; }
    var itemType := r.Word32();
    if itemType.None? { return false; }
    var content := r.Field();
    if content.None? { return false; }
    var wrappedItemKey := r.Field();
    if wrappedItemKey.None? { return false; }
    var version := r.Word64();
    if version.None? { return false; }
    var tombstone := r.U8();
    if tombstone.None? { return false; }
    var seal := r.Seal();
    if seal.None? { return false; }
    ok := VerifyVersioned(crypto, seal.value.1, v.value, i.value, version.value, content.value, seal.value.0);
  }

  method VerifyManifest(crypto: Crypto, r: Reader) returns (ok: bool)
    modifies r
    ensures ok <==> ReadManifest(old(r.b)).Some? && Authentic(crypto, ReadManifest(old(r.b)).value)
  {
    var v := r.Field();
    if v.None? { return false; }
    var epoch := r.Word64();
    if epoch.None? { return false; }
    var manifest := r.Field();
    if manifest.None? { return false; }
    var seal := r.Seal();
    if seal.None? { return false; }
    ok := VerifyVersioned(crypto, seal.value.1, v.value, ManifestMarker(), epoch.value, manifest.value, seal.value.0);
  }

  method BuildGrantContent(role: Byte, notAfter: U64, wrappedVk: Bytes) returns (content: Bytes)
    ensures content == GrantContent(role, notAfter, wrappedVk)
  {
    content := GrantDomain() + [role];
    content := content + Be(8, notAfter);
    content := content + wrappedVk;
  }

  method VerifyGrant(crypto: Crypto, r: Reader) returns (ok: bool)
    modifies r
    ensures ok <==> ReadGrant(old(r.b)).Some? && Authentic(crypto, ReadGrant(old(r.b)).value)
  {
    var v := r.Field();
    if v.None? { return false; }
    var member := r.Field();
    if member.None? { return false; }
    var epoch := r.Word64();
    if epoch.None? { return false; }
    var role := r.U8();
    if role.None? { return false; }
    var notAfter := r.Word64();
    if notAfter.None? { return false; }
    var vk := r.Field();
    if vk.None? { return false; }
    var seal := r.Seal();
    if seal.None? { return false; }
    var content := BuildGrantContent(role.value, notAfter.value, vk.value);
    ok := VerifyVersioned(crypto, seal.value.1, v.value, member.value, epoch.value, content, seal.value.0);
  }

  method VerifyAccount(crypto: Crypto, r: Reader) returns (ok: bool)
    modifies r
    ensures ok <==> ReadAccountState(old(r.b)).Some? && Authentic(crypto, ReadAccountState(old(r.b)).value)
  {
    var version := r.Word64();
    if version.None? { return false; }
    var payload := r.Field();
    if payload.None? { return false; }
    var seal := r.Seal();
    if seal.None? { return false; }
    ok := VerifyAccountState(crypto, seal.value.1, version.value, payload.value, seal.value.0);
  }

  /** `verify_record_sig`: on a blob the codec accepts, the verdict is about the very
      object the codec read. */
  method VerifyRecordSig(crypto: Crypto, bytes: Bytes) returns (ok: bool)
    ensures ok <==> ReadSigning(bytes).Some? && Authentic(crypto, ReadSigning(bytes).value)
    ensures ok ==> bytes != [] && 1 <= bytes[0] <= 7
    ensures Decode(bytes).Some? ==> (ok <==> Authentic(crypto, SigningOf(Decode(bytes).value)))
  {
    if Decode(bytes).Some? {
      ParsersAgree(bytes);
    }
    var r := new Reader(bytes);
    var tag := r.U8();
    if tag.None? {
      return false;
    }
    match tag.value {
      case 1 => ok := VerifyVault(crypto, r);
      case 2 => ok := VerifyItem(crypto, r);
      case 3 => ok := VerifyManifest(crypto, r);
      case 4 => ok := VerifyGrant(crypto, r);
      case 5 => ok := true;
      case 6 => ok := true;
      case 7 => ok := VerifyAccount(crypto, r);
      case _ => ok := false;
    }
  }
}
