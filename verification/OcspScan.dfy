/** The scan for an OCSP responder (client/src-tauri/src/platform_tls.rs): a flat search
    over the bytes of a certificate, and why it cannot miss a responder the certificate
    names, however deep. */
module OcspScan {
  import opened ByteStrings
  import opened Occurrences

  /** The object identifier id-ad-ocsp, 1.3.6.1.5.5.7.48.1 (section 4.2.2.1 of RFC 5280). */
  const OID_HEADER: Bytes := [0x06, 0x08]
  const ID_AD_OCSP: Bytes := [0x2B, 0x06, 0x01, 0x05, 0x05, 0x07, 0x30, 0x01]

  /** The octets of an object identifier (section 8.19 of X.690): 40 times the first arc and
      the second in one, then each arc in base 128, all octets but its last with the top
      bit set. */
  function Base128(n: nat, last: bool): Bytes {
    (if n < 128 then [] else Base128(n / 128, false)) + [n % 128 + if last then 0 else 128]
  }

  function ArcOctets(arcs: seq<nat>): Bytes {
    if arcs == [] then [] else Base128(arcs[0], true) + ArcOctets(arcs[1..])
  }

  function OidOctets(arcs: seq<nat>): Bytes
    requires |arcs| >= 2
  {
    ArcOctets([40 * arcs[0] + arcs[1]] + arcs[2..])
  }

  lemma SmallArcs(arcs: seq<nat>)
    requires forall i :: 0 <= i < |arcs| ==> arcs[i] < 128
    ensures |ArcOctets(arcs)| == |arcs| && forall i :: 0 <= i < |arcs| ==> ArcOctets(arcs)[i] == arcs[i]
  {
    if arcs != [] {
      SmallArcs(arcs[1..]);
      assert Base128(arcs[0], true) == [arcs[0]];
    }
  }

  /** The ten bytes are the tag, the length and the octets of 1.3.6.1.5.5.7.48.1. */
  lemma NeedleIsIdAdOcsp()
    ensures Needle() == [0x06, |OidOctets([1, 3, 6, 1, 5, 5, 7, 48, 1])|] + OidOctets([1, 3, 6, 1, 5, 5, 7, 48, 1])
  {
    var arcs := [1, 3, 6, 1, 5, 5, 7, 48, 1];
    var octets := [43, 6, 1, 5, 5, 7, 48, 1];
    assert [40 * arcs[0] + arcs[1]] + arcs[2..] == octets;
    SmallArcs(octets);
    assert OidOctets(arcs) == ID_AD_OCSP;
  }

  function Needle(): (n: Bytes)
    ensures |n| == 10
  {
    OID_HEADER + ID_AD_OCSP
  }

  // ---------- the scan ----------

  /** `has_ocsp_responder`: whether some window of the bytes is the needle. */
  predicate HasOcspResponder(der: Bytes): (r: bool)
    ensures r <==> !Lacks(der, Needle())
  {
    if |der| < 10 then false
    else if der[..10] == Needle() then
      assert At(der, Needle(), 0);
      true
    else
      WithoutFirst(der);
      HasOcspResponder(der[1..])
  }

  lemma WithoutFirst(der: Bytes)
    requires |der| >= 10 && der[..10] != Needle()
    ensures Lacks(der, Needle()) <==> Lacks(der[1..], Needle())
  {
    assert der == der[..1] + der[1..];
    forall k: nat
      ensures At(der, Needle(), k + 1) <==> At(der[1..], Needle(), k)
    {
      AtShift(der[..1], der[1..], Needle(), k + 1);
    }
    forall k: nat | At(der, Needle(), k)
      ensures At(der[1..], Needle(), k - 1)
    {
      assert k > 0;
      assert At(der, Needle(), (k - 1) + 1);
    }
  }

  /** `revocation_was_unanswered`: nothing stapled, and nobody named to ask. */
  predicate RevocationWasUnanswered(ocspResponse: Bytes, endEntity: Bytes) {
    ocspResponse == [] && !HasOcspResponder(endEntity)
  }

  // ---------- certificates ----------

  /** Nested tag-length-value elements, as DER nests them. The header holds the identifier
      and length octets, and the trailer any octets that close a constructed element;
      nothing is asked of either, so padded and indefinite lengths around the identifier
      are included. A string cut into segments is not one element but several. */
  datatype Tlv =
    | Primitive(header: Bytes, content: Bytes)
    | Constructed(header: Bytes, children: seq<Tlv>, trailer: Bytes)

  function Encode(t: Tlv): Bytes {
    match t
    case Primitive(header, content) => header + content
    case Constructed(header, children, trailer) => header + EncodeAll(children) + trailer
  }

  function EncodeAll(ts: seq<Tlv>): Bytes {
    if ts == [] then [] else Encode(ts[0]) + EncodeAll(ts[1..])
  }

  /** Somewhere in the tree is the object identifier id-ad-ocsp, encoded primitively
      (section 8.19.1 of X.690) with its length in one octet. */
  ghost predicate NamesResponder(t: Tlv) {
    match t
    case Primitive(header, content) => header == OID_HEADER && content == ID_AD_OCSP
    case Constructed(_, children, _) => exists i :: 0 <= i < |children| && NamesResponder(children[i])
  }

  lemma {:induction false} OccursInChild(ts: seq<Tlv>, i: nat, run: Bytes)
    requires i < |ts| && !Lacks(Encode(ts[i]), run)
    ensures !Lacks(EncodeAll(ts), run)
  {
    if i == 0 {
      OccursInside([], Encode(ts[0]), EncodeAll(ts[1..]), run);
      assert [] + Encode(ts[0]) + EncodeAll(ts[1..]) == EncodeAll(ts);
    } else {
      OccursInChild(ts[1..], i - 1, run);
      OccursInside(Encode(ts[0]), EncodeAll(ts[1..]), [], run);
      assert Encode(ts[0]) + EncodeAll(ts[1..]) + [] == EncodeAll(ts);
    }
  }

  lemma {:induction false} EncodingHoldsNeedle(t: Tlv)
    requires NamesResponder(t)
    ensures !Lacks(Encode(t), Needle())
  {
    match t
    case Primitive(header, content) =>
      assert At(Encode(t), Needle(), 0);
    case Constructed(header, children, trailer) =>
      var i: nat :| i < |children| && NamesResponder(children[i]);
      EncodingHoldsNeedle(children[i]);
      OccursInChild(children, i, Needle());
      OccursInside(header, EncodeAll(children), trailer, Needle());
  }

  /** No false negative: a certificate that names a responder is never taken for one whose
      revocation nobody could answer, whatever was stapled. */
  lemma NamedResponderIsFound(t: Tlv, ocspResponse: Bytes)
    requires NamesResponder(t)
    ensures HasOcspResponder(Encode(t)) && !RevocationWasUnanswered(ocspResponse, Encode(t))
  {
    EncodingHoldsNeedle(t);
  }

  /** The answer "nobody to ask" is given exactly when nothing is stapled and the
      needle is nowhere in the bytes; the tree then names no responder. */
  lemma UnansweredIff(t: Tlv, ocspResponse: Bytes)
    ensures RevocationWasUnanswered(ocspResponse, Encode(t)) <==> ocspResponse == [] && Lacks(Encode(t), Needle())
    ensures RevocationWasUnanswered(ocspResponse, Encode(t)) ==> !NamesResponder(t)
  {
    if NamesResponder(t) {
      EncodingHoldsNeedle(t);
    }
  }

  /** The other way round fails, on the safe side: the same bytes inside an octet string
      are found though no object identifier is there. */
  lemma FalsePositive()
    ensures var t := Constructed([0x30, 0x0C], [Primitive([0x04, 0x0A], Needle())], []);
            !NamesResponder(t) && HasOcspResponder(Encode(t))
  {
    var t := Primitive([0x04, 0x0A], Needle());
    var s := Constructed([0x30, 0x0C], [t], []);
    assert At(Encode(t), Needle(), 2);
    assert s.children[0] == t;
    OccursInChild([t], 0, Needle());
    OccursInside([0x30, 0x0C], EncodeAll([t]), [], Needle());
    assert !NamesResponder(t) by { assert t.header[0] == 0x04; }
  }

  /** An identifier whose length takes two octets, which DER forbids, is not found. */
  lemma PaddedLengthIsMissed()
    ensures !HasOcspResponder(Encode(Primitive([0x06, 0x81, 0x08], ID_AD_OCSP)))
  {
    var b := Encode(Primitive([0x06, 0x81, 0x08], ID_AD_OCSP));
    assert |b| == 11 && b[1] == 0x81;
    Mismatch(b, Needle(), 0, 1);
    Mismatch(b, Needle(), 1, 0);
  }

  /** A constructed octet string in two segments. */
  function Segments(head: Bytes, tail: Bytes): Tlv {
    Constructed([0x24, 0x0E], [Primitive([0x04, 0x05], head), Primitive([0x04, 0x05], tail)], [])
  }

  lemma SegmentBytes(head: Bytes, tail: Bytes)
    ensures Encode(Segments(head, tail)) == [0x24, 0x0E, 0x04, 0x05] + head + [0x04, 0x05] + tail
  {
    var h, t := Primitive([0x04, 0x05], head), Primitive([0x04, 0x05], tail);
    assert [h, t][1..] == [t] && [t][1..] == [];
    assert EncodeAll([t]) == Encode(t);
    assert EncodeAll([h, t]) == Encode(h) + Encode(t);
  }

  /** Nor is one that falls across two segments of an octet string, which DER forbids
      too: the second segment's header stands in between. */
  lemma SegmentedIdentifierIsMissed()
    ensures !HasOcspResponder(Encode(Segments(Needle()[..5], Needle()[5..])))
  {
    var b := Encode(Segments(Needle()[..5], Needle()[5..]));
    SegmentBytes(Needle()[..5], Needle()[5..]);
    assert |b| == 16 && b[0] == 0x24 && b[1] == 0x0E && b[2] == 0x04 && b[3] == 0x05;
    assert Needle()[1] == 0x08 && Needle()[2] == 0x2B && Needle()[5] == 0x05;
    assert b[5] == Needle()[1] && b[6] == Needle()[2] && b[9] == 0x04;
    forall k: nat | k + 10 <= |b|
      ensures !At(b, Needle(), k)
    {
      Mismatch(b, Needle(), k, if k == 4 then 5 else 0);
    }
  }
}
